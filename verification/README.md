# Particle field: a Dafny model

This project models the canvas effect of the `NeuralField` component. The
effect draws a slowly turning sphere of white particles on a black backdrop.
The component's props are `density`, `stroke` and `alignLeft`.

- **Mount.** The effect clamps `density` to a particle count. It lays out that
  many points on a jittered golden-angle (Fibonacci) spiral over the unit
  sphere. It starts the orientation clock and sizes the canvas.
- **`resize`.** Reads the element's CSS size and the device pixel ratio (capped
  at 2). It sets the backing store to the floor of the scaled size.
- **`render(t)`.** Advances yaw and pitch by a frame step capped at 32 ms. It
  projects every point in perspective from a camera 2.8 units away and sorts
  the points far first. It then draws, in order: a clear, the black backdrop,
  the origin placement, one dot per point (nearer dots larger and more
  opaque), the optional orbit ellipse, the emblem once its image has loaded,
  and a vignette.

Modelling choices:

- **Numbers.** JavaScript numbers are Dafny `real`s.
- **Math functions.** `Math.PI`, `Math.sqrt`, `Math.cos` and `Math.sin` are
  fields of a `RealMath.Math` value. A `RealMath.Lawful` value is one whose
  square root squares back and whose cosine and sine lie on the unit circle.
- **Random draws.** The `Math.random()` draws are a sequence of reals in
  [0, 1), two per point, x before z.
- **Frames.** A frame is a pure function. It maps the state before the frame
  to the state after it and to the list of canvas commands (`Draw.Cmd`) the
  frame issues.

Modules, each in the file of the same name in lower case:

- `RealMath`: the math parameter, `Min` and `Max`.
- `Density`: the particle count.
- `Sphere`: point generation.
- `Orientation`: the yaw and pitch clock.
- `Projection`: rotation and the perspective projection.
- `DepthSort`: the far-first sort.
- `Viewport`: `resize`.
- `Draw`: the canvas commands and the particle style.
- `NeuralField`: mount, resize listener and frame.

## Model

| member | source | states |
|---|---|---|
| Density.ParticleCount | src/components/NeuralField.jsx:50 | The count always lies in [400, 2200]. It equals `density` when `density` is in that range, is 400 when `density` is below it and 2200 when above. |
| Sphere.Jitter | src/components/NeuralField.jsx:42-44 | A draw in [0, 1) moves a coordinate by at most half the 0.015 jitter span downward (exactly half for a draw of 0) and by less than half upward. |
| Sphere.Height | src/components/NeuralField.jsx:39 | For n ≥ 2, the height of point i lies in [-1, 1]. The first point is at height 1 and the last at -1. |
| Sphere.HeightStrictlyDecreasing | src/components/NeuralField.jsx:38-39 | Later points lie strictly lower on the sphere. |
| Sphere.CreatePoints | src/components/NeuralField.jsx:35-48 | Returns exactly n points. Point i is the golden-angle spiral point i, with its own two random draws as jitter: y is unjittered, and x and z are within the jitter bound of the spiral. Heights run from 1 down to -1, strictly decreasing. |
| Sphere.NearUnitSphere | src/components/NeuralField.jsx:37-45 | Every generated point lies in the shell between radius 0.98 and 1.02, for any lawful math and any draws in [0, 1). |
| Orientation.Start | src/components/NeuralField.jsx:53-54 | The clock starts at pitch -0.2 and yaw 0.4, with `last` at the mount time. From there yaw and pitch move in their fixed 5:2 rate ratio. |
| Orientation.Elapsed | src/components/NeuralField.jsx:73 | The frame step is `t - last`, capped at 32 ms. A timestamp before `last` gives a negative step. |
| Orientation.Advance | src/components/NeuralField.jsx:72-81 | `last` becomes t. Each angle grows by at most its rate times 32 ms and by at most its rate times the wall-clock gap. It grows by exactly that amount below the cap. An angle does not decrease exactly when t is not before `last`. |
| Orientation.RunKeepsTied | src/components/NeuralField.jsx:53-81 | Over any number of frames, yaw and pitch stay on the line their fixed rates define through the start angles. |
| Orientation.RunBounded | src/components/NeuralField.jsx:72-81 | After a run of frames, `last` is the final timestamp. The yaw gained is bounded by the rate times the wall-clock time and by the rate times 32 ms per frame. |
| Orientation.RunMonotone | src/components/NeuralField.jsx:73-81 | With non-decreasing timestamps, yaw and pitch never decrease. |
| Projection.ViewOf | src/components/NeuralField.jsx:57-58 | Under lawful math, the cosines and sines taken from the clock form rigid rotations. |
| Projection.RotatePreservesNorm | src/components/NeuralField.jsx:59-63 | Yaw-then-pitch rotation keeps the squared distance from the centre. |
| Projection.InFrontOfCamera | src/components/NeuralField.jsx:62-78 | A point closer to the centre than 2.8 has a positive depth after rotation and the camera shift. |
| Projection.Project | src/components/NeuralField.jsx:56-68 | The depth is the rotated z plus `camZ`. The scale solves s·(fov + z) = fov. Screen x and y are the rotated x and y times the scale. With fov and depth positive, the scale lies strictly between 0 and 1. |
| Projection.ScaleFallsWithDepth | src/components/NeuralField.jsx:66 | For a positive fov and positive depths, a point at least as far has no larger a scale, and a strictly farther point has a strictly smaller scale. |
| Projection.MinDim | src/components/NeuralField.jsx:76 | The shorter side is one of the two sides and no longer than either. |
| Projection.FieldOfView | src/components/NeuralField.jsx:76-77 | The field of view is the larger of 180 and 0.9 times the shorter side: at least both, and equal to one of them. |
| Projection.ProjectAll | src/components/NeuralField.jsx:94 | Projecting points inside the camera distance gives one projection per point, all in view: positive depth, scale in (0, 1). |
| Projection.ProjectAllPointwise | src/components/NeuralField.jsx:94 | Projection k is the projection of point k. |
| DepthSort.Insert | src/components/NeuralField.jsx:94 | Inserting into a far-first sequence keeps it far first. It adds exactly the inserted element, and the head is either the element or the old head. |
| DepthSort.SortFarFirst | src/components/NeuralField.jsx:94 | The comparator `b.z - a.z` orders by depth, farthest first. The result is far first and a permutation of the input. |
| DepthSort.SortKeepsFarFirst | src/components/NeuralField.jsx:94 | Sorting an already far-first sequence changes nothing. |
| DepthSort.PermutationKeepsPerspective | src/components/NeuralField.jsx:94 | Reordering projections keeps every one in view. |
| DepthSort.ScalesRiseTowardViewer | src/components/NeuralField.jsx:66-94 | In a far-first sequence in view, scales lie in (0, 1) and never fall along the drawing order. |
| Draw.Alpha | src/components/NeuralField.jsx:98-101 | Opacity never exceeds 0.9. It reaches 0.9 exactly when the scale is at least 0.875, and it lies in (0.2, 0.9] for a scale in (0, 1). |
| Draw.DotRadius | src/components/NeuralField.jsx:99 | The radius is at least 0.6. It is exactly 0.6 when 2.6·s does not exceed 0.6, and 2.6·s otherwise. |
| Draw.StyleMonotone | src/components/NeuralField.jsx:98-101 | Opacity and radius are both non-decreasing in the scale: a nearer particle is never dimmer or smaller. |
| Draw.Paint | src/components/NeuralField.jsx:97-103 | Each particle is a filled circle at its projected offset times 0.42 of the shorter side, with the radius `DotRadius` and opacity `Alpha` give its scale. |
| Draw.PaintAll | src/components/NeuralField.jsx:96-104 | The loop draws exactly one dot per projection. |
| Draw.PaintAllPointwise | src/components/NeuralField.jsx:96-104 | The loop draws one dot per projection, in the same order: dot k is painted from projection k. |
| Draw.PaintAllConcat | src/components/NeuralField.jsx:96-104 | Painting a concatenation paints each part in turn. |
| Draw.PaintAllRemove | src/components/NeuralField.jsx:96-104 | Taking one projection out of the sequence removes exactly its dot from what is painted. |
| Draw.PaintAllPermutes | src/components/NeuralField.jsx:94-104 | Any rearrangement of the projections, the depth sort included, paints the same dots, each as often. |
| Draw.SortedDots | src/components/NeuralField.jsx:94-104 | Projections in view, sorted and painted, form a depth cue: each dot at least as large and as opaque as every dot drawn before it. They are the same dots as the unsorted projections. |
| Viewport.DeviceRatio | src/components/NeuralField.jsx:24-29 | The ratio is never 0 and never above 2. A missing (0) ratio becomes 1. A ratio at most 2 is kept, and one above is capped at 2. |
| Viewport.Resize | src/components/NeuralField.jsx:26-33 | The CSS size is the element's client size. The device ratio and transform scale are the capped ratio. Each backing dimension is the floor of the CSS size times the ratio, and lies in [0, 2 × CSS size]. |
| Viewport.ResizeIdempotent | src/components/NeuralField.jsx:26-33 | A second resize with the same environment changes nothing. |
| NeuralField.Mount | src/components/NeuralField.jsx:17-140 | Mounting generates exactly the clamped number of points. Point k is spiral point k jittered by draws 2k and 2k+1. Heights fall strictly from 1 to -1, and every point lies in the near-unit shell. It starts the clock at mount time and applies the first resize. The resulting state satisfies the frame invariant. |
| NeuralField.OnResize | src/components/NeuralField.jsx:137 | The resize listener keeps the frame invariant and changes neither clock nor points. The surface becomes the result of `resize`: the client size and the freshly read, capped device ratio. |
| NeuralField.ProjectionFov | src/components/NeuralField.jsx:76-94 | `project` receives half the frame's field of view, so at least 90. |
| NeuralField.Projections | src/components/NeuralField.jsx:94 | The map projects point k to projection k at the frame's angles, half field of view and camera distance 2.8. Every projection is in view. |
| NeuralField.ParticleLayer | src/components/NeuralField.jsx:94-104 | The frame's dots are a depth cue, one per point. They are a rearrangement of the dots of the unsorted projections. |
| NeuralField.EmblemCommand | src/components/NeuralField.jsx:116-122 | The emblem is drawn centred on the placed origin. Its CSS size times the device ratio is its natural size. |
| NeuralField.FrameCommands | src/components/NeuralField.jsx:83-132 | A frame issues the dots plus four commands, one more with `stroke`, one more once the emblem is loaded. Clear and backdrop cover the surface. The origin sits at 28% (left-aligned) or 50% of the width and 52% of the height, squashed to 0.98. The dots follow in order. The orbit, with radii 1.05 and 0.85 of 0.23 of the shorter side and rotation 0.7·yaw, is present exactly with `stroke`. The emblem is present exactly when ready and loaded. The vignette is last, back in surface coordinates: a gradient centred at 45% of the width and 60% of the height, with outer radius 0.75 of the longer side, filling the whole surface. |
| NeuralField.Render | src/components/NeuralField.jsx:72-135 | One frame keeps the invariant, surface and points. Its clock is exactly the clock advanced to t, so `last` becomes t and each angle gains at most 32 ms of its rate. Its commands are the frame layout with the particle layer drawn at the advanced angles. They are layered, open with a clear, end with the vignette, and their dots are a depth cue rearranging the dots of the unsorted projections. |

## Left out

- The first effect, which loads the emblem image from a URL, is not modelled. The image is a parameter: `ready` for the `imgReady` state, plus an `Emblem` with its natural size once loaded.
- Re-running the effect when `density`, `stroke`, `alignLeft` or `imgReady` change is not modelled (line 146). Such a re-run is a fresh `Mount`: new points and a restarted clock.
- `requestAnimationFrame`, `cancelAnimationFrame`, and adding and removing the resize listener are left out. They are scheduling, and the model exposes `Render` and `OnResize` as steps a caller sequences.
- The missing-canvas early return (line 19) is left out, because it draws nothing.
- `window.devicePixelRatio`, the element's client size and `performance.now()` are parameters (`Env`, `now`, `t`).
- `Math.random`, `Math.sqrt`, `Math.cos`, `Math.sin` and `Math.PI` are parameters. Only the laws `Lawful` names are assumed of them.
- Canvas state is not modelled: `save`/`restore`, fill and stroke styles as strings, the gradient's colour stops, the line width and the pixels themselves. Each command carries the numbers the code computes for it.
- IEEE-754 rounding, NaN and Infinity are not modelled. Arithmetic is exact over the reals.
- Density.ParticleCount: takes an integer `density`. A fractional prop would make the JavaScript loop run `ceil(density)` times. Such a prop is not modelled.
- Sphere.CreatePoints: excludes n = 1. The code divides 0 by 0 there, producing a NaN height. The clamp makes n at least 400, so the effect never reaches it.
- Projection.Project: requires `fov + depth` to be non-zero, where JavaScript would give an infinite scale. Every point `Mount` generates satisfies it (`InFrontOfCamera`).
- NeuralField.Render: requires every point inside the camera distance and a non-zero device ratio (`Valid`). `Mount` and `OnResize` establish and keep that invariant.
- DepthSort.SortFarFirst: states a far-first permutation but not which order equal depths keep. `Array.prototype.sort` is stable in current engines, but the model does not rely on that.
- Viewport.Resize: follows the code's `Math.floor` for the backing store, not a rounding.
- Viewport.Resize: a zero-sized element is not skipped. The code has no such guard: it sizes the backing store to 0 and keeps drawing.
- The scroll-driven timeline and other components of the page are not modelled. They are outside the particle field.
