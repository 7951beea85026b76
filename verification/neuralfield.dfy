/** The canvas effect of the particle field: set-up on mount, `resize`, and
    `render`, one animation frame as a pure step from the state before the
    frame to the state after it and the commands the frame draws. */
module NeuralField {
  import opened RealMath
  import opened Density
  import opened Sphere
  import opened Orientation
  import opened Projection
  import opened DepthSort
  import opened Viewport
  import opened Draw

  /** The emblem image: absent until its load completes, then its natural
      size in device pixels. */
  datatype Emblem = Missing | Loaded(width: real, height: real)

  /** The `stroke` and `alignLeft` props. */
  datatype Style = Style(stroke: bool, alignLeft: bool)

  /** What the effect's closures share: the surface `resize` maintains, the
      orientation clock and the generated points. */
  datatype State = State(surface: Surface, clock: Clock, points: seq<Point>)

  /** Start of the effect: the ratio read, `density` clamped, the points
      generated, the initial view and `last = performance.now()`, then the
      first `resize()`. Every generated point lies inside the camera
      distance, which is what `Render` needs. */
  method Mount(m: Math, density: int, env: Env, now: real, random: seq<real>) returns (st: State)
    requires Lawful(m)
    requires |random| == 2 * ParticleCount(density)
    requires forall k :: 0 <= k < |random| ==> 0.0 <= random[k] < 1.0
    ensures |st.points| == ParticleCount(density)
    ensures forall k :: 0 <= k < |st.points| ==>
              st.points[k] == PointAt(m, ParticleCount(density), k, random[2 * k], random[2 * k + 1])
    ensures st.points[0].y == 1.0 && st.points[|st.points| - 1].y == -1.0
    ensures forall i, j :: 0 <= i < j < |st.points| ==> st.points[j].y < st.points[i].y
    ensures forall k :: 0 <= k < |st.points| ==> 0.98 * 0.98 <= Norm2(st.points[k]) <= 1.02 * 1.02
    ensures Valid(st)
    ensures st.clock == Start(now)
    ensures st.surface == Resize(Unsized(env.devicePixelRatio), env)
  {
    var n := ParticleCount(density);
    var points := CreatePoints(m, n, random);
    forall k | 0 <= k < n
      ensures 0.98 * 0.98 <= Norm2(points[k]) <= 1.02 * 1.02
    {
      NearUnitSphere(m, n, k, random[2 * k], random[2 * k + 1]);
    }
    st := State(Resize(Unsized(env.devicePixelRatio), env), Start(now), points);
  }

  /** The resize listener: only the surface changes. */
  function OnResize(st: State, env: Env): (st': State)
    ensures Valid(st) ==> Valid(st')
    ensures st'.clock == st.clock && st'.points == st.points
    ensures st'.surface == Resize(st.surface, env)
    ensures st'.surface.width == env.clientWidth && st'.surface.height == env.clientHeight
    ensures st'.surface.device == DeviceRatio(env.devicePixelRatio)
  {
    st.(surface := Resize(st.surface, env))
  }

  /** Whether the emblem is drawn: `imgReady && imgRef.current`. */
  predicate ShowsEmblem(ready: bool, emblem: Emblem) {
    ready && emblem.Loaded?
  }

  /** The five layers of a frame, concatenated in order, are layered; the
      dots occupy exactly the positions after the three set-up commands, and
      each optional layer appears exactly when its part is present. */
  lemma FrameLayout(head: seq<Cmd>, dots: seq<Cmd>, orbit: seq<Cmd>, logo: seq<Cmd>, tail: seq<Cmd>)
    requires |head| == 3 && head[0].Clear? && head[1].Backdrop? && head[2].Place?
    requires forall k :: 0 <= k < |dots| ==> dots[k].Dot?
    requires |orbit| <= 1 && forall k :: 0 <= k < |orbit| ==> orbit[k].Orbit?
    requires |logo| <= 1 && forall k :: 0 <= k < |logo| ==> logo[k].Logo?
    requires |tail| == 1 && tail[0].Vignette?
    ensures var cmds := head + dots + orbit + logo + tail;
            && Layered(cmds)
            && (forall k :: 0 <= k < |cmds| ==> (cmds[k].Dot? <==> 3 <= k < 3 + |dots|))
            && (forall k :: 0 <= k < |cmds| ==> (cmds[k].Orbit? <==> |orbit| == 1 && k == 3 + |dots|))
            && (|orbit| == 1 ==> cmds[3 + |dots|] == orbit[0])
            && (forall k :: 0 <= k < |cmds| ==> (cmds[k].Logo? <==> |logo| == 1 && k == |cmds| - 2))
            && (|logo| == 1 ==> cmds[|cmds| - 2] == logo[0])
            && cmds[|cmds| - 1] == tail[0]
            && cmds[3..3 + |dots|] == dots
  {
    var cmds := head + dots + orbit + logo + tail;
    var a, b, c := 3 + |dots|, 3 + |dots| + |orbit|, 3 + |dots| + |orbit| + |logo|;
    forall k | 0 <= k < |cmds|
      ensures k < 3 ==> cmds[k] == head[k]
      ensures 3 <= k < a ==> cmds[k] == dots[k - 3]
      ensures a <= k < b ==> cmds[k] == orbit[k - a]
      ensures b <= k < c ==> cmds[k] == logo[k - b]
      ensures c <= k ==> cmds[k] == tail[k - c]
    {
    }
    forall k | 0 <= k < |cmds|
      ensures Rank(cmds[k]) == if k < 3 then k else if k < a then 3 else if k < b then 4 else if k < c then 5 else 6
    {
    }
  }

  /** The field of view `project` receives: half the frame's. */
  function ProjectionFov(s: Surface): (fov: real)
    ensures fov >= 90.0
    ensures 2.0 * fov == FieldOfView(s.width, s.height)
  {
    FieldOfView(s.width, s.height) / 2.0
  }

  /** `points.map(p => project(p, fov / 2, camZ))` for the frame. */
  function Projections(m: Math, s: Surface, clock: Clock, points: seq<Point>): (qs: seq<Projected>)
    requires Lawful(m)
    requires InsideCamera(points)
    ensures |qs| == |points|
    ensures AllInView(qs, ProjectionFov(s))
    ensures forall k :: 0 <= k < |points| ==> Depth(points[k], ViewOf(m, clock), CameraDistance) > 0.0
    ensures forall k :: 0 <= k < |qs| ==> qs[k] == Project(points[k], ViewOf(m, clock), ProjectionFov(s), CameraDistance)
  {
    ProjectAllPointwise(points, ViewOf(m, clock), ProjectionFov(s));
    ProjectAll(points, ViewOf(m, clock), ProjectionFov(s))
  }

  /** The particle layer: the frame's projections sorted far first and
      painted. The dots form a depth cue and are exactly the dots of the
      unsorted projections, rearranged. */
  function ParticleLayer(m: Math, s: Surface, clock: Clock, points: seq<Point>): (dots: seq<Cmd>)
    requires Lawful(m)
    requires InsideCamera(points)
    ensures |dots| == |points|
    ensures DepthCued(dots)
    ensures multiset(dots) == multiset(PaintAll(Projections(m, s, clock, points), MinDim(s.width, s.height)))
  {
    var projected := Projections(m, s, clock, points);
    SortedDots(projected, ProjectionFov(s), MinDim(s.width, s.height));
    PaintAll(SortFarFirst(projected), MinDim(s.width, s.height))
  }

  /** The emblem drawn centred on the placed origin at its natural size in
      CSS pixels: natural width and height divided by the device ratio. */
  function EmblemCommand(emblem: Emblem, device: real): (c: Cmd)
    requires emblem.Loaded? && device != 0.0
    ensures c.Logo?
    ensures c.w * device == emblem.width && c.h * device == emblem.height
    ensures c.x == -c.w / 2.0 && c.y == -c.h / 2.0
  {
    var dw, dh := emblem.width / device, emblem.height / device;
    Logo(-dw / 2.0, -dh / 2.0, dw, dh)
  }

  /** The commands of one frame drawn on surface `s` with the orientation
      `clock` already advanced: clear, black backdrop, origin placement,
      every point as a dot back to front, the orbit ellipse when `stroke` is
      set, the emblem once it has loaded, and the vignette last. */
  function FrameCommands(s: Surface, clock: Clock, dots: seq<Cmd>,
                         style: Style, ready: bool, emblem: Emblem): (cmds: seq<Cmd>)
    requires s.device != 0.0
    requires forall k :: 0 <= k < |dots| ==> dots[k].Dot?
    ensures |cmds| == |dots| + 4 + (if style.stroke then 1 else 0) + (if ShowsEmblem(ready, emblem) then 1 else 0)
    ensures Layered(cmds)
    ensures cmds[0] == Clear(s.width as real, s.height as real)
    ensures cmds[1] == Backdrop(s.width as real, s.height as real)
    ensures cmds[2] == Place(s.width as real * (if style.alignLeft then 0.28 else 0.5), s.height as real * 0.52, 0.98)
    ensures cmds[|cmds| - 1] == Vignette(s.width as real * 0.45, s.height as real * 0.6,
                                         Max(s.width as real, s.height as real) * 0.75,
                                         s.width as real, s.height as real)
    ensures forall k :: 0 <= k < |cmds| ==> (cmds[k].Dot? <==> 3 <= k < 3 + |dots|)
    ensures cmds[3..3 + |dots|] == dots
    ensures forall k :: 0 <= k < |cmds| ==> (cmds[k].Orbit? <==> style.stroke && k == 3 + |dots|)
    ensures style.stroke ==>
              cmds[3 + |dots|] == Orbit(MinDim(s.width, s.height) * 0.23 * 1.05, MinDim(s.width, s.height) * 0.23 * 0.85, clock.yaw * 0.7)
    ensures forall k :: 0 <= k < |cmds| ==> (cmds[k].Logo? <==> ShowsEmblem(ready, emblem) && k == |cmds| - 2)
    ensures ShowsEmblem(ready, emblem) ==> cmds[|cmds| - 2] == EmblemCommand(emblem, s.device)
  {
    var w, h := s.width as real, s.height as real;
    var head := [Clear(w, h), Backdrop(w, h), Place(w * (if style.alignLeft then 0.28 else 0.5), h * 0.52, 0.98)];
    var R := MinDim(s.width, s.height) * 0.23;
    var orbit := if style.stroke then [Orbit(R * 1.05, R * 0.85, clock.yaw * 0.7)] else [];
    var logo := if ShowsEmblem(ready, emblem) then [EmblemCommand(emblem, s.device)] else [];
    var tail := [Vignette(w * 0.45, h * 0.6, Max(w, h) * 0.75, w, h)];
    FrameLayout(head, dots, orbit, logo, tail);
    head + dots + orbit + logo + tail
  }

  /** The invariant the effect's closures keep: every point inside the
      camera distance, and a non-zero device ratio to divide by. */
  predicate Valid(st: State) {
    InsideCamera(st.points) && st.surface.device != 0.0
  }

  /** `render(t)`: one animation frame at timestamp t. The orientation
      advances first and the frame is drawn with the new angles; nothing
      but the clock changes. */
  function Render(m: Math, st: State, t: real, style: Style, ready: bool, emblem: Emblem)
    : (r: (State, seq<Cmd>))
    requires Lawful(m)
    requires Valid(st)
    ensures Valid(r.0)
    ensures r.0.surface == st.surface && r.0.points == st.points
    ensures r.0.clock == Advance(st.clock, t)
    ensures r.0.clock.last == t
    ensures r.0.clock.yaw - st.clock.yaw <= YawRate * MaxStep
    ensures r.0.clock.pitch - st.clock.pitch <= PitchRate * MaxStep
    ensures r.1 == FrameCommands(st.surface, r.0.clock, ParticleLayer(m, st.surface, r.0.clock, st.points),
                                 style, ready, emblem)
    ensures Layered(r.1) && r.1[0].Clear? && r.1[|r.1| - 1].Vignette?
    ensures DepthCued(r.1[3..3 + |st.points|])
    ensures multiset(r.1[3..3 + |st.points|])
            == multiset(PaintAll(Projections(m, st.surface, r.0.clock, st.points), MinDim(st.surface.width, st.surface.height)))
  {
    var clock := Advance(st.clock, t);
    var dots := ParticleLayer(m, st.surface, clock, st.points);
    (st.(clock := clock), FrameCommands(st.surface, clock, dots, style, ready, emblem))
  }
}
