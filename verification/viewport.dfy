/** `resize`: the drawing surface's logical size, the device pixel ratio
    (capped at 2) and the backing store sized to match. */
module Viewport {
  import opened RealMath

  /** What `resize` reads: the canvas's client size in CSS pixels and
      `window.devicePixelRatio`, where 0 stands for a missing (falsy) ratio. */
  datatype Env = Env(clientWidth: nat, clientHeight: nat, devicePixelRatio: real)

  /** The renderer's view of the surface: logical size, the ratio in use,
      the backing store's size in device pixels, and the scale of the
      drawing transform. */
  datatype Surface = Surface(width: nat, height: nat, device: real,
                             backingWidth: int, backingHeight: int, scale: real)

  const MaxDeviceRatio: real := 2.0

  /** `Math.min(window.devicePixelRatio || 1, 2)`. */
  function DeviceRatio(dpr: real): (d: real)
    ensures d <= MaxDeviceRatio && d != 0.0
    ensures dpr == 0.0 ==> d == 1.0
    ensures dpr != 0.0 && dpr <= MaxDeviceRatio ==> d == dpr
    ensures dpr >= MaxDeviceRatio ==> d == MaxDeviceRatio
  {
    Min(if dpr == 0.0 then 1.0 else dpr, MaxDeviceRatio)
  }

  /** The surface the effect starts from, before its first `resize`: no
      logical size yet and the ratio read when the effect starts. The
      backing store stands for whatever the canvas holds at that point (a
      fresh element's default 300 x 150 here); `Resize` overwrites every
      field, so the choice never reaches a frame. */
  function Unsized(dpr: real): Surface {
    Surface(0, 0, DeviceRatio(dpr), 300, 150, 1.0)
  }

  /** `resize()`. The backing store is the logical size times the ratio,
      rounded down: drawing in CSS pixels through the transform covers it
      to within one device pixel. */
  function Resize(s: Surface, env: Env): (r: Surface)
    ensures r.width == env.clientWidth && r.height == env.clientHeight
    ensures r.device == DeviceRatio(env.devicePixelRatio) && r.scale == r.device
    ensures r.backingWidth as real <= r.width as real * r.scale < r.backingWidth as real + 1.0
    ensures r.backingHeight as real <= r.height as real * r.scale < r.backingHeight as real + 1.0
    ensures env.devicePixelRatio >= 0.0 ==>
              0 <= r.backingWidth <= 2 * r.width && 0 <= r.backingHeight <= 2 * r.height
  {
    var device := DeviceRatio(env.devicePixelRatio);
    ScaledFloorBounds(env.clientWidth, device);
    ScaledFloorBounds(env.clientHeight, device);
    Surface(env.clientWidth, env.clientHeight, device,
            (env.clientWidth as real * device).Floor,
            (env.clientHeight as real * device).Floor,
            device)
  }

  /** A length scaled by a ratio in [0, 2] and rounded down lies between 0
      and twice the length. */
  lemma ScaledFloorBounds(w: nat, d: real)
    ensures 0.0 <= d <= MaxDeviceRatio ==> 0 <= (w as real * d).Floor <= 2 * w
  {
    if 0.0 <= d <= MaxDeviceRatio {
      assert w as real * d <= w as real * 2.0;
    }
  }

  /** Resizing carries nothing over from the previous surface, so a repeated
      resize with unchanged inputs is a no-op. */
  lemma ResizeIdempotent(s: Surface, env: Env)
    ensures Resize(Resize(s, env), env) == Resize(s, env)
  {
  }
}
