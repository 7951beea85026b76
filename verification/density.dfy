/** The particle count of the field: the requested density clamped to the
    range the renderer supports. */
module Density {

  const MinParticles: int := 400
  const MaxParticles: int := 2200

  /** `Math.max(400, Math.min(2200, density))`. */
  function ParticleCount(density: int): (n: nat)
    ensures MinParticles <= n <= MaxParticles
    ensures MinParticles <= density <= MaxParticles ==> n == density
    ensures density < MinParticles ==> n == MinParticles
    ensures density > MaxParticles ==> n == MaxParticles
  {
    var capped := if density <= MaxParticles then density else MaxParticles;
    if capped >= MinParticles then capped else MinParticles
  }
}
