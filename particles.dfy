/** Particle.cs: one sprite of the star tunnel. It is respawned in place by
    Reset, advanced (or respawned) by Update, projected onto the screen with a
    depth-keyed perspective cache, and faded and scaled by piecewise easing
    curves. Floats are reals; every random draw is a parameter. */
module Particles {

  import opened RealArith

  /** One draw of Random.NextDouble(): a real in [0, 1). */
  type Uniform = u: real | 0.0 <= u < 1.0

  /** A cosine or sine of the random spawn angle, supplied by the caller
      (trigonometry is not modelled). */
  type Trig = c: real | -1.0 <= c <= 1.0

  const TunnelDepth: real := 1000.0
  const FOV: real := 400.0
  const MinRotationSpeed: real := -30.0
  const MaxRotationSpeed: real := 30.0
  const MinYRotationSpeed: real := -60.0
  const MaxYRotationSpeed: real := 60.0

  /** Edge length of the sprite before perspective, and the clamps applied to
      the projected size and to the projected offset from the center. */
  const BaseSize: real := 60.0
  const MinScreenSize: real := 16.0
  const MaxScreenSize: real := 1000.0
  const MaxOffset: real := 10000.0

  /** Floor of the perspective denominator, and the depth change that makes
      the cached perspective stale. */
  const MinDepth: real := 0.1
  const CacheTolerance: real := 0.1

  /** Width of the band along each viewport edge in which sprites fade out. */
  const FadeZone: real := 400.0

  function Min(a: real, b: real): real { if a <= b then a else b }
  function Max(a: real, b: real): real { if a >= b then a else b }
  function Abs(a: real): real { if a >= 0.0 then a else -a }

  // ---------------------------------------------------------------------
  // State
  // ---------------------------------------------------------------------

  /** The public properties of a particle, as one value. */
  datatype Sprite = Sprite(
    x: real, y: real, z: real,
    velocityX: real, velocityY: real, velocityZ: real,
    rotation: real, rotationSpeed: real,
    yRotation: real, yRotationSpeed: real,
    age: real, maxAge: real, spawnDelay: real,
    fadeInDuration: real, fadeOutDuration: real,
    scale: real)

  /** The fifteen NextDouble() draws Reset makes, in call order, and the
      cosine and sine of the angle drawn first. */
  datatype ResetDraws = ResetDraws(
    angle: Uniform, radius: Uniform, jitterX: Uniform, jitterY: Uniform,
    depth: Uniform, jitterVx: Uniform, jitterVy: Uniform, speedZ: Uniform,
    rotation: Uniform, rotationSpeed: Uniform,
    yRotation: Uniform, yRotationSpeed: Uniform,
    scale: Uniform, maxAge: Uniform, spawnDelay: Uniform,
    cosAngle: Trig, sinAngle: Trig)

  /** `lo + u·width`: a draw stretched onto [lo, lo + width). */
  function Scaled(u: Uniform, lo: real, width: real): (r: real)
    requires width > 0.0
    ensures lo <= r < lo + width
  {
    MulLt(u, 1.0, width);
    lo + u * width
  }

  /** A spawn coordinate: the cosine or sine of the angle times a radius in
      [200, 1000), jittered by up to 100 either way. The tunnel places its
      particles by the same formula. */
  function SpawnCoordinate(trig: Trig, radius: Uniform, jitter: Uniform): (p: real)
    ensures -1100.0 < p < 1100.0
  {
    var r := radius * 800.0 + 200.0;
    BoundedFactor(trig, r);
    trig * r + (jitter - 0.5) * 200.0
  }

  /** What Reset leaves in every property: a point on an annulus of radius
      200..1000 around the axis, jittered by up to 100, at a random depth,
      drifting inward and toward the viewer, with random spins, scale and
      lifetime. */
  function Respawn(d: ResetDraws): (s: Sprite)
    ensures s.age == 0.0 && s.fadeInDuration == 1.0 && s.fadeOutDuration == 1.5
    ensures 0.5 <= s.scale < 1.0 && 6.0 <= s.maxAge < 12.0 && 0.0 <= s.spawnDelay < 2.0
    ensures 0.0 <= s.z < TunnelDepth && -4.0 < s.velocityZ <= -1.0
    ensures 0.0 <= s.rotation < 360.0 && 0.0 <= s.yRotation < 360.0
    ensures MinRotationSpeed <= s.rotationSpeed < MaxRotationSpeed
    ensures MinYRotationSpeed <= s.yRotationSpeed < MaxYRotationSpeed
    ensures -1100.0 < s.x < 1100.0 && -1100.0 < s.y < 1100.0
  {
    Sprite(
      SpawnCoordinate(d.cosAngle, d.radius, d.jitterX),
      SpawnCoordinate(d.sinAngle, d.radius, d.jitterY),
      Scaled(d.depth, 0.0, TunnelDepth),
      -d.cosAngle * 0.2 + (d.jitterVx - 0.5) * 0.4,
      -d.sinAngle * 0.2 + (d.jitterVy - 0.5) * 0.4,
      -Scaled(d.speedZ, 1.0, 3.0),
      Scaled(d.rotation, 0.0, 360.0),
      Scaled(d.rotationSpeed, MinRotationSpeed, MaxRotationSpeed - MinRotationSpeed),
      Scaled(d.yRotation, 0.0, 360.0),
      Scaled(d.yRotationSpeed, MinYRotationSpeed, MaxYRotationSpeed - MinYRotationSpeed),
      0.0,
      Scaled(d.maxAge, 6.0, 6.0),
      Scaled(d.spawnDelay, 0.0, 2.0),
      1.0,
      1.5,
      Scaled(d.scale, 0.5, 0.5))
  }

  /** The state a particle keeps between updates: Reset's ranges for the
      parameters fixed at spawn, both angles normalised, and an age below the
      expiry time. */
  predicate Live(s: Sprite) {
    && s.fadeInDuration == 1.0 && s.fadeOutDuration == 1.5
    && 0.5 <= s.scale < 1.0 && 6.0 <= s.maxAge < 12.0 && 0.0 <= s.spawnDelay < 2.0
    && -4.0 < s.velocityZ <= -1.0
    && MinRotationSpeed <= s.rotationSpeed < MaxRotationSpeed
    && MinYRotationSpeed <= s.yRotationSpeed < MaxYRotationSpeed
    && 0.0 <= s.rotation < 360.0 && 0.0 <= s.yRotation < 360.0
    && s.age < s.maxAge + s.spawnDelay
  }

  // ---------------------------------------------------------------------
  // Angle normalisation
  // ---------------------------------------------------------------------

  /** Rounding toward zero, as the quotient inside C#'s floating `%`. */
  function Trunc(x: real): int {
    if x >= 0.0 then x.Floor else -((-x).Floor)
  }

  /** `a % 360f`: the remainder of truncating division, signed like `a`. */
  function Rem360(a: real): (r: real)
    ensures -360.0 < r < 360.0
    ensures a >= 0.0 ==> r >= 0.0
    ensures a < 0.0 ==> r <= 0.0
  {
    a - 360.0 * Trunc(a / 360.0) as real
  }

  /** Update's (and OnPaint's) normalisation: `a % 360f`, plus 360 when the
      remainder is negative. */
  function NormalizeAngle(a: real): (r: real)
    ensures 0.0 <= r < 360.0
  {
    var m := Rem360(a);
    if m < 0.0 then m + 360.0 else m
  }

  /** The reference normalisation: the floored modulo, which differs from
      its input by a whole number of turns. */
  function Mod360(a: real): real {
    a - 360.0 * (a / 360.0).Floor as real
  }

  /** The two-step normalisation is the floored modulo. */
  lemma NormalizeAngleIsFlooredModulo(a: real)
    ensures NormalizeAngle(a) == Mod360(a)
  {
    var q := a / 360.0;
    if a < 0.0 {
      var f := (-q).Floor;
      if (-q) == f as real {
        assert q.Floor == -f;
      } else {
        assert f as real < -q < f as real + 1.0;
        assert -(f as real) - 1.0 < q < -(f as real);
        assert q.Floor == -f - 1;
      }
    }
  }

  /** An angle already in [0, 360) is left as it is. */
  lemma NormalizeAngleKeepsNormalized(a: real)
    requires 0.0 <= a < 360.0
    ensures NormalizeAngle(a) == a
  {
    assert (a / 360.0).Floor == 0;
  }

  // ---------------------------------------------------------------------
  // Update
  // ---------------------------------------------------------------------

  /** The reset test of Update, taken after the age has advanced by `dt`. */
  predicate Expires(s: Sprite, dt: real) {
    s.age + dt >= s.maxAge + s.spawnDelay || s.z <= 0.0
  }

  /** The integration branch of Update. */
  function Advance(s: Sprite, dt: real): Sprite {
    s.(age := s.age + dt,
       x := Drift(s.x, s.velocityX, dt),
       y := Drift(s.y, s.velocityY, dt),
       z := Drift(s.z, s.velocityZ * 60.0, dt),
       rotation := Spin(s.rotation, s.rotationSpeed, dt),
       yRotation := Spin(s.yRotation, s.yRotationSpeed, dt))
  }

  /** Update: an expired particle (or one that reached the viewer) is
      respawned and nothing else happens in that call; otherwise it ages,
      moves and spins. Either way its age ends below its expiry time. */
  function Step(s: Sprite, dt: real, d: ResetDraws): (r: Sprite)
    ensures Expires(s, dt) ==> r == Respawn(d)
    ensures r.age < r.maxAge + r.spawnDelay
    ensures 0.0 <= r.rotation < 360.0 && 0.0 <= r.yRotation < 360.0
  {
    if Expires(s, dt) then Respawn(d) else Advance(s, dt)
  }

  /** A coordinate moved at `velocity` for `dt` seconds. */
  function Drift(p: real, velocity: real, dt: real): real {
    p + velocity * dt
  }

  /** An angle turned at `speed` for `dt` seconds, normalised. */
  function Spin(angle: real, speed: real, dt: real): real {
    NormalizeAngle(angle + speed * dt)
  }

  /** Spin is Update's sequence of statements: turn, take `% 360`, lift a
      negative remainder by 360. */
  lemma SpinByRemainder(angle: real, speed: real, dt: real)
    ensures var m := Rem360(angle + speed * dt);
      (m < 0.0 ==> Spin(angle, speed, dt) == m + 360.0) && (m >= 0.0 ==> Spin(angle, speed, dt) == m)
  {
  }

  lemma SpinIsFlooredModulo(angle: real, speed: real, dt: real)
    ensures Spin(angle, speed, dt) == Mod360(angle + speed * dt)
  {
    NormalizeAngleIsFlooredModulo(angle + speed * dt);
  }

  /** A surviving particle: the age grows by dt, x and y move by velocity·dt,
      z by velocityZ·dt·60, the angles turn by speed·dt reduced to whole
      turns, and the velocities, spins, scale and lifecycle timers are
      untouched. */
  lemma StepIntegrates(s: Sprite, dt: real, d: ResetDraws)
    requires !Expires(s, dt)
    ensures var r := Step(s, dt, d);
      && r.age == s.age + dt
      && r.x == s.x + s.velocityX * dt && r.y == s.y + s.velocityY * dt
      && r.z == s.z + s.velocityZ * dt * 60.0
      && r.rotation == Mod360(s.rotation + s.rotationSpeed * dt)
      && r.yRotation == Mod360(s.yRotation + s.yRotationSpeed * dt)
      && r.velocityX == s.velocityX && r.velocityY == s.velocityY && r.velocityZ == s.velocityZ
      && r.rotationSpeed == s.rotationSpeed && r.yRotationSpeed == s.yRotationSpeed
      && r.scale == s.scale && r.maxAge == s.maxAge && r.spawnDelay == s.spawnDelay
      && r.fadeInDuration == s.fadeInDuration && r.fadeOutDuration == s.fadeOutDuration
  {
    SpinIsFlooredModulo(s.rotation, s.rotationSpeed, dt);
    SpinIsFlooredModulo(s.yRotation, s.yRotationSpeed, dt);
  }

  /** Every update keeps a live particle live. */
  lemma StepKeepsLive(s: Sprite, dt: real, d: ResetDraws)
    requires Live(s)
    ensures Live(Step(s, dt, d))
  {
  }

  /** Particles only move toward the viewer: with a non-negative time step a
      particle never ends beyond the far plane. */
  lemma StepStaysInsideTunnel(s: Sprite, dt: real, d: ResetDraws)
    requires Live(s) && dt >= 0.0 && s.z <= TunnelDepth
    ensures Step(s, dt, d).z <= TunnelDepth
  {
    if !Expires(s, dt) {
      assert s.velocityZ * dt <= 0.0;
    }
  }

  /** A particle at or behind the viewer is respawned within the same call. */
  lemma ViewerReachedRespawns(s: Sprite, dt: real, d: ResetDraws)
    requires s.z <= 0.0
    ensures Step(s, dt, d) == Respawn(d)
  {
  }

  // ---------------------------------------------------------------------
  // Projection
  // ---------------------------------------------------------------------

  /** The last depth seen by GetScreenSize and the perspective factor computed
      for it; both start at -1. */
  datatype Cache = Cache(z: real, perspective: real)

  const InitialCache: Cache := Cache(-1.0, -1.0)

  /** The reference perspective factor: FOV over the depth floored at 0.1. */
  function Perspective(z: real): real {
    FOV / Max(z, MinDepth)
  }

  /** A cache is either untouched or holds the perspective of a positive depth. */
  predicate CacheCoherent(c: Cache) {
    c == InitialCache || (c.z > 0.0 && c.perspective == Perspective(c.z))
  }

  /** GetScreenSize recomputes the perspective only when the depth moved by
      more than 0.1 since the cached one. */
  function Refresh(c: Cache, z: real): Cache {
    if Abs(c.z - z) > CacheTolerance then Cache(z, Perspective(z)) else c
  }

  /** The cache after GetScreenSize: untouched when the particle is at or
      behind the viewer. */
  function CacheAfter(s: Sprite, c: Cache): (r: Cache)
    ensures r == c || r == Cache(s.z, Perspective(s.z))
    ensures s.z <= 0.0 ==> r == c
  {
    if s.z <= 0.0 then c else Refresh(c, s.z)
  }

  /** GetScreenSize's results: the sprite's edge length on screen and its
      screen position. */
  datatype Projection = Projection(size: real, screenX: real, screenY: real)

  function Clamp(lo: real, hi: real, v: real): real {
    Max(lo, Min(hi, v))
  }

  /** Projection of a point with a given perspective factor: the size and
      both offsets are scaled by the factor, then clamped. */
  function ProjectPoint(x: real, y: real, scale: real, perspective: real, centerX: int, centerY: int): Projection {
    Projection(
      Clamp(MinScreenSize, MaxScreenSize, BaseSize * (perspective * scale)),
      centerX as real + Clamp(-MaxOffset, MaxOffset, x * perspective),
      centerY as real + Clamp(-MaxOffset, MaxOffset, y * perspective))
  }

  /** Projection of a particle with a given perspective factor. */
  function ProjectWith(s: Sprite, perspective: real, centerX: int, centerY: int): Projection {
    ProjectPoint(s.x, s.y, s.scale, perspective, centerX, centerY)
  }

  /** GetScreenSize: nothing is drawn for a particle at or behind the viewer;
      otherwise the size is clamped to [16, 1000] and each offset from the
      center to ±10000, whatever the (cached) perspective. */
  function Project(s: Sprite, c: Cache, centerX: int, centerY: int): (p: Projection)
    ensures s.z <= 0.0 ==> p == Projection(0.0, centerX as real, centerY as real)
    ensures s.z > 0.0 ==> MinScreenSize <= p.size <= MaxScreenSize
    ensures s.z > 0.0 ==> Abs(p.screenX - centerX as real) <= MaxOffset
    ensures s.z > 0.0 ==> Abs(p.screenY - centerY as real) <= MaxOffset
  {
    if s.z <= 0.0 then Projection(0.0, centerX as real, centerY as real)
    else ProjectWith(s, Refresh(c, s.z).perspective, centerX, centerY)
  }

  /** The projection the cache stands for: perspective recomputed on every call. */
  function ExactProject(s: Sprite, centerX: int, centerY: int): Projection {
    if s.z <= 0.0 then Projection(0.0, centerX as real, centerY as real)
    else ProjectWith(s, Perspective(s.z), centerX, centerY)
  }

  lemma PerspectivePositive(z: real)
    ensures Perspective(z) > 0.0
  {
    var m := Max(z, MinDepth);
    assert m > 0.0;
    assert FOV / m > 0.0;
  }

  /** After a projection of a visible particle the cached depth is within 0.1
      of the particle's and the cached perspective is FOV / max(cachedZ, 0.1),
      a positive factor. */
  lemma ProjectionLeavesCacheNearDepth(s: Sprite, c: Cache)
    requires CacheCoherent(c) && s.z > 0.0
    ensures Abs(CacheAfter(s, c).z - s.z) <= CacheTolerance
    ensures CacheAfter(s, c).perspective == Perspective(CacheAfter(s, c).z) > 0.0
    ensures CacheCoherent(CacheAfter(s, c))
  {
    var r := CacheAfter(s, c);
    if Abs(c.z - s.z) <= CacheTolerance {
      assert c != InitialCache;
    }
    PerspectivePositive(r.z);
  }

  /** Refreshing twice is refreshing once, so projecting again with the cache
      a projection left behind gives the same result. */
  lemma ProjectAgainIsStable(s: Sprite, c: Cache, centerX: int, centerY: int)
    ensures Project(s, CacheAfter(s, c), centerX, centerY) == Project(s, c, centerX, centerY)
    ensures CacheAfter(s, CacheAfter(s, c)) == CacheAfter(s, c)
  {
  }

  /** The first projection from a fresh cache is the exact one. */
  lemma FirstProjectionIsExact(s: Sprite, centerX: int, centerY: int)
    ensures Project(s, InitialCache, centerX, centerY) == ExactProject(s, centerX, centerY)
  {
    if s.z > 0.0 {
      assert Abs(InitialCache.z - s.z) > CacheTolerance;
    }
  }

  // ---------------------------------------------------------------------
  // Opacity and lifecycle scale
  // ---------------------------------------------------------------------

  /** `1 - (1 - p)^3`, the cubic ease-out of the fade-in. */
  function EaseOutCubic(p: real): real {
    var q := 1.0 - p;
    1.0 - q * q * q
  }

  /** CalculateLifecycleAlpha on explicit lifecycle timers. */
  function LifecycleAlpha(age: real, spawnDelay: real, maxAge: real, fadeIn: real, fadeOut: real): (r: real)
    requires fadeIn > 0.0 && fadeOut > 0.0
    ensures age < spawnDelay ==> r == 0.0
    ensures spawnDelay + fadeIn <= age <= spawnDelay + maxAge - fadeOut ==> r == 1.0
  {
    if age < spawnDelay then 0.0
    else
      var adjusted := age - spawnDelay;
      if adjusted < fadeIn then EaseOutCubic(adjusted / fadeIn)
      else if adjusted > maxAge - fadeOut then
        var progress := (maxAge - adjusted) / fadeOut;
        Max(0.0, progress * progress)
      else 1.0
  }

  /** The lifecycle alpha of a particle. */
  function SpriteAlpha(s: Sprite): real
    requires s.fadeInDuration > 0.0 && s.fadeOutDuration > 0.0
  {
    LifecycleAlpha(s.age, s.spawnDelay, s.maxAge, s.fadeInDuration, s.fadeOutDuration)
  }

  /** Before its expiry time the lifecycle alpha is a proper alpha in [0, 1]:
      zero during the spawn delay, one in steady state. */
  lemma LifecycleAlphaInUnitRange(age: real, spawnDelay: real, maxAge: real, fadeIn: real, fadeOut: real)
    requires fadeIn > 0.0 && fadeOut > 0.0 && age < maxAge + spawnDelay
    ensures 0.0 <= LifecycleAlpha(age, spawnDelay, maxAge, fadeIn, fadeOut) <= 1.0
  {
    if age >= spawnDelay {
      var adjusted := age - spawnDelay;
      if adjusted < fadeIn {
        DivInUnit(adjusted, fadeIn);
        CubeInUnit(1.0 - adjusted / fadeIn);
      } else if adjusted > maxAge - fadeOut {
        DivInUnit(maxAge - adjusted, fadeOut);
        SquareInUnit((maxAge - adjusted) / fadeOut);
      }
    }
  }

  /** Continuity of the lifecycle alpha at the start of the fade-in: it grows
      from 0 no faster than 3/fadeIn per second. */
  lemma LifecycleAlphaStartsAtZero(age: real, spawnDelay: real, maxAge: real, fadeIn: real, fadeOut: real)
    requires fadeIn > 0.0 && fadeOut > 0.0
    requires spawnDelay <= age < spawnDelay + fadeIn
    ensures 0.0 <= LifecycleAlpha(age, spawnDelay, maxAge, fadeIn, fadeOut)
    ensures LifecycleAlpha(age, spawnDelay, maxAge, fadeIn, fadeOut) * fadeIn <= 3.0 * (age - spawnDelay)
  {
    var adjusted := age - spawnDelay;
    var p := adjusted / fadeIn;
    assert p * fadeIn == adjusted;
    DivInUnit(adjusted, fadeIn);
    var q := 1.0 - p;
    CubeInUnit(q);
    SquareInUnit(q);
    var alpha := 1.0 - q * q * q;
    assert alpha == p * (1.0 + q + q * q);
    MulLe(1.0 + q + q * q, 3.0, p);
    assert alpha <= 3.0 * p;
    MulLe(alpha, 3.0 * p, fadeIn);
  }

  /** Continuity at the end of the fade-in: the alpha falls short of the
      steady value 1 by at most (end - age)/fadeIn. */
  lemma LifecycleAlphaReachesOne(age: real, spawnDelay: real, maxAge: real, fadeIn: real, fadeOut: real)
    requires fadeIn > 0.0 && fadeOut > 0.0
    requires spawnDelay <= age < spawnDelay + fadeIn
    ensures (1.0 - LifecycleAlpha(age, spawnDelay, maxAge, fadeIn, fadeOut)) * fadeIn <= spawnDelay + fadeIn - age
  {
    var adjusted := age - spawnDelay;
    var p := adjusted / fadeIn;
    assert p * fadeIn == adjusted;
    DivInUnit(adjusted, fadeIn);
    var q := 1.0 - p;
    CubeInUnit(q);
    MulLe(q * q * q, q, fadeIn);
    assert q * fadeIn == spawnDelay + fadeIn - age;
  }

  /** Continuity at the start of the fade-out: the alpha leaves 1 no faster
      than 2/fadeOut per second. */
  lemma LifecycleAlphaLeavesOne(age: real, spawnDelay: real, maxAge: real, fadeIn: real, fadeOut: real)
    requires fadeIn > 0.0 && fadeOut > 0.0
    requires age >= spawnDelay + fadeIn && age - spawnDelay > maxAge - fadeOut
    ensures (1.0 - LifecycleAlpha(age, spawnDelay, maxAge, fadeIn, fadeOut)) * fadeOut
              <= 2.0 * (age - spawnDelay - (maxAge - fadeOut))
  {
    var adjusted := age - spawnDelay;
    var q := (maxAge - adjusted) / fadeOut;
    assert q * fadeOut == maxAge - adjusted;
    var e := 1.0 - q;
    assert e * fadeOut == adjusted - (maxAge - fadeOut);
    assert 1.0 - q * q == 2.0 * e - e * e;
    assert e * e >= 0.0;
    MulLe(2.0 * e - e * e, 2.0 * e, fadeOut);
    assert q * q >= 0.0;
  }

  /** The scenario of a particle with spawn delay 0.5 s and fade-in 1 s: still
      invisible at 0.3 s, fully opaque from 1.5 s until its fade-out window. */
  lemma LifecycleAlphaScenario(maxAge: real, age: real)
    requires 1.5 <= age <= 0.5 + maxAge - 1.5
    ensures LifecycleAlpha(0.3, 0.5, maxAge, 1.0, 1.5) == 0.0
    ensures LifecycleAlpha(age, 0.5, maxAge, 1.0, 1.5) == 1.0
  {
  }

  /** `Math.Min(1, 0.2 + 0.8·screenScale)`: nearer (larger) sprites are brighter. */
  function DistanceAlpha(screenScale: real): (r: real)
    ensures screenScale >= 0.0 ==> 0.2 <= r <= 1.0
  {
    Min(1.0, 0.2 + screenScale * 0.8)
  }

  /** The smallest distance from a screen point to the four viewport edges
      (negative when the point is outside). */
  function MinDistanceToEdge(width: int, height: int, screenX: real, screenY: real): real {
    Min(Min(screenX, width as real - screenX), Min(screenY, height as real - screenY))
  }

  /** The edge fade as a function of the distance to the nearest edge: 1 at
      least 400 inside, 0 on or beyond the edge, `(d/400)^2` strictly
      between 0 and 1 in the band. */
  function EdgeFade(d: real): (r: real)
    ensures 0.0 <= r <= 1.0
    ensures r == 1.0 <==> d >= FadeZone
    ensures r == 0.0 <==> d <= 0.0
  {
    if d >= FadeZone then 1.0
    else if d <= 0.0 then 0.0
    else
      var f := d / FadeZone;
      DivInUnit(d, FadeZone);
      DivPositive(d, FadeZone);
      SquareInUnit(f);
      ProductPositive(f, f);
      f * f
  }

  /** CalculateEdgeAlpha: the edge fade of the smallest distance to the four
      viewport edges. */
  function EdgeAlpha(width: int, height: int, screenX: real, screenY: real): real {
    EdgeFade(MinDistanceToEdge(width, height, screenX, screenY))
  }

  /** GetOpacity: distance alpha times lifecycle alpha times edge alpha. */
  function Opacity(s: Sprite, screenScale: real, width: int, height: int, screenX: real, screenY: real): (r: real)
    requires s.fadeInDuration > 0.0 && s.fadeOutDuration > 0.0
    ensures s.age < s.spawnDelay ==> r == 0.0
  {
    DistanceAlpha(screenScale) * SpriteAlpha(s) * EdgeAlpha(width, height, screenX, screenY)
  }

  /** For a live particle and a non-negative screen scale the opacity is in
      [0, 1]; it is 0 during the spawn delay and on or beyond an edge. */
  lemma OpacityInUnitRange(s: Sprite, screenScale: real, width: int, height: int, screenX: real, screenY: real)
    requires Live(s) && screenScale >= 0.0
    ensures 0.0 <= Opacity(s, screenScale, width, height, screenX, screenY) <= 1.0
    ensures s.age < s.spawnDelay ==> Opacity(s, screenScale, width, height, screenX, screenY) == 0.0
    ensures MinDistanceToEdge(width, height, screenX, screenY) <= 0.0 ==>
              Opacity(s, screenScale, width, height, screenX, screenY) == 0.0
  {
    var a := DistanceAlpha(screenScale);
    var b := SpriteAlpha(s);
    var c := EdgeAlpha(width, height, screenX, screenY);
    LifecycleAlphaInUnitRange(s.age, s.spawnDelay, s.maxAge, s.fadeInDuration, s.fadeOutDuration);
    assert 0.0 <= a * b <= 1.0 by {
      assert a * b <= 1.0 * b;
    }
    assert a * b * c <= a * b;
    assert Opacity(s, screenScale, width, height, screenX, screenY) == a * b * c;
    if MinDistanceToEdge(width, height, screenX, screenY) <= 0.0 {
      assert a * b * c == a * b * 0.0;
    }
  }

  /** The only facts used about `Math.Pow(p, 1.5)`: it maps 0 to 0 and 1 to
      1 and is monotone on [0, 1]. */
  ghost predicate Pow15Like(pow: real -> real) {
    && pow(0.0) == 0.0 && pow(1.0) == 1.0
    && forall a, b :: 0.0 <= a <= b <= 1.0 ==> pow(a) <= pow(b)
  }

  /** GetLifecycleScale, with `Math.Pow(·, 1.5)` given as `pow15`. */
  function LifecycleScale(s: Sprite, pow15: real -> real): (r: real)
    requires s.fadeInDuration > 0.0 && s.fadeOutDuration > 0.0
    ensures s.age < s.spawnDelay ==> r == 0.1
    ensures s.spawnDelay + s.fadeInDuration <= s.age <= s.spawnDelay + s.maxAge - s.fadeOutDuration ==> r == 1.0
  {
    if s.age < s.spawnDelay then 0.1
    else
      var adjusted := s.age - s.spawnDelay;
      if adjusted < s.fadeInDuration then 0.1 + 0.9 * EaseOutCubic(adjusted / s.fadeInDuration)
      else if adjusted > s.maxAge - s.fadeOutDuration then
        0.1 + 0.9 * pow15((s.maxAge - adjusted) / s.fadeOutDuration)
      else 1.0
  }

  /** The fade-in branch of the scale: in [0.1, 1) for progress in [0, 1). */
  lemma FadeInScaleRange(p: real)
    requires 0.0 <= p < 1.0
    ensures 0.1 <= 0.1 + 0.9 * EaseOutCubic(p) < 1.0
  {
    var q := 1.0 - p;
    CubeInUnit(q);
    assert EaseOutCubic(p) == 1.0 - q * q * q;
  }

  /** The lifecycle scale of a live particle is in [0.1, 1]: 0.1 during the
      spawn delay, in [0.1, 1) during the fade-in, 1 in steady state. */
  lemma LifecycleScaleRange(s: Sprite, pow15: real -> real)
    requires Live(s) && Pow15Like(pow15)
    ensures 0.1 <= LifecycleScale(s, pow15) <= 1.0
    ensures s.spawnDelay <= s.age < s.spawnDelay + s.fadeInDuration ==>
              LifecycleScale(s, pow15) < 1.0
  {
    if s.age >= s.spawnDelay {
      var adjusted := s.age - s.spawnDelay;
      if adjusted < s.fadeInDuration {
        var p := adjusted / s.fadeInDuration;
        DivInUnit(adjusted, s.fadeInDuration);
        FadeInScaleRange(p);
        assert LifecycleScale(s, pow15) == 0.1 + 0.9 * EaseOutCubic(p);
      } else if adjusted > s.maxAge - s.fadeOutDuration {
        var progress := (s.maxAge - adjusted) / s.fadeOutDuration;
        DivInUnit(s.maxAge - adjusted, s.fadeOutDuration);
        assert pow15(0.0) <= pow15(progress) <= pow15(1.0);
        assert LifecycleScale(s, pow15) == 0.1 + 0.9 * pow15(progress);
      }
    }
  }

  /** The three joins of the scale curve meet: 0.1 at the end of the spawn
      delay, 1 at the end of the fade-in, and the fade-out formula gives 1 at
      the start of its window. */
  lemma LifecycleScaleJoins(s: Sprite, pow15: real -> real)
    requires s.fadeInDuration > 0.0 && s.fadeOutDuration > 0.0 && Pow15Like(pow15)
    ensures s.age == s.spawnDelay ==> LifecycleScale(s, pow15) == 0.1
    ensures s.age == s.spawnDelay + s.fadeInDuration && s.fadeInDuration <= s.maxAge - s.fadeOutDuration ==>
              LifecycleScale(s, pow15) == 1.0
    ensures 0.1 + 0.9 * pow15((s.maxAge - (s.maxAge - s.fadeOutDuration)) / s.fadeOutDuration) == 1.0
  {
    assert (s.maxAge - (s.maxAge - s.fadeOutDuration)) / s.fadeOutDuration == 1.0;
  }

  /** Continuity of the scale at the end of the fade-in: it falls short of
      the steady value 1 by at most 0.9·(end - age)/fadeIn. */
  lemma LifecycleScaleReachesOne(s: Sprite, pow15: real -> real)
    requires s.fadeInDuration > 0.0 && s.fadeOutDuration > 0.0
    requires s.spawnDelay <= s.age < s.spawnDelay + s.fadeInDuration
    ensures (1.0 - LifecycleScale(s, pow15)) * s.fadeInDuration <= 0.9 * (s.spawnDelay + s.fadeInDuration - s.age)
  {
    var a := SpriteAlpha(s);
    LifecycleAlphaReachesOne(s.age, s.spawnDelay, s.maxAge, s.fadeInDuration, s.fadeOutDuration);
    assert LifecycleScale(s, pow15) == 0.1 + 0.9 * a;
    assert (1.0 - (0.1 + 0.9 * a)) * s.fadeInDuration == 0.9 * ((1.0 - a) * s.fadeInDuration);
  }

  // ---------------------------------------------------------------------
  // The particle object
  // ---------------------------------------------------------------------

  class Particle {
    var X: real
    var Y: real
    var Z: real
    var VelocityX: real
    var VelocityY: real
    var VelocityZ: real
    var Rotation: real
    var RotationSpeed: real
    var YRotation: real
    var YRotationSpeed: real
    var Age: real
    var MaxAge: real
    var SpawnDelay: real
    var FadeInDuration: real
    var FadeOutDuration: real
    var Scale: real
    var cachedPerspective: real
    var cachedZ: real

    /** The public properties as one value. */
    function State(): Sprite
      reads this`X, this`Y, this`Z, this`VelocityX, this`VelocityY, this`VelocityZ,
            this`Rotation, this`RotationSpeed, this`YRotation, this`YRotationSpeed,
            this`Age, this`MaxAge, this`SpawnDelay, this`FadeInDuration, this`FadeOutDuration, this`Scale
    {
      Sprite(X, Y, Z, VelocityX, VelocityY, VelocityZ, Rotation, RotationSpeed,
             YRotation, YRotationSpeed, Age, MaxAge, SpawnDelay,
             FadeInDuration, FadeOutDuration, Scale)
    }

    function Cached(): Cache
      reads this`cachedZ, this`cachedPerspective
    {
      Cache(cachedZ, cachedPerspective)
    }

    ghost predicate Valid()
      reads this
    {
      Live(State()) && CacheCoherent(Cached())
    }

    constructor (centerX: int, centerY: int, d: ResetDraws)
      ensures State() == Respawn(d) && Cached() == InitialCache
      ensures Valid()
    {
      cachedPerspective := -1.0;
      cachedZ := -1.0;
      new;
      Reset(centerX, centerY, d);
    }

    /** Respawns the particle in place; the projection cache is kept. The
        center is not used by the C# code either. The assignments are grouped
        as in the source: placement, spin and scale, lifecycle. */
    method Reset(centerX: int, centerY: int, d: ResetDraws)
      modifies this
      ensures State() == Respawn(d) && Cached() == old(Cached())
    {
      Place(d);
      Orient(d);
      Rewind(d);
    }

    /** Position on a jittered annulus around the axis at a random depth,
        and a drift inward and toward the viewer. */
    method Place(d: ResetDraws)
      modifies this`X, this`Y, this`Z, this`VelocityX, this`VelocityY, this`VelocityZ
      ensures X == Respawn(d).x && Y == Respawn(d).y && Z == Respawn(d).z
      ensures VelocityX == Respawn(d).velocityX && VelocityY == Respawn(d).velocityY
      ensures VelocityZ == Respawn(d).velocityZ
    {
      var radius := d.radius * 800.0 + 200.0;  // the angle itself enters only through cosAngle, sinAngle
      X := d.cosAngle * radius + (d.jitterX - 0.5) * 200.0;
      Y := d.sinAngle * radius + (d.jitterY - 0.5) * 200.0;
      Z := d.depth * TunnelDepth;
      VelocityX := -d.cosAngle * 0.2 + (d.jitterVx - 0.5) * 0.4;
      VelocityY := -d.sinAngle * 0.2 + (d.jitterVy - 0.5) * 0.4;
      VelocityZ := -(d.speedZ * 3.0 + 1.0);
    }

    /** Random angles, spin speeds and scale. */
    method Orient(d: ResetDraws)
      modifies this`Rotation, this`RotationSpeed, this`YRotation, this`YRotationSpeed, this`Scale
      ensures Rotation == Respawn(d).rotation && RotationSpeed == Respawn(d).rotationSpeed
      ensures YRotation == Respawn(d).yRotation && YRotationSpeed == Respawn(d).yRotationSpeed
      ensures Scale == Respawn(d).scale
    {
      Rotation := d.rotation * 360.0;
      RotationSpeed := MinRotationSpeed + d.rotationSpeed * (MaxRotationSpeed - MinRotationSpeed);
      YRotation := d.yRotation * 360.0;
      YRotationSpeed := MinYRotationSpeed + d.yRotationSpeed * (MaxYRotationSpeed - MinYRotationSpeed);
      Scale := 0.5 + d.scale * 0.5;
    }

    /** A new lifetime: age 0, a random lifespan and spawn delay, fixed fades. */
    method Rewind(d: ResetDraws)
      modifies this`Age, this`MaxAge, this`SpawnDelay, this`FadeInDuration, this`FadeOutDuration
      ensures Age == Respawn(d).age && MaxAge == Respawn(d).maxAge && SpawnDelay == Respawn(d).spawnDelay
      ensures FadeInDuration == Respawn(d).fadeInDuration && FadeOutDuration == Respawn(d).fadeOutDuration
    {
      Age := 0.0;
      MaxAge := 6.0 + d.maxAge * 6.0;
      SpawnDelay := d.spawnDelay * 2.0;
      FadeInDuration := 1.0;
      FadeOutDuration := 1.5;
    }

    /** Ages the particle; respawns it (and stops) when it expired or reached
        the viewer, otherwise moves it and spins it. */
    method Update(deltaTime: real, centerX: int, centerY: int, d: ResetDraws)
      requires Valid()
      modifies this
      ensures State() == Step(old(State()), deltaTime, d) && Cached() == old(Cached())
      ensures Valid()
    {
      ghost var s := State();
      StepKeepsLive(s, deltaTime, d);
      Age := Age + deltaTime;
      if Age >= MaxAge + SpawnDelay || Z <= 0.0 {
        assert Expires(s, deltaTime);
        Reset(centerX, centerY, d);
        return;
      }
      assert Step(s, deltaTime, d) == Advance(s, deltaTime);
      Move(deltaTime);
      Turn(deltaTime);
    }

    /** Update's position block: x and y by velocity·dt, z by velocityZ·dt·60. */
    method Move(deltaTime: real)
      modifies this`X, this`Y, this`Z
      ensures X == Drift(old(X), VelocityX, deltaTime) && Y == Drift(old(Y), VelocityY, deltaTime)
      ensures Z == Drift(old(Z), VelocityZ * 60.0, deltaTime)
    {
      X := X + VelocityX * deltaTime;
      Y := Y + VelocityY * deltaTime;
      Z := Z + VelocityZ * deltaTime * 60.0;
    }

    /** Update's rotation block: both angles turn by speed·dt, then `% 360`
        and a negative remainder lifted by 360. */
    method Turn(deltaTime: real)
      modifies this`Rotation, this`YRotation
      ensures Rotation == Spin(old(Rotation), RotationSpeed, deltaTime)
      ensures YRotation == Spin(old(YRotation), YRotationSpeed, deltaTime)
    {
      var rotation, speed := Rotation, RotationSpeed;
      var yRotation, ySpeed := YRotation, YRotationSpeed;
      SpinByRemainder(rotation, speed, deltaTime);
      SpinByRemainder(yRotation, ySpeed, deltaTime);
      rotation := rotation + speed * deltaTime;
      yRotation := yRotation + ySpeed * deltaTime;
      rotation := Rem360(rotation);
      if rotation < 0.0 { rotation := rotation + 360.0; }
      yRotation := Rem360(yRotation);
      if yRotation < 0.0 { yRotation := yRotation + 360.0; }
      Rotation, YRotation := rotation, yRotation;
    }

    /** Particles are managed by age, not by screen bounds: never out of bounds. */
    function IsOutOfBounds(width: int, height: int): (r: bool)
      ensures !r
    {
      false
    }

    /** Projects the particle, refreshing the perspective cache when the depth
        moved by more than 0.1. */
    method GetScreenSize(centerX: int, centerY: int) returns (size: real, screenX: real, screenY: real)
      modifies this`cachedZ, this`cachedPerspective
      ensures Projection(size, screenX, screenY) == Project(State(), old(Cached()), centerX, centerY)
      ensures Cached() == CacheAfter(State(), old(Cached()))
    {
      if Z <= 0.0 {
        screenX := centerX as real;
        screenY := centerY as real;
        return 0.0, screenX, screenY;
      }
      var perspective := RefreshPerspective();
      var x, y, scale := X, Y, Scale;
      var projectedX := x * perspective;
      var projectedY := y * perspective;
      projectedX := Clamp(-MaxOffset, MaxOffset, projectedX);
      projectedY := Clamp(-MaxOffset, MaxOffset, projectedY);
      screenX := centerX as real + projectedX;
      screenY := centerY as real + projectedY;
      var screenScale := perspective * scale;
      size := Clamp(MinScreenSize, MaxScreenSize, BaseSize * screenScale);
      assert Projection(size, screenX, screenY) == ProjectPoint(x, y, scale, perspective, centerX, centerY);
    }

    /** GetScreenSize's caching block: the perspective is recomputed, and the
        depth remembered, only when the depth moved by more than 0.1. */
    method RefreshPerspective() returns (perspective: real)
      modifies this`cachedZ, this`cachedPerspective
      ensures Cached() == Refresh(old(Cached()), Z) && perspective == cachedPerspective
    {
      if Abs(cachedZ - Z) > CacheTolerance {
        cachedZ := Z;
        cachedPerspective := FOV / Max(Z, MinDepth);
      }
      perspective := cachedPerspective;
    }

    /** GetOpacity, in [0, 1] for a live particle and a non-negative screen scale. */
    function GetOpacity(screenScale: real, screenWidth: int, screenHeight: int, screenX: real, screenY: real): (r: real)
      reads this
      requires FadeInDuration > 0.0 && FadeOutDuration > 0.0
      ensures Live(State()) && screenScale >= 0.0 ==> 0.0 <= r <= 1.0
    {
      var r := Opacity(State(), screenScale, screenWidth, screenHeight, screenX, screenY);
      if Live(State()) && screenScale >= 0.0 then
        OpacityInUnitRange(State(), screenScale, screenWidth, screenHeight, screenX, screenY);
        r
      else r
    }

    /** GetLifecycleScale, in [0.1, 1] for a live particle when `pow15`
        behaves like `p^1.5`. */
    function GetLifecycleScale(pow15: real -> real): (r: real)
      reads this
      requires FadeInDuration > 0.0 && FadeOutDuration > 0.0 && Pow15Like(pow15)
      ensures Live(State()) ==> 0.1 <= r <= 1.0
    {
      var r := LifecycleScale(State(), pow15);
      if Live(State()) then
        LifecycleScaleRange(State(), pow15);
        r
      else r
    }
  }
}
