/** The reference browser engine, FingerTunnel (ref/tunnel.js): particles
    are plain records that the engine rewrites every frame, under a
    configuration and a performance state that the host changes through
    setters and that adapt to the measured frame rate. */
module Tunnel {
  import opened RealArith
  import opened Particles

  // ---------------------------------------------------------------------
  // Constants
  // ---------------------------------------------------------------------

  /** `Math.PI` as a double. */
  const Pi: real := 3.141592653589793

  /** The frame-rate history keeps the newest 60 samples. */
  const HistoryLimit: nat := 60
  /** The average is taken every 30th frame, once 30 samples exist. */
  const SamplePeriod: nat := 30

  /** The counts setParticleCount accepts, and the one it falls back to. */
  const AllowedCounts: set<int> := {50, 100, 200}
  const DefaultCount: int := 100

  /** The particle array is rebuilt for a new target only when the target is
      more than this far from the current length. */
  const RebuildSlack: int := 10

  /** Screen-area thresholds: 1920×1080, 2560×1620 and 3840×2160 pixels. */
  const FullHdArea: real := 2073600.0
  const QhdArea: real := 4147200.0
  const UhdArea: real := 8294400.0

  /** Below this screen scale a particle is culled. */
  const MinScreenScale: real := 0.01

  function IntMin(a: int, b: int): int { if a <= b then a else b }
  function IntMax(a: int, b: int): int { if a >= b then a else b }
  function Gap(a: int, b: int): int { if a >= b then a - b else b - a }

  // ---------------------------------------------------------------------
  // State
  // ---------------------------------------------------------------------

  /** A particle record of createParticle, with its projection fields. */
  datatype Mote = Mote(
    x: real, y: real, z: real,
    vx: real, vy: real, vz: real,
    rotation: real, rotationSpeed: real, scale: real,
    age: real, maxAge: real, fadeInDuration: real, fadeOutDuration: real,
    lifecycleAlpha: real, spawnDelay: real,
    screenX: real, screenY: real, screenScale: real, visible: bool)

  /** The `Math.random()` draws of createParticle, and the cosine and sine of
      the angle drawn first; resetParticle uses the placement, velocity and
      lifetime draws only. */
  datatype MoteDraws = MoteDraws(
    angle: Uniform, radius: Uniform, jitterX: Uniform, jitterY: Uniform, depth: Uniform,
    jitterVx: Uniform, jitterVy: Uniform, speedZ: Uniform,
    rotation: Uniform, rotationSpeed: Uniform, scale: Uniform,
    maxAge: Uniform, spawnDelay: Uniform,
    cosAngle: Trig, sinAngle: Trig)

  /** `this.config`. */
  datatype Config = Config(
    particleCount: int, speed: real, tunnelDepth: real, fov: real,
    centerX: real, centerY: real, smoothTransitions: bool, enhancedEffects: bool)

  /** `this.performance`. */
  datatype Performance = Performance(
    targetFPS: real, minFPS: real, adaptiveQuality: bool,
    frameSkip: int, currentFrameSkip: int, lowPerformanceMode: bool)

  /** `this.cullingBounds`: the screen rectangle grown by a margin. */
  datatype Bounds = Bounds(left: real, right: real, top: real, bottom: real, margin: real)

  /** What a particle keeps between frames: the ranges createParticle and
      resetParticle give the parameters fixed at spawn, an age below the
      expiry time and an alpha in [0, 1]. */
  predicate Sound(m: Mote) {
    && m.fadeInDuration == 1.0 && m.fadeOutDuration == 1.5
    && 0.5 <= m.scale < 1.0 && 6.0 <= m.maxAge < 12.0 && 0.0 <= m.spawnDelay < 2.0
    && -11.0 < m.vz <= -3.0 && -0.05 <= m.rotationSpeed < 0.05
    && m.age < m.maxAge + m.spawnDelay
    && 0.0 <= m.lifecycleAlpha <= 1.0
  }

  // ---------------------------------------------------------------------
  // Creating and resetting particles
  // ---------------------------------------------------------------------

  /** A depth drawn uniformly in the tunnel. */
  function DrawnDepth(u: Uniform, depth: real): (z: real)
    ensures depth > 0.0 ==> 0.0 <= z < depth
  {
    MulLt(u, 1.0, depth);
    MulLe(0.0, u, depth);
    u * depth
  }

  /** createParticle: a point on an annulus of radius 200..1000 jittered by
      up to 100, at a random depth in the tunnel, drifting inward and toward
      the viewer at 3..11 units per frame, with a random spin, scale and
      lifetime; invisible (alpha 0) until its first update. */
  function CreateParticle(d: MoteDraws, depth: real): (m: Mote)
    ensures Sound(m) && m.age == 0.0 && m.lifecycleAlpha == 0.0
    ensures m.visible && m.screenX == 0.0 && m.screenY == 0.0 && m.screenScale == 1.0
    ensures depth > 0.0 ==> 0.0 <= m.z < depth
    ensures 0.0 <= m.rotation < 2.0 * Pi
    ensures -1100.0 < m.x < 1100.0 && -1100.0 < m.y < 1100.0
  {
    Mote(
      SpawnCoordinate(d.cosAngle, d.radius, d.jitterX),
      SpawnCoordinate(d.sinAngle, d.radius, d.jitterY),
      DrawnDepth(d.depth, depth),
      -d.cosAngle * 0.5 + (d.jitterVx - 0.5) * 1.0,
      -d.sinAngle * 0.5 + (d.jitterVy - 0.5) * 1.0,
      -(d.speedZ as real) * 8.0 - 3.0,
      d.rotation * Pi * 2.0,
      (d.rotationSpeed - 0.5) * 0.1,
      0.5 + d.scale * 0.5,
      0.0, 6.0 + d.maxAge * 6.0, 1.0, 1.5,
      0.0, d.spawnDelay * 2.0,
      0.0, 0.0, 1.0, true)
  }

  /** resetParticle: a new placement, velocity and lifetime, always at the
      far end of the tunnel, age and alpha back to 0; the spin, scale, fade
      durations and last projection are kept. */
  function ResetParticle(m: Mote, d: MoteDraws, depth: real): (r: Mote)
    ensures r.z == depth && r.age == 0.0 && r.lifecycleAlpha == 0.0
    ensures 6.0 <= r.maxAge < 12.0 && 0.0 <= r.spawnDelay < 2.0 && -11.0 < r.vz <= -3.0
    ensures r.rotation == m.rotation && r.rotationSpeed == m.rotationSpeed && r.scale == m.scale
    ensures r.fadeInDuration == m.fadeInDuration && r.fadeOutDuration == m.fadeOutDuration
    ensures r.screenX == m.screenX && r.screenY == m.screenY && r.screenScale == m.screenScale
    ensures r.visible == m.visible
  {
    m.(x := SpawnCoordinate(d.cosAngle, d.radius, d.jitterX),
       y := SpawnCoordinate(d.sinAngle, d.radius, d.jitterY),
       z := depth,
       vx := -d.cosAngle * 0.5 + (d.jitterVx - 0.5) * 1.0,
       vy := -d.sinAngle * 0.5 + (d.jitterVy - 0.5) * 1.0,
       vz := -(d.speedZ as real) * 8.0 - 3.0,
       age := 0.0,
       maxAge := 6.0 + d.maxAge * 6.0,
       lifecycleAlpha := 0.0,
       spawnDelay := d.spawnDelay * 2.0)
  }

  /** A reset particle gets the placement, velocity and lifetime a new one
      would get from the same draws, except that it starts at the far end
      instead of a random depth. */
  lemma ResetMatchesCreate(m: Mote, d: MoteDraws, depth: real)
    ensures var r := ResetParticle(m, d, depth);
      var n := CreateParticle(d, depth);
      && r.x == n.x && r.y == n.y && r.vx == n.vx && r.vy == n.vy && r.vz == n.vz
      && r.maxAge == n.maxAge && r.spawnDelay == n.spawnDelay && r.age == n.age
      && r.z == depth && n.z == DrawnDepth(d.depth, depth)
  {
  }

  /** createParticles: `n` new particles, the i-th from the draws `draws(i)`
      (none when `n` is not positive). */
  function Spawned(draws: nat -> MoteDraws, n: int, depth: real): (r: seq<Mote>)
    ensures |r| == IntMax(n, 0)
    ensures forall i :: 0 <= i < |r| ==> Sound(r[i]) && r[i].age == 0.0 && (depth > 0.0 ==> 0.0 <= r[i].z < depth)
  {
    var r := seq(IntMax(n, 0), i requires 0 <= i => CreateParticle(draws(i), depth));
    assert forall i :: 0 <= i < |r| ==> r[i] == CreateParticle(draws(i), depth);
    r
  }

  // ---------------------------------------------------------------------
  // Updating one particle
  // ---------------------------------------------------------------------

  /** updateParticle's alpha: with smooth transitions (and not in
      low-performance mode) the eased lifecycle curve, otherwise a switch
      from 0 to 1 at the end of the spawn delay. */
  function TransitionAlpha(m: Mote, smooth: bool): (a: real)
    requires m.fadeInDuration > 0.0 && m.fadeOutDuration > 0.0
    ensures !smooth ==> (a == 1.0 <==> m.age >= m.spawnDelay) && (a == 0.0 <==> m.age < m.spawnDelay)
    ensures m.age < m.spawnDelay ==> a == 0.0
  {
    if smooth then LifecycleAlpha(m.age, m.spawnDelay, m.maxAge, m.fadeInDuration, m.fadeOutDuration)
    else if m.age >= m.spawnDelay then 1.0 else 0.0
  }

  /** updateParticle's reset test, taken after the age has advanced. */
  predicate Expired(m: Mote) {
    m.age >= m.maxAge + m.spawnDelay || m.z <= 0.0
  }

  /** The motion of one frame: x and y at their velocities scaled by the
      speed, z at 60 times that, the rotation at 60 times its speed. */
  function Integrate(m: Mote, dt: real, speed: real): (r: Mote)
    ensures r.(x := m.x, y := m.y, z := m.z, rotation := m.rotation) == m
    ensures r.z - m.z == 60.0 * speed * (m.vz * dt)
  {
    m.(x := m.x + m.vx * dt * speed,
       y := m.y + m.vy * dt * speed,
       z := m.z + m.vz * dt * speed * 60.0,
       rotation := m.rotation + m.rotationSpeed * dt * 60.0)
  }

  predicate Inside(b: Bounds, sx: real, sy: real) {
    b.left < sx < b.right && b.top < sy < b.bottom
  }

  /** projectParticle: a particle at or behind the viewer is hidden and keeps
      its last screen position; otherwise it is projected with perspective
      fov/z and is visible exactly when it lands strictly inside the culling
      bounds and is not too small. Only the projection fields change. */
  function ProjectParticle(m: Mote, c: Config, b: Bounds): (r: Mote)
    ensures m.z <= 0.0 ==> r == m.(visible := false)
    ensures m.z > 0.0 ==> (r.visible <==> Inside(b, r.screenX, r.screenY) && r.screenScale > MinScreenScale)
    ensures r.visible ==> m.z > 0.0
    ensures r.(screenX := m.screenX, screenY := m.screenY, screenScale := m.screenScale, visible := m.visible) == m
  {
    if m.z <= 0.0 then m.(visible := false)
    else
      var perspective := c.fov / m.z;
      var sx := c.centerX + m.x * perspective;
      var sy := c.centerY + m.y * perspective;
      var scale := perspective * m.scale;
      m.(screenX := sx, screenY := sy, screenScale := scale,
         visible := sx > b.left && sx < b.right && sy > b.top && sy < b.bottom && scale > MinScreenScale)
  }

  /** Inside the tunnel the size test never culls a particle: at depth at
      most 1000 with field of view 400 its screen scale is at least 0.2, so
      visibility is decided by the bounds alone. */
  lemma InsideTunnelOnlyBoundsCull(m: Mote, c: Config, b: Bounds)
    requires Sound(m) && 0.0 < m.z <= TunnelDepth && c.fov == FOV
    ensures ProjectParticle(m, c, b).visible <==> Inside(b, ProjectParticle(m, c, b).screenX, ProjectParticle(m, c, b).screenY)
  {
    var perspective := c.fov / m.z;
    assert perspective * m.z == FOV;
    MulLe(m.z, TunnelDepth, perspective);
    assert perspective >= 0.4 by {
      if perspective < 0.4 {
        MulLt(perspective, 0.4, m.z);
        MulLe(m.z, TunnelDepth, 0.4);
      }
    }
    MulLe(0.4, perspective, m.scale);
    MulLe(0.5, m.scale, 0.4);
  }

  /** updateParticle: age by dt; recompute the alpha; reset an expired
      particle (or one at or behind the viewer); then integrate, in the same
      call, and project. `low` is the low-performance flag and `d` the draws
      a reset would use. */
  function UpdateParticle(m: Mote, dt: real, c: Config, low: bool, b: Bounds, d: MoteDraws): (r: Mote)
    requires m.fadeInDuration > 0.0 && m.fadeOutDuration > 0.0
    ensures r.scale == m.scale && r.rotationSpeed == m.rotationSpeed
    ensures r.fadeInDuration == m.fadeInDuration && r.fadeOutDuration == m.fadeOutDuration
    ensures r.age == m.age + dt || r.age == 0.0
    ensures r.visible ==> r.z > 0.0
  {
    var aged := m.(age := m.age + dt);
    var lit := aged.(lifecycleAlpha := TransitionAlpha(aged, c.smoothTransitions && !low));
    var renewed := if Expired(lit) then ResetParticle(lit, d, c.tunnelDepth) else lit;
    ProjectParticle(Integrate(renewed, dt, c.speed), c, b)
  }

  /** A particle that does not expire ages by dt, moves by its velocities
      scaled by dt and the speed (z and the rotation 60 times faster), and
      keeps its velocities, spin, scale and lifetime. */
  lemma UpdateParticleIntegrates(m: Mote, dt: real, c: Config, low: bool, b: Bounds, d: MoteDraws)
    requires m.fadeInDuration > 0.0 && m.fadeOutDuration > 0.0
    requires !Expired(m.(age := m.age + dt))
    ensures var r := UpdateParticle(m, dt, c, low, b, d);
      && r.age == m.age + dt
      && r.x == m.x + m.vx * dt * c.speed && r.y == m.y + m.vy * dt * c.speed
      && r.z == m.z + m.vz * dt * c.speed * 60.0
      && r.rotation == m.rotation + m.rotationSpeed * dt * 60.0
      && r.vx == m.vx && r.vy == m.vy && r.vz == m.vz && r.rotationSpeed == m.rotationSpeed
      && r.scale == m.scale && r.maxAge == m.maxAge && r.spawnDelay == m.spawnDelay
  {
  }

  /** An expired particle is reset to the far end with age and alpha 0 and
      is then moved in the same call: it ends one frame's travel in front of
      the far end, never beyond it when time and speed are not negative. */
  lemma UpdateParticleRespawns(m: Mote, dt: real, c: Config, low: bool, b: Bounds, d: MoteDraws)
    requires m.fadeInDuration > 0.0 && m.fadeOutDuration > 0.0
    requires Expired(m.(age := m.age + dt))
    ensures var r := UpdateParticle(m, dt, c, low, b, d);
      && r.age == 0.0 && r.lifecycleAlpha == 0.0
      && r.z == c.tunnelDepth + r.vz * dt * c.speed * 60.0
      && (dt >= 0.0 && c.speed >= 0.0 ==> r.z <= c.tunnelDepth)
  {
    var aged := m.(age := m.age + dt);
    var lit := aged.(lifecycleAlpha := TransitionAlpha(aged, c.smoothTransitions && !low));
    assert Expired(lit);
    var moved := Integrate(ResetParticle(lit, d, c.tunnelDepth), dt, c.speed);
    assert UpdateParticle(m, dt, c, low, b, d) == ProjectParticle(moved, c, b);
    if dt >= 0.0 && c.speed >= 0.0 {
      TravelTowardViewer(moved.vz, dt, c.speed);
    }
  }

  /** A non-positive velocity, a non-negative time step and speed give a
      non-positive travel. */
  lemma TravelTowardViewer(v: real, dt: real, speed: real)
    requires v <= 0.0 && dt >= 0.0 && speed >= 0.0
    ensures v * dt * speed * 60.0 <= 0.0
  {
    MulLe(0.0, dt, speed);
    MulLe(v, 0.0, dt * speed);
  }

  /** Without smooth transitions, or in low-performance mode, a particle that
      does not expire is either fully transparent (during its spawn delay)
      or fully opaque. */
  lemma UpdateParticleSwitchesAlpha(m: Mote, dt: real, c: Config, low: bool, b: Bounds, d: MoteDraws)
    requires m.fadeInDuration > 0.0 && m.fadeOutDuration > 0.0
    requires !c.smoothTransitions || low
    requires !Expired(m.(age := m.age + dt))
    ensures var r := UpdateParticle(m, dt, c, low, b, d);
      (r.lifecycleAlpha == 1.0 <==> r.age >= r.spawnDelay) && (r.lifecycleAlpha == 0.0 <==> r.age < r.spawnDelay)
  {
  }

  /** Every update keeps a sound particle sound: its age stays below the
      expiry time and its alpha in [0, 1], whatever the time step. */
  lemma UpdateKeepsSound(m: Mote, dt: real, c: Config, low: bool, b: Bounds, d: MoteDraws)
    requires Sound(m)
    ensures Sound(UpdateParticle(m, dt, c, low, b, d))
  {
    var aged := m.(age := m.age + dt);
    if !Expired(aged) {
      LifecycleAlphaInUnitRange(aged.age, aged.spawnDelay, aged.maxAge, aged.fadeInDuration, aged.fadeOutDuration);
    }
  }

  /** Particles only travel toward the viewer: with a non-negative time step
      and speed a particle inside the tunnel stays inside it. */
  lemma UpdateStaysInsideTunnel(m: Mote, dt: real, c: Config, low: bool, b: Bounds, d: MoteDraws)
    requires Sound(m) && m.z <= c.tunnelDepth && dt >= 0.0 && c.speed >= 0.0
    ensures UpdateParticle(m, dt, c, low, b, d).z <= c.tunnelDepth
  {
    var aged := m.(age := m.age + dt);
    MulLe(0.0, dt, c.speed);
    if Expired(aged) {
      UpdateParticleRespawns(m, dt, c, low, b, d);
    } else {
      MulLe(m.vz, 0.0, dt * c.speed);
      assert m.vz * dt * c.speed * 60.0 <= 0.0;
    }
  }

  // ---------------------------------------------------------------------
  // The visible list
  // ---------------------------------------------------------------------

  /** The visible particles, in array order. */
  function Visible(ps: seq<Mote>): (r: seq<Mote>)
    ensures |r| <= |ps|
    ensures forall m :: m in r <==> m in ps && m.visible
  {
    if ps == [] then []
    else
      var last := ps[|ps| - 1];
      Visible(ps[..|ps| - 1]) + (if last.visible then [last] else [])
  }

  /** Farthest first: depth never increases along the list. */
  predicate Descending(s: seq<Mote>) {
    forall i, j :: 0 <= i < j < |s| ==> s[i].z >= s[j].z
  }

  /** Places `m` before the first element that is nearer than it, so that
      it stays ahead of the elements of equal depth that follow it. */
  function InsertByDepth(m: Mote, s: seq<Mote>): (r: seq<Mote>)
    requires Descending(s)
    ensures Descending(r) && multiset(r) == multiset(s) + multiset{m}
    ensures |r| == |s| + 1
    ensures r[0] == m || (s != [] && r[0] == s[0])
  {
    if s == [] || m.z >= s[0].z then
      DescendingCons(m, s);
      [m] + s
    else
      var rest := InsertByDepth(m, s[1..]);
      assert s == [s[0]] + s[1..];
      DescendingCons(s[0], rest);
      [s[0]] + rest
  }

  /** A mote at least as far as the head of a far-to-near list can go in
      front of it. */
  lemma DescendingCons(m: Mote, s: seq<Mote>)
    requires Descending(s) && (s == [] || m.z >= s[0].z)
    ensures Descending([m] + s)
  {
    var r := [m] + s;
    forall i, j | 0 <= i < j < |r| ensures r[i].z >= r[j].z {
      assert r[j] == s[j - 1];
      if i > 0 {
        assert r[i] == s[i - 1];
      } else {
        assert s[0].z >= s[j - 1].z;
      }
    }
  }

  /** `visibleParticles.sort((a, b) => b.z - a.z)`: the particles far to near. */
  function SortByDepth(s: seq<Mote>): (r: seq<Mote>)
    ensures Descending(r) && multiset(r) == multiset(s)
  {
    if s == [] then []
    else
      assert s == [s[0]] + s[1..];
      InsertByDepth(s[0], SortByDepth(s[1..]))
  }

  // ---------------------------------------------------------------------
  // Frame-rate history
  // ---------------------------------------------------------------------

  /** The newest `n` entries of `h` (all of them when there are fewer). */
  function Newest(h: seq<real>, n: nat): (r: seq<real>)
    ensures |r| == if |h| <= n then |h| else n
    ensures r == h[|h| - |r|..]
  {
    if |h| <= n then h else h[|h| - n..]
  }

  function Sum(h: seq<real>): real {
    if h == [] then 0.0 else Sum(h[..|h| - 1]) + h[|h| - 1]
  }

  /** `fpsHistory.reduce((a, b) => a + b) / fpsHistory.length`. */
  function Mean(h: seq<real>): real
    requires h != []
  {
    Sum(h) / |h| as real
  }

  lemma {:induction false} SumBounds(h: seq<real>, lo: real, hi: real)
    requires forall k :: 0 <= k < |h| ==> lo <= h[k] <= hi
    ensures lo * |h| as real <= Sum(h) <= hi * |h| as real
  {
    if h != [] {
      SumBounds(h[..|h| - 1], lo, hi);
    }
  }

  /** The average of samples that all lie in [lo, hi] lies in [lo, hi]. */
  lemma MeanWithin(h: seq<real>, lo: real, hi: real)
    requires h != [] && forall k :: 0 <= k < |h| ==> lo <= h[k] <= hi
    ensures lo <= Mean(h) <= hi
  {
    SumBounds(h, lo, hi);
    var n := |h| as real;
    var q := Sum(h) / n;
    assert q * n == Sum(h);
    MulLt(q, lo, n);
    MulLt(hi, q, n);
  }

  /** `Math.round`: the nearest integer, halves rounded up. */
  function Round(x: real): (r: int)
    ensures x - 0.5 < r as real <= x + 0.5
  {
    (x + 0.5).Floor
  }

  // ---------------------------------------------------------------------
  // Settings
  // ---------------------------------------------------------------------

  /** setSpeed's clamp: into [0.1, 5.0], a speed already there unchanged. */
  function ClampSpeed(speed: real): (r: real)
    ensures 0.1 <= r <= 5.0
    ensures r == speed <==> 0.1 <= speed <= 5.0
    ensures speed < 0.1 ==> r == 0.1
    ensures speed > 5.0 ==> r == 5.0
  {
    Clamp(0.1, 5.0, speed)
  }

  /** setTargetFPS's clamp: into [30, 60], a rate already there unchanged. */
  function ClampFPS(fps: real): (r: real)
    ensures 30.0 <= r <= 60.0
    ensures r == fps <==> 30.0 <= fps <= 60.0
    ensures fps < 30.0 ==> r == 30.0
    ensures fps > 60.0 ==> r == 60.0
  {
    Clamp(30.0, 60.0, fps)
  }

  /** setParticleCount's validation: 50, 100 and 200 are kept, anything else
      becomes 100. */
  function ChosenCount(count: int): (r: int)
    ensures r in AllowedCounts
    ensures r == count <==> count in AllowedCounts
  {
    if count in AllowedCounts then count else DefaultCount
  }

  /** The performance settings a mode selects. */
  datatype Tier = Tier(adaptiveQuality: bool, lowPerformanceMode: bool, currentFrameSkip: int, targetFPS: real)

  /** setPerformanceMode's switch: "high" fixes full rate without adapting,
      "low" halves the frame rate and the target, and "balanced", "auto" and
      every unknown mode adapt at full rate. */
  function PerformanceTier(mode: string): (r: Tier)
    ensures r.lowPerformanceMode <==> mode == "low"
    ensures r.adaptiveQuality <==> mode != "high" && mode != "low"
    ensures r.currentFrameSkip == (if mode == "low" then 2 else 1)
    ensures r.targetFPS == (if mode == "low" then 30.0 else 60.0)
  {
    if mode == "high" then Tier(false, false, 1, 60.0)
    else if mode == "balanced" || mode == "auto" then Tier(true, false, 1, 60.0)
    else if mode == "low" then Tier(false, true, 2, 30.0)
    else Tier(true, false, 1, 60.0)
  }

  /** The effect flags a mode selects. */
  datatype Effects = Effects(smoothTransitions: bool, enhancedEffects: bool)

  /** setEffectsMode's switch: "minimal" turns both effects off, "enhanced"
      both on, and "smooth" and every unknown mode only the transitions. */
  function EffectsFor(mode: string): (r: Effects)
    ensures !r.smoothTransitions <==> mode == "minimal"
    ensures r.enhancedEffects <==> mode == "enhanced"
  {
    if mode == "minimal" then Effects(false, false)
    else if mode == "smooth" then Effects(true, false)
    else if mode == "enhanced" then Effects(true, true)
    else Effects(true, false)
  }

  // ---------------------------------------------------------------------
  // Screen-based particle counts
  // ---------------------------------------------------------------------

  /** adaptParticleCount's target: 70% of the count above 1920×1080, 50%
      above 4K, floored; never more than the count. */
  function AdaptedCount(count: int, area: real): (r: int)
    ensures count >= 0 ==> 0 <= r <= count
    ensures area <= FullHdArea ==> r == count
  {
    if area > UhdArea then (count * 5) / 10
    else if area > FullHdArea then (count * 7) / 10
    else count
  }

  /** A larger screen never gets more particles. */
  lemma AdaptedCountShrinksWithArea(count: int, a1: real, a2: real)
    requires count >= 0 && a1 <= a2
    ensures AdaptedCount(count, a2) <= AdaptedCount(count, a1)
  {
    assert (count * 5) / 10 <= (count * 7) / 10;
  }

  /** updateParticleSystemForScreen's target: 90%, 75% or 60% of the count
      above 1080p, 1440p and 4K, floored, and on a Retina screen above 1080p
      a further 80%, floored. */
  function ScreenCount(count: int, area: real, isRetina: bool): (r: int)
    ensures count >= 0 ==> 0 <= r <= count
    ensures area <= FullHdArea ==> r == count
  {
    var optimal :=
      if area > UhdArea then (count * 6) / 10
      else if area > QhdArea then (count * 75) / 100
      else if area > FullHdArea then (count * 9) / 10
      else count;
    if isRetina && area > FullHdArea then (optimal * 8) / 10 else optimal
  }

  /** A larger screen never gets more particles, and a Retina screen never
      more than a plain one of the same area. */
  lemma ScreenCountShrinksWithArea(count: int, a1: real, a2: real, isRetina: bool)
    requires count >= 0 && a1 <= a2
    ensures ScreenCount(count, a2, isRetina) <= ScreenCount(count, a1, isRetina)
    ensures ScreenCount(count, a2, true) <= ScreenCount(count, a2, false)
  {
    var c6, c75, c9 := (count * 6) / 10, (count * 75) / 100, (count * 9) / 10;
    assert c6 <= c75 <= c9 <= count;
    assert (c6 * 8) / 10 <= (c75 * 8) / 10 <= (c9 * 8) / 10;
  }

  // ---------------------------------------------------------------------
  // The engine
  // ---------------------------------------------------------------------

  class FingerTunnel {
    var config: Config
    var performance: Performance
    var particles: seq<Mote>
    var visibleParticles: seq<Mote>
    var frameCount: int
    var fps: int
    var fpsHistory: seq<real>
    var cullingBounds: Bounds

    /** The settings stay in their documented ranges, the history window is
        bounded, and every particle is sound. */
    ghost predicate Valid()
      reads this
    {
      && config.tunnelDepth == TunnelDepth && config.fov == FOV
      && 0.1 <= config.speed <= 5.0 && config.particleCount >= 0
      && performance.minFPS == 30.0 && 30.0 <= performance.targetFPS <= 60.0
      && 1 <= performance.currentFrameSkip <= 3
      && frameCount >= 0 && |fpsHistory| <= HistoryLimit
      && (forall i :: 0 <= i < |particles| ==> Sound(particles[i]))
    }

    /** The constructor's initial configuration and performance state; the
        particles are created later (createParticles). */
    constructor ()
      ensures Valid()
      ensures config == Config(100, 1.0, TunnelDepth, FOV, 0.0, 0.0, true, true)
      ensures performance == Performance(60.0, 30.0, true, 1, 1, false)
      ensures particles == [] && visibleParticles == [] && fpsHistory == []
      ensures frameCount == 0 && fps == 60
      ensures cullingBounds == Bounds(0.0, 0.0, 0.0, 0.0, 100.0)
    {
      config := Config(100, 1.0, TunnelDepth, FOV, 0.0, 0.0, true, true);
      performance := Performance(60.0, 30.0, true, 1, 1, false);
      particles := [];
      visibleParticles := [];
      frameCount := 0;
      fps := 60;
      fpsHistory := [];
      cullingBounds := Bounds(0.0, 0.0, 0.0, 0.0, 100.0);
    }

    /** createParticles: the array is emptied and refilled with
        `config.particleCount` new particles. */
    method CreateParticles(draws: nat -> MoteDraws)
      modifies this`particles
      ensures particles == Spawned(draws, config.particleCount, config.tunnelDepth)
    {
      particles := [];
      var i := 0;
      while i < config.particleCount
        invariant 0 <= i && (i <= config.particleCount || i == 0)
        invariant particles == Spawned(draws, i, config.tunnelDepth)
      {
        particles := particles + [CreateParticle(draws(i), config.tunnelDepth)];
        i := i + 1;
      }
    }

    /** setSpeed. */
    method SetSpeed(speed: real)
      requires Valid()
      modifies this`config
      ensures Valid() && config == old(config).(speed := ClampSpeed(speed))
    {
      config := config.(speed := Max(0.1, Min(5.0, speed)));
    }

    /** setTargetFPS. */
    method SetTargetFPS(fps: real)
      requires Valid()
      modifies this`performance
      ensures Valid() && performance == old(performance).(targetFPS := ClampFPS(fps))
    {
      performance := performance.(targetFPS := Max(30.0, Min(60.0, fps)));
    }

    /** setParticleCount: the validated count is stored, and the particles
        are rebuilt only when it differs from the previous count. */
    method SetParticleCount(count: int, draws: nat -> MoteDraws)
      requires Valid()
      modifies this`config, this`particles
      ensures Valid() && config == old(config).(particleCount := ChosenCount(count))
      ensures old(config.particleCount) != ChosenCount(count) ==>
                particles == Spawned(draws, ChosenCount(count), config.tunnelDepth)
                && |particles| == ChosenCount(count)
      ensures old(config.particleCount) == ChosenCount(count) ==> particles == old(particles)
    {
      var oldCount := config.particleCount;
      var validated := if count in AllowedCounts then count else DefaultCount;
      config := config.(particleCount := validated);
      if oldCount != validated {
        CreateParticles(draws);
      }
    }

    /** setPerformanceMode: the three adaptive settings and the target rate
        follow the mode; nothing else changes. */
    method SetPerformanceMode(mode: string)
      requires Valid()
      modifies this`performance
      ensures Valid()
      ensures var t := PerformanceTier(mode);
        performance == old(performance).(adaptiveQuality := t.adaptiveQuality,
          lowPerformanceMode := t.lowPerformanceMode, currentFrameSkip := t.currentFrameSkip, targetFPS := t.targetFPS)
    {
      if mode == "high" {
        performance := performance.(adaptiveQuality := false, lowPerformanceMode := false,
                                    currentFrameSkip := 1, targetFPS := 60.0);
      } else if mode == "balanced" || mode == "auto" {
        performance := performance.(adaptiveQuality := true, lowPerformanceMode := false,
                                    currentFrameSkip := 1, targetFPS := 60.0);
      } else if mode == "low" {
        performance := performance.(adaptiveQuality := false, lowPerformanceMode := true,
                                    currentFrameSkip := 2, targetFPS := 30.0);
      } else {
        performance := performance.(adaptiveQuality := true, lowPerformanceMode := false,
                                    currentFrameSkip := 1, targetFPS := 60.0);
      }
    }

    /** setEffectsMode: the two effect flags follow the mode, and the
        particles are rebuilt exactly when a flag changed. */
    method SetEffectsMode(mode: string, draws: nat -> MoteDraws)
      requires Valid()
      modifies this`config, this`particles
      ensures Valid()
      ensures var e := EffectsFor(mode);
        config == old(config).(smoothTransitions := e.smoothTransitions, enhancedEffects := e.enhancedEffects)
      ensures var changed := Effects(config.smoothTransitions, config.enhancedEffects)
                             != Effects(old(config.smoothTransitions), old(config.enhancedEffects));
        (changed ==> particles == Spawned(draws, config.particleCount, config.tunnelDepth))
        && (!changed ==> particles == old(particles))
    {
      var before := Effects(config.smoothTransitions, config.enhancedEffects);
      if mode == "minimal" {
        config := config.(smoothTransitions := false, enhancedEffects := false);
      } else if mode == "smooth" {
        config := config.(smoothTransitions := true, enhancedEffects := false);
      } else if mode == "enhanced" {
        config := config.(smoothTransitions := true, enhancedEffects := true);
      } else {
        config := config.(smoothTransitions := true, enhancedEffects := false);
      }
      if Effects(config.smoothTransitions, config.enhancedEffects) != before {
        CreateParticles(draws);
      }
    }

    /** adaptPerformance: the settings and particles change as `Adapted`
        says for the average rate. */
    method AdaptPerformance(avgFPS: real, draws: nat -> MoteDraws)
      requires Valid()
      modifies this`performance, this`config, this`particles
      ensures Valid()
      ensures Adapted(avgFPS, old(performance), old(config), old(particles), draws, performance, config, particles)
    {
      if avgFPS < performance.minFPS {
        performance := performance.(lowPerformanceMode := true,
                                    currentFrameSkip := IntMin(3, performance.currentFrameSkip + 1));
        if avgFPS < 20.0 && |particles| > 50 {
          config := config.(particleCount := IntMax(50, |particles| - 20));
          CreateParticles(draws);
        }
      } else if avgFPS > performance.targetFPS * 0.8 {
        performance := performance.(lowPerformanceMode := false,
                                    currentFrameSkip := IntMax(1, performance.currentFrameSkip - 1));
      }
    }

    /** updatePerformanceMetrics: the instantaneous rate 1/dt enters the
        history window, which keeps its newest 60 samples; every 30th frame,
        once 30 samples exist, their rounded average becomes `fps` and, when
        adaptive quality is on, drives adaptPerformance. */
    method UpdatePerformanceMetrics(deltaTime: real, draws: nat -> MoteDraws)
      requires Valid() && deltaTime != 0.0
      modifies this`fpsHistory, this`fps, this`performance, this`config, this`particles
      ensures Valid()
      ensures fpsHistory == Newest(old(fpsHistory) + [1.0 / deltaTime], HistoryLimit)
      ensures var sampled := frameCount % SamplePeriod == 0 && |fpsHistory| >= SamplePeriod;
        && fps == (if sampled then Round(Mean(fpsHistory)) else old(fps))
        && (sampled && old(performance.adaptiveQuality) ==>
              Adapted(Mean(fpsHistory), old(performance), old(config), old(particles), draws,
                      performance, config, particles))
        && (!sampled || !old(performance.adaptiveQuality) ==>
              performance == old(performance) && config == old(config) && particles == old(particles))
    {
      fpsHistory := fpsHistory + [1.0 / deltaTime];
      if |fpsHistory| > HistoryLimit {
        fpsHistory := fpsHistory[1..];
      }
      if frameCount % SamplePeriod == 0 && |fpsHistory| >= SamplePeriod {
        var avgFPS := Sum(fpsHistory) / |fpsHistory| as real;
        fps := Round(avgFPS);
        if performance.adaptiveQuality {
          AdaptPerformance(avgFPS, draws);
        }
      }
    }

    /** adaptParticleCount: with adaptive quality on, the count is rebuilt
        for the screen's target only when that target is more than 10 away
        from the current number of particles. */
    method AdaptParticleCount(screenArea: real, draws: nat -> MoteDraws)
      requires Valid()
      modifies this`config, this`particles
      ensures Valid()
      ensures var target := AdaptedCount(old(config.particleCount), screenArea);
        if old(performance.adaptiveQuality) && Gap(old(|particles|), target) > RebuildSlack then
          config == old(config).(particleCount := target)
          && particles == Spawned(draws, target, config.tunnelDepth) && |particles| == target
        else
          config == old(config) && particles == old(particles)
    {
      if !performance.adaptiveQuality {
        return;
      }
      var targetCount := config.particleCount;
      if screenArea > FullHdArea {
        targetCount := (config.particleCount * 7) / 10;
      }
      if screenArea > UhdArea {
        targetCount := (config.particleCount * 5) / 10;
      }
      if Gap(|particles|, targetCount) > RebuildSlack {
        config := config.(particleCount := targetCount);
        CreateParticles(draws);
      }
    }

    /** updateParticleSystemForScreen: the same rule as adaptParticleCount
        with the finer area tiers and the Retina reduction, and regardless of
        adaptive quality. */
    method UpdateParticleSystemForScreen(width: real, height: real, isRetina: bool, draws: nat -> MoteDraws)
      requires Valid()
      modifies this`config, this`particles
      ensures Valid()
      ensures var target := ScreenCount(old(config.particleCount), width * height, isRetina);
        if Gap(old(|particles|), target) > RebuildSlack then
          config == old(config).(particleCount := target)
          && particles == Spawned(draws, target, config.tunnelDepth) && |particles| == target
        else
          config == old(config) && particles == old(particles)
    {
      var screenArea := width * height;
      var baseParticleCount := config.particleCount;
      var optimalCount := baseParticleCount;
      if screenArea > UhdArea {
        optimalCount := (baseParticleCount * 6) / 10;
      } else if screenArea > QhdArea {
        optimalCount := (baseParticleCount * 75) / 100;
      } else if screenArea > FullHdArea {
        optimalCount := (baseParticleCount * 9) / 10;
      }
      if isRetina && screenArea > FullHdArea {
        optimalCount := (optimalCount * 8) / 10;
      }
      if Gap(|particles|, optimalCount) > RebuildSlack {
        config := config.(particleCount := optimalCount);
        CreateParticles(draws);
      }
    }

    /** The `forEach` of update: every particle is updated once, in array
        order, with the same step; `respawns(i)` are the draws particle i
        uses if it is reset. */
    method UpdateParticles(dt: real, respawns: nat -> MoteDraws)
      requires Valid()
      modifies this`particles
      ensures Valid()
      ensures Advanced(old(particles), particles, dt, config, performance.lowPerformanceMode, cullingBounds, respawns)
    {
      var i := 0;
      while i < |particles|
        invariant 0 <= i <= |particles| == old(|particles|)
        invariant forall j :: 0 <= j < i ==>
                    particles[j] == UpdateParticle(old(particles[j]), dt, config, performance.lowPerformanceMode,
                                                   cullingBounds, respawns(j))
        invariant forall j :: i <= j < |particles| ==> particles[j] == old(particles[j])
        invariant forall j :: 0 <= j < |particles| ==> Sound(particles[j])
      {
        UpdateKeepsSound(particles[i], dt, config, performance.lowPerformanceMode, cullingBounds, respawns(i));
        particles := particles[i := UpdateParticle(particles[i], dt, config, performance.lowPerformanceMode,
                                                   cullingBounds, respawns(i))];
        i := i + 1;
      }
    }

    /** update: take the frame-rate sample (which may adapt the settings
        and rebuild the particles, leaving `mid`), count the frame, and on
        every `currentFrameSkip`-th frame advance all particles by the
        elapsed time times the skip and rebuild the visible list. */
    method Update(deltaTime: real, draws: nat -> MoteDraws, respawns: nat -> MoteDraws) returns (ghost mid: seq<Mote>)
      requires Valid() && deltaTime != 0.0
      modifies this`fpsHistory, this`fps, this`performance, this`config, this`particles,
               this`frameCount, this`visibleParticles
      ensures Valid() && frameCount == old(frameCount) + 1
      ensures fpsHistory == Newest(old(fpsHistory) + [1.0 / deltaTime], HistoryLimit)
      ensures var sampled := old(frameCount) % SamplePeriod == 0 && |fpsHistory| >= SamplePeriod;
        && fps == (if sampled then Round(Mean(fpsHistory)) else old(fps))
        && if sampled && old(performance.adaptiveQuality) then
             Adapted(Mean(fpsHistory), old(performance), old(config), old(particles), draws, performance, config, mid)
           else
             performance == old(performance) && config == old(config) && mid == old(particles)
      ensures frameCount % performance.currentFrameSkip != 0 ==>
                particles == mid && visibleParticles == old(visibleParticles)
      ensures frameCount % performance.currentFrameSkip == 0 ==>
                && Advanced(mid, particles, FrameStep(deltaTime, performance.currentFrameSkip),
                            config, performance.lowPerformanceMode, cullingBounds, respawns)
                && Descending(visibleParticles) && multiset(visibleParticles) == multiset(Visible(particles))
    {
      UpdatePerformanceMetrics(deltaTime, draws);
      mid := particles;
      AdvanceFrame(FrameStep(deltaTime, performance.currentFrameSkip), respawns);
    }

    /** The rest of update after the sample: count the frame and, unless it
        is skipped, advance every particle by `dt` (the elapsed time times
        the skip) and rebuild the visible list. */
    method AdvanceFrame(dt: real, respawns: nat -> MoteDraws)
      requires Valid()
      modifies this`particles, this`frameCount, this`visibleParticles
      ensures Valid() && frameCount == old(frameCount) + 1
      ensures frameCount % performance.currentFrameSkip != 0 ==>
                particles == old(particles) && visibleParticles == old(visibleParticles)
      ensures frameCount % performance.currentFrameSkip == 0 ==>
                && Advanced(old(particles), particles, dt, config, performance.lowPerformanceMode, cullingBounds, respawns)
                && Descending(visibleParticles) && multiset(visibleParticles) == multiset(Visible(particles))
    {
      frameCount := frameCount + 1;
      if frameCount % performance.currentFrameSkip != 0 {
        return;
      }
      UpdateParticles(dt, respawns);
      visibleParticles := BuildVisible(particles);
    }
  }

  /** The visible list of update: the visible particles, collected in array
      order, then sorted far to near. */
  method BuildVisible(particles: seq<Mote>) returns (sorted: seq<Mote>)
    ensures Descending(sorted)
    ensures multiset(sorted) == multiset(Visible(particles))
  {
    var visible: seq<Mote> := [];
    var i := 0;
    while i < |particles|
      invariant 0 <= i <= |particles|
      invariant visible == Visible(particles[..i])
    {
      assert particles[..i + 1][..i] == particles[..i];
      if particles[i].visible {
        visible := visible + [particles[i]];
      }
      i := i + 1;
    }
    assert particles[..i] == particles;
    sorted := SortByDepth(visible);
  }

  /** Advancing keeps sound particles sound, whatever the step. */
  lemma AdvancedKeepsSound(ps0: seq<Mote>, ps: seq<Mote>, dt: real, c: Config, low: bool, b: Bounds,
                           respawns: nat -> MoteDraws)
    requires Advanced(ps0, ps, dt, c, low, b, respawns)
    requires forall i :: 0 <= i < |ps0| ==> Sound(ps0[i])
    ensures forall i :: 0 <= i < |ps| ==> Sound(ps[i])
  {
    forall i | 0 <= i < |ps|
      ensures Sound(ps[i])
    {
      UpdateKeepsSound(ps0[i], dt, c, low, b, respawns(i));
    }
  }

  /** The time a rendered frame covers: the elapsed time times the frame
      skip, so that skipped frames are made up for. */
  function FrameStep(deltaTime: real, skip: int): real {
    deltaTime * skip as real
  }

  /** The `forEach` of update, as a relation: `ps` is `ps0` with every
      particle updated once with the same step, particle i using the draws
      `respawns(i)` if it is reset. */
  predicate Advanced(ps0: seq<Mote>, ps: seq<Mote>, dt: real, c: Config, low: bool, b: Bounds,
                     respawns: nat -> MoteDraws)
  {
    && |ps| == |ps0|
    && forall i :: 0 <= i < |ps0| ==>
         && ps0[i].fadeInDuration > 0.0 && ps0[i].fadeOutDuration > 0.0
         && ps[i] == UpdateParticle(ps0[i], dt, c, low, b, respawns(i))
  }

  /** adaptPerformance's outcome at the average rate `avg`, from the
      settings `p0`, `c0` and particles `ps0` to `p`, `c` and `ps`: below the
      minimum rate, low-performance mode with one more skipped frame (at
      most 3), and below 20 fps 20 particles fewer (at least 50) rebuilt
      from `draws`; above 80% of the target, normal mode with one skipped
      frame less (at least 1); in between, nothing changes. */
  predicate Adapted(avg: real, p0: Performance, c0: Config, ps0: seq<Mote>, draws: nat -> MoteDraws,
                    p: Performance, c: Config, ps: seq<Mote>)
  {
    && (avg < p0.minFPS ==>
          p == p0.(lowPerformanceMode := true, currentFrameSkip := IntMin(3, p0.currentFrameSkip + 1)))
    && (p0.minFPS <= avg && avg > p0.targetFPS * 0.8 ==>
          p == p0.(lowPerformanceMode := false, currentFrameSkip := IntMax(1, p0.currentFrameSkip - 1)))
    && (p0.minFPS <= avg <= p0.targetFPS * 0.8 ==> p == p0)
    && if avg < p0.minFPS && avg < 20.0 && |ps0| > 50 then
         c == c0.(particleCount := IntMax(50, |ps0| - 20)) && ps == Spawned(draws, c.particleCount, c.tunnelDepth)
       else
         c == c0 && ps == ps0
  }

  /** Adapting keeps the frame skip in [1, 3], and the particles either stay
      as they were or are rebuilt 20 fewer, never below 50; it only ever sheds
      particles when the rate is under both the minimum and 20 fps. */
  lemma AdaptedStaysInRange(avg: real, p0: Performance, c0: Config, ps0: seq<Mote>, draws: nat -> MoteDraws,
                            p: Performance, c: Config, ps: seq<Mote>)
    requires Adapted(avg, p0, c0, ps0, draws, p, c, ps) && 1 <= p0.currentFrameSkip <= 3
    ensures 1 <= p.currentFrameSkip <= 3
    ensures p.targetFPS == p0.targetFPS && p.minFPS == p0.minFPS && p.adaptiveQuality == p0.adaptiveQuality
    ensures ps == ps0 || (50 <= |ps| < |ps0| && |ps| == IntMax(50, |ps0| - 20))
    ensures ps != ps0 ==> avg < p0.minFPS && avg < 20.0
  {
  }

  /** The visible list holds exactly the visible particles: each visible
      particle as often as it occurs in the array, nothing else. */
  lemma {:induction false} VisibleIsExactlyTheVisible(ps: seq<Mote>, m: Mote)
    ensures multiset(Visible(ps))[m] == if m.visible then multiset(ps)[m] else 0
  {
    if ps != [] {
      var init := ps[..|ps| - 1];
      VisibleIsExactlyTheVisible(init, m);
      assert ps == init + [ps[|ps| - 1]];
    }
  }
}
