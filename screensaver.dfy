/** ScreensaverForm.cs without the window: a fixed pool of particles, the
    timer tick that advances all of them, and the paint pass that re-sorts
    them by depth when needed and decides, particle by particle, whether and
    how it is drawn. The drawing itself is returned as a list of draw
    commands; the clock reading is a parameter. */
module Screensaver {

  import opened Particles
  import opened Wrappers

  /** Number of particles in the pool. */
  const ParticleCount: nat := 100

  /** Upper bound of the time step fed to the particles, in seconds. */
  const MaxStep: real := 0.1

  /** The time step of a tick: the elapsed time capped at 0.1 s. There is no
      lower bound, so a zero or negative elapsed time goes through. */
  function ClampStep(elapsed: real): (dt: real)
    ensures dt <= MaxStep
    ensures dt == elapsed || dt == MaxStep
    ensures elapsed <= MaxStep ==> dt == elapsed
  {
    if elapsed <= MaxStep then elapsed else MaxStep
  }

  // ---------------------------------------------------------------------
  // What one particle contributes to a frame
  // ---------------------------------------------------------------------

  /** One DrawImage call: where, how large, how opaque, how scaled by the
      lifecycle, and turned by how many degrees. */
  datatype Draw = Draw(screenX: real, screenY: real, size: real, opacity: real,
                       lifecycleScale: real, rotation: real)

  /** OnPaint's scale for the opacity: the exact (uncached) perspective
      times the particle's scale. */
  function ScreenScale(s: Sprite): real {
    Perspective(s.z) * s.scale
  }

  /** The draw command OnPaint issues for one particle with a given
      projection cache, or None when it is skipped: when its projected size
      is not positive, or its opacity is not positive. The combined rotation
      is Rotation + YRotation normalised into [0, 360). */
  function DrawOf(s: Sprite, c: Cache, centerX: int, centerY: int, width: int, height: int,
                  pow15: real -> real): (r: Option<Draw>)
    requires Live(s) && Pow15Like(pow15)
    ensures r.Some? ==> r.value.size > 0.0 && r.value.opacity > 0.0 && r.value.lifecycleScale == LifecycleScale(s, pow15)
    ensures s.age < s.spawnDelay ==> r == None
  {
    var p := Project(s, c, centerX, centerY);
    if p.size <= 0.0 then None
    else
      var opacity := Opacity(s, ScreenScale(s), width, height, p.screenX, p.screenY);
      if opacity <= 0.0 then None
      else Some(Draw(p.screenX, p.screenY, p.size, opacity, LifecycleScale(s, pow15),
                     NormalizeAngle(s.rotation + s.yRotation)))
  }

  /** A draw command OnPaint can issue: size within the projection clamps,
      visible but at most opaque, lifecycle scale in [0.1, 1], rotation in
      [0, 360). */
  predicate Proper(d: Draw) {
    && MinScreenSize <= d.size <= MaxScreenSize
    && 0.0 < d.opacity <= 1.0
    && 0.1 <= d.lifecycleScale <= 1.0
    && 0.0 <= d.rotation < 360.0
  }

  /** A particle is skipped exactly when it is at or behind the viewer or
      its opacity is not positive; whatever is drawn is proper. */
  lemma DrawOfSkipsExactly(s: Sprite, c: Cache, centerX: int, centerY: int, width: int, height: int,
                           pow15: real -> real)
    requires Live(s) && Pow15Like(pow15)
    ensures var p := Project(s, c, centerX, centerY);
      DrawOf(s, c, centerX, centerY, width, height, pow15).None? <==>
        (s.z <= 0.0 || Opacity(s, ScreenScale(s), width, height, p.screenX, p.screenY) <= 0.0)
    ensures var r := DrawOf(s, c, centerX, centerY, width, height, pow15);
      r.Some? ==> Proper(r.value)
  {
    var p := Project(s, c, centerX, centerY);
    if s.z > 0.0 {
      PerspectivePositive(s.z);
      assert ScreenScale(s) >= 0.0;
      OpacityInUnitRange(s, ScreenScale(s), width, height, p.screenX, p.screenY);
      LifecycleScaleRange(s, pow15);
    }
  }

  /** Refreshing the cache does not change what a particle draws, so a
      second paint with no tick in between draws it the same way. */
  lemma DrawOfAgainIsStable(s: Sprite, c: Cache, centerX: int, centerY: int, width: int, height: int,
                            pow15: real -> real)
    requires Live(s) && Pow15Like(pow15)
    ensures DrawOf(s, CacheAfter(s, c), centerX, centerY, width, height, pow15)
         == DrawOf(s, c, centerX, centerY, width, height, pow15)
  {
    ProjectAgainIsStable(s, c, centerX, centerY);
  }

  predicate AllLive(ss: seq<Sprite>) {
    forall i :: 0 <= i < |ss| ==> Live(ss[i])
  }

  /** The commands a particle adds to the frame: none when skipped. */
  function Contribution(d: Option<Draw>): (r: seq<Draw>)
    ensures d.None? ==> r == []
    ensures d.Some? ==> r == [d.value]
  {
    match d
    case None => []
    case Some(draw) => [draw]
  }

  /** The draw commands of one paint over the first `n` particles, in
      drawing order: each particle's command, skipped particles left out. */
  function Frame(ss: seq<Sprite>, cs: seq<Cache>, n: nat, centerX: int, centerY: int, width: int, height: int,
                 pow15: real -> real): (r: seq<Draw>)
    requires n <= |ss| == |cs| && AllLive(ss) && Pow15Like(pow15)
    ensures |r| <= n
    ensures forall i :: 0 <= i < |r| ==> Proper(r[i])
  {
    if n == 0 then []
    else
      DrawOfSkipsExactly(ss[n - 1], cs[n - 1], centerX, centerY, width, height, pow15);
      Frame(ss, cs, n - 1, centerX, centerY, width, height, pow15)
        + Contribution(DrawOf(ss[n - 1], cs[n - 1], centerX, centerY, width, height, pow15))
  }

  /** The caches after one paint: each particle's cache refreshed for its depth. */
  function CachesAfter(ss: seq<Sprite>, cs: seq<Cache>): (r: seq<Cache>)
    requires |ss| == |cs|
    ensures |r| == |cs|
    ensures forall i :: 0 <= i < |cs| ==> r[i] == CacheAfter(ss[i], cs[i])
  {
    seq(|cs|, i requires 0 <= i < |cs| => CacheAfter(ss[i], cs[i]))
  }

  /** Painting twice with no tick in between draws the same frame. */
  lemma {:induction false} FrameAgainIsStable(ss: seq<Sprite>, cs: seq<Cache>, n: nat, centerX: int, centerY: int,
                                               width: int, height: int, pow15: real -> real)
    requires n <= |ss| == |cs| && AllLive(ss) && Pow15Like(pow15)
    ensures Frame(ss, CachesAfter(ss, cs), n, centerX, centerY, width, height, pow15)
         == Frame(ss, cs, n, centerX, centerY, width, height, pow15)
  {
    if n > 0 {
      FrameAgainIsStable(ss, cs, n - 1, centerX, centerY, width, height, pow15);
      DrawOfAgainIsStable(ss[n - 1], cs[n - 1], centerX, centerY, width, height, pow15);
    }
  }

  // ---------------------------------------------------------------------
  // Depth order
  // ---------------------------------------------------------------------

  /** Depth does not increase along the list: farther particles come first. */
  ghost predicate DescendingZ(ps: seq<Particle>)
    reads (set p | p in ps)`Z
  {
    forall i, j :: 0 <= i < j < |ps| ==> ps[i].Z >= ps[j].Z
  }

  /** `sorted` is `ps` reordered back to front. */
  ghost predicate IsDepthOrder(sorted: seq<Particle>, ps: seq<Particle>)
    reads (set p | p in sorted)`Z
  {
    multiset(sorted) == multiset(ps) && DescendingZ(sorted)
  }

  /** `List.Sort` with the descending-depth comparison, as an insertion sort.
      The library's algorithm is unstable, so only the order of depths is
      promised. */
  method SortByDepth(a: array<Particle>)
    modifies a
    ensures DescendingZ(a[..]) && multiset(a[..]) == multiset(old(a[..]))
  {
    for i := 0 to a.Length
      invariant DescendingZ(a[..i])
      invariant multiset(a[..]) == multiset(old(a[..]))
    {
      Insert(a, i);
    }
    assert a[..a.Length] == a[..];
  }

  /** One insertion step: a[i] moves left past every nearer particle. */
  method Insert(a: array<Particle>, i: nat)
    requires i < a.Length && DescendingZ(a[..i])
    modifies a
    ensures DescendingZ(a[..i + 1]) && multiset(a[..]) == multiset(old(a[..]))
  {
    var j := i;
    while j > 0 && a[j - 1].Z < a[j].Z
      invariant 0 <= j <= i
      invariant forall k, l :: 0 <= k < l <= i && k != j && l != j ==> a[k].Z >= a[l].Z
      invariant forall l :: j < l <= i ==> a[j].Z > a[l].Z
      invariant multiset(a[..]) == multiset(old(a[..]))
    {
      Swap(a, j);
      j := j - 1;
    }
  }

  /** Exchanges two neighbouring particles of the list. */
  method Swap(a: array<Particle>, j: nat)
    requires 0 < j < a.Length
    modifies a
    ensures a[j - 1] == old(a[j]) && a[j] == old(a[j - 1])
    ensures forall k :: 0 <= k < a.Length && k != j - 1 && k != j ==> a[k] == old(a[k])
    ensures multiset(a[..]) == multiset(old(a[..]))
  {
    a[j - 1], a[j] := a[j], a[j - 1];
  }

  /** Taking one particle out of a back-to-front order leaves one. */
  lemma DescendingWithout(b: seq<Particle>, k: nat)
    requires DescendingZ(b) && k < |b|
    ensures DescendingZ(b[..k] + b[k + 1..])
  {
    var b' := b[..k] + b[k + 1..];
    assert forall i :: 0 <= i < |b'| ==> b'[i] == b[if i < k then i else i + 1];
  }

  /** Removing the first particle of `a`, found at `k` in `b`, keeps the
      two lists permutations of each other. */
  lemma PermutationWithout(a: seq<Particle>, b: seq<Particle>, k: nat)
    requires multiset(a) == multiset(b) && k < |b| && a != [] && b[k] == a[0]
    ensures multiset(a[1..]) == multiset(b[..k] + b[k + 1..])
  {
    assert a == [a[0]] + a[1..];
    assert multiset(a[1..]) == multiset(a) - multiset{a[0]};
    assert b == b[..k] + [b[k]] + b[k + 1..];
    assert multiset(b[..k] + b[k + 1..]) == multiset(b) - multiset{b[k]};
  }

  /** The front of a back-to-front order is a farthest particle, so two
      orders of the same particles start at the same depth. */
  lemma FrontDepthsAgree(a: seq<Particle>, b: seq<Particle>)
    requires multiset(a) == multiset(b) && DescendingZ(a) && DescendingZ(b) && a != []
    ensures b != [] && a[0].Z == b[0].Z
  {
    assert a[0] in multiset(b);
    assert b[0] in multiset(a);
  }

  /** Two back-to-front orders of the same particles agree on the depth at
      every position: ties aside, the drawing order is determined. */
  lemma {:induction false} DepthOrderIsUnique(a: seq<Particle>, b: seq<Particle>)
    requires multiset(a) == multiset(b) && DescendingZ(a) && DescendingZ(b)
    ensures |a| == |b|
    ensures forall i :: 0 <= i < |a| ==> a[i].Z == b[i].Z
    decreases |a|
  {
    assert |a| == |multiset(a)| == |b|;
    if a != [] {
      FrontDepthsAgree(a, b);
      assert a[0] in multiset(b);
      var k :| 0 <= k < |b| && b[k] == a[0];
      var b' := b[..k] + b[k + 1..];
      PermutationWithout(a, b, k);
      DescendingWithout(b, k);
      DepthOrderIsUnique(a[1..], b');
      forall i | 0 < i < |a|
        ensures a[i].Z == b[i].Z
      {
        assert a[i] == a[1..][i - 1];
        if i <= k {
          assert b'[i - 1] == b[i - 1];
        } else {
          assert b'[i - 1] == b[i];
        }
      }
    }
  }

  // ---------------------------------------------------------------------
  // The form
  // ---------------------------------------------------------------------

  /** Each particle occurs at most once. */
  predicate Distinct(ps: seq<Particle>) {
    forall i, j :: 0 <= i < j < |ps| ==> ps[i] != ps[j]
  }

  lemma {:induction false} DistinctCountsOnce(ps: seq<Particle>, x: Particle)
    requires Distinct(ps)
    ensures multiset(ps)[x] <= 1
    decreases |ps|
  {
    if ps != [] {
      var n := |ps| - 1;
      assert ps == ps[..n] + [ps[n]];
      DistinctCountsOnce(ps[..n], x);
      if ps[n] == x {
        assert x !in ps[..n];
      }
    }
  }

  /** A reordering of distinct particles is distinct. */
  lemma DistinctPermutation(a: seq<Particle>, b: seq<Particle>)
    requires multiset(a) == multiset(b) && Distinct(b)
    ensures Distinct(a)
  {
    forall i, j | 0 <= i < j < |a|
      ensures a[i] != a[j]
    {
      if a[i] == a[j] {
        assert a == a[..j] + [a[j]] + a[j + 1..];
        assert a[i] in multiset(a[..j]);
        DistinctCountsOnce(b, a[j]);
        assert false;
      }
    }
  }

  /** Every particle of a reordering of live particles is live. */
  lemma ReorderingLive(sorted: seq<Particle>, ps: seq<Particle>)
    requires multiset(sorted) == multiset(ps) && forall p | p in ps :: p.Valid()
    ensures AllLive(Sprites(sorted))
  {
    forall i | 0 <= i < |sorted|
      ensures Live(sorted[i].State())
    {
      assert sorted[i] in multiset(ps);
      assert sorted[i] in ps && sorted[i].Valid();
    }
  }

  /** In a reordering of a pool of distinct particles, no other entry is
      the i-th one. */
  lemma OthersDiffer(a: seq<Particle>, b: seq<Particle>, i: nat)
    requires multiset(a) == multiset(b) && Distinct(b) && i < |a|
    ensures forall j :: 0 <= j < |a| && j != i ==> a[j] != a[i]
  {
    DistinctPermutation(a, b);
  }

  /** Every entry of a reordering of the pool is in the pool. */
  lemma InPool(a: seq<Particle>, b: seq<Particle>)
    requires multiset(a) == multiset(b)
    ensures forall i :: 0 <= i < |a| ==> a[i] in b
  {
    forall i | 0 <= i < |a|
      ensures a[i] in b
    {
      assert a[i] in multiset(b);
    }
  }

  /** The particles' states, in list order. */
  ghost function Sprites(ps: seq<Particle>): (r: seq<Sprite>)
    reads set p | p in ps
    ensures |r| == |ps| && forall i :: 0 <= i < |ps| ==> r[i] == ps[i].State()
  {
    seq(|ps|, i requires 0 <= i < |ps| reads set p | p in ps => ps[i].State())
  }

  /** The particles' projection caches, in list order. */
  ghost function Caches(ps: seq<Particle>): (r: seq<Cache>)
    reads set p | p in ps
    ensures |r| == |ps| && forall i :: 0 <= i < |ps| ==> r[i] == ps[i].Cached()
  {
    seq(|ps|, i requires 0 <= i < |ps| reads set p | p in ps => ps[i].Cached())
  }

  class ScreensaverForm {
    var particles: seq<Particle>
    var sortedParticles: seq<Particle>
    var needsSorting: bool
    var centerX: int
    var centerY: int
    /** The client size, which the host reports and Resize reads. */
    var clientWidth: int
    var clientHeight: int

    /** A pool of 100 distinct live particles; whenever the order is not
        stale, the cached list is the pool back to front. */
    ghost predicate Valid()
      reads this, set p | p in particles, set p | p in sortedParticles
    {
      && |particles| == ParticleCount
      && Distinct(particles)
      && (forall p | p in particles :: p.Valid())
      && (!needsSorting ==> IsDepthOrder(sortedParticles, particles))
    }

    /** Creates the pool of 100 particles around the center of the client
        area, each respawned with its own draws; the order starts stale. */
    constructor (width: nat, height: nat, draws: seq<ResetDraws>)
      requires |draws| == ParticleCount
      ensures Valid() && needsSorting && sortedParticles == []
      ensures clientWidth == width && clientHeight == height
      ensures centerX == width / 2 && centerY == height / 2
      ensures |particles| == ParticleCount
      ensures forall i :: 0 <= i < ParticleCount ==>
                particles[i].State() == Respawn(draws[i]) && particles[i].Cached() == InitialCache
      ensures forall p | p in particles :: fresh(p)
    {
      var cx, cy := width / 2, height / 2;
      clientWidth, clientHeight := width, height;
      centerX, centerY := cx, cy;
      var ps: seq<Particle> := [];
      for i := 0 to ParticleCount
        invariant |ps| == i && Distinct(ps)
        invariant forall j :: 0 <= j < i ==>
                    ps[j].State() == Respawn(draws[j]) && ps[j].Cached() == InitialCache && ps[j].Valid()
        invariant forall p | p in ps :: fresh(p)
      {
        var p := new Particle(cx, cy, draws[i]);
        ps := ps + [p];
      }
      particles := ps;
      sortedParticles := [];
      needsSorting := true;
    }

    /** ScreensaverForm_Resize: only the center follows the new client
        size; the particles are not touched. */
    method Resize(width: nat, height: nat)
      requires Valid()
      modifies this`clientWidth, this`clientHeight, this`centerX, this`centerY
      ensures Valid()
      ensures clientWidth == width && clientHeight == height
      ensures centerX == width / 2 && centerY == height / 2
    {
      clientWidth, clientHeight := width, height;
      centerX := width / 2;
      centerY := height / 2;
    }
 
    /** AnimationTimer_Tick: the elapsed time, capped at 0.1 s, advances
        every particle once, in list order, with the same center; then the
        depth order is marked stale. `draws[i]` are the random draws used if
        particle i respawns. */
    method Tick(elapsed: real, draws: seq<ResetDraws>)
      requires Valid() && |draws| == |particles|
      modifies set p | p in particles, this`needsSorting
      ensures Valid() && needsSorting
      ensures forall i :: 0 <= i < |particles| ==>
                && particles[i].State() == Step(old(particles[i].State()), ClampStep(elapsed), draws[i])
                && particles[i].Cached() == old(particles[i].Cached())
    {
      var deltaTime := ClampStep(elapsed);
      var i := 0;
      while i < |particles|
        invariant 0 <= i <= |particles|
        invariant forall j :: 0 <= j < i ==>
                    && particles[j].State() == Step(old(particles[j].State()), deltaTime, draws[j])
                    && particles[j].Cached() == old(particles[j].Cached())
        invariant forall j :: i <= j < |particles| ==>
                    particles[j].State() == old(particles[j].State()) && particles[j].Cached() == old(particles[j].Cached())
        invariant forall p | p in particles :: p.Valid()
      {
        particles[i].Update(deltaTime, centerX, centerY, draws[i]);
        i := i + 1;
      }
      needsSorting := true;
    }
 
    /** OnPaint's sorting block: only when the order is stale is the cached
        list refilled from the pool and sorted back to front. */
    method SortIfNeeded()
      requires Valid()
      modifies this`sortedParticles, this`needsSorting
      ensures Valid() && !needsSorting
      ensures old(!needsSorting) ==> sortedParticles == old(sortedParticles)
    {
      if needsSorting {
        var ps := particles;
        var a := new Particle[|ps|](k requires 0 <= k < |ps| => ps[k]);
        assert a[..] == ps;
        SortByDepth(a);
        sortedParticles := a[..];
        needsSorting := false;
      }
    }

    /** OnPaint: re-sort the pool back to front if the order is stale,
        then draw it in that order; the particles move only in their
        caches, and the frame is the one `Frame` gives for the depth order
        and the caches as they were before painting. */
    method Paint(pow15: real -> real) returns (draws: seq<Draw>, ghost before: seq<Cache>)
      requires Valid() && Pow15Like(pow15)
      modifies this`sortedParticles, this`needsSorting
      modifies (set p | p in particles)`cachedZ, (set p | p in particles)`cachedPerspective
      ensures Valid() && !needsSorting && IsDepthOrder(sortedParticles, particles)
      ensures old(!needsSorting) ==> sortedParticles == old(sortedParticles)
      ensures AllLive(Sprites(sortedParticles))
      ensures var sorted := sortedParticles;
              && |before| == |sorted|
              && forall i :: 0 <= i < |sorted| ==> old(allocated(sorted[i])) && before[i] == old(sorted[i].Cached())
      ensures draws == Frame(Sprites(sortedParticles), before, |sortedParticles|,
                             centerX, centerY, clientWidth, clientHeight, pow15)
      ensures Caches(sortedParticles) == CachesAfter(Sprites(sortedParticles), before)
      ensures forall p | p in old(particles) :: p.State() == old(p.State())
    {
      SortIfNeeded();
      ghost var sorted := sortedParticles;
      before := Caches(sorted);
      InPool(sorted, particles);
      assert forall i :: 0 <= i < |sorted| ==> sorted[i] in old(particles) && old(allocated(sorted[i]));
      assert forall i :: 0 <= i < |sorted| ==> before[i] == old(sorted[i].Cached());
      draws := DrawAll(pow15);
      assert sortedParticles == sorted;
    }

    /** Painting twice with no tick in between draws the same frame: the
        second paint finds the order still fresh and the caches the first
        one left, which project every particle the same way. */
    method PaintTwice(pow15: real -> real) returns (first: seq<Draw>, second: seq<Draw>)
      requires Valid() && Pow15Like(pow15)
      modifies this`sortedParticles, this`needsSorting
      modifies (set p | p in particles)`cachedZ, (set p | p in particles)`cachedPerspective
      ensures Valid() && first == second
    {
      ghost var before1, before2;
      first, before1 := Paint(pow15);
      ghost var sorted := sortedParticles;
      ghost var ss := Sprites(sorted);
      ghost var cs := Caches(sorted);
      second, before2 := Paint(pow15);
      InPool(sorted, particles);
      assert Sprites(sortedParticles) == ss;
      assert before2 == cs == CachesAfter(ss, before1);
      FrameAgainIsStable(ss, before1, |sorted|, centerX, centerY, clientWidth, clientHeight, pow15);
    }

    /** Progress of the drawing loop after `i` particles of the
        back-to-front list: those have refreshed caches and produced
        `draws`, the rest still hold the caches `cs`; `ss` are the (fixed)
        particle states. */
    ghost predicate Drawn(i: nat, ss: seq<Sprite>, cs: seq<Cache>, draws: seq<Draw>, pow15: real -> real)
      reads this, set p | p in sortedParticles
    {
      && i <= |sortedParticles| == |ss| == |cs| && AllLive(ss) && Pow15Like(pow15)
      && (forall j :: 0 <= j < |sortedParticles| ==>
            && sortedParticles[j].State() == ss[j]
            && sortedParticles[j].Cached() == (if j < i then CacheAfter(ss[j], cs[j]) else cs[j]))
      && draws == Frame(ss, cs, i, centerX, centerY, clientWidth, clientHeight, pow15)
    }

    /** OnPaint's drawing loop over the back-to-front list: each particle
        is projected (refreshing its cache) and, unless skipped, drawn. */
    method DrawAll(pow15: real -> real) returns (draws: seq<Draw>)
      requires Valid() && !needsSorting && Pow15Like(pow15)
      modifies (set p | p in particles)`cachedZ, (set p | p in particles)`cachedPerspective
      ensures Valid() && IsDepthOrder(sortedParticles, particles)
      ensures forall p | p in particles :: p.State() == old(p.State())
      ensures AllLive(Sprites(sortedParticles))
      ensures Caches(sortedParticles) == CachesAfter(Sprites(sortedParticles), old(Caches(sortedParticles)))
      ensures draws == Frame(Sprites(sortedParticles), old(Caches(sortedParticles)), |sortedParticles|,
                             centerX, centerY, clientWidth, clientHeight, pow15)
    {
      DistinctPermutation(sortedParticles, particles);
      ReorderingLive(sortedParticles, particles);
      ghost var ss := Sprites(sortedParticles);
      ghost var cs := Caches(sortedParticles);
      var i := 0;
      draws := [];
      while i < |sortedParticles|
        invariant Valid() && Drawn(i, ss, cs, draws, pow15)
      {
        assert sortedParticles[i] in multiset(particles);
        draws := DrawNext(i, sortedParticles[i], ss, cs, draws, pow15);
        i := i + 1;
      }
      assert Sprites(sortedParticles) == ss;
      ReorderingLive(sortedParticles, particles);
    }

    /** One turn of the drawing loop, on the i-th particle back to front. */
    method DrawNext(i: nat, particle: Particle, ghost ss: seq<Sprite>, ghost cs: seq<Cache>, draws: seq<Draw>,
                    pow15: real -> real) returns (draws': seq<Draw>)
      requires Valid() && !needsSorting && Drawn(i, ss, cs, draws, pow15)
      requires i < |sortedParticles| && particle == sortedParticles[i]
      modifies particle`cachedZ, particle`cachedPerspective
      ensures Valid() && Drawn(i + 1, ss, cs, draws', pow15)
    {
      OthersDiffer(sortedParticles, particles, i);
      assert particle in multiset(particles);
      var d := DrawOne(particle, pow15);
      draws' := draws + Contribution(d);
    }

    /** One iteration of OnPaint's drawing loop: project (refreshing the
        cache), skip on a non-positive size, compute the opacity from the
        exact perspective, skip on a non-positive opacity, otherwise draw
        with the lifecycle scale and the combined rotation. */
    method DrawOne(particle: Particle, pow15: real -> real) returns (d: Option<Draw>)
      requires particle.Valid() && Pow15Like(pow15)
      modifies particle`cachedZ, particle`cachedPerspective
      ensures particle.Valid() && particle.State() == old(particle.State())
      ensures particle.Cached() == CacheAfter(particle.State(), old(particle.Cached()))
      ensures d == DrawOf(particle.State(), old(particle.Cached()), centerX, centerY, clientWidth, clientHeight, pow15)
    {
      ghost var s := particle.State();
      ghost var c := particle.Cached();
      var size, screenX, screenY := particle.GetScreenSize(centerX, centerY);
      if s.z > 0.0 {
        ProjectionLeavesCacheNearDepth(s, c);
      }
      if size <= 0.0 {
        return None;
      }
      var perspective := FOV / Max(MinDepth, particle.Z);
      var screenScale := perspective * particle.Scale;
      assert screenScale == ScreenScale(s);
      var opacity := particle.GetOpacity(screenScale, clientWidth, clientHeight, screenX, screenY);
      if opacity <= 0.0 {
        return None;
      }
      var lifecycleScale := particle.GetLifecycleScale(pow15);
      var totalRotation := Rem360(particle.Rotation + particle.YRotation);
      if totalRotation < 0.0 {
        totalRotation := totalRotation + 360.0;
      }
      d := Some(Draw(screenX, screenY, size, opacity, lifecycleScale, totalRotation));
    }
  }
}
