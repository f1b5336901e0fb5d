# Finger tunnel screensaver — a Dafny model

This project models the star-tunnel screensaver: a Windows screensaver that
flies a swarm of finger sprites toward the viewer, plus its browser
reference engine. Four parts are modelled.

- **`Particle.cs`** (`particles.dfy`, module `Particles`). This is one
  sprite, a `class Particle` with the source's properties as fields.
  - `Reset` respawns it in place from fifteen random draws.
  - `Update` ages, moves and spins it, or respawns it when it expires or
    passes the viewer.
  - `GetScreenSize` projects it with a perspective cache keyed on depth.
  - `GetOpacity` and `GetLifecycleScale` fade and scale it along piecewise
    easing curves.
  - The methods are proved against pure functions on a snapshot value
    (`Sprite`): `Respawn`, `Step`, `Project`, `CacheAfter`, `Opacity` and
    `LifecycleScale`.
  - Lemmas give the ranges, the age invariant, angle normalisation, the
    cache's behaviour, and the continuity of the easing curves.
- **`ScreensaverForm.cs`** (`screensaver.dfy`, module `Screensaver`). This
  is the form without its window: a fixed pool of 100 particles.
  - The timer tick clamps the time step, updates every particle in order
    and marks the draw order stale.
  - The paint pass re-sorts lazily by descending depth into a cached list.
    It then decides, particle by particle, what `DrawImage` call is made:
    position, size, opacity, lifecycle scale and combined rotation.
  - Drawing is returned as a list of `Draw` commands, and `Frame` specifies
    that list.
  - The sort is an in-place insertion sort on an array of particles,
    proved sorted and a permutation. Lemmas show that any two depth orders
    of the same pool agree on every depth. They also show that painting
    twice without a tick draws the same frame.
- **`ref/tunnel.js`** (`tunnel.dfy`, module `Tunnel`). This is the browser
  engine `FingerTunnel`, a class whose `config`, `performance` and
  particle array are reassigned by its methods.
  - Particles are `Mote` records, created, updated, reset and projected by
    pure functions.
  - The setters clamp or choose their settings.
  - The frame-rate history is a 60-sample FIFO window. Its average drives
    adaptive frame skipping and particle reduction.
  - The screen-area tiers pick particle counts.
  - Each frame builds the list of visible particles and sorts it from far
    to near.
- **`Program.cs`** (`commandline.dfy`, module `CommandLine`). `Main`'s
  argument switch is a pure function from the argument list to a `Command`:
  `Fullscreen`, `Preview(parent)`, `Configure` or `Exit`.
  - It models `ToLower`, `Trim`, the two-character cut and `int.TryParse`.
  - Lemmas characterise all four outcomes and show the round trip between
    a printed and a parsed window handle.

`arith.dfy` (module `RealArith`) holds small facts of real arithmetic used
by the proofs. `wrappers.dfy` holds the `Option` type.

Floats are modelled as `real`. Each `Random.NextDouble()` or
`Math.random()` draw is a parameter in [0, 1). The cosine and sine of the
random spawn angle are parameters in [-1, 1]. `Math.Pow(·, 1.5)` is a
function parameter `pow15`, assumed only to map 0 to 0 and 1 to 1 and to
be monotone on [0, 1]. The clock is replaced by the elapsed time, passed
as a parameter.

## Model

| member | source | states |
|---|---|---|
| `Particles.Respawn` | Particle.cs:56-89 | After a reset: age 0, fade-in 1.0 and fade-out 1.5, scale in [0.5,1), max age in [6,12), spawn delay in [0,2), depth in [0,1000), forward velocity in (-4,-1], both angles in [0,360), spin speeds in [-30,30) and [-60,60), position within ±1100 of the axis. |
| `Particles.Scaled` | Particle.cs:65-86 | A uniform draw in [0,1) stretched to a width and shifted by an offset lands in [offset, offset + width). |
| `Particles.SpawnCoordinate` | Particle.cs:59-64 | A spawn coordinate, the angle's cosine or sine times a radius in [200,1000) plus a jitter of ±100, lies strictly within ±1100. The tunnel (ref/tunnel.js lines 172-173) uses the same formula and the same function. |
| `Particles.Particle.constructor` | Particle.cs:48-51 | A new particle holds exactly the reset state for its draws, with the perspective cache still at its initial value. |
| `Particles.Particle.Reset` | Particle.cs:56-89 | The particle's properties become `Respawn` of the draws; the perspective cache is untouched. |
| `Particles.Particle.Place` | Particle.cs:63-70 | Writes position and velocity as `Respawn` gives them. |
| `Particles.Particle.Orient` | Particle.cs:73-81 | Writes both angles, both spin speeds and the scale as `Respawn` gives them. |
| `Particles.Particle.Rewind` | Particle.cs:84-88 | Writes age, max age, spawn delay and the fade durations as `Respawn` gives them. |
| `Particles.Rem360` | Particle.cs:116 | The float `% 360` lies strictly between -360 and 360 and has the sign of its operand. |
| `Particles.NormalizeAngle` | Particle.cs:116-120 | Remainder, then +360 when negative, always lands in [0,360). |
| `Particles.NormalizeAngleIsFlooredModulo` | Particle.cs:116-120 | The two-step normalisation equals the floored modulo `a - 360·floor(a/360)`. |
| `Particles.NormalizeAngleKeepsNormalized` | Particle.cs:116-120 | An angle already in [0,360) is left unchanged. |
| `Particles.Step` | Particle.cs:94-121 | An update that expires the particle (new age ≥ max age + spawn delay, or depth ≤ 0) yields exactly the respawned state. Either way the age ends below the expiry time and both angles in [0,360). |
| `Particles.SpinByRemainder` | Particle.cs:112-120 | A spun angle is the remainder of the advanced angle, lifted by 360 exactly when negative. |
| `Particles.SpinIsFlooredModulo` | Particle.cs:112-120 | A spun angle is the floored modulo of the advanced angle, for any sign of speed or step. |
| `Particles.StepIntegrates` | Particle.cs:97-113 | Without expiry: age grows by dt, x and y by velocity·dt, z by velocityZ·dt·60, the angles by speed·dt modulo 360; velocities, speeds, scale, lifetimes and fades are unchanged. |
| `Particles.StepKeepsLive` | Particle.cs:84-121 | The reset ranges and the age invariant hold after every update when they held before. |
| `Particles.StepStaysInsideTunnel` | Particle.cs:100-109 | With dt ≥ 0, a particle inside the tunnel depth stays inside it. |
| `Particles.ViewerReachedRespawns` | Particle.cs:100-104 | A particle at or behind the viewer is respawned and nothing else happens. |
| `Particles.Particle.Update` | Particle.cs:94-121 | The particle's new state is `Step` of its old state; the cache is untouched and the invariant is kept. |
| `Particles.Particle.Move` | Particle.cs:107-109 | Writes x, y and z advanced by velocity·dt (z by velocityZ·dt·60). |
| `Particles.Particle.Turn` | Particle.cs:112-120 | Writes both angles turned and normalised. |
| `Particles.Particle.IsOutOfBounds` | Particle.cs:126-130 | Always false. |
| `Particles.Project` | Particle.cs:135-168 | At or behind the viewer: size 0 at the center. Otherwise size in [16,1000] and each offset from the center within ±10000, whatever the cache holds. |
| `Particles.PerspectivePositive` | Particle.cs:148 | The perspective factor `FOV / max(z, 0.1)` is positive. |
| `Particles.ProjectionLeavesCacheNearDepth` | Particle.cs:144-149 | After projecting a particle in front of the viewer, the cached depth is within 0.1 of its depth and the cached perspective is the positive perspective of the cached depth. |
| `Particles.ProjectAgainIsStable` | Particle.cs:144-168 | Projecting again gives the same result and leaves the cache as it is. |
| `Particles.FirstProjectionIsExact` | Particle.cs:35-36 | With the initial cache (-1), the first projection uses the exact perspective of the particle's depth. |
| `Particles.CacheAfter` | Particle.cs:137-149 | The cache is either kept or set to the current depth with its perspective, and it is kept at or behind the viewer. With `ProjectionLeavesCacheNearDepth`, the cache afterwards is within 0.1 of a positive depth. With `ProjectAgainIsStable`, a second projection neither moves it nor changes the result. |
| `Particles.Particle.GetScreenSize` | Particle.cs:135-169 | Returns `Project` of the particle with the old cache and leaves the cache as `CacheAfter` says. |
| `Particles.Particle.RefreshPerspective` | Particle.cs:145-152 | Recomputes the cached perspective only when the depth moved by more than 0.1, and returns the cached value. |
| `Particles.LifecycleAlpha` | Particle.cs:192-219 | Alpha is 0 before the spawn delay and 1 between the end of fade-in and the start of fade-out. The lemmas below bound it and prove both joins continuous. |
| `Particles.LifecycleAlphaInUnitRange` | Particle.cs:192-219 | Lifecycle alpha lies in [0,1] whenever the age is below the expiry time. |
| `Particles.LifecycleAlphaStartsAtZero` | Particle.cs:195-205 | During fade-in, alpha is non-negative and at most 3·(time since spawn)/fade-in: it starts continuously from 0. |
| `Particles.LifecycleAlphaReachesOne` | Particle.cs:198-217 | During fade-in, 1 - alpha is at most the fade-in time left, scaled: the curve joins the steady value 1 continuously. |
| `Particles.LifecycleAlphaLeavesOne` | Particle.cs:207-217 | During fade-out, 1 - alpha is at most twice the time since fade-out began, scaled: the curve leaves 1 continuously. |
| `Particles.LifecycleAlphaScenario` | Particle.cs:192-219 | With the reset fades: alpha is 0 before the spawn delay and 1 in steady state. |
| `Particles.DistanceAlpha` | Particle.cs:180 | `min(1, 0.2 + 0.8·screenScale)` lies in [0.2,1] for a non-negative screen scale. |
| `Particles.EdgeFade` | Particle.cs:224-251 | Edge alpha is in [0,1]; it is 1 exactly when the nearest edge is at least 400 away, and 0 exactly when the point is on or beyond an edge. |
| `Particles.Opacity` | Particle.cs:174-187 | Opacity is 0 before the spawn delay. `OpacityInUnitRange` gives its range and the edge cut-off. |
| `Particles.OpacityInUnitRange` | Particle.cs:174-187 | Opacity is in [0,1] for a non-negative screen scale. It is 0 before the spawn delay and 0 on or beyond an edge. |
| `Particles.Particle.GetOpacity` | Particle.cs:174-187 | The particle's opacity lies in [0,1] while it satisfies the reset ranges. |
| `Particles.LifecycleScale` | Particle.cs:256-283 | The scale is 0.1 before the spawn delay and 1 between fade-in and fade-out. The lemmas below give its range and its joins. |
| `Particles.LifecycleScaleRange` | Particle.cs:256-283 | Lifecycle scale is in [0.1,1], and strictly below 1 during fade-in. |
| `Particles.LifecycleScaleJoins` | Particle.cs:256-283 | The scale is 0.1 at the spawn delay and 1 at the end of fade-in. The fade-out branch starts at 1. |
| `Particles.LifecycleScaleReachesOne` | Particle.cs:264-270 | During fade-in, 1 - scale is at most 0.9 times the fade-in time left, scaled: the scale joins 1 continuously. |
| `Particles.Particle.GetLifecycleScale` | Particle.cs:256-283 | The particle's lifecycle scale lies in [0.1,1] while it satisfies the reset ranges. |
| `Screensaver.ClampStep` | ScreensaverForm.cs:178-179 | The step is at most 0.1 s, either the elapsed time or 0.1, and the elapsed time itself whenever that is at most 0.1 (no lower clamp). |
| `Screensaver.DrawOf` | ScreensaverForm.cs:211-237 | A draw that is made has positive size and opacity and carries the particle's lifecycle scale. Nothing is drawn before the spawn delay. |
| `Screensaver.DrawOfSkipsExactly` | ScreensaverForm.cs:211-237 | A particle is skipped exactly when it is at or behind the viewer (size ≤ 0) or its opacity is ≤ 0. A draw that is made has size in [16,1000], opacity in (0,1], lifecycle scale in [0.1,1] and rotation in [0,360). |
| `Screensaver.DrawOfAgainIsStable` | ScreensaverForm.cs:211-237 | A particle drawn again with the cache its first draw left is drawn identically. |
| `Screensaver.Frame` | ScreensaverForm.cs:211-266 | A frame has at most one draw per particle, and every draw in it is well formed. |
| `Screensaver.FrameAgainIsStable` | ScreensaverForm.cs:203-266 | A frame painted again with the caches the first painting left is the same frame. |
| `Screensaver.SortByDepth` | ScreensaverForm.cs:205-207 | The list is sorted into non-increasing depth and is a permutation of its old contents. |
| `Screensaver.Insert` | ScreensaverForm.cs:207 | One insertion step extends the sorted prefix by one and permutes the list. |
| `Screensaver.DepthOrderIsUnique` | ScreensaverForm.cs:207 | Any two depth orders of the same particles have the same depth at every position; only ties may come in either order. |
| `Screensaver.ScreensaverForm.constructor` | ScreensaverForm.cs:23-64 | The pool holds exactly 100 fresh particles, each in its reset state. The center is half the client size, and the order is marked stale. |
| `Screensaver.ScreensaverForm.Resize` | ScreensaverForm.cs:91-95 | Only the client size and the center, half the client size, change; the particles are untouched. |
| `Screensaver.ScreensaverForm.Tick` | ScreensaverForm.cs:171-192 | Every particle is updated exactly once with the clamped step; each new state is `Step` of its old state. The order is marked stale. |
| `Screensaver.ScreensaverForm.SortIfNeeded` | ScreensaverForm.cs:203-209 | The cached order is rebuilt as a depth order of the pool only when it is stale, and the flag is cleared. Otherwise the order is kept. |
| `Screensaver.ScreensaverForm.Paint` | ScreensaverForm.cs:194-266 | After painting, the order is a depth order of the pool. It is unchanged if no tick came in between. The draws are exactly `Frame` of the sorted particles with their caches before the paint. Every cache moves as `CacheAfter` says, and no particle's state changes. |
| `Screensaver.ScreensaverForm.PaintTwice` | ScreensaverForm.cs:194-266 | Two paints with no tick in between issue the same draws. |
| `Screensaver.ScreensaverForm.DrawAll` | ScreensaverForm.cs:211-266 | The loop over the sorted list draws `Frame` of it and leaves every particle's state unchanged. Each cache moves as `CacheAfter` says. |
| `Screensaver.ScreensaverForm.DrawNext` | ScreensaverForm.cs:211-266 | One loop step extends the drawn prefix by one particle. |
| `Screensaver.ScreensaverForm.DrawOne` | ScreensaverForm.cs:213-237 | One particle's draw is `DrawOf` of its state and old cache. Its state is unchanged and its cache moves as `CacheAfter` says. |
| `Tunnel.DrawnDepth` | ref/tunnel.js:174 | A drawn depth lies in [0, tunnel depth). |
| `Tunnel.CreateParticle` | ref/tunnel.js:167-196 | A new particle satisfies the spawn ranges, has age 0 and alpha 0, is visible at screen origin with scale 1, and has depth in [0, tunnel depth) and rotation in [0, 2π). |
| `Tunnel.ResetParticle` | ref/tunnel.js:241-256 | A reset puts the particle at exactly the tunnel depth with age 0 and alpha 0 and redraws its lifetime and velocity in range. Rotation, spin, scale, fades and screen fields are kept. |
| `Tunnel.ResetMatchesCreate` | ref/tunnel.js:167-196 | A reset draws position, velocity and lifetime as creation does from the same draws; only the depth differs. |
| `Tunnel.Spawned` | ref/tunnel.js:159-165 | `createParticles` yields exactly max(count, 0) particles, each within the spawn ranges, at age 0 and inside the tunnel. |
| `Tunnel.TransitionAlpha` | ref/tunnel.js:201-222 | Without smooth transitions, alpha is 1 iff the age has reached the spawn delay and 0 otherwise. Before the spawn delay it is 0 in either mode. |
| `Tunnel.ProjectParticle` | ref/tunnel.js:280-299 | At or behind the viewer the particle only becomes invisible. Otherwise it is visible iff its screen point is strictly inside the culling bounds and its screen scale exceeds 0.01. Only the screen fields change. |
| `Tunnel.InsideTunnelOnlyBoundsCull` | ref/tunnel.js:280-299 | Inside the tunnel, visibility is decided by the culling bounds alone. |
| `Tunnel.Integrate` | ref/tunnel.js:229-235 | Only x, y, z and the rotation change. Depth moves by 60·speed·vz·dt. |
| `Tunnel.UpdateParticle` | ref/tunnel.js:198-239 | Scale, spin and fade durations are kept. The age either grows by dt or restarts at 0 on a reset. A visible particle is in front of the viewer. The lemmas below split it into the integrating and the respawning case. |
| `Tunnel.UpdateParticleIntegrates` | ref/tunnel.js:198-239 | Without expiry: age grows by dt, the position by velocity·dt·speed (z by ·60), rotation by spin·dt·60, and the fixed parameters are unchanged. |
| `Tunnel.UpdateParticleRespawns` | ref/tunnel.js:224-239 | On expiry the particle is reset to the tunnel depth with age and alpha 0 and still integrated in the same call, so its depth is the tunnel depth plus one step. With dt ≥ 0 and speed ≥ 0 it is not deeper than the tunnel. |
| `Tunnel.UpdateParticleSwitchesAlpha` | ref/tunnel.js:220-222 | Without smooth transitions or in low-performance mode, alpha is 1 iff age ≥ spawn delay and 0 otherwise. |
| `Tunnel.UpdateKeepsSound` | ref/tunnel.js:198-256 | The spawn ranges and the age invariant are kept by every update. |
| `Tunnel.UpdateStaysInsideTunnel` | ref/tunnel.js:198-256 | With dt ≥ 0 and speed ≥ 0, a particle never ends deeper than the tunnel. |
| `Tunnel.Visible` | ref/tunnel.js:367-374 | The visible list holds a particle iff the array holds it and it is visible. |
| `Tunnel.VisibleIsExactlyTheVisible` | ref/tunnel.js:367-374 | Each visible particle occurs in the visible list as often as in the array; no invisible one occurs. |
| `Tunnel.InsertByDepth` | ref/tunnel.js:377 | Insertion into a far-to-near list keeps it far to near and adds exactly the one particle. |
| `Tunnel.SortByDepth` | ref/tunnel.js:377 | The sort is far to near (non-increasing z) and a permutation of its input. |
| `Tunnel.Newest` | ref/tunnel.js:387-391 | The window keeps at most 60 samples, all of them the newest, in order. |
| `Tunnel.SumBounds` | ref/tunnel.js:394 | A sum of samples in [lo, hi] lies between n·lo and n·hi. |
| `Tunnel.MeanWithin` | ref/tunnel.js:394 | The average frame rate lies between the smallest and largest bound of the samples. |
| `Tunnel.Round` | ref/tunnel.js:395 | `Math.round` gives the integer within half a unit, ties rounded up. |
| `Tunnel.ClampSpeed` | ref/tunnel.js:453-460 | The speed ends in [0.1, 5]; it is kept iff it was in range, else set to the nearer bound. |
| `Tunnel.ClampFPS` | ref/tunnel.js:658-661 | The target frame rate ends in [30, 60]; it is kept iff it was in range, else set to the nearer bound. |
| `Tunnel.ChosenCount` | ref/tunnel.js:462-472 | The count is one of 50, 100, 200; it is the requested count iff that is one of them (otherwise 100). |
| `Tunnel.PerformanceTier` | ref/tunnel.js:483-529 | 'low' alone sets low-performance mode, skip 2 and target 30. 'high' and 'low' switch adaptive quality off, and every other mode leaves it on with skip 1 and target 60. |
| `Tunnel.EffectsFor` | ref/tunnel.js:531-569 | Smooth transitions are off iff the mode is 'minimal'; enhanced effects are on iff it is 'enhanced'. |
| `Tunnel.AdaptedCount` | ref/tunnel.js:142-150 | The adapted target is between 0 and the count, and equal to it up to 1920×1080. |
| `Tunnel.AdaptedCountShrinksWithArea` | ref/tunnel.js:142-150 | A larger screen never gets a larger target. |
| `Tunnel.ScreenCount` | ref/tunnel.js:630-648 | The screen target is between 0 and the count, and equal to it up to 1920×1080. |
| `Tunnel.ScreenCountShrinksWithArea` | ref/tunnel.js:630-648 | A larger screen never gets a larger target, and a Retina screen never more than a plain one. |
| `Tunnel.FingerTunnel.constructor` | ref/tunnel.js:5-60 | The initial configuration, performance settings, empty arrays and history, frame counters and culling margin. |
| `Tunnel.FingerTunnel.CreateParticles` | ref/tunnel.js:159-165 | The array becomes `Spawned` for the configured count. |
| `Tunnel.FingerTunnel.SetSpeed` | ref/tunnel.js:453-460 | Only the speed changes, to `ClampSpeed` of the request. |
| `Tunnel.FingerTunnel.SetTargetFPS` | ref/tunnel.js:658-661 | Only the target frame rate changes, to `ClampFPS` of the request. |
| `Tunnel.FingerTunnel.SetParticleCount` | ref/tunnel.js:462-481 | The count becomes `ChosenCount` of the request. The array is rebuilt to exactly that length iff the count changed, and is otherwise kept. |
| `Tunnel.FingerTunnel.SetPerformanceMode` | ref/tunnel.js:483-529 | The performance settings take the tier of the mode; nothing else changes. |
| `Tunnel.FingerTunnel.SetEffectsMode` | ref/tunnel.js:531-569 | The effect flags take the mode's values; the particles are rebuilt iff a flag changed. |
| `Tunnel.FingerTunnel.AdaptPerformance` | ref/tunnel.js:403-422 | Settings and particles change as `Adapted` says for the average rate. Below the minimum rate, low mode is set and skip rises by one, capped at 3. Above 80% of the target, low mode is cleared and skip falls by one, floored at 1. Otherwise the settings are kept. Below 20 frames/s with over 50 particles, the count drops by 20 but not below 50 and the array is respawned; otherwise count and array are kept. |
| `Tunnel.FingerTunnel.UpdatePerformanceMetrics` | ref/tunnel.js:385-401 | The history becomes the newest 60 of the old history plus 1/dt. On every 30th frame with at least 30 samples, the displayed rate is the rounded mean. With adaptive quality on, the state then changes as `Adapted` says for the mean of the history. On every other frame, and with adaptive quality off, settings, count and particles are kept. |
| `Tunnel.FingerTunnel.AdaptParticleCount` | ref/tunnel.js:139-157 | With adaptive quality on and the target more than 10 away from the array length, the count becomes the target and the array is rebuilt to that length. Otherwise nothing changes. |
| `Tunnel.FingerTunnel.UpdateParticleSystemForScreen` | ref/tunnel.js:629-656 | When the screen target is more than 10 away from the array length, the count becomes the target and the array is rebuilt to that length. Otherwise nothing changes. |
| `Tunnel.FingerTunnel.UpdateParticles` | ref/tunnel.js:362-365 | The array is `Advanced` from its old value: each particle becomes `UpdateParticle` of its old value with the same step, in array order. The invariant is kept. |
| `Tunnel.BuildVisible` | ref/tunnel.js:367-377 | The visible list is far to near and is a permutation of exactly the visible particles. |
| `Tunnel.FingerTunnel.Update` | ref/tunnel.js:345-383 | The frame sample is taken and the frame counted. The returned `mid` is the array after the sampling step: adapted as `Adapted` says on a sampled frame with adaptive quality on, otherwise the old array with settings kept. On a skipped frame the array stays `mid` and the visible list is kept. On a rendered frame every particle is `UpdateParticle` of its `mid` value with dt·skip. The visible list is then rebuilt, sorted and exact. |
| `Tunnel.FingerTunnel.AdvanceFrame` | ref/tunnel.js:351-377 | The frame counter rises by one. Unless it is a multiple of the skip, nothing else changes. On a rendered frame the array is `Advanced` by the given step and the visible list is rebuilt, far to near and exact. |
| `Tunnel.AdaptedStaysInRange` | ref/tunnel.js:403-422 | An adaptation keeps skip in [1,3] and keeps the target, minimum and adaptive flag. It either keeps the array or shrinks it to max(50, length - 20), which is below the old length, and only below 20 frames/s under the minimum. |
| `Tunnel.AdvancedKeepsSound` | ref/tunnel.js:362-365 | Advancing the whole array keeps every particle within the spawn ranges and the age invariant. |
| `CommandLine.LowerChar` | Program.cs:33 | Lowercasing leaves no ASCII capital, maps each capital to its small letter and keeps everything else. |
| `CommandLine.Lower` | Program.cs:33 | `ToLower` keeps the length and lowers each character. |
| `CommandLine.LowerIsIdempotent` | Program.cs:33 | Lowering twice is lowering once. |
| `CommandLine.SkipWhite` | Program.cs:33 | The scan from the front stops at the first non-white character, or at the end. |
| `CommandLine.SkipWhiteSkipsWhite` | Program.cs:33 | Everything the front scan passes over is white space. |
| `CommandLine.BackWhite` | Program.cs:33 | The scan from the back stops just after the last non-white character, or at the front scan's stop. |
| `CommandLine.BackWhiteSkipsWhite` | Program.cs:33 | Everything the back scan passes over is white space. |
| `CommandLine.TrimWith` | Program.cs:33 | A trimmed string neither starts nor ends with white space. |
| `CommandLine.TrimWithMargins` | Program.cs:33 | The trimmed string is the slice between the two scans, and everything cut off on either side is white. |
| `CommandLine.TrimKeepsTrimmed` | Program.cs:33 | A string with no white space at either end is its own trim. |
| `CommandLine.ParseInt32` | Program.cs:51 | A parsed value fits a 32-bit signed integer; an empty or all-white argument does not parse. |
| `CommandLine.Decimal` | Program.cs:51 | A decimal rendering is a non-empty string of digits. |
| `CommandLine.DecimalRoundTrip` | Program.cs:51 | Reading back the digits of n gives n. |
| `CommandLine.ParseShowRoundTrip` | Program.cs:51 | Every 32-bit integer written in decimal parses back to itself. |
| `CommandLine.Key` | Program.cs:33-39 | The key is the first two characters of the lowered, trimmed argument, or all of it when it is shorter. |
| `CommandLine.Dispatch` | Program.cs:26-98 | No arguments run the screensaver; a preview is only ever chosen for a second argument that parses to its handle. |
| `CommandLine.DispatchOutcomes` | Program.cs:41-97 | Every argument list yields exactly one of the four outcomes, each characterised by its key and second argument. Fullscreen iff there are no arguments or the key is neither preview nor configure. Configure iff the key is `/c`/`-c`. Preview iff the key is `/p`/`-p` and the second argument parses. Exit iff the key is `/p`/`-p` and it does not. |
| `CommandLine.LowerKeepsWhite` | Program.cs:33 | Lowering neither makes nor unmakes white space, so lowering and trimming commute at the ends. |
| `CommandLine.KeyIgnoresCaseAndTail` | Program.cs:33-39 | An argument with no white space at either end is keyed by its first two characters, lowered. |
| `CommandLine.FullscreenKeyExamples` | Program.cs:33-46 | "/S" and "/s123" are keyed like "/s" and run the screensaver. |
| `CommandLine.PaddedKeyExample` | Program.cs:33-46 | White space around the key is trimmed: " -s " runs the screensaver. |
| `CommandLine.ConfigureAndBarePreviewExamples` | Program.cs:33-85 | "/c:1234" opens the settings message, and a lone "/p" with no window handle exits. |
| `CommandLine.PreviewKeysAreKeyed` | Program.cs:33-49 | `/p`, `-p`, `/P` and `-P` all select the preview branch. |
| `CommandLine.PreviewRoundTrip` | Program.cs:48-68 | `/p` or `-p`, in either case, followed by a 32-bit window handle written in decimal previews in exactly that window. |

## Left out

- Rendering is not modelled: the `Graphics` transforms, the color matrix, `DrawImage`, and the canvas and DOM calls (`renderParticle`, `renderTunnelBackground`, `setupCanvas`, `updateCullingBounds`, `adjustPerformanceForScreen`). The paint pass returns the draw commands it would issue. The culling bounds and the client size are plain fields.
- Image loading and the fallback bitmap (`LoadFingerImage`, `CreateFallbackImage`, `loadImage`) are file and resource I/O.
- Timers and clocks (`DateTime.Now`, the WinForms timer, `requestAnimationFrame`, `start`/`stop`/`animate`) are not modelled. The elapsed time is a parameter.
- The exit-on-input handlers, `Dispose`, `Application.Run`, `SetParent`, `SetWindowPos`, `ShowWindow` and `MessageBox` are OS calls. Only the chosen `Command` is modelled.
- Console logging and `getPerformanceInfo` only observe state.
- `calculateLifecycleScale` in the browser engine is not modelled, because its bounce and breathing terms are sines of the age.
- Randomness is not modelled: every draw is a parameter in [0, 1), and nothing is claimed about distributions. In the screensaver's tick and in the browser engine, particle `i` gets draw record `i`, so the order in which one shared generator would be consumed is not modelled.
- Trigonometry is not modelled: the cosine and sine of the spawn angle are arbitrary values in [-1, 1].
- `Math.Pow(·, 1.5)` is the parameter `pow15`, known only to map 0 to 0 and 1 to 1 and to be monotone on [0, 1].
- IEEE single and double rounding is not modelled; arithmetic is exact on reals. As a result:
  - `x % 360f + 360f` rounding up to exactly 360 cannot happen in the model.
  - `Math.floor(count * 0.7)` and the other tier factors are exact integer fractions such as `(7·count)/10`.
- `Tunnel.FingerTunnel.UpdatePerformanceMetrics` and `Tunnel.FingerTunnel.Update` require a non-zero frame time, because `1 / 0` is `Infinity` in JavaScript and there is no such real.
- `Particles.Particle.GetOpacity`, `Particles.Particle.GetLifecycleScale` and `Tunnel.UpdateParticle` require positive fade durations, because the source divides by them. Every reset sets them to 1.0 and 1.5.
- `Particles.Particle.GetOpacity` and `Particles.Particle.GetLifecycleScale` state their ranges only for a particle within its reset ranges. That holds for every particle of the pool.
- `Screensaver.SortByDepth`: `List.Sort` is introsort, not insertion sort. The model proves what the comparator fixes (non-increasing depth, a permutation, and the depths at every position) and leaves the order among equal depths unspecified.
- `Tunnel.SortByDepth`: JavaScript's sort is stable, but the model proves only sortedness and permutation, not stability.
- The browser engine's particles are values, and the visible list holds copies rather than references into the particle array. Aliasing between the two lists is not modelled.
- `CommandLine.LowerChar` lowers ASCII letters only; culture-specific `ToLower` mappings of other letters are not modelled.
- `CommandLine.ParseInt32` is modelled without culture-specific signs or digits, and without the trailing NUL characters `int.TryParse` also accepts.
- `Tunnel.FingerTunnel.SetParticleCount` takes an integer. JavaScript values of other types, such as the string "100", are not modelled.
- `Tunnel.FingerTunnel.Update` takes the frame time directly, rather than computing it from two timestamps in milliseconds.
