# Heart slot machine — a Dafny model

The program is a one-reel slot machine in the browser. The reel shows one,
two or three hearts. Pressing *start* spins the reel in an endless loop.
Pressing *stop* draws an outcome from a weighted distribution: one heart
60 %, two hearts 30 %, three hearts 10 %. The reel then decelerates onto a
slot that shows the drawn outcome, and the outcome is counted in the play
statistics. The component also has handlers that reset the statistics and
that draw 10,000 outcomes and tally them. Their buttons, and the whole
statistics panel, are commented out of the markup
(app/components/SlotMachine.tsx:137-206): the counts are kept but not
displayed, and nothing on the page calls those two handlers.

The model has three modules, one per core file:

- `Sampler` (`sampler.dfy`) is the weighted sampler `weightedRandom`. The
  uniform number `Math.random() * total` is the parameter `draw`. The
  sampler's loop is the method `WeightedRandom`. It is proved equal to the
  selection function `Pick`, which is defined from cumulative masses
  (`Prefix`) and the first option whose cumulative mass covers the draw
  (`FirstCover`).
- `Reel` (`reel.dfy`) is the reel controller. The class `SlotReel` has the
  scroll offset `y`, the running loop animation `spinPlayback` and the
  rendered tape `items`. We model a finished animation by its terminal
  value. A frame of the looping animation is the method `AnimateLoop`, in
  which the environment moves `y` anywhere between the loop's two ends.
  JavaScript's truncating `%` is `JsRem`. The program's `mod` helper is
  `Mod`, which is proved to equal the Euclidean residue. `Math.round` of an
  integer offset divided by 96 is `RoundedIndex`.
- `Machine` (`machine.dfy`) is the machine component. The class
  `SlotMachine` has the phase, the last result, the play counts and the
  simulation tally. Each handler is a method. `onStop` is split at its
  `await`:
  - `OnStop` runs the guard, enters `Stopping`, samples the target and runs
    the whole reel `stop`, so the reel is left in its settled terminal
    state (the deceleration and the final normalization included).
  - `OnStopResolved` is the code after the `await`: it records the result,
    counts it and returns to idle.

  The simulation's draws are a function `draws: nat -> real`, where
  `draws(i)` is the i-th value of `Math.random() * total`.

## Model

| member | source | states |
|---|---|---|
| Sampler.Clamp | app/lib/weightedRandom.ts:7 | `Math.max(0, w)` is non-negative and at least `w`; it is `w` for non-negative weights and 0 for non-positive ones |
| Sampler.Total | app/lib/weightedRandom.ts:7 | definition of `total`, the sum of all clamped weights; its properties are in Sampler.Prefix, Sampler.FallbackUnreachable and Sampler.NoMassPicksFirst |
| Sampler.Prefix | app/lib/weightedRandom.ts:7 | the cumulative clamped mass of the first k options, folded as the `reduce` does, is never negative |
| Sampler.FirstCover | app/lib/weightedRandom.ts:11-14 | the first index at or after i whose cumulative mass reaches the draw: every earlier cumulative mass is below the draw, and the index is the list length only when no option covers it |
| Sampler.Pick | app/lib/weightedRandom.ts:6-16 | the index the sampler selects is always a valid index of the non-empty option list |
| Sampler.WeightedRandom | app/lib/weightedRandom.ts:6-16 | the loop with a running remainder returns exactly `options[Pick(options, draw)].value`; with no mass it returns the first option; the value is always one of the options' values; the trailing fallback return is taken exactly when the mass is positive and no option covers the draw |
| Sampler.PrefixMonotone | app/lib/weightedRandom.ts:7 | cumulative mass never decreases along the list |
| Sampler.NoMassPicksFirst | app/lib/weightedRandom.ts:7-8 | when every weight is at most 0 the total is 0, and any two draws both select the first option |
| Sampler.FallbackUnreachable | app/lib/weightedRandom.ts:10-15 | for a draw no larger than the total, some option covers it, so the return after the loop is not reached |
| Sampler.PickInterval | app/lib/weightedRandom.ts:10-13 | for a draw in (0, total], option i is selected if and only if C_{i-1} < draw <= C_i, where C_i is the cumulative mass |
| Sampler.SelectionInterval | app/lib/weightedRandom.ts:10-13 | the draws in (0, total] that select option i form exactly the interval that starts at the mass before it and has length `max(0, weight_i)` |
| Sampler.NonPositiveNeverPicked | app/lib/weightedRandom.ts:12-13 | an option whose weight is at most 0 is never selected by a draw in (0, total] |
| Sampler.NonPositiveWeightIgnored | app/lib/weightedRandom.ts:7 | replacing one non-positive weight by another leaves every cumulative mass, and so the total, unchanged |
| Sampler.ZeroDrawPicksFirst | app/lib/weightedRandom.ts:10-13 | a draw of exactly 0 selects the first option whatever its weight, the one draw at which an option of weight 0 can be returned |
| Sampler.PickMonotone | app/lib/weightedRandom.ts:10-14 | a larger draw never selects an earlier option |
| Reel.Constants | app/components/SlotReel.tsx:19-22 | the pattern has 3 symbols, the anchor index is 3 * floor(40 / 2) = 60, the tape has 120 slots, and one loop is 96 * 3 * 8 = 2304 pixels |
| Reel.JsRem | app/components/SlotReel.tsx:25 | JavaScript's `%` for a positive divisor takes the sign of the dividend: it is in [0, m) for n >= 0 and in (-m, 0] for n < 0, and n minus it is a multiple of m, which fixes it uniquely |
| Reel.Mod | app/components/SlotReel.tsx:24-26 | `((n % m) + m) % m` with the truncating `%` lies in [0, m) and equals the Euclidean residue of n modulo m |
| Reel.ModCongruent | app/components/SlotReel.tsx:24-26 | `mod(n, m)` is in [0, m) and n is a multiple of m plus `mod(n, m)` |
| Reel.RoundedIndex | app/components/SlotReel.tsx:50 | `Math.round(offset / 96)` is the slot k with 96k - 48 <= offset < 96k + 48, a half going up |
| Reel.Phase | app/components/SlotReel.tsx:50-51 | definition of the phase `mod(round(-y / 96), 3)` of an offset; its properties are in Reel.PhaseOfSlot, Reel.NormalizePreservesPhase and Reel.LoopKeepsPhase |
| Reel.AnchorOf | app/components/SlotReel.tsx:52 | definition of the anchor `60 + phase` chosen for an offset; its properties are in Reel.NormalizePreservesPhase and Reel.NormalizeIdempotent |
| Reel.Normalized | app/components/SlotReel.tsx:53 | definition of the offset `-anchor * 96` that normalization moves to; its properties are in Reel.NormalizePreservesPhase and Reel.NormalizeIdempotent |
| Reel.RoundedIndexOfSlot | app/components/SlotReel.tsx:50 | rounding the offset of a slot's centre gives back that slot |
| Reel.PhaseOfSlot | app/components/SlotReel.tsx:50-51 | the phase read off the centre of slot i is `mod(i, 3)` |
| Reel.NormalizePreservesPhase | app/components/SlotReel.tsx:47-55 | the anchor chosen by normalization is in [60, 63), has the phase of the current position, and the normalized position shows the same symbol |
| Reel.NormalizeIdempotent | app/components/SlotReel.tsx:47-55 | normalizing twice finds the same anchor and the same position as normalizing once |
| Reel.LoopKeepsPhase | app/components/SlotReel.tsx:60-66 | the loop distance is a whole number of base patterns, and the end of the loop has the phase of its start |
| Reel.SlotY | app/components/SlotReel.tsx:53 | definition of the offset `-index * 96` at which a slot is centred (also line 94); its properties are in Reel.RoundedIndexOfSlot and Reel.PhaseOfSlot |
| Reel.IsTape | app/components/SlotReel.tsx:35-40 | definition of the tape's shape, 120 slots with slot i showing `BASE[i % 3]`, which `SlotReel.Valid()` requires; established by Reel.BuildTape and used in Reel.TapeShows and Reel.SettledSlot |
| Reel.BuildTape | app/components/SlotReel.tsx:35-40 | the tape has 120 slots, and slot i shows `BASE[i % 3]`, that is i % 3 + 1 hearts |
| Reel.SpinDownIndex | app/components/SlotReel.tsx:84-90 | the deceleration target lies in [base, base + 3), where base is the larger of the current and anchor index plus 18; it shows `target`, and no slot before it from base on does |
| Reel.ForwardStep | app/components/SlotReel.tsx:88-90 | `mod(d - mod(b, 3), 3)` is the smallest forward step from b to a slot of phase d |
| Reel.StopLandsOnTape | app/components/SlotReel.tsx:86-94 | from an anchor the target index is between anchor + 18 and 82, below the last slot, so the clamp to the tape is a no-op; the slot shows `target`, and normalizing there gives the anchor of phase target - 1 |
| Reel.LandingSlot | app/components/SlotReel.tsx:94 | a slot of phase target - 1 shows `target`, and normalizing from its offset gives anchor 60 + target - 1 |
| Reel.SettledSlot | app/components/SlotReel.tsx:102-103 | the offset a stop settles on is centred on slot 60 + target - 1, whose phase is target - 1 and which shows `target` on the tape |
| Reel.AnchorInWindow | app/components/SlotReel.tsx:52-53 | an anchor's offset lies in the window the reel's offset is kept in |
| Reel.SlotReel.constructor | app/components/SlotReel.tsx:32-40 | the reel starts at offset 0 with no loop, over the built tape |
| Reel.SlotReel.StopSpinning | app/components/SlotReel.tsx:42-45 | cancels the loop and leaves the offset where it is |
| Reel.SlotReel.NormalizeYToAnchor | app/components/SlotReel.tsx:47-55 | returns the anchor of the old offset, which is in [60, 63) and has its phase; moves y onto that anchor and keeps the visible symbol |
| Reel.SlotReel.Start | app/components/SlotReel.tsx:57-73 | cancels any loop; y becomes the normalized offset; the loop runs from there one loop distance down; both ends have the phase of the old offset |
| Reel.SlotReel.AnimateLoop | app/components/SlotReel.tsx:68-72 | a loop frame moves y to any offset between the loop's ends and keeps the loop running |
| Reel.SlotReel.Stop | app/components/SlotReel.tsx:75-106 | resolves with `target`; the loop is cancelled; the deceleration ends on a tape slot that shows `target`, at an index in [anchor + 18, anchor + 21); the reel settles at the offset of slot 60 + target - 1 |
| Machine.Bump | app/components/SlotMachine.tsx:49 | counting a play of v adds one to v's count, leaves the other counts unchanged and adds one to the total |
| Machine.TotalOf | app/components/SlotMachine.tsx:29 | definition of `total = counts[1] + counts[2] + counts[3]`; its properties are in Machine.Bump and Machine.TallyTotal |
| Machine.StartEnabled | app/components/SlotMachine.tsx:102 | definition of when the start button is enabled (phase idle), the same condition `onStart` tests; used in Machine.SlotMachine.OnStart |
| Machine.StopEnabled | app/components/SlotMachine.tsx:111 | definition of when the stop button is enabled (phase spinning), the same condition `onStop` tests; used in Machine.SlotMachine.OnStop |
| Machine.Transition | app/components/SlotMachine.tsx:8 | definition of the allowed phase moves idle to spinning, spinning to stopping and stopping to idle; every handler ensures it |
| Machine.Sample | app/components/SlotMachine.tsx:45 | definition of the value `weightedRandom(OPTIONS)` returns for a draw (also at line 71); its properties are in Machine.OptionsBands |
| Machine.Outcomes | app/components/SlotMachine.tsx:70-71 | definition of the sequence of the first n values `weightedRandom(OPTIONS)` returns in the simulation; its properties are in Machine.SimulateDraws and Machine.OptionsBands |
| Machine.Tally | app/components/SlotMachine.tsx:69-73 | the counts the simulation loop builds from a sequence of outcomes, always holding all three keys; its properties are in Machine.TallyCounts and Machine.TallyTotal |
| Machine.TallyTotal | app/components/SlotMachine.tsx:68-73 | a tally of n outcomes sums to n |
| Machine.TallyStep | app/components/SlotMachine.tsx:72 | counting the next outcome in place gives the tally of the outcomes so far plus that one |
| Machine.TallyCounts | app/components/SlotMachine.tsx:69-73 | each entry of the tally is the number of outcomes equal to that value |
| Machine.OptionsBands | app/components/SlotMachine.tsx:10-14 | the options' total mass is 100; a draw in (0, 60] gives one heart, (60, 90] two and (90, 100] three |
| Machine.SimulateDraws | app/components/SlotMachine.tsx:68-73 | the loop of n draws gives the tally of the n sampled outcomes, and its counts sum to n |
| Machine.SlotMachine.constructor | app/components/SlotMachine.tsx:24-32 | starts idle with no result, zero counts, no simulation result and no simulation running, over a fresh reel at offset 0 with no loop |
| Machine.SlotMachine.OnStart | app/components/SlotMachine.tsx:34-39 | outside idle nothing changes; from idle the result is cleared, the phase becomes spinning, the reel's offset is normalized and it loops from there one loop distance down; counts and the simulation are kept |
| Machine.SlotMachine.OnStop | app/components/SlotMachine.tsx:41-47 | outside spinning nothing changes; from spinning the phase becomes stopping, the sampled outcome is pending and the reel settles on the slot showing it |
| Machine.SlotMachine.OnStopResolved | app/components/SlotMachine.tsx:48-50 | the pending value becomes the result; its count goes up by one, the other counts are unchanged and the total goes up by one; the phase returns to idle |
| Machine.SlotMachine.OnResetStats | app/components/SlotMachine.tsx:53-56 | the counts become zero and the simulation result is cleared; nothing else changes |
| Machine.SlotMachine.OnSimulate | app/components/SlotMachine.tsx:58-76 | does nothing while a simulation runs; otherwise it stores the tally of the 10,000 sampled outcomes, which sums to 10,000, and ends not simulating; the play state is kept |

Across every method of `SlotMachine`, the invariant `Valid()` ties the
phase to the reel: the reel loops exactly while the phase is spinning, and a
stop is pending exactly while it is stopping. `OnStart`, `OnStop`
and `OnStopResolved` each ensure `Transition`, which keeps the phase on the
cycle idle → spinning → stopping → idle; `OnResetStats` and `OnSimulate`
ensure that the phase is unchanged, which implies it. The
*start* and *stop* buttons are enabled exactly when `StartEnabled` and
`StopEnabled` hold, and these are the same conditions the handlers test.

## Left out

- Animation timing and easing (the 0.85 and 1.7 time-unit durations and
  the easing curve) are not modelled. A finished animation is its terminal
  offset. Loop frames are arbitrary integer offsets between the loop's ends.
- Fractional offsets: `y` is an integer.
- `Math.random` is not modelled. Its scaled value is the `draw` parameter.
- Floating-point arithmetic is not modelled: weights and draws are exact
  reals. The trailing fallback of the sampler is therefore shown to be
  unreachable only for draws up to the total.
- The percentages shown by `pct` and `toFixed` are not modelled. They are
  display only.
- Machine.SlotMachine.OnSimulate: the one-frame `requestAnimationFrame`
  yield is not modelled. The method runs straight through, so
  `isSimulating` is never observed true between calls.
- React plumbing is not modelled: hooks, `useImperativeHandle`, the unmount
  cleanup that stops the loop, and rendering (JSX, `HeartFace`,
  `HeartIcon`, page and layout).
- The reel reference is always mounted. The case of a null `reelRef` is not
  modelled.
- Cancelling a deceleration before it settles is not modelled. In the
  program this would resolve or leave pending the `stop` promise.
- `Reel.Mod` and `Reel.JsRem` are modelled only for positive divisors, the
  only ones the program uses.
- `Reel.SlotReel.Stop` has no guard of its own: without a prior `start` it
  still normalizes and decelerates onto the target
  (app/components/SlotReel.tsx:75-106). `Reel.SlotReel.Start` while looping
  cancels the loop and starts a new one (app/components/SlotReel.tsx:57-73).
  Only the machine's phase guards (app/components/SlotMachine.tsx:35,42)
  prevent these calls.
- Sampler.WeightedRandom: an empty option list is excluded by its
  precondition. In the program `weightedRandom([])` fails with a TypeError
  when it reads `.value` of the missing first option
  (app/lib/weightedRandom.ts:8); that error is not modelled.
