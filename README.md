# E-Z Reader simulation, modelled in Dafny

The repository simulates a reader's eye movements and attention over one
sentence, following the E-Z Reader model. Each `Simulation` object runs
several cooperating processes on an event scheduler:

- **Visual processing (the driver)** walks the words. For each word it runs
  a familiarity check (L1), requests a saccade to the middle of the next
  word, runs lexical access (L2), spawns integration, and shifts attention.
- **Saccade programming** has a labile phase, during which the saccade can
  be interrupted, a committed phase and a landing.
- **Integration** of a word either succeeds or fails. A failure requests a
  regression saccade and spawns **re-attention**, which processes the word
  again and adds its time to a carry (`__repeated_attention`). The driver
  waits out that carry after its L1 and L2 waits, and in the newer file
  also after the attention shift.

The model is a `Simulation` class with the source's fields. Each method is
one resumption of one process: it runs what the process does until its next
wait and returns that wait. The process-local state of the driver,
integration and re-attention is a datatype value. Each resumption takes that
value and returns `Wait(delay, next)`, `Done` or `Crash(error)`.

Every random draw (`u`), the landing point and the current time (`now`) are
method parameters. The natural logarithm and the real power are opaque
function values given to the constructor. The actions written to
`last_action` are kept as the sequence `actions`, whose last element is
`last_action`.

Modules:

- `Reading` (reading.dfy): words, parameters, actions, and the saccade
  machinery as pure step functions over an `Oculomotor` value, with the
  invariant `Coherent` and the lemmas that those steps preserve it. It also
  holds the driver's character offsets, the integration and re-attention
  states, and the stage times shared by both simulations.
- `Timing` (timing.dfy): the two timing formulas of utilities.py.
- `Positions` (positions.dfy): the position-to-word interval map and the
  fixated-word lookup.
- `EzReader` (ezreader.dfy): the class `Simulation` of ezreader/simulation.py.
- `Legacy` (legacy.dfy): the class `Simulation` of the older root
  simulation.py. Its saccade test is plain inequality, it lands exactly on
  the target, it never refixates, and its attention shift is one wait.

Behaviour of the code that the model keeps as written:

- A one-word sentence never binds `new_fixation_point`/`next_elem`. The
  driver therefore raises `NameError` when it spawns integration
  (ezreader/simulation.py:357), instead of finishing normally. The model
  returns `Crash(NameError)`. At the last word of a longer sentence, the
  values left from the previous word are reused.
- `prev_elem` is bound only for the first word. Every "previous word"
  regression therefore attends the placeholder `Word('None', 1e06, 1, 0, 0)`,
  although its target lies in the previous word. That target, `prev_pos`,
  is not the previous word's middle but one letter past it: the midpoint of
  the previous word's interval, trailing space included. For a one-letter
  previous word it is the space after that word.
- Re-attention compares `attended_word`, usually a `Word`, with a token
  string. A `Word` never equals a string, so the shift is skipped only when
  `attended_word` is already that string. At the end, re-attention leaves
  `attended_word` set to the token string. Reading `.token` of a string or of
  `None` raises `AttributeError`, which the model returns as
  `Crash(AttributeError)`.
- Nothing clamps the stage times. A negative base term gives negative L1 and
  L2 times, so the carry can become negative.
- The midpoint target of a one-letter word falls exactly on that word's
  first letter. That letter is also the end of the previous word's interval,
  so the lookup attributes it to the previous word.
- In the older file, the attention-shift wait adds a carry that was just
  reset to 0, so it is exactly `time_attention_shift`. Any carry accrued
  during that wait is dropped.
- In the newer file, each of the driver's three carry waits is followed by
  a reset of the carry to 0 (ezreader/simulation.py:311-313, 336-338,
  369-371). Any carry that a re-attention adds while the driver waits it out
  is therefore dropped.

## Model

| member | source | states |
|---|---|---|
| Timing.FamiliarityCheckTime | utilities.py:7-21 | L1 time is the base term scaled by `eccentricity^(distance + (len-1)/2)`; it equals the base term when the power is 1, and for a positive power it is negative exactly when the base term is (no clamping) |
| Timing.LexicalAccessTime | utilities.py:23-36 | L2 time is `delta` times the base term; for `delta > 0` it is negative exactly when the base term is; for `delta = 1` it is the base term |
| Timing.LexicalAndFamiliarityShareBase | utilities.py:19-20 | for equal frequency, predictability and alphas, L2 times the eccentricity factor equals `delta` times L1 |
| Timing.FamiliarityAtWordMiddle | utilities.py:20 | when the exponent is 0 (and `pow(ecc, 0) = 1`), L1 is the unscaled base term |
| Timing.BaseTimeAntitoneInPredictability | utilities.py:19 | with `alpha3 >= 0`, a more predictable word never has a larger base term |
| Positions.FirstContaining | ezreader/simulation.py:76-79 | the index found is the first, in sentence order, whose interval contains the point; none is found exactly when no interval contains it |
| Positions.LookupIsFirst | ezreader/simulation.py:168-171 | the lookup gives interval k's token whenever k contains the point and no earlier interval does |
| Positions.IntervalAt | ezreader/simulation.py:71-74 | word k gets the interval `(p_k, p_k + 1 + len(token_k))`, where `p_k` is 1 plus the lengths of the earlier words and their spaces |
| Positions.SharedEndpoints | ezreader/simulation.py:71-74 | the first interval starts at 1, and each interval ends where the next begins |
| Positions.NextStartMonotone | ezreader/simulation.py:74 | word starts strictly increase: `p_j + (k - j) <= p_k` |
| Positions.EndsBefore | ezreader/simulation.py:71-74 | every interval before word k ends at or before `p_k` |
| Positions.LookupPastStart | ezreader/simulation.py:168-171 | a point in `(p_k, p_k + 1 + len]` is looked up as word k |
| Positions.LookupAtStart | ezreader/simulation.py:168-171 | the first letter `p_k` of word k > 0 is looked up as word k-1 (shared endpoint, first interval wins) |
| Positions.BuildPositionMap | ezreader/simulation.py:69-74 | the running-position loop builds exactly the interval map `Intervals(words)` |
| Positions.FindContaining | ezreader/simulation.py:76-79 | the in-order scan returns the token of the first containing interval, and none when no interval contains the point |
| Reading.AttentionComparison | ezreader/simulation.py:223-238 | re-attention skips its shift exactly when `attended_word` already is the token string, never for a `Word`; at the comparison, a value that skips the shift has no `.token` (reading it raises AttributeError), and a `Word` has its own token; the later `.token` reads see whatever `attended_word` holds after the wait, which the driver or another re-attention may have reassigned |
| Reading.PreparedKeepsCoherent | ezreader/simulation.py:105-122 | a saccade request keeps the invariant that the interruptible flag matches the saccade phase and a deferred request exists only while the flag is down |
| Reading.PreparedWhenInterruptible | ezreader/simulation.py:109-117 | while interruptible: the deferred request is untouched, the requested saccade is labile iff the restart test holds, and otherwise no saccade runs and the flag is up |
| Reading.PreparedWhenBusy | ezreader/simulation.py:120-122 | while not interruptible: the saccade and flag are untouched, and the deferred slot is overwritten iff the fixation differs from the target |
| Reading.InterruptNeverHitsCommitted | ezreader/simulation.py:112-115 | under the invariant, while the flag is up no committed (finishing) saccade is in flight, so an interrupt only ever ends a labile one; afterwards the flag is up, the deferred request is unchanged and the invariant holds |
| Reading.ProgrammedKeepsCoherent | ezreader/simulation.py:146-154 | the end of the labile phase keeps the invariant and leaves the deferred request unchanged |
| Reading.LandedKeepsCoherent | ezreader/simulation.py:174-185 | landing keeps the invariant and always leaves no deferred request |
| Reading.LandedOutcomes | ezreader/simulation.py:174-185 | after landing: a deferred request is started; otherwise a refixation restarts the same request; otherwise no saccade and the flag is up |
| Reading.IntegrationFor | ezreader/simulation.py:345-359 | a correct regression aims at the word's middle, attends the word and takes `last_letter = first_letter + len`; otherwise it aims at `prev_pos`, one letter past the previous word's middle (0 for the first word), attends the placeholder and takes `first_letter - 2` |
| Reading.RegressionReattention | ezreader/simulation.py:211-240 | the re-attention a failed integration spawns re-reads the integrated word from its last letter after a correct regression; after a previous-word regression it reads the stand-in, so it always takes the fixed 50 ms fake check and never re-reads the previous word |
| EzReader.NoSaccadeOntoFixation | ezreader/simulation.py:116-122 | a request aimed at the current fixation never starts a saccade, and while not interruptible it changes nothing |
| EzReader.WindowTestStrongerThanInequality | ezreader/simulation.py:116 | the half-word window test starts a saccade only where the older `!=` test would (simulation.py:180), and it is strictly stronger |
| EzReader.NextTargetIsNextMiddle | ezreader/simulation.py:327 | the next-word target, computed from the current first letter, is the middle of the next word measured from its own first letter |
| EzReader.MiddleLookup | ezreader/simulation.py:357 | for a word of two or more letters, the correct-regression target is looked up as that word |
| EzReader.OneLetterMiddleLookup | ezreader/simulation.py:327 | for a one-letter word after the first, the midpoint target is its first letter, which the lookup gives to the previous word |
| EzReader.PreviousTargetLookup | ezreader/simulation.py:347 | `prev_pos` always lies inside the previous word's interval and is looked up as that word |
| EzReader.PreviousTargetPastMiddle | ezreader/simulation.py:347 | `prev_pos` is the previous word's middle plus one letter; for a one-letter previous word it is the space after that word |
| EzReader.Simulation.constructor | ezreader/simulation.py:59-79 | builds the interval map, looks up the initially fixated word (none if no interval contains it); nothing attended, no saccade, flag up, carry 0 |
| EzReader.Simulation.InterruptSaccade | ezreader/simulation.py:141-144 | a labile saccade ends with an "interrupted" action and the flag raised; otherwise nothing happens; the saccade invariant is kept |
| EzReader.Simulation.StartSaccade | ezreader/simulation.py:131-139 | a started saccade is labile, sets the flag to its requested value and logs "started" |
| EzReader.Simulation.PrepareSaccade | ezreader/simulation.py:105-122 | keeps the invariant; while interruptible, interrupts and starts the request iff the fixation is strictly outside the half-word window, leaving the deferred slot untouched; otherwise changes only the deferred slot, set iff the fixation differs from the target |
| EzReader.Simulation.ProgrammingEnded | ezreader/simulation.py:146-154 | the labile saccade commits, the flag goes down, and the wait is `saccade_finishing` |
| EzReader.Simulation.SaccadeLanded | ezreader/simulation.py:156-185 | the fixation moves to the landing point, the launch site is the current time, the fixated word is re-looked-up (kept if none contains it); then the deferred request starts and is cleared, or a refixation starts iff `lambda·|landing − target| >= u`, or no saccade remains and the flag is up |
| EzReader.Simulation.BeginIntegration | ezreader/simulation.py:198-200 | logs the start and waits the word's integration time |
| EzReader.Simulation.ResumeIntegration | ezreader/simulation.py:202-215 | fails iff `integration_failure >= u`: then requests a non-interruptible saccade to the regression target and spawns re-attention; otherwise only logs success |
| EzReader.Simulation.CheckFamiliarity | ezreader/simulation.py:233-263 | outside the text waits 50 ms, else L1 from the fixed last letter (0 when `predictability_repeated_attention > u`); the time is added to the carry |
| EzReader.Simulation.BeginReattention | ezreader/simulation.py:223-227 | waits an attention shift unless `attended_word` already is the word's token string, in which case it goes straight to the familiarity step |
| EzReader.Simulation.ReattentionShifted | ezreader/simulation.py:228-263 | attends the word, logs the shift, then runs the familiarity step |
| EzReader.Simulation.ReattentionFakeCheckDone | ezreader/simulation.py:238-240 | crashes with AttributeError if no `Word` is attended; otherwise requests the forward saccade to the next word and finishes |
| EzReader.Simulation.ReattentionFamiliarityDone | ezreader/simulation.py:265-274 | crashes with AttributeError if no `Word` is attended; otherwise requests the forward saccade and waits L2, adding it to the carry |
| EzReader.Simulation.ReattentionLexicalDone | ezreader/simulation.py:276-280 | crashes with AttributeError if no `Word` is attended; otherwise waits the integration time, adding it to the carry |
| EzReader.Simulation.ReattentionIntegrated | ezreader/simulation.py:282-285 | logs success and leaves the word's token string attended |
| EzReader.Simulation.EnterWord | ezreader/simulation.py:295-309 | past the last word the driver is done; otherwise it attends the word and waits L1 from its first letter (0 when `predictability > u`) |
| EzReader.Simulation.StartDriver | ezreader/simulation.py:293-309 | the first word starts at letter 1 with no lookahead |
| EzReader.Simulation.DriverCarryWait | ezreader/simulation.py:311 | after each timing wait the driver waits the current carry |
| EzReader.Simulation.DriverFamiliarityCarryDone | ezreader/simulation.py:313-334 | drains the carry, logs L1, aims at the middle of the next word and requests that saccade (a last word keeps the old lookahead and requests nothing), then waits L2 |
| EzReader.Simulation.DriverLexicalCarryDone | ezreader/simulation.py:338-367 | drains the carry, logs L2, crashes with NameError if no lookahead was ever bound, else spawns integration with the regression choice on `u` and waits the attention shift |
| EzReader.Simulation.DriverShiftCarryDone | ezreader/simulation.py:371-375 | drains the carry, logs the shift, advances the first letter by `len + 1` (keeping it equal to the map's word start) and enters the next word |
| Legacy.RequestAtFixationIsDropped | simulation.py:184-186 | while not interruptible, a request aimed at the current fixation changes nothing |
| Legacy.RequestAwayAlwaysStarts | simulation.py:173-181 | while interruptible, a request away from the fixation always starts a labile saccade and leaves the deferred slot |
| Legacy.Simulation.constructor | simulation.py:52-59 | fixation at the initial point, nothing attended, no saccade, flag up, carry 0 |
| Legacy.Simulation.InterruptSaccade | simulation.py:95-100 | a labile saccade ends with an "interrupted" action and the flag raised, fixation untouched; otherwise nothing happens; the saccade invariant is kept |
| Legacy.Simulation.StartSaccade | simulation.py:83-93 | a started saccade is labile, sets the flag to its requested value and logs "started" |
| Legacy.Simulation.PrepareSaccade | simulation.py:169-186 | keeps the invariant; while interruptible, interrupts and starts the request iff the fixation differs from the target; otherwise changes only the deferred slot, set iff they differ |
| Legacy.Simulation.ProgrammingEnded | simulation.py:102-111 | the labile saccade commits, the flag goes down, and the wait is `saccade_finishing` |
| Legacy.Simulation.SaccadeLanded | simulation.py:113-126 | the fixation becomes exactly the target; the deferred request starts and is cleared, or no saccade remains and the flag is up (no refixation) |
| Legacy.Simulation.BeginIntegration | simulation.py:139-147 | logs the start and waits the word's integration time |
| Legacy.Simulation.ResumeIntegration | simulation.py:149-167 | fails iff `integration_failure >= u`: then requests a non-interruptible saccade to the regression target and spawns re-attention; otherwise only logs success |
| Legacy.Simulation.CheckFamiliarity | simulation.py:205-238 | outside the text waits 50 ms, else L1 from the fixed last letter (0 when `predictability_repeated_attention > u`); the time is added to the carry |
| Legacy.Simulation.BeginReattention | simulation.py:192-196 | waits an attention shift unless `attended_word` already is the word's token string |
| Legacy.Simulation.ReattentionShifted | simulation.py:197-238 | attends the word, logs the shift, then runs the familiarity step |
| Legacy.Simulation.ReattentionFakeCheckDone | simulation.py:210-215 | crashes with AttributeError if no `Word` is attended; otherwise requests the forward saccade and finishes |
| Legacy.Simulation.ReattentionFamiliarityDone | simulation.py:240-252 | crashes with AttributeError if no `Word` is attended; otherwise requests the forward saccade and waits L2, adding it to the carry |
| Legacy.Simulation.ReattentionLexicalDone | simulation.py:254-263 | crashes with AttributeError if no `Word` is attended; otherwise waits the integration time, adding it to the carry |
| Legacy.Simulation.ReattentionIntegrated | simulation.py:265-271 | logs success and leaves the word's token string attended |
| Legacy.Simulation.EnterWord | simulation.py:281-295 | past the last word the driver is done; otherwise it attends the word and waits L1 from its first letter (0 when `predictability > u`) |
| Legacy.Simulation.StartDriver | simulation.py:279-295 | the first word starts at letter 1 with no lookahead |
| Legacy.Simulation.DriverCarryWait | simulation.py:297 | after the L1 and L2 waits the driver waits the current carry |
| Legacy.Simulation.DriverFamiliarityCarryDone | simulation.py:299-322 | drains the carry, logs L1, aims at the middle of the next word and requests that saccade (a last word keeps the old lookahead), then waits L2 |
| Legacy.Simulation.DriverLexicalCarryDone | simulation.py:326-350 | drains the carry, logs L2, crashes with NameError if no lookahead was ever bound, else spawns integration and waits `time_attention_shift` plus the just-drained carry, which is exactly `time_attention_shift` |
| Legacy.Simulation.DriverShiftDone | simulation.py:352-359 | drops the carry accrued during the shift, logs it, advances the first letter by `len + 1` and enters the next word |

## Left out

- The event scheduler (simpy's environment, `process`, `timeout`, `interrupt`, `step`, `run`, the empty-schedule exception). Each resumption is a method, and the caller chooses the order of events. How simultaneous events are ordered is not modelled. An interrupt and the restart that follows it are applied at once. In simpy both are urgent events for the same instant.
- The length of a saccade's labile wait (`saccade_programming`) is not returned by any method. `ProgrammingEnded` is its expiry, or `InterruptSaccade` cuts it short.
- Randomness (`uniform`, `normal`): every draw is a parameter `u`.
- The landing position in ezreader/simulation.py:159-165: the normal draw and the systematic error that uses `math.log` are floating-point and transcendental work. The landing point is a parameter, so a `ValueError` from `math.log(0)` when no time has passed since launch is not modelled.
- `ln` and `pow` are opaque. Their domain errors (a non-positive frequency, a complex power) are not modelled.
- Trace printing and the detail strings of actions: an action keeps its name and time only.
- The millisecond-to-second scaling of `time` and `__timeout__`, the `realtime`, `trace` and `initial_time` arguments, and the unused `noise` flag.
- `regression`, an argument `__saccadic_programming__` never reads.
- `step` and `run`, which only hand control to the scheduler.
- `OPTIMAL_SACCADE_LENGTH`, `omega1`, `omega2`, `eta1` and `eta2`: they only feed the landing draw, which is a parameter. `Reading.Defaults` still records their values; no member uses it, and it only documents the source's parameter table.
- The `__main__` demo blocks, examples.py, examples2.py, examples/examples.py, ezreader/example2.py and setup.py: these are example drivers, averaging and packaging.
- Python name binding is modelled only where it matters. The lookahead `Option` stands for `new_fixation_point`/`next_elem` being unbound. `prev_word` is computed by the source but never used.
- Python floats are modelled as `real`, so rounding is not modelled. Rounding can change only the refixation decision (ezreader/simulation.py:181, `Refixates`), and only at its exact boundary: there the landing draw enters a subtraction and a product that round in double precision, so a draw `u` between the exact and the rounded product refixates in one and not the other. Every other decision compares a draw with a parameter, or compares exact multiples of 0.5 with a landing value.
- What the scheduler does with a negative `Wait` delay, which a negative L1 or L2 time or a negative carry can produce, is left open: the model only returns the delay. The scheduler (simpy) rejects a negative timeout with `ValueError`, so in the program a negative L1 or L2 time ends the run at the wait for it; in integration and re-attention that wait comes right after the time is added to the carry.
