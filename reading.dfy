/**
 * Values shared by both versions of the E-Z Reader simulation: words, model
 * parameters, actions, the state of the oculomotor (saccade) machinery and
 * the process-local state of the integration and re-attention processes.
 *
 * The saccade machinery is given here as pure step functions over an
 * `Oculomotor` value; each `Simulation` class ties its own fields to them.
 */
module Reading {
  import opened Timing

  datatype Option<T> = None | Some(value: T)

  /** A word of the sentence; never mutated. */
  datatype Word = Word(
    token: string,
    frequency: real,
    predictability: real,
    integrationTime: real,
    integrationFailure: real)

  /** The sentence-initial stand-in attended when a regression leaves the text. */
  const Placeholder: Word := Word("None", 1000000.0, 1.0, 0.0, 0.0)

  /** Re-attention recognises the stand-in by its token alone. */
  predicate LeavesText(w: Word) {
    w.token == "None"
  }

  /** The fixed duration of the fake familiarity check outside the text (ms). */
  const FakeFamiliarityTime: real := 50.0

  /** The model parameters (the class-level dictionary of the source). */
  datatype Parameters = Parameters(
    alpha1: real,
    alpha2: real,
    alpha3: real,
    eccentricity: real,
    delta: real,
    predictabilityRepeatedAttention: real,
    saccadeProgramming: real,
    saccadeFinishing: real,
    timeAttentionShift: real,
    omega1: real,
    omega2: real,
    eta1: real,
    eta2: real,
    lambda: real,
    probabilityCorrectRegression: real)

  /** The default values of the model parameters. */
  const Defaults: Parameters := Parameters(
    104.0, 3.4, 39.0, 1.15, 0.34, 0.9, 125.0, 25.0, 25.0, 6.0, 3.0, 0.5, 0.15, 0.16, 0.6)

  datatype ActionKind =
    | StartedSaccade
    | InterruptedSaccade
    | SaccadeProgrammed
    | SaccadeFinished
    | FamiliarityCheck
    | FakeFamiliarityCheck
    | LexicalAccess
    | AttentionShift
    | StartedIntegration
    | FailedIntegration
    | SuccessfulIntegration

  /** A collected action: its name and the simulation time (ms). */
  datatype Action = Action(kind: ActionKind, time: real)

  /**
   * What `attended_word` holds: nothing yet, a word, or (after a finished
   * re-attention) the bare token string of a word.
   */
  datatype Attention = Unattended | AttendedWord(word: Word) | AttendedToken(token: string)

  /**
   * Re-attention compares `attended_word` with a token string: a word record
   * or nothing never equals a string, a token equals it when the text agrees.
   */
  predicate AttentionDiffers(a: Attention, token: string) {
    !(a.AttendedToken? && a.token == token)
  }

  /** The token of the attended word; reading `.token` of a string or of nothing fails. */
  function AttendedTokenOf(a: Attention): Option<string> {
    match a
    case AttendedWord(w) => Some(w.token)
    case _ => None
  }

  /** Errors the source raises at run time. */
  datatype Error = NameError | AttributeError

  /**
   * What a process does when its current segment ends: wait `delay` ms and
   * resume with local state `next`, finish, or die on an exception.
   */
  datatype Step<P> = Wait(delay: real, next: P) | Done | Crash(error: Error)

  // ---------------------------------------------------------------------
  // Saccade machinery
  // ---------------------------------------------------------------------

  /** A saccade request: target position, target word, interruptible flag. */
  datatype Request = Request(target: real, word: string, interruptible: bool)

  /**
   * The saccade handle: none yet, a process in its labile wait, a process in
   * its non-labile (finishing) wait, or a process that has ended.
   */
  datatype SaccadeSlot = NoSaccade | Labile(request: Request) | Finishing(request: Request) | Ended

  /** The shared state the saccade machinery reads and writes. */
  datatype Oculomotor = Oculomotor(canBeInterrupted: bool, plan: Option<Request>, slot: SaccadeSlot)

  /** The value `canBeInterrupted` has while the slot is in the given state. */
  function FlagFor(slot: SaccadeSlot): bool {
    match slot
    case Labile(r) => r.interruptible
    case Finishing(_) => false
    case _ => true
  }

  /**
   * The invariant of the machinery: the interrupt flag is the one the slot
   * dictates, and a deferred request exists only while the flag is down.
   */
  predicate Coherent(o: Oculomotor) {
    o.canBeInterrupted == FlagFor(o.slot) && (o.plan.Some? ==> !o.canBeInterrupted)
  }

  /** Interrupting the handle: only a labile process reacts (and ends). */
  function Interrupt(o: Oculomotor): Oculomotor {
    if o.slot.Labile? then o.(slot := Ended, canBeInterrupted := true) else o
  }

  function InterruptTrace(o: Oculomotor, now: real): seq<Action> {
    if o.slot.Labile? then [Action(InterruptedSaccade, now)] else []
  }

  /** A new saccade process runs to its labile wait. */
  function Start(o: Oculomotor, req: Request): Oculomotor {
    o.(slot := Labile(req), canBeInterrupted := req.interruptible)
  }

  /**
   * A saccade request. When interruptible, interrupt the handle and start a
   * new saccade iff `restart`; otherwise defer the request iff `differs`.
   */
  function Prepared(o: Oculomotor, req: Request, restart: bool, differs: bool): Oculomotor {
    if o.canBeInterrupted then
      var o1 := Interrupt(o);
      if restart then Start(o1, req) else o1
    else if differs then o.(plan := Some(req))
    else o
  }

  function PreparedTrace(o: Oculomotor, restart: bool, now: real): seq<Action> {
    if o.canBeInterrupted then
      InterruptTrace(o, now) + (if restart then [Action(StartedSaccade, now)] else [])
    else []
  }

  /** The labile wait ran out: the saccade is committed. */
  function Programmed(o: Oculomotor): Oculomotor
    requires o.slot.Labile?
  {
    o.(slot := Finishing(o.slot.request), canBeInterrupted := false)
  }

  /**
   * After landing: start the deferred request and clear it, or refixate on
   * the same target, or end with the flag raised and no handle.
   */
  function Landed(o: Oculomotor, refixate: bool): Oculomotor
    requires o.slot.Finishing?
  {
    if o.plan.Some? then Start(o, o.plan.value).(plan := None)
    else if refixate then Start(o, o.slot.request)
    else o.(slot := NoSaccade, canBeInterrupted := true)
  }

  function LandedTrace(o: Oculomotor, refixate: bool, now: real): seq<Action> {
    [Action(SaccadeFinished, now)]
    + (if o.plan.Some? || refixate then [Action(StartedSaccade, now)] else [])
  }

  lemma PreparedKeepsCoherent(o: Oculomotor, req: Request, restart: bool, differs: bool)
    requires Coherent(o)
    ensures Coherent(Prepared(o, req, restart, differs))
  {
  }

  /**
   * With the flag up: the deferred slot is left alone, a new saccade starts
   * exactly when asked, and otherwise the flag stays up with no live process.
   */
  lemma PreparedWhenInterruptible(o: Oculomotor, req: Request, restart: bool, differs: bool)
    requires Coherent(o) && o.canBeInterrupted
    ensures Prepared(o, req, restart, differs).plan == o.plan
    ensures Prepared(o, req, restart, differs).slot == Labile(req) <==> restart
    ensures !restart ==> Prepared(o, req, restart, differs).canBeInterrupted
    ensures !restart ==> Prepared(o, req, restart, differs).slot in {NoSaccade, Ended}
  {
  }

  /** With the flag down: nothing is interrupted or started; only the deferred slot may change. */
  lemma PreparedWhenBusy(o: Oculomotor, req: Request, restart: bool, differs: bool, now: real)
    requires !o.canBeInterrupted
    ensures Prepared(o, req, restart, differs).slot == o.slot
    ensures !Prepared(o, req, restart, differs).canBeInterrupted
    ensures Prepared(o, req, restart, differs).plan == if differs then Some(req) else o.plan
    ensures PreparedTrace(o, restart, now) == []
  {
  }

  /** An interrupt is only ever sent while no committed saccade is in flight. */
  lemma InterruptNeverHitsCommitted(o: Oculomotor)
    requires Coherent(o) && o.canBeInterrupted
    ensures !o.slot.Finishing?
    ensures Coherent(Interrupt(o)) && Interrupt(o).canBeInterrupted && Interrupt(o).plan == o.plan
  {
  }

  lemma ProgrammedKeepsCoherent(o: Oculomotor)
    requires Coherent(o) && o.slot.Labile?
    ensures Coherent(Programmed(o))
    ensures Programmed(o).plan == o.plan
  {
  }

  lemma LandedKeepsCoherent(o: Oculomotor, refixate: bool)
    requires Coherent(o) && o.slot.Finishing?
    ensures Coherent(Landed(o, refixate))
    ensures Landed(o, refixate).plan == None
  {
  }

  /** The three outcomes of a landing. */
  lemma LandedOutcomes(o: Oculomotor, refixate: bool)
    requires o.slot.Finishing?
    ensures o.plan.Some? ==> Landed(o, refixate).slot == Labile(o.plan.value)
    ensures o.plan.None? && refixate ==> Landed(o, refixate).slot == Labile(o.slot.request)
    ensures o.plan.None? && !refixate ==>
      Landed(o, refixate).slot == NoSaccade && Landed(o, refixate).canBeInterrupted
  {
  }

  // ---------------------------------------------------------------------
  // Character offsets computed by the driver
  // ---------------------------------------------------------------------

  /** The saccade target for the next word: its middle. */
  function NextWordTarget(firstLetter: int, elem: Word, next: Word): real {
    firstLetter as real + |elem.token| as real + 0.5 + |next.token| as real / 2.0
  }

  /** The middle of a word starting at `firstLetter`, on the same convention. */
  function Middle(firstLetter: int, w: Word): real {
    firstLetter as real - 0.5 + |w.token| as real / 2.0
  }

  /** The regression target when the previous word is chosen. */
  function PreviousWordTarget(firstLetter: int, previous: Option<Word>): real {
    match previous
    case Some(p) => firstLetter as real - 0.5 - |p.token| as real / 2.0
    case None => 0.0
  }

  // ---------------------------------------------------------------------
  // Integration and re-attention processes
  // ---------------------------------------------------------------------

  /**
   * The arguments of one integration process: where distance is measured
   * from on re-attention, where to regress, where to go afterwards, the word
   * integrated, the word to attend on failure and the word after it.
   */
  datatype Integration = Integration(
    lastLetter: int,
    regressionTarget: real,
    forwardTarget: real,
    elem: Word,
    attendTo: Word,
    after: Word)

  /** Integration fails when the failure probability reaches the draw. */
  predicate IntegrationFails(w: Word, u: real) {
    w.integrationFailure >= u
  }

  /**
   * The integration process the driver spawns for the word at `firstLetter`:
   * with the draw at or below `probabilityCorrectRegression` the regression
   * goes to the word itself, otherwise to the stand-in before it.
   */
  function IntegrationFor(
    elem: Word, previous: Option<Word>, firstLetter: int, forwardTarget: real, after: Word,
    probabilityCorrectRegression: real, u: real): (p: Integration)
    ensures p.elem == elem && p.forwardTarget == forwardTarget && p.after == after
    ensures probabilityCorrectRegression >= u ==>
      p.attendTo == elem && p.lastLetter == firstLetter + |elem.token|
      && p.regressionTarget == Middle(firstLetter, elem)
    ensures probabilityCorrectRegression < u ==>
      p.attendTo == Placeholder && p.lastLetter == firstLetter - 2
      && p.regressionTarget == PreviousWordTarget(firstLetter, previous)
  {
    if probabilityCorrectRegression >= u then
      Integration(firstLetter + |elem.token|, Middle(firstLetter, elem), forwardTarget, elem, elem, after)
    else
      Integration(firstLetter - 2, PreviousWordTarget(firstLetter, previous), forwardTarget, elem,
                  Placeholder, after)
  }

  /** Where a re-attention process is suspended. */
  datatype ReattentionPc =
    | Begin
    | AfterShift
    | AfterFakeCheck
    | AfterFamiliarity
    | AfterLexical
    | AfterIntegration

  /** The local state of a re-attention process. */
  datatype Reattention = Reattention(
    lastLetter: int,
    forwardTarget: real,
    elem: Word,
    after: Word,
    pc: ReattentionPc)

  /** The re-attention process a failed integration spawns. */
  function ReattentionFor(p: Integration): Reattention {
    Reattention(p.lastLetter, p.forwardTarget, p.attendTo, p.after, Begin)
  }

  /** The familiarity check time of word w at `distance`, or 0 when the predictability draw skips it. */
  function FamiliarityTime(params: Parameters, ln: real -> real, pow: (real, real) -> real,
                           w: Word, distance: real, skip: bool): real
  {
    if skip then 0.0
    else FamiliarityCheckTime(ln, pow, distance, |w.token|, w.frequency, w.predictability,
                              params.eccentricity, params.alpha1, params.alpha2, params.alpha3)
  }

  /** The lexical access time of word w. */
  function LexicalTime(params: Parameters, ln: real -> real, w: Word): real {
    LexicalAccessTime(ln, w.frequency, w.predictability, params.delta,
                      params.alpha1, params.alpha2, params.alpha3)
  }

  /**
   * The familiarity time a re-attention waits: fixed outside the text,
   * otherwise measured from its fixed last letter with the repeated-attention
   * skip probability.
   */
  function ReattentionFamiliarity(params: Parameters, ln: real -> real, pow: (real, real) -> real,
                                  r: Reattention, fp: real, u: real): real
  {
    if LeavesText(r.elem) then FakeFamiliarityTime
    else FamiliarityTime(params, ln, pow, r.elem, r.lastLetter as real - fp,
                         params.predictabilityRepeatedAttention > u)
  }

  function ReattentionCheckPc(r: Reattention): ReattentionPc {
    if LeavesText(r.elem) then AfterFakeCheck else AfterFamiliarity
  }

  /** The driver's `new_fixation_point` and `next_elem`, bound together. */
  datatype Lookahead = Lookahead(target: real, word: Word)

  /** The lookahead after word i: recomputed when a next word exists, else the stale one kept. */
  function NextLookahead(sentence: seq<Word>, i: nat, firstLetter: int, lookahead: Option<Lookahead>): Option<Lookahead>
    requires i < |sentence|
  {
    if i + 1 < |sentence| then
      Some(Lookahead(NextWordTarget(firstLetter, sentence[i], sentence[i + 1]), sentence[i + 1]))
    else lookahead
  }

  /** The word before index i, if any. */
  function Previous(sentence: seq<Word>, i: nat): Option<Word>
    requires i < |sentence|
  {
    if i > 0 then Some(sentence[i - 1]) else None
  }

  /**
   * Re-attention skips its attention shift exactly when `attended_word` is
   * already the token string; a word record never compares equal. At the
   * comparison, a value that skips the shift has no `.token`, and a word
   * record has its own token. The later `.token` reads see whatever
   * `attended_word` holds after the wait, which the driver or another
   * re-attention may have reassigned in between.
   */
  lemma AttentionComparison(a: Attention, token: string)
    ensures !AttentionDiffers(a, token) <==> a == AttendedToken(token)
    ensures !AttentionDiffers(a, token) ==> AttendedTokenOf(a) == None
    ensures a.AttendedWord? ==> AttentionDiffers(a, token) && AttendedTokenOf(a) == Some(a.word.token)
  {
  }

  /**
   * What the re-attention spawned by a failed integration does: after a
   * correct regression it re-reads the integrated word from that word's last
   * letter; after a previous-word regression it reads the stand-in, so it
   * always takes the fixed fake familiarity check and never the previous word.
   */
  lemma RegressionReattention(
    params: Parameters, ln: real -> real, pow: (real, real) -> real,
    elem: Word, previous: Option<Word>, firstLetter: int, forwardTarget: real, after: Word,
    probabilityCorrectRegression: real, u: real, fp: real, uFamiliarity: real)
    ensures
      var r := ReattentionFor(IntegrationFor(elem, previous, firstLetter, forwardTarget, after,
                                             probabilityCorrectRegression, u));
      && r.pc == Begin && r.after == after && r.forwardTarget == forwardTarget
      && (probabilityCorrectRegression >= u ==>
            r.elem == elem && r.lastLetter == firstLetter + |elem.token|)
      && (probabilityCorrectRegression < u ==>
            && LeavesText(r.elem) && r.lastLetter == firstLetter - 2
            && ReattentionCheckPc(r) == AfterFakeCheck
            && ReattentionFamiliarity(params, ln, pow, r, fp, uFamiliarity) == FakeFamiliarityTime)
  {
  }
}
