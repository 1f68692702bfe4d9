/**
 * The E-Z Reader simulation of ezreader/simulation.py as per-event
 * transitions of one `Simulation` object. Each method is one resumption of
 * one of the source's processes (saccade programming, integration,
 * re-attention, visual processing): it runs what the process does until its
 * next wait and returns that wait. Random draws, the landing point and the
 * current time are parameters; the event scheduler is not part of the model.
 */
module EzReader {
  import opened Reading
  import opened Positions

  /** Where the driver is suspended: after each timing wait and after each carry wait. */
  datatype DriverPc =
    | PastFamiliarity
    | PastFamiliarityCarry
    | PastLexical
    | PastLexicalCarry
    | PastShift
    | PastShiftCarry

  /**
   * The driver's local state: the word index, its first letter, the
   * lookahead left over from the last word that had a successor, and the pc.
   */
  datatype Driver = Driver(index: nat, firstLetter: int, lookahead: Option<Lookahead>, pc: DriverPc)

  /** The carry wait that follows each timing wait of the driver. */
  function CarryPc(pc: DriverPc): DriverPc {
    match pc
    case PastFamiliarity => PastFamiliarityCarry
    case PastLexical => PastLexicalCarry
    case PastShift => PastShiftCarry
    case _ => pc
  }

  /** True when the fixation lies strictly outside the half-word window around the target. */
  predicate OutsideWindow(fp: real, target: real, word: string) {
    fp < target - |word| as real / 2.0 || fp > target + |word| as real / 2.0
  }

  function Abs(x: real): real {
    if x < 0.0 then -x else x
  }

  /** A refixation follows when the scaled landing error reaches the draw. */
  predicate Refixates(lambda: real, landing: real, target: real, u: real) {
    lambda * Abs(landing - target) >= u
  }

  /** The effect of `__prepare_saccade__` on the saccade machinery. */
  function PrepareEffect(o: Oculomotor, fp: real, req: Request): Oculomotor {
    Prepared(o, req, OutsideWindow(fp, req.target, req.word), fp != req.target)
  }

  function PrepareTrace(o: Oculomotor, fp: real, req: Request, now: real): seq<Action> {
    PreparedTrace(o, OutsideWindow(fp, req.target, req.word), now)
  }

  /** A saccade request toward the current fixation point never starts a saccade. */
  lemma NoSaccadeOntoFixation(o: Oculomotor, fp: real, word: string, interruptible: bool)
    requires Coherent(o)
    ensures !OutsideWindow(fp, fp, word)
    ensures o.canBeInterrupted ==> PrepareEffect(o, fp, Request(fp, word, interruptible)).slot in {NoSaccade, Ended}
    ensures !o.canBeInterrupted ==> PrepareEffect(o, fp, Request(fp, word, interruptible)) == o
  {
  }

  /**
   * The half-word window test only starts saccades the older plain
   * inequality test would start, and it is strictly stronger: a fixation a
   * quarter letter off a one-letter target starts none.
   */
  lemma WindowTestStrongerThanInequality(fp: real, target: real, word: string)
    ensures OutsideWindow(fp, target, word) ==> fp != target
    ensures |word| == 1 ==> !OutsideWindow(target + 0.25, target, word) && target + 0.25 != target
  {
  }

  /** The next-word target is the middle of the next word, on the map's offsets. */
  lemma NextTargetIsNextMiddle(words: seq<Word>, i: nat)
    requires i + 1 < |words|
    ensures NextWordTarget(NextStart(words[..i]), words[i], words[i + 1])
         == Middle(NextStart(words[..i + 1]), words[i + 1])
  {
    assert words[..i + 1][..i] == words[..i];
  }

  /** The middle of a word of two or more letters is looked up as that word. */
  lemma MiddleLookup(words: seq<Word>, k: nat)
    requires k < |words| && |words[k].token| >= 2
    ensures Lookup(Intervals(words), Middle(NextStart(words[..k]), words[k])) == Some(words[k].token)
  {
    LookupPastStart(words, k, Middle(NextStart(words[..k]), words[k]));
  }

  /**
   * The middle of a one-letter word after the first falls on the shared
   * endpoint, and the lookup gives the word before it.
   */
  lemma OneLetterMiddleLookup(words: seq<Word>, k: nat)
    requires 0 < k < |words| && |words[k].token| == 1
    ensures Middle(NextStart(words[..k]), words[k]) == NextStart(words[..k]) as real
    ensures Lookup(Intervals(words), Middle(NextStart(words[..k]), words[k])) == Some(words[k - 1].token)
  {
    LookupAtStart(words, k);
  }

  /** The previous-word regression target always lies in the previous word's interval. */
  lemma PreviousTargetLookup(words: seq<Word>, i: nat)
    requires 0 < i < |words|
    ensures Lookup(Intervals(words), PreviousWordTarget(NextStart(words[..i]), Some(words[i - 1])))
         == Some(words[i - 1].token)
  {
    assert words[..i][..i - 1] == words[..i - 1];
    LookupPastStart(words, i - 1, PreviousWordTarget(NextStart(words[..i]), Some(words[i - 1])));
  }

  /**
   * `prev_pos` is not the previous word's middle but one letter past it: the
   * midpoint of the previous word's interval, trailing space included. For a
   * one-letter previous word it is the space after that word.
   */
  lemma PreviousTargetPastMiddle(words: seq<Word>, i: nat)
    requires 0 < i < |words|
    ensures PreviousWordTarget(NextStart(words[..i]), Some(words[i - 1]))
         == Middle(NextStart(words[..i - 1]), words[i - 1]) + 1.0
    ensures |words[i - 1].token| == 1 ==>
      PreviousWordTarget(NextStart(words[..i]), Some(words[i - 1])) == (NextStart(words[..i]) - 1) as real
  {
    assert words[..i][..i - 1] == words[..i - 1];
  }

  class Simulation {
    /** The sentence the driver walks and the model's parameters and transcendental functions. */
    const sentence: seq<Word>
    const params: Parameters
    const ln: real -> real
    const pow: (real, real) -> real
    /** `__word__position_dict`, in insertion (sentence) order. */
    const positionMap: seq<Interval>

    var fixationPoint: real
    var attendedWord: Attention
    var fixatedWord: Option<string>
    /** Every collected action in order; the last one is `last_action`. */
    var actions: seq<Action>
    var canBeInterrupted: bool
    var planSaccade: Option<Request>
    var saccade: SaccadeSlot
    var repeatedAttention: real
    var fixationLaunchSite: real

    function Oculo(): Oculomotor
      reads this
    {
      Oculomotor(canBeInterrupted, planSaccade, saccade)
    }

    ghost predicate Valid()
      reads this
    {
      && positionMap == Intervals(sentence)
      && Coherent(Oculo())
      && (Lookup(positionMap, fixationPoint).Some? ==> fixatedWord == Lookup(positionMap, fixationPoint))
    }

    /** The driver state it can be resumed in: a word of the sentence at its map offset. */
    predicate DriverOk(d: Driver) {
      d.index < |sentence| && d.firstLetter == NextStart(sentence[..d.index])
    }

    /** Builds the interval map and looks up the initially fixated word. */
    constructor (sentence: seq<Word>, params: Parameters, ln: real -> real, pow: (real, real) -> real,
                 initialFixation: real)
      ensures Valid()
      ensures this.sentence == sentence && this.params == params && this.ln == ln && this.pow == pow
      ensures fixationPoint == initialFixation && fixatedWord == Lookup(positionMap, initialFixation)
      ensures attendedWord == Unattended && actions == []
      ensures canBeInterrupted && planSaccade == None && saccade == NoSaccade
      ensures repeatedAttention == 0.0 && fixationLaunchSite == 0.0
    {
      this.sentence := sentence;
      this.params := params;
      this.ln := ln;
      this.pow := pow;
      var m := BuildPositionMap(sentence);
      positionMap := m;
      fixationPoint := initialFixation;
      attendedWord := Unattended;
      actions := [];
      canBeInterrupted := true;
      planSaccade := None;
      saccade := NoSaccade;
      repeatedAttention := 0.0;
      fixationLaunchSite := 0.0;
      var found := FindContaining(m, initialFixation);
      fixatedWord := found;
    }

    // -------------------------------------------------------------------
    // Saccade programming
    // -------------------------------------------------------------------

    /**
     * `interrupt()` on the handle: a labile saccade takes its interrupted
     * branch; otherwise nothing. A sub-step of `PrepareSaccade`.
     */
    method InterruptSaccade(now: real)
      requires Coherent(Oculo()) && canBeInterrupted
      modifies this`canBeInterrupted, this`saccade, this`actions
      ensures Coherent(Oculo())
      ensures Oculo() == Interrupt(old(Oculo()))
      ensures actions == old(actions) + InterruptTrace(old(Oculo()), now)
    {
      InterruptNeverHitsCommitted(Oculo());
      if saccade.Labile? {
        actions := actions + [Action(InterruptedSaccade, now)];
        canBeInterrupted := true;
        saccade := Ended;
      }
    }

    /**
     * A new saccade process runs to its labile wait of `saccadeProgramming` ms.
     * A sub-step of `PrepareSaccade` and `SaccadeLanded` only: it does not keep
     * `Coherent` by itself (an interruptible start beside a deferred request
     * breaks it), and those callers restore it before they return.
     */
    method StartSaccade(req: Request, now: real)
      modifies this`canBeInterrupted, this`saccade, this`actions
      ensures Oculo() == Start(old(Oculo()), req)
      ensures canBeInterrupted == req.interruptible && saccade == Labile(req) && planSaccade == old(planSaccade)
      ensures actions == old(actions) + [Action(StartedSaccade, now)]
    {
      actions := actions + [Action(StartedSaccade, now)];
      canBeInterrupted := req.interruptible;
      saccade := Labile(req);
    }

    /** `__prepare_saccade__`. */
    method PrepareSaccade(target: real, word: string, interruptible: bool, now: real)
      requires Valid()
      modifies this`canBeInterrupted, this`planSaccade, this`saccade, this`actions
      ensures Valid()
      ensures Oculo() == PrepareEffect(old(Oculo()), fixationPoint, Request(target, word, interruptible))
      ensures actions == old(actions) + PrepareTrace(old(Oculo()), fixationPoint, Request(target, word, interruptible), now)
      ensures old(canBeInterrupted) ==>
        && planSaccade == old(planSaccade)
        && (saccade == Labile(Request(target, word, interruptible)) <==> OutsideWindow(fixationPoint, target, word))
        && (!OutsideWindow(fixationPoint, target, word) ==> canBeInterrupted && saccade in {NoSaccade, Ended})
      ensures !old(canBeInterrupted) ==>
        && saccade == old(saccade) && !canBeInterrupted && actions == old(actions)
        && planSaccade == if fixationPoint != target then Some(Request(target, word, interruptible)) else old(planSaccade)
    {
      var req := Request(target, word, interruptible);
      var restart := OutsideWindow(fixationPoint, target, word);
      ghost var o := Oculo();
      if canBeInterrupted {
        InterruptSaccade(now);
        if restart {
          StartSaccade(req, now);
        }
        PreparedWhenInterruptible(o, req, restart, fixationPoint != target);
      } else {
        if fixationPoint != target {
          planSaccade := Some(req);
        }
        PreparedWhenBusy(o, req, restart, fixationPoint != target, now);
      }
      PreparedKeepsCoherent(o, req, restart, fixationPoint != target);
    }

    /** The labile wait ran out: the saccade is committed for `saccadeFinishing` ms. */
    method ProgrammingEnded(now: real) returns (delay: real)
      requires Valid() && saccade.Labile?
      modifies this`canBeInterrupted, this`saccade, this`actions
      ensures Valid()
      ensures Oculo() == Programmed(old(Oculo()))
      ensures !canBeInterrupted && saccade == Finishing(old(saccade).request) && planSaccade == old(planSaccade)
      ensures actions == old(actions) + [Action(SaccadeProgrammed, now)]
      ensures delay == params.saccadeFinishing
    {
      ghost var o := Oculo();
      canBeInterrupted := false;
      actions := actions + [Action(SaccadeProgrammed, now)];
      saccade := Finishing(saccade.request);
      ProgrammedKeepsCoherent(o);
      delay := params.saccadeFinishing;
    }

    /**
     * The committed saccade lands at `landing` (the drawn fixation point);
     * `u` is the refixation draw, used only when no request is deferred.
     */
    method SaccadeLanded(landing: real, u: real, now: real)
      requires Valid() && saccade.Finishing?
      modifies this`fixationPoint, this`fixatedWord, this`fixationLaunchSite
      modifies this`canBeInterrupted, this`planSaccade, this`saccade, this`actions
      ensures Valid()
      ensures fixationPoint == landing && fixationLaunchSite == now
      ensures fixatedWord == if Lookup(positionMap, landing).Some? then Lookup(positionMap, landing) else old(fixatedWord)
      ensures Oculo() == Landed(old(Oculo()), Refixates(params.lambda, landing, old(saccade).request.target, u))
      ensures actions == old(actions)
        + LandedTrace(old(Oculo()), Refixates(params.lambda, landing, old(saccade).request.target, u), now)
      ensures old(planSaccade).Some? ==> saccade == Labile(old(planSaccade).value) && planSaccade == None
      ensures old(planSaccade).None? ==>
        && (saccade == Labile(old(saccade).request) <==> Refixates(params.lambda, landing, old(saccade).request.target, u))
        && (!Refixates(params.lambda, landing, old(saccade).request.target, u) ==> saccade == NoSaccade && canBeInterrupted)
    {
      ghost var o := Oculo();
      var req := saccade.request;
      var refix := Refixates(params.lambda, landing, req.target, u);
      actions := actions + [Action(SaccadeFinished, now)];
      fixationLaunchSite := now;
      fixationPoint := landing;
      var found := FindContaining(positionMap, landing);
      if found.Some? {
        fixatedWord := found;
      }
      if planSaccade.Some? {
        StartSaccade(planSaccade.value, now);
        planSaccade := None;
      } else if refix {
        StartSaccade(req, now);
      } else {
        saccade := NoSaccade;
        canBeInterrupted := true;
      }
      LandedKeepsCoherent(o, refix);
      LandedOutcomes(o, refix);
    }

    // -------------------------------------------------------------------
    // Integration
    // -------------------------------------------------------------------

    /** A spawned integration process runs to its wait of the word's integration time. */
    method BeginIntegration(p: Integration, now: real) returns (delay: real)
      modifies this`actions
      ensures actions == old(actions) + [Action(StartedIntegration, now)]
      ensures delay == p.elem.integrationTime
    {
      actions := actions + [Action(StartedIntegration, now)];
      delay := p.elem.integrationTime;
    }

    /**
     * Integration ends with draw `u`: on failure a non-interruptible saccade
     * toward the regression target is requested and re-attention is spawned.
     */
    method ResumeIntegration(p: Integration, u: real, now: real) returns (spawned: Option<Reattention>)
      requires Valid()
      modifies this`actions, this`canBeInterrupted, this`planSaccade, this`saccade
      ensures Valid()
      ensures IntegrationFails(p.elem, u) ==>
        && spawned == Some(ReattentionFor(p))
        && Oculo() == PrepareEffect(old(Oculo()), fixationPoint, Request(p.regressionTarget, p.attendTo.token, false))
        && actions == old(actions) + [Action(FailedIntegration, now)]
           + PrepareTrace(old(Oculo()), fixationPoint, Request(p.regressionTarget, p.attendTo.token, false), now)
      ensures !IntegrationFails(p.elem, u) ==>
        spawned == None && Oculo() == old(Oculo()) && actions == old(actions) + [Action(SuccessfulIntegration, now)]
    {
      if p.elem.integrationFailure >= u {
        actions := actions + [Action(FailedIntegration, now)];
        PrepareSaccade(p.regressionTarget, p.attendTo.token, false, now);
        spawned := Some(ReattentionFor(p));
      } else {
        actions := actions + [Action(SuccessfulIntegration, now)];
        spawned := None;
      }
    }

    // -------------------------------------------------------------------
    // Re-attention
    // -------------------------------------------------------------------

    /** The familiarity step of re-attention: its time is added to the carry and waited. */
    method CheckFamiliarity(r: Reattention, u: real) returns (step: Step<Reattention>)
      modifies this`repeatedAttention
      ensures repeatedAttention == old(repeatedAttention) + ReattentionFamiliarity(params, ln, pow, r, fixationPoint, u)
      ensures step == Wait(ReattentionFamiliarity(params, ln, pow, r, fixationPoint, u), r.(pc := ReattentionCheckPc(r)))
    {
      var t := ReattentionFamiliarity(params, ln, pow, r, fixationPoint, u);
      repeatedAttention := repeatedAttention + t;
      step := Wait(t, r.(pc := ReattentionCheckPc(r)));
    }

    /**
     * A spawned re-attention runs: it shifts attention first unless
     * `attended_word` already equals the word's token; `u` is the familiarity
     * draw, used only when no shift is needed.
     */
    method BeginReattention(r: Reattention, u: real) returns (step: Step<Reattention>)
      requires r.pc == Begin
      modifies this`repeatedAttention
      ensures AttentionDiffers(attendedWord, r.elem.token) ==>
        step == Wait(params.timeAttentionShift, r.(pc := AfterShift))
        && repeatedAttention == old(repeatedAttention)
      ensures !AttentionDiffers(attendedWord, r.elem.token) ==>
        && repeatedAttention == old(repeatedAttention) + ReattentionFamiliarity(params, ln, pow, r, fixationPoint, u)
        && step == Wait(ReattentionFamiliarity(params, ln, pow, r, fixationPoint, u), r.(pc := ReattentionCheckPc(r)))
    {
      if AttentionDiffers(attendedWord, r.elem.token) {
        step := Wait(params.timeAttentionShift, r.(pc := AfterShift));
      } else {
        step := CheckFamiliarity(r, u);
      }
    }

    method ReattentionShifted(r: Reattention, u: real, now: real) returns (step: Step<Reattention>)
      requires r.pc == AfterShift
      modifies this`attendedWord, this`actions, this`repeatedAttention
      ensures attendedWord == AttendedWord(r.elem)
      ensures actions == old(actions) + [Action(AttentionShift, now)]
      ensures repeatedAttention == old(repeatedAttention) + ReattentionFamiliarity(params, ln, pow, r, fixationPoint, u)
      ensures step == Wait(ReattentionFamiliarity(params, ln, pow, r, fixationPoint, u), r.(pc := ReattentionCheckPc(r)))
    {
      attendedWord := AttendedWord(r.elem);
      actions := actions + [Action(AttentionShift, now)];
      step := CheckFamiliarity(r, u);
    }

    /** After the fake check outside the text: request the saccade forward and end. */
    method ReattentionFakeCheckDone(r: Reattention, now: real) returns (step: Step<Reattention>)
      requires Valid() && r.pc == AfterFakeCheck
      modifies this`actions, this`canBeInterrupted, this`planSaccade, this`saccade
      ensures Valid()
      ensures AttendedTokenOf(attendedWord).None? ==>
        step == Crash(AttributeError) && actions == old(actions) && Oculo() == old(Oculo())
      ensures AttendedTokenOf(attendedWord).Some? ==>
        && step == Done
        && Oculo() == PrepareEffect(old(Oculo()), fixationPoint, Request(r.forwardTarget, r.after.token, true))
        && actions == old(actions) + [Action(FakeFamiliarityCheck, now)]
           + PrepareTrace(old(Oculo()), fixationPoint, Request(r.forwardTarget, r.after.token, true), now)
    {
      if !attendedWord.AttendedWord? {
        return Crash(AttributeError);
      }
      actions := actions + [Action(FakeFamiliarityCheck, now)];
      PrepareSaccade(r.forwardTarget, r.after.token, true, now);
      step := Done;
    }

    /** After the familiarity check: request the saccade forward, then wait lexical access. */
    method ReattentionFamiliarityDone(r: Reattention, now: real) returns (step: Step<Reattention>)
      requires Valid() && r.pc == AfterFamiliarity
      modifies this`actions, this`canBeInterrupted, this`planSaccade, this`saccade, this`repeatedAttention
      ensures Valid()
      ensures AttendedTokenOf(attendedWord).None? ==>
        && step == Crash(AttributeError) && actions == old(actions) && Oculo() == old(Oculo())
        && repeatedAttention == old(repeatedAttention)
      ensures AttendedTokenOf(attendedWord).Some? ==>
        && step == Wait(LexicalTime(params, ln, r.elem), r.(pc := AfterLexical))
        && repeatedAttention == old(repeatedAttention) + LexicalTime(params, ln, r.elem)
        && Oculo() == PrepareEffect(old(Oculo()), fixationPoint, Request(r.forwardTarget, r.after.token, true))
        && actions == old(actions) + [Action(FamiliarityCheck, now)]
           + PrepareTrace(old(Oculo()), fixationPoint, Request(r.forwardTarget, r.after.token, true), now)
    {
      if !attendedWord.AttendedWord? {
        return Crash(AttributeError);
      }
      actions := actions + [Action(FamiliarityCheck, now)];
      PrepareSaccade(r.forwardTarget, r.after.token, true, now);
      var t := LexicalTime(params, ln, r.elem);
      repeatedAttention := repeatedAttention + t;
      step := Wait(t, r.(pc := AfterLexical));
    }

    /** After lexical access: wait the word's integration time, adding it to the carry. */
    method ReattentionLexicalDone(r: Reattention, now: real) returns (step: Step<Reattention>)
      requires r.pc == AfterLexical
      modifies this`actions, this`repeatedAttention
      ensures AttendedTokenOf(attendedWord).None? ==>
        step == Crash(AttributeError) && actions == old(actions) && repeatedAttention == old(repeatedAttention)
      ensures AttendedTokenOf(attendedWord).Some? ==>
        && step == Wait(r.elem.integrationTime, r.(pc := AfterIntegration))
        && repeatedAttention == old(repeatedAttention) + r.elem.integrationTime
        && actions == old(actions) + [Action(LexicalAccess, now)]
    {
      if !attendedWord.AttendedWord? {
        return Crash(AttributeError);
      }
      actions := actions + [Action(LexicalAccess, now)];
      repeatedAttention := repeatedAttention + r.elem.integrationTime;
      step := Wait(r.elem.integrationTime, r.(pc := AfterIntegration));
    }

    /** Re-integration succeeded: attention is left on the re-attended word's token string. */
    method ReattentionIntegrated(r: Reattention, now: real) returns (step: Step<Reattention>)
      requires r.pc == AfterIntegration
      modifies this`actions, this`attendedWord
      ensures attendedWord == AttendedToken(r.elem.token)
      ensures actions == old(actions) + [Action(SuccessfulIntegration, now)]
      ensures step == Done
    {
      actions := actions + [Action(SuccessfulIntegration, now)];
      attendedWord := AttendedToken(r.elem.token);
      step := Done;
    }

    // -------------------------------------------------------------------
    // Visual processing (the driver)
    // -------------------------------------------------------------------

    /** Attend word `index` and wait its familiarity check; past the last word, finish. */
    method EnterWord(index: nat, firstLetter: int, lookahead: Option<Lookahead>, u: real)
      returns (step: Step<Driver>)
      requires index <= |sentence|
      modifies this`attendedWord
      ensures index == |sentence| ==> step == Done && attendedWord == old(attendedWord)
      ensures index < |sentence| ==>
        && attendedWord == AttendedWord(sentence[index])
        && step == Wait(FamiliarityTime(params, ln, pow, sentence[index], firstLetter as real - fixationPoint,
                                        sentence[index].predictability > u),
                        Driver(index, firstLetter, lookahead, PastFamiliarity))
    {
      if index == |sentence| {
        return Done;
      }
      var elem := sentence[index];
      attendedWord := AttendedWord(elem);
      var distance := firstLetter as real - fixationPoint;
      var t := FamiliarityTime(params, ln, pow, elem, distance, elem.predictability > u);
      step := Wait(t, Driver(index, firstLetter, lookahead, PastFamiliarity));
    }

    /** The driver's first run: the first word starts at letter 1. */
    method StartDriver(u: real) returns (step: Step<Driver>)
      modifies this`attendedWord
      ensures |sentence| == 0 ==> step == Done
      ensures |sentence| > 0 ==>
        && attendedWord == AttendedWord(sentence[0])
        && step == Wait(FamiliarityTime(params, ln, pow, sentence[0], 1.0 - fixationPoint, sentence[0].predictability > u),
                        Driver(0, 1, None, PastFamiliarity))
      ensures step.Wait? ==> DriverOk(step.next)
    {
      step := EnterWord(0, 1, None, u);
    }

    /** After each of its three timing waits the driver waits the current carry. */
    method DriverCarryWait(d: Driver) returns (step: Step<Driver>)
      requires d.pc in {PastFamiliarity, PastLexical, PastShift}
      ensures step == Wait(repeatedAttention, d.(pc := CarryPc(d.pc)))
    {
      step := Wait(repeatedAttention, d.(pc := CarryPc(d.pc)));
    }

    /**
     * After the familiarity carry: drain the carry, then (if a next word
     * exists) aim at its middle and request the saccade, then wait lexical access.
     */
    method DriverFamiliarityCarryDone(d: Driver, now: real) returns (step: Step<Driver>)
      requires Valid() && DriverOk(d) && d.pc == PastFamiliarityCarry
      modifies this`repeatedAttention, this`actions, this`canBeInterrupted, this`planSaccade, this`saccade
      ensures Valid()
      ensures repeatedAttention == 0.0
      ensures step == Wait(LexicalTime(params, ln, sentence[d.index]), d.(lookahead := NextLookahead(sentence, d.index, d.firstLetter, d.lookahead), pc := PastLexical))
      ensures DriverOk(step.next)
      ensures d.index + 1 < |sentence| ==>
        var req := Request(NextLookahead(sentence, d.index, d.firstLetter, d.lookahead).value.target, sentence[d.index + 1].token, true);
        && Oculo() == PrepareEffect(old(Oculo()), fixationPoint, req)
        && actions == old(actions) + [Action(FamiliarityCheck, now)] + PrepareTrace(old(Oculo()), fixationPoint, req, now)
      ensures d.index + 1 == |sentence| ==>
        Oculo() == old(Oculo()) && actions == old(actions) + [Action(FamiliarityCheck, now)]
    {
      repeatedAttention := 0.0;
      var elem := sentence[d.index];
      actions := actions + [Action(FamiliarityCheck, now)];
      var lookahead := NextLookahead(sentence, d.index, d.firstLetter, d.lookahead);
      if d.index + 1 < |sentence| {
        PrepareSaccade(lookahead.value.target, lookahead.value.word.token, true, now);
      }
      step := Wait(LexicalTime(params, ln, elem), d.(lookahead := lookahead, pc := PastLexical));
    }

    /**
     * After the lexical carry: drain the carry, choose the regression target
     * with draw `u` and spawn integration, then wait the attention shift. The
     * spawn reads the lookahead, which a one-word sentence never bound.
     */
    method DriverLexicalCarryDone(d: Driver, u: real, now: real)
      returns (step: Step<Driver>, spawned: Option<Integration>)
      requires DriverOk(d) && d.pc == PastLexicalCarry
      modifies this`repeatedAttention, this`actions
      ensures repeatedAttention == 0.0
      ensures actions == old(actions) + [Action(LexicalAccess, now)]
      ensures d.lookahead.None? ==> step == Crash(NameError) && spawned == None
      ensures d.lookahead.Some? ==>
        && step == Wait(params.timeAttentionShift, d.(pc := PastShift))
        && spawned == Some(IntegrationFor(sentence[d.index], Previous(sentence, d.index), d.firstLetter,
                                          d.lookahead.value.target, d.lookahead.value.word,
                                          params.probabilityCorrectRegression, u))
    {
      repeatedAttention := 0.0;
      var elem := sentence[d.index];
      actions := actions + [Action(LexicalAccess, now)];
      if d.lookahead.None? {
        return Crash(NameError), None;
      }
      var la := d.lookahead.value;
      spawned := Some(IntegrationFor(elem, Previous(sentence, d.index), d.firstLetter, la.target, la.word,
                                     params.probabilityCorrectRegression, u));
      step := Wait(params.timeAttentionShift, d.(pc := PastShift));
    }

    /**
     * After the attention-shift carry: drain the carry, advance the first
     * letter past the word and its space, and enter the next word (draw `u`).
     */
    method DriverShiftCarryDone(d: Driver, u: real, now: real) returns (step: Step<Driver>)
      requires DriverOk(d) && d.pc == PastShiftCarry
      modifies this`repeatedAttention, this`actions, this`attendedWord
      ensures repeatedAttention == 0.0
      ensures actions == old(actions) + [Action(AttentionShift, now)]
      ensures d.index + 1 == |sentence| ==> step == Done && attendedWord == old(attendedWord)
      ensures d.index + 1 < |sentence| ==>
        && attendedWord == AttendedWord(sentence[d.index + 1])
        && step == Wait(FamiliarityTime(params, ln, pow, sentence[d.index + 1],
                                        (d.firstLetter + |sentence[d.index].token| + 1) as real - fixationPoint,
                                        sentence[d.index + 1].predictability > u),
                        Driver(d.index + 1, d.firstLetter + |sentence[d.index].token| + 1, d.lookahead, PastFamiliarity))
      ensures step.Wait? ==> DriverOk(step.next)
    {
      repeatedAttention := 0.0;
      actions := actions + [Action(AttentionShift, now)];
      var firstLetter := d.firstLetter + |sentence[d.index].token| + 1;
      assert sentence[..d.index + 1][..d.index] == sentence[..d.index];
      step := EnterWord(d.index + 1, firstLetter, d.lookahead, u);
    }
  }
}
