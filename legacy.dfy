/**
 * The older E-Z Reader simulation of the repository's root simulation.py,
 * in the same per-event form as module EzReader. It differs in three
 * places: a saccade starts whenever the fixation differs from the target,
 * the eyes land exactly on the target with no refixation, and the driver's
 * attention shift waits `timeAttentionShift` plus the carry in one wait.
 * There is no position map, fixated word or launch site.
 */
module Legacy {
  import opened Reading
  import opened Positions

  /** Where the driver is suspended. */
  datatype DriverPc =
    | PastFamiliarity
    | PastFamiliarityCarry
    | PastLexical
    | PastLexicalCarry
    | PastShift

  datatype Driver = Driver(index: nat, firstLetter: int, lookahead: Option<Lookahead>, pc: DriverPc)

  function CarryPc(pc: DriverPc): DriverPc {
    match pc
    case PastFamiliarity => PastFamiliarityCarry
    case PastLexical => PastLexicalCarry
    case _ => pc
  }

  /** The effect of `__prepare_saccade__`: both tests are plain inequality here. */
  function PrepareEffect(o: Oculomotor, fp: real, req: Request): Oculomotor {
    Prepared(o, req, fp != req.target, fp != req.target)
  }

  function PrepareTrace(o: Oculomotor, fp: real, req: Request, now: real): seq<Action> {
    PreparedTrace(o, fp != req.target, now)
  }

  /** While a saccade is busy, a request aimed at the current fixation point changes nothing. */
  lemma RequestAtFixationIsDropped(o: Oculomotor, fp: real, word: string, interruptible: bool)
    requires Coherent(o) && !o.canBeInterrupted
    ensures PrepareEffect(o, fp, Request(fp, word, interruptible)) == o
  {
  }

  /** While interruptible, a request away from the fixation always starts a saccade. */
  lemma RequestAwayAlwaysStarts(o: Oculomotor, fp: real, req: Request)
    requires Coherent(o) && o.canBeInterrupted && fp != req.target
    ensures PrepareEffect(o, fp, req).slot == Labile(req)
    ensures PrepareEffect(o, fp, req).plan == o.plan
  {
    PreparedWhenInterruptible(o, req, true, true);
  }

  class Simulation {
    const sentence: seq<Word>
    const params: Parameters
    const ln: real -> real
    const pow: (real, real) -> real

    var fixationPoint: real
    var attendedWord: Attention
    /** Every action written to `last_action`, in order. */
    var actions: seq<Action>
    var canBeInterrupted: bool
    var planSaccade: Option<Request>
    var saccade: SaccadeSlot
    var repeatedAttention: real

    function Oculo(): Oculomotor
      reads this
    {
      Oculomotor(canBeInterrupted, planSaccade, saccade)
    }

    ghost predicate Valid()
      reads this
    {
      Coherent(Oculo())
    }

    predicate DriverOk(d: Driver) {
      d.index < |sentence| && d.firstLetter == NextStart(sentence[..d.index])
    }

    constructor (sentence: seq<Word>, params: Parameters, ln: real -> real, pow: (real, real) -> real,
                 initialFixation: real)
      ensures Valid()
      ensures this.sentence == sentence && this.params == params && this.ln == ln && this.pow == pow
      ensures fixationPoint == initialFixation && attendedWord == Unattended && actions == []
      ensures canBeInterrupted && planSaccade == None && saccade == NoSaccade
      ensures repeatedAttention == 0.0
    {
      this.sentence := sentence;
      this.params := params;
      this.ln := ln;
      this.pow := pow;
      fixationPoint := initialFixation;
      attendedWord := Unattended;
      actions := [];
      canBeInterrupted := true;
      planSaccade := None;
      saccade := NoSaccade;
      repeatedAttention := 0.0;
    }

    // -------------------------------------------------------------------
    // Saccade programming
    // -------------------------------------------------------------------

    /** `interrupt()` on the handle; a sub-step of `PrepareSaccade`. */
    method InterruptSaccade(now: real)
      requires Coherent(Oculo()) && canBeInterrupted
      modifies this`canBeInterrupted, this`saccade, this`actions
      ensures Coherent(Oculo())
      ensures Oculo() == Interrupt(old(Oculo()))
      ensures actions == old(actions) + InterruptTrace(old(Oculo()), now)
    {
      InterruptNeverHitsCommitted(Oculo());
      if saccade.Labile? {
        actions := actions + [Action(InterruptedSaccade, now)];
        canBeInterrupted := true;
        saccade := Ended;
      }
    }

    /**
     * A new saccade process runs to its labile wait. A sub-step of
     * `PrepareSaccade` and `SaccadeLanded` only: it does not keep `Coherent`
     * by itself, and those callers restore it before they return.
     */
    method StartSaccade(req: Request, now: real)
      modifies this`canBeInterrupted, this`saccade, this`actions
      ensures Oculo() == Start(old(Oculo()), req)
      ensures canBeInterrupted == req.interruptible && saccade == Labile(req) && planSaccade == old(planSaccade)
      ensures actions == old(actions) + [Action(StartedSaccade, now)]
    {
      actions := actions + [Action(StartedSaccade, now)];
      canBeInterrupted := req.interruptible;
      saccade := Labile(req);
    }

    /** `__prepare_saccade__`. */
    method PrepareSaccade(target: real, word: string, interruptible: bool, now: real)
      requires Valid()
      modifies this`canBeInterrupted, this`planSaccade, this`saccade, this`actions
      ensures Valid()
      ensures Oculo() == PrepareEffect(old(Oculo()), fixationPoint, Request(target, word, interruptible))
      ensures actions == old(actions) + PrepareTrace(old(Oculo()), fixationPoint, Request(target, word, interruptible), now)
      ensures old(canBeInterrupted) ==>
        && planSaccade == old(planSaccade)
        && (saccade == Labile(Request(target, word, interruptible)) <==> fixationPoint != target)
      ensures !old(canBeInterrupted) ==>
        && saccade == old(saccade) && !canBeInterrupted && actions == old(actions)
        && planSaccade == if fixationPoint != target then Some(Request(target, word, interruptible)) else old(planSaccade)
    {
      var req := Request(target, word, interruptible);
      var differs := fixationPoint != target;
      ghost var o := Oculo();
      if canBeInterrupted {
        InterruptSaccade(now);
        if differs {
          StartSaccade(req, now);
        }
        PreparedWhenInterruptible(o, req, differs, differs);
      } else {
        if differs {
          planSaccade := Some(req);
        }
        PreparedWhenBusy(o, req, differs, differs, now);
      }
      PreparedKeepsCoherent(o, req, differs, differs);
    }

    method ProgrammingEnded(now: real) returns (delay: real)
      requires Valid() && saccade.Labile?
      modifies this`canBeInterrupted, this`saccade, this`actions
      ensures Valid()
      ensures Oculo() == Programmed(old(Oculo()))
      ensures !canBeInterrupted && saccade == Finishing(old(saccade).request) && planSaccade == old(planSaccade)
      ensures actions == old(actions) + [Action(SaccadeProgrammed, now)]
      ensures delay == params.saccadeFinishing
    {
      ghost var o := Oculo();
      canBeInterrupted := false;
      actions := actions + [Action(SaccadeProgrammed, now)];
      saccade := Finishing(saccade.request);
      ProgrammedKeepsCoherent(o);
      delay := params.saccadeFinishing;
    }

    /** The committed saccade lands exactly on its target; a deferred request starts next. */
    method SaccadeLanded(now: real)
      requires Valid() && saccade.Finishing?
      modifies this`fixationPoint, this`canBeInterrupted, this`planSaccade, this`saccade, this`actions
      ensures Valid()
      ensures fixationPoint == old(saccade).request.target
      ensures Oculo() == Landed(old(Oculo()), false)
      ensures actions == old(actions) + LandedTrace(old(Oculo()), false, now)
      ensures old(planSaccade).Some? ==> saccade == Labile(old(planSaccade).value) && planSaccade == None
      ensures old(planSaccade).None? ==> saccade == NoSaccade && canBeInterrupted && planSaccade == None
    {
      ghost var o := Oculo();
      actions := actions + [Action(SaccadeFinished, now)];
      fixationPoint := saccade.request.target;
      if planSaccade.Some? {
        StartSaccade(planSaccade.value, now);
        planSaccade := None;
      } else {
        saccade := NoSaccade;
        canBeInterrupted := true;
      }
      LandedKeepsCoherent(o, false);
      LandedOutcomes(o, false);
    }

    // -------------------------------------------------------------------
    // Integration
    // -------------------------------------------------------------------

    method BeginIntegration(p: Integration, now: real) returns (delay: real)
      modifies this`actions
      ensures actions == old(actions) + [Action(StartedIntegration, now)]
      ensures delay == p.elem.integrationTime
    {
      actions := actions + [Action(StartedIntegration, now)];
      delay := p.elem.integrationTime;
    }

    method ResumeIntegration(p: Integration, u: real, now: real) returns (spawned: Option<Reattention>)
      requires Valid()
      modifies this`actions, this`canBeInterrupted, this`planSaccade, this`saccade
      ensures Valid()
      ensures IntegrationFails(p.elem, u) ==>
        && spawned == Some(ReattentionFor(p))
        && Oculo() == PrepareEffect(old(Oculo()), fixationPoint, Request(p.regressionTarget, p.attendTo.token, false))
        && actions == old(actions) + [Action(FailedIntegration, now)]
           + PrepareTrace(old(Oculo()), fixationPoint, Request(p.regressionTarget, p.attendTo.token, false), now)
      ensures !IntegrationFails(p.elem, u) ==>
        spawned == None && Oculo() == old(Oculo()) && actions == old(actions) + [Action(SuccessfulIntegration, now)]
    {
      if p.elem.integrationFailure >= u {
        actions := actions + [Action(FailedIntegration, now)];
        PrepareSaccade(p.regressionTarget, p.attendTo.token, false, now);
        spawned := Some(ReattentionFor(p));
      } else {
        actions := actions + [Action(SuccessfulIntegration, now)];
        spawned := None;
      }
    }

    // -------------------------------------------------------------------
    // Re-attention
    // -------------------------------------------------------------------

    method CheckFamiliarity(r: Reattention, u: real) returns (step: Step<Reattention>)
      modifies this`repeatedAttention
      ensures repeatedAttention == old(repeatedAttention) + ReattentionFamiliarity(params, ln, pow, r, fixationPoint, u)
      ensures step == Wait(ReattentionFamiliarity(params, ln, pow, r, fixationPoint, u), r.(pc := ReattentionCheckPc(r)))
    {
      var t := ReattentionFamiliarity(params, ln, pow, r, fixationPoint, u);
      repeatedAttention := repeatedAttention + t;
      step := Wait(t, r.(pc := ReattentionCheckPc(r)));
    }

    method BeginReattention(r: Reattention, u: real) returns (step: Step<Reattention>)
      requires r.pc == Begin
      modifies this`repeatedAttention
      ensures AttentionDiffers(attendedWord, r.elem.token) ==>
        step == Wait(params.timeAttentionShift, r.(pc := AfterShift))
        && repeatedAttention == old(repeatedAttention)
      ensures !AttentionDiffers(attendedWord, r.elem.token) ==>
        && repeatedAttention == old(repeatedAttention) + ReattentionFamiliarity(params, ln, pow, r, fixationPoint, u)
        && step == Wait(ReattentionFamiliarity(params, ln, pow, r, fixationPoint, u), r.(pc := ReattentionCheckPc(r)))
    {
      if AttentionDiffers(attendedWord, r.elem.token) {
        step := Wait(params.timeAttentionShift, r.(pc := AfterShift));
      } else {
        step := CheckFamiliarity(r, u);
      }
    }

    method ReattentionShifted(r: Reattention, u: real, now: real) returns (step: Step<Reattention>)
      requires r.pc == AfterShift
      modifies this`attendedWord, this`actions, this`repeatedAttention
      ensures attendedWord == AttendedWord(r.elem)
      ensures actions == old(actions) + [Action(AttentionShift, now)]
      ensures repeatedAttention == old(repeatedAttention) + ReattentionFamiliarity(params, ln, pow, r, fixationPoint, u)
      ensures step == Wait(ReattentionFamiliarity(params, ln, pow, r, fixationPoint, u), r.(pc := ReattentionCheckPc(r)))
    {
      attendedWord := AttendedWord(r.elem);
      actions := actions + [Action(AttentionShift, now)];
      step := CheckFamiliarity(r, u);
    }

    method ReattentionFakeCheckDone(r: Reattention, now: real) returns (step: Step<Reattention>)
      requires Valid() && r.pc == AfterFakeCheck
      modifies this`actions, this`canBeInterrupted, this`planSaccade, this`saccade
      ensures Valid()
      ensures AttendedTokenOf(attendedWord).None? ==>
        step == Crash(AttributeError) && actions == old(actions) && Oculo() == old(Oculo())
      ensures AttendedTokenOf(attendedWord).Some? ==>
        && step == Done
        && Oculo() == PrepareEffect(old(Oculo()), fixationPoint, Request(r.forwardTarget, r.after.token, true))
        && actions == old(actions) + [Action(FakeFamiliarityCheck, now)]
           + PrepareTrace(old(Oculo()), fixationPoint, Request(r.forwardTarget, r.after.token, true), now)
    {
      if !attendedWord.AttendedWord? {
        return Crash(AttributeError);
      }
      actions := actions + [Action(FakeFamiliarityCheck, now)];
      PrepareSaccade(r.forwardTarget, r.after.token, true, now);
      step := Done;
    }

    method ReattentionFamiliarityDone(r: Reattention, now: real) returns (step: Step<Reattention>)
      requires Valid() && r.pc == AfterFamiliarity
      modifies this`actions, this`canBeInterrupted, this`planSaccade, this`saccade, this`repeatedAttention
      ensures Valid()
      ensures AttendedTokenOf(attendedWord).None? ==>
        && step == Crash(AttributeError) && actions == old(actions) && Oculo() == old(Oculo())
        && repeatedAttention == old(repeatedAttention)
      ensures AttendedTokenOf(attendedWord).Some? ==>
        && step == Wait(LexicalTime(params, ln, r.elem), r.(pc := AfterLexical))
        && repeatedAttention == old(repeatedAttention) + LexicalTime(params, ln, r.elem)
        && Oculo() == PrepareEffect(old(Oculo()), fixationPoint, Request(r.forwardTarget, r.after.token, true))
        && actions == old(actions) + [Action(FamiliarityCheck, now)]
           + PrepareTrace(old(Oculo()), fixationPoint, Request(r.forwardTarget, r.after.token, true), now)
    {
      if !attendedWord.AttendedWord? {
        return Crash(AttributeError);
      }
      actions := actions + [Action(FamiliarityCheck, now)];
      PrepareSaccade(r.forwardTarget, r.after.token, true, now);
      var t := LexicalTime(params, ln, r.elem);
      repeatedAttention := repeatedAttention + t;
      step := Wait(t, r.(pc := AfterLexical));
    }

    method ReattentionLexicalDone(r: Reattention, now: real) returns (step: Step<Reattention>)
      requires r.pc == AfterLexical
      modifies this`actions, this`repeatedAttention
      ensures AttendedTokenOf(attendedWord).None? ==>
        step == Crash(AttributeError) && actions == old(actions) && repeatedAttention == old(repeatedAttention)
      ensures AttendedTokenOf(attendedWord).Some? ==>
        && step == Wait(r.elem.integrationTime, r.(pc := AfterIntegration))
        && repeatedAttention == old(repeatedAttention) + r.elem.integrationTime
        && actions == old(actions) + [Action(LexicalAccess, now)]
    {
      if !attendedWord.AttendedWord? {
        return Crash(AttributeError);
      }
      actions := actions + [Action(LexicalAccess, now)];
      repeatedAttention := repeatedAttention + r.elem.integrationTime;
      step := Wait(r.elem.integrationTime, r.(pc := AfterIntegration));
    }

    method ReattentionIntegrated(r: Reattention, now: real) returns (step: Step<Reattention>)
      requires r.pc == AfterIntegration
      modifies this`actions, this`attendedWord
      ensures attendedWord == AttendedToken(r.elem.token)
      ensures actions == old(actions) + [Action(SuccessfulIntegration, now)]
      ensures step == Done
    {
      actions := actions + [Action(SuccessfulIntegration, now)];
      attendedWord := AttendedToken(r.elem.token);
      step := Done;
    }

    // -------------------------------------------------------------------
    // Visual processing (the driver)
    // -------------------------------------------------------------------

    method EnterWord(index: nat, firstLetter: int, lookahead: Option<Lookahead>, u: real)
      returns (step: Step<Driver>)
      requires index <= |sentence|
      modifies this`attendedWord
      ensures index == |sentence| ==> step == Done && attendedWord == old(attendedWord)
      ensures index < |sentence| ==>
        && attendedWord == AttendedWord(sentence[index])
        && step == Wait(FamiliarityTime(params, ln, pow, sentence[index], firstLetter as real - fixationPoint,
                                        sentence[index].predictability > u),
                        Driver(index, firstLetter, lookahead, PastFamiliarity))
    {
      if index == |sentence| {
        return Done;
      }
      var elem := sentence[index];
      attendedWord := AttendedWord(elem);
      var distance := firstLetter as real - fixationPoint;
      var t := FamiliarityTime(params, ln, pow, elem, distance, elem.predictability > u);
      step := Wait(t, Driver(index, firstLetter, lookahead, PastFamiliarity));
    }

    method StartDriver(u: real) returns (step: Step<Driver>)
      modifies this`attendedWord
      ensures |sentence| == 0 ==> step == Done
      ensures |sentence| > 0 ==>
        && attendedWord == AttendedWord(sentence[0])
        && step == Wait(FamiliarityTime(params, ln, pow, sentence[0], 1.0 - fixationPoint, sentence[0].predictability > u),
                        Driver(0, 1, None, PastFamiliarity))
      ensures step.Wait? ==> DriverOk(step.next)
    {
      step := EnterWord(0, 1, None, u);
    }

    /** After its familiarity and lexical waits the driver waits the current carry. */
    method DriverCarryWait(d: Driver) returns (step: Step<Driver>)
      requires d.pc in {PastFamiliarity, PastLexical}
      ensures step == Wait(repeatedAttention, d.(pc := CarryPc(d.pc)))
    {
      step := Wait(repeatedAttention, d.(pc := CarryPc(d.pc)));
    }

    method DriverFamiliarityCarryDone(d: Driver, now: real) returns (step: Step<Driver>)
      requires Valid() && DriverOk(d) && d.pc == PastFamiliarityCarry
      modifies this`repeatedAttention, this`actions, this`canBeInterrupted, this`planSaccade, this`saccade
      ensures Valid()
      ensures repeatedAttention == 0.0
      ensures step == Wait(LexicalTime(params, ln, sentence[d.index]),
                           d.(lookahead := NextLookahead(sentence, d.index, d.firstLetter, d.lookahead), pc := PastLexical))
      ensures DriverOk(step.next)
      ensures d.index + 1 < |sentence| ==>
        var req := Request(NextLookahead(sentence, d.index, d.firstLetter, d.lookahead).value.target,
                           sentence[d.index + 1].token, true);
        && Oculo() == PrepareEffect(old(Oculo()), fixationPoint, req)
        && actions == old(actions) + [Action(FamiliarityCheck, now)] + PrepareTrace(old(Oculo()), fixationPoint, req, now)
      ensures d.index + 1 == |sentence| ==>
        Oculo() == old(Oculo()) && actions == old(actions) + [Action(FamiliarityCheck, now)]
    {
      repeatedAttention := 0.0;
      var elem := sentence[d.index];
      actions := actions + [Action(FamiliarityCheck, now)];
      var lookahead := NextLookahead(sentence, d.index, d.firstLetter, d.lookahead);
      if d.index + 1 < |sentence| {
        PrepareSaccade(lookahead.value.target, lookahead.value.word.token, true, now);
      }
      step := Wait(LexicalTime(params, ln, elem), d.(lookahead := lookahead, pc := PastLexical));
    }

    /**
     * After the lexical carry: drain the carry, spawn integration, and wait
     * the attention shift plus the carry, which was just drained, so the
     * wait is exactly `timeAttentionShift`.
     */
    method DriverLexicalCarryDone(d: Driver, u: real, now: real)
      returns (step: Step<Driver>, spawned: Option<Integration>)
      requires DriverOk(d) && d.pc == PastLexicalCarry
      modifies this`repeatedAttention, this`actions
      ensures repeatedAttention == 0.0
      ensures actions == old(actions) + [Action(LexicalAccess, now)]
      ensures d.lookahead.None? ==> step == Crash(NameError) && spawned == None
      ensures d.lookahead.Some? ==>
        && step == Wait(params.timeAttentionShift, d.(pc := PastShift))
        && spawned == Some(IntegrationFor(sentence[d.index], Previous(sentence, d.index), d.firstLetter,
                                          d.lookahead.value.target, d.lookahead.value.word,
                                          params.probabilityCorrectRegression, u))
    {
      repeatedAttention := 0.0;
      var elem := sentence[d.index];
      actions := actions + [Action(LexicalAccess, now)];
      if d.lookahead.None? {
        return Crash(NameError), None;
      }
      var la := d.lookahead.value;
      spawned := Some(IntegrationFor(elem, Previous(sentence, d.index), d.firstLetter, la.target, la.word,
                                     params.probabilityCorrectRegression, u));
      step := Wait(params.timeAttentionShift + repeatedAttention, d.(pc := PastShift));
    }

    /**
     * After the attention shift: the carry accrued during that wait is
     * dropped, the first letter advances, and the next word is entered.
     */
    method DriverShiftDone(d: Driver, u: real, now: real) returns (step: Step<Driver>)
      requires DriverOk(d) && d.pc == PastShift
      modifies this`repeatedAttention, this`actions, this`attendedWord
      ensures repeatedAttention == 0.0
      ensures actions == old(actions) + [Action(AttentionShift, now)]
      ensures d.index + 1 == |sentence| ==> step == Done && attendedWord == old(attendedWord)
      ensures d.index + 1 < |sentence| ==>
        && attendedWord == AttendedWord(sentence[d.index + 1])
        && step == Wait(FamiliarityTime(params, ln, pow, sentence[d.index + 1],
                                        (d.firstLetter + |sentence[d.index].token| + 1) as real - fixationPoint,
                                        sentence[d.index + 1].predictability > u),
                        Driver(d.index + 1, d.firstLetter + |sentence[d.index].token| + 1, d.lookahead, PastFamiliarity))
      ensures step.Wait? ==> DriverOk(step.next)
    {
      repeatedAttention := 0.0;
      actions := actions + [Action(AttentionShift, now)];
      var firstLetter := d.firstLetter + |sentence[d.index].token| + 1;
      assert sentence[..d.index + 1][..d.index] == sentence[..d.index];
      step := EnterWord(d.index + 1, firstLetter, d.lookahead, u);
    }
  }
}
