/** The director's signals reach whom they are meant for.  Every process that has been signalled has
    the signal pending or its flag up, or has acted on it; the one way to lose the signal of the end of
    the day is to clear the flag at the start of the day. */
module Told {
  import opened Office
  import opened Processes
  import opened Tallies
  import opened Frames
  import opened Barrier
  import opened Core
  import opened Director
  import opened Invariant
  import opened DayEnd

  // ----- the sending

  /** Operator i, and nobody else, gets this pending signal. */
  predicate OnlyOne(s: State, t: State, i: nat, sig: Signals)
    requires i < |s.ops|
  {
    && |t.ops| == |s.ops| && t.ops[i] == s.ops[i].(sig := sig)
    && (forall j :: 0 <= j < |s.ops| && j != i ==> t.ops[j] == s.ops[j])
    && t.disp == s.disp && t.sh == s.sh
  }

  predicate OnlyDispenser(s: State, t: State, disp: Disp) { t.ops == s.ops && t.sh == s.sh && t.disp == disp }

  /** The end of the day is signalled to the dispenser first, then to one operator after the other. */
  lemma DayEndIsSent(s: State, arr: seq<int>, newUsers: nat)
    requires s.dir.pc.DSuspend?
    ensures var t, k := Apply(s, StepDir(arr, newUsers)), s.dir.pc.k;
            if k == 0 then OnlyDispenser(s, t, s.disp.(pend2 := true)) && t.dir.pc == DSuspend(1)
            else if k <= |s.ops| then
              OnlyOne(s, t, k - 1, s.ops[k-1].sig.(pend2 := true)) && t.dir.pc == DSuspend(k + 1)
            else OnlyDispenser(s, t, s.disp) && t.dir.pc == DWaitStats
  {
  }

  /** And so is the end of the simulation. */
  lemma SimEndIsSent(s: State, arr: seq<int>, newUsers: nat)
    requires s.dir.pc.DEndSim?
    ensures var t, k := Apply(s, StepDir(arr, newUsers)), s.dir.pc.k;
            if k == 0 then OnlyDispenser(s, t, s.disp.(pend1 := true)) && t.dir.pc == DEndSim(1)
            else if k <= |s.ops| then
              OnlyOne(s, t, k - 1, s.ops[k-1].sig.(pend1 := true)) && t.dir.pc == DEndSim(k + 1)
            else OnlyDispenser(s, t, s.disp) && t.dir.pc == DWaitFinal
  {
  }

  // ----- the receiving

  /** The signal is pending or noticed, or the operator has acted on it, or lost it at the start. */
  predicate Heard(o: Op) {
    o.sig.pend2 || o.sig.usr2 || DayEnd.Closing(o.pc) || o.pc.OStart? || o.log.missed
  }

  predicate HeardEnd(o: Op) { o.sig.pend1 || o.sig.usr1 }

  predicate NotifiedEnd(pc: DirPc, i: nat) {
    match pc
    case DEndSim(k) => i + 1 < k
    case DWaitFinal | DDone => true
    case _ => false
  }

  predicate DispNotified(pc: DirPc) {
    match pc
    case DSuspend(k) => k > 0
    case DWaitStats => true
    case _ => false
  }

  predicate OpsHear(s: State) {
    forall i :: 0 <= i < |s.ops| ==>
      (Notified(s.dir.pc, i) ==> Heard(s.ops[i])) && (NotifiedEnd(s.dir.pc, i) ==> HeardEnd(s.ops[i]))
  }

  predicate DispHears(s: State) {
    && (DispNotified(s.dir.pc) ==> s.disp.pend2 || s.disp.dayEnd || !Issuing(s.disp.pc))
    && (Barrier.Told(s.dir.pc) ==> s.disp.pend1 || s.disp.simEnd)
  }

  // ----- operators

  predicate HearLaw(o: Op, p: Op) {
    && (Heard(o) && (o.pc.OStart? ==> p.pc.OStart?) ==> Heard(p))
    && (HeardEnd(o) ==> HeardEnd(p))
  }

  lemma WorkHears(cfg: Config, sh: Shared, o: Op, pid: nat, choice: bool)
    ensures HearLaw(o, DeskGo(sh, o, pid).o) && HearLaw(o, CountGo(sh, o).o) && HearLaw(o, TicketGo(sh, o).o)
    ensures HearLaw(o, ServeGo(sh, o).o) && HearLaw(o, SessionGo(sh, o).o) && HearLaw(o, StatGo(sh, o).o)
  {
    hide ReservedId, Reserved, Bump, Take, Provided, FirstOf, Without, ZeroAsInt;
  }

  lemma RestHears(cfg: Config, sh: Shared, o: Op, pid: nat, choice: bool)
    ensures HearLaw(o, GateGo(sh, o).o) && HearLaw(o, PauseGo(cfg, sh, o, pid, choice).o)
    ensures HearLaw(o, RestGo(sh, o).o) && HearLaw(o, CloseGo(sh, o, pid).o)
  {
    hide Released, Releases, Bump;
  }

  /** Nothing an operator does makes it forget a signal, but for the clearing at the start. */
  lemma OpHears(cfg: Config, sh: Shared, o: Op, pid: nat, a: Act)
    ensures HearLaw(o, OpDo(cfg, sh, o, pid, a).o)
  {
    hide GateGo, DeskGo, CountGo, TicketGo, ServeGo, SessionGo, StatGo, PauseGo, RestGo, CloseGo;
    if a.Go? {
      WorkHears(cfg, sh, o, pid, a.choice);
      RestHears(cfg, sh, o, pid, a.choice);
      hide HearLaw;
      SameHears(o);
    }
  }

  lemma SameHears(o: Op)
    ensures HearLaw(o, o)
  {
  }

  lemma OpKeepsHearing(s: State, i: nat, a: Act)
    requires OpsHear(s) && DispHears(s) && BarrierOk(s) && CoreOk(s) && i < |s.ops|
    ensures var t := Apply(s, StepOp(i, a)); OpsHear(t) && DispHears(t)
  {
    hide OpDo, CoreOk, Apply;
    var o, r := s.ops[i], OpDo(s.cfg, s.sh, s.ops[i], i + 1, a);
    OpHears(s.cfg, s.sh, o, i + 1, a);
    OpStep(s, i, a);
    if Notified(s.dir.pc, i) {
      OpSync(s.cfg, s.sh, o, i + 1, a);
      assert s.sh.sim.s0 == 0 && NotTold(s);
      hide BarrierOk;
    }
    hide BarrierOk, Heard;
  }

  // ----- dispenser

  lemma DispKeepsHearing(s: State, a: Act, req: Request)
    requires DispHears(s) && OpsHear(s) && BarrierOk(s)
    ensures var t := Apply(s, StepDisp(a, req)); OpsHear(t) && DispHears(t)
  {
    var t := Apply(s, StepDisp(a, req));
    DispFrame(s, a, req);
    DispFlow(s, a, req);
    DispKeepsBarrier(s, a, req);
    DispForgets(s, a, req);
    hide Apply, DispWrites, DispLocks;
    if DispNotified(s.dir.pc) {
      assert OpenedOk(s) && OpenedOk(t);
    }
    hide BarrierOk, OpsHear;
    assert OpsHear(t) by { SameOps(s, t); }
  }

  lemma SameOps(s: State, t: State)
    requires OpsHear(s) && t.ops == s.ops && t.dir == s.dir
    ensures OpsHear(t)
  {
  }

  /** The dispenser clears its flag only when it has closed the day or begins one. */
  predicate Forgets(d: Disp, e: Disp) {
    && (d.pend2 || d.dayEnd ==> e.pend2 || e.dayEnd || d.pc.EStart? || d.pc.EPost4?)
    && (d.pend1 || d.simEnd ==> e.pend1 || e.simEnd)
    && (!Issuing(d.pc) && Issuing(e.pc) ==> d.pc.EJoin?)
  }

  lemma MorningForgets(s: State)
    ensures Forgets(s.disp, DispMorning(s).disp)
  {
    hide DayReset;
  }

  lemma TakeForgets(s: State, req: Request)
    ensures Forgets(s.disp, DispTake(s, req).disp) && Forgets(s.disp, DispIssue(s).disp)
  {
    hide Bump;
  }

  lemma CloseForgets(s: State)
    ensures Forgets(s.disp, DispClose(s).disp)
  {
    hide Closed, Record;
    match s.disp.pc
    case EWait3 =>
    case EStatLock =>
    case EStatWalk =>
    case EStatUnlock =>
    case EPost4 =>
    case _ =>
  }

  lemma FinalForgets(s: State)
    ensures Forgets(s.disp, DispFinal(s).disp)
  {
  }

  lemma DispForgets(s: State, a: Act, req: Request)
    ensures Forgets(s.disp, Apply(s, StepDisp(a, req)).disp)
  {
    hide DispMorning, DispTake, DispIssue, DispClose, DispFinal;
    if a.Go? {
      hide Forgets;
      MorningForgets(s);
      TakeForgets(s, req);
      CloseForgets(s);
      FinalForgets(s);
    }
  }

  // ----- director

  lemma DirKeepsHearing(s: State, arr: seq<int>, newUsers: nat)
    requires OpsHear(s) && DispHears(s)
    ensures var t := Apply(s, StepDir(arr, newUsers)); OpsHear(t) && DispHears(t)
  {
    hide Apply, Heard, HeardEnd, DirFlows;
    var t := Apply(s, StepDir(arr, newUsers));
    if s.dir.pc.DSuspend? {
      DayEndIsSent(s, arr, newUsers);
      if 0 < s.dir.pc.k <= |s.ops| { SentIsHeard(s, t, s.dir.pc.k - 1); }
    } else if s.dir.pc.DEndSim? {
      SimEndIsSent(s, arr, newUsers);
      if 0 < s.dir.pc.k <= |s.ops| { SentIsHeard(s, t, s.dir.pc.k - 1); }
    } else {
      KeepsFlags(s, arr, newUsers);
      DirFlowsTo(s, arr, newUsers);
    }
  }

  /** A pending signal is heard; the other signal changes nothing about it. */
  lemma MarkHears(o: Op)
    ensures var p := o.(sig := o.sig.(pend2 := true)); Heard(p) && HeardEnd(p) == HeardEnd(o)
    ensures var p := o.(sig := o.sig.(pend1 := true)); HeardEnd(p) && Heard(p) == Heard(o)
  {
  }

  predicate Marks2(s: State, t: State, i: nat)
    requires i < |s.ops| == |t.ops|
  {
    && t.ops[i] == s.ops[i].(sig := s.ops[i].sig.(pend2 := true))
    && s.dir.pc == DSuspend(i + 1) && t.dir.pc == DSuspend(i + 2)
  }

  predicate Marks1(s: State, t: State, i: nat)
    requires i < |s.ops| == |t.ops|
  {
    && t.ops[i] == s.ops[i].(sig := s.ops[i].sig.(pend1 := true))
    && s.dir.pc == DEndSim(i + 1) && t.dir.pc == DEndSim(i + 2)
  }

  lemma SentIsHeard(s: State, t: State, i: nat)
    requires OpsHear(s) && i < |s.ops| && |t.ops| == |s.ops|
    requires forall j :: 0 <= j < |s.ops| && j != i ==> t.ops[j] == s.ops[j]
    requires Marks2(s, t, i) || Marks1(s, t, i)
    ensures OpsHear(t)
  {
    MarkHears(s.ops[i]);
    hide Heard, HeardEnd;
  }

  /** Who was notified stays so, but for the next part of the day. */
  lemma DirFlowsTo(s: State, arr: seq<int>, newUsers: nat)
    requires !s.dir.pc.DSuspend? && !s.dir.pc.DEndSim?
    ensures var p, q := s.dir.pc, Apply(s, StepDir(arr, newUsers)).dir.pc;
            && (forall i: nat :: Notified(q, i) ==> Notified(p, i))
            && (forall i: nat :: NotifiedEnd(q, i) ==> NotifiedEnd(p, i))
            && (DispNotified(q) ==> DispNotified(p)) && (Barrier.Told(q) ==> Barrier.Told(p))
  {
    hide DirDay, DirReset, DirTurn, DirEnd;
    match s.dir.pc
    case DPipe | DPost2 | DWait0 | DWait1 | DOpen | DDay | DSuspend(_) | DWaitStats => DayFlowsTo(s);
    case DReset2(_) | DReset0(_) | DReset1(_) | DReset3(_) | DReset4(_) | DResetT(_) => ResetFlowsTo(s);
    case DClear | DUsers | DDecide | DApply | DExplode => TurnFlowsTo(s, arr, newUsers);
    case DEndSim(_) | DWaitFinal | DDone => EndFlowsTo(s);
  }

  predicate NotifiesNoMore(p: DirPc, q: DirPc) {
    && (DispNotified(q) ==> DispNotified(p)) && (Barrier.Told(q) ==> Barrier.Told(p))
    && (q.DSuspend? ==> q.k == 0) && (q.DWaitStats? ==> p.DWaitStats?)
    && (q.DEndSim? ==> q.k == 0) && (q.DWaitFinal? || q.DDone? ==> p.DWaitFinal? || p.DDone?)
  }

  lemma DayFlowsTo(s: State)
    requires !s.dir.pc.DSuspend?
    ensures DirDay(s) == s || NotifiesNoMore(s.dir.pc, DirDay(s).dir.pc)
  {
  }

  lemma ResetFlowsTo(s: State)
    ensures DirReset(s) == s || NotifiesNoMore(s.dir.pc, DirReset(s).dir.pc)
  {
  }

  lemma TurnFlowsTo(s: State, arr: seq<int>, newUsers: nat)
    ensures DirTurn(s, arr, newUsers) == s || NotifiesNoMore(s.dir.pc, DirTurn(s, arr, newUsers).dir.pc)
  {
  }

  lemma EndFlowsTo(s: State)
    requires !s.dir.pc.DEndSim?
    ensures DirEnd(s) == s || NotifiesNoMore(s.dir.pc, DirEnd(s).dir.pc)
  {
  }

  lemma KeepsFlags(s: State, arr: seq<int>, newUsers: nat)
    requires !s.dir.pc.DSuspend? && !s.dir.pc.DEndSim?
    ensures var t := Apply(s, StepDir(arr, newUsers)); t.ops == s.ops && t.disp == s.disp
  {
  }

  // ----- runs

  lemma StepKeepsHearing(s: State, step: Step)
    requires Inv(s) && OpsHear(s) && DispHears(s)
    ensures OpsHear(Apply(s, step)) && DispHears(Apply(s, step))
  {
    hide *;
    Parts(s);
    match step
    case StepOp(i, a) => if i < |s.ops| { OpKeepsHearing(s, i, a); } else { NoOperator(s, i, a); }
    case StepDisp(a, req) => DispKeepsHearing(s, a, req);
    case StepDir(arr, newUsers) => DirKeepsHearing(s, arr, newUsers);
    case StepUser => UserKeepsHearing(s);
  }

  lemma UserKeepsHearing(s: State)
    requires OpsHear(s) && DispHears(s)
    ensures OpsHear(Apply(s, StepUser)) && DispHears(Apply(s, StepUser))
  {
  }

  lemma {:induction false} RunHears(u: Setup, steps: seq<Step>)
    requires ValidSetup(u)
    ensures var s := Run(Begin(u), steps); Inv(s) && OpsHear(s) && DispHears(s)
  {
    hide Inv, Apply;
    BeginInv(u);
    RunKeepsInv(Begin(u), steps);
    if steps != [] {
      RunHears(u, steps[..|steps|-1]);
      hide OpsHear, DispHears;
      StepKeepsHearing(Run(Begin(u), steps[..|steps|-1]), steps[|steps|-1]);
    }
  }

  lemma ReachableHears(s: State)
    requires Reachable(s)
    ensures OpsHear(s) && DispHears(s)
  {
    hide OpsHear, DispHears, Run, Begin, Inv;
    var u, steps :| ValidSetup(u) && s == Run(Begin(u), steps);
    RunHears(u, steps);
  }

  // ----- what it means

  /** An operator that the director has notified of the end of the day has the signal pending or its
      flag up, or is closing its day or has closed it, or has cleared the flag at the start. */
  lemma DayEndReaches(s: State, i: nat)
    requires Reachable(s) && i < |s.ops| && (s.dir.pc.DWaitStats? || (s.dir.pc.DSuspend? && i + 1 < s.dir.pc.k))
    ensures var o := s.ops[i]; o.sig.pend2 || o.sig.usr2 || DayEnd.Closing(o.pc) || o.pc.OStart? || o.log.missed
  {
    hide Reachable;
    ReachableHears(s);
  }

  /** The dispenser never loses it. */
  lemma DispenserIsTold(s: State)
    requires Reachable(s) && (s.dir.pc.DWaitStats? || (s.dir.pc.DSuspend? && s.dir.pc.k > 0))
    ensures s.disp.pend2 || s.disp.dayEnd || !Issuing(s.disp.pc)
  {
    hide Reachable;
    ReachableHears(s);
  }

  /** Nobody ever loses the signal of the end of the simulation. */
  lemma SimEndReaches(s: State, i: nat)
    requires Reachable(s)
    ensures s.dir.pc.DEndSim? && i < |s.ops| && i + 1 < s.dir.pc.k ==> s.ops[i].sig.pend1 || s.ops[i].sig.usr1
    ensures s.dir.pc.DEndSim? && s.dir.pc.k > 0 ==> s.disp.pend1 || s.disp.simEnd
    ensures (s.dir.pc.DWaitFinal? || s.dir.pc.DDone?) && i < |s.ops| ==> s.ops[i].sig.pend1 || s.ops[i].sig.usr1
    ensures s.dir.pc.DWaitFinal? || s.dir.pc.DDone? ==> s.disp.pend1 || s.disp.simEnd
  {
    hide Reachable;
    ReachableHears(s);
  }
}
