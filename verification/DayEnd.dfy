/** The end-of-day signal: nobody closes a day before having been told to, nobody is told twice,
    and no signal is carried into the next day.  So the semaphore calls an operator makes while
    it closes the day, whose failure the program does not handle, cannot be interrupted. */
module DayEnd {
  import opened Office
  import opened Processes
  import opened Tallies
  import opened Frames
  import opened Barrier
  import opened Core
  import opened Director
  import opened Invariant

  /** The operator is on its way out of the day. */
  predicate Closing(pc: OpPc) { RegionOf(pc) == Leaving || pc.OReturnDesk? || pc.OReturnTicket? }

  predicate AtStart(pc: OpPc) { pc.OStart? || pc.OGate? || pc.OReady? || pc.OExit? }

  /** The director has sent operator i the signal of the current day. */
  predicate Notified(pc: DirPc, i: nat) {
    match pc
    case DSuspend(k) => i + 1 < k
    case DWaitStats => true
    case _ => false
  }

  /** While a day is open: a signal is pending only if it was sent and nothing came of it yet;
      the flag is up, or the operator is closing or has closed the day, only after it was sent. */
  predicate OpTold(o: Op, notified: bool) {
    && (o.sig.pend2 ==> notified && !Closing(o.pc) && !o.pc.OStart?)
    && (o.sig.usr2 && !AtStart(o.pc) ==> notified && !o.sig.pend2)
    && (Closing(o.pc) || o.pc.OStart? ==> notified && !o.sig.pend2)
  }

  predicate DispTold(d: Disp, notified: bool) {
    && (d.pend2 ==> notified && Issuing(d.pc))
    && (d.dayEnd && Issuing(d.pc) ==> notified && !d.pend2)
    && (!Issuing(d.pc) ==> notified && !d.pend2)
    && (Resting(d.pc) ==> !d.dayEnd)
  }

  predicate TellingOk(s: State) {
    if PhaseOf(s.dir.pc) == Opened then
      && (forall i :: 0 <= i < |s.ops| ==> OpTold(s.ops[i], Notified(s.dir.pc, i)))
      && DispTold(s.disp, s.dir.pc != DDay && s.dir.pc != DSuspend(0))
    else
      && !s.disp.pend2 && !s.disp.dayEnd && (forall i :: 0 <= i < |s.ops| ==> !s.ops[i].sig.pend2)
  }

  // ----- operators

  /** An operator raises its flag only by consuming the signal, and starts to close the day only
      with the flag up or by consuming the signal in a failing call. */
  predicate TellLaw(o: Op, p: Op) {
    && (p.sig.pend2 ==> o.sig.pend2)
    && (p.sig.usr2 ==> o.sig.usr2 || (o.sig.pend2 && !p.sig.pend2))
    && (o.pc.OReady? && !p.pc.OReady? ==> !p.sig.usr2)
    && (Closing(p.pc) && !Closing(o.pc) ==> !AtStart(o.pc) && (o.sig.usr2 || (o.sig.pend2 && !p.sig.pend2)))
    && (p.pc.OStart? && !o.pc.OStart? ==> Closing(o.pc))
    && (AtStart(o.pc) && !AtStart(p.pc) ==> o.pc.OReady?)
  }

  lemma GateTells(sh: Shared, o: Op)
    requires RegionOf(o.pc) == Gate
    ensures TellLaw(o, GateGo(sh, o).o)
  {
  }

  lemma DeskTells(sh: Shared, o: Op, pid: nat)
    requires RegionOf(o.pc) == AtDesk
    ensures TellLaw(o, DeskGo(sh, o, pid).o)
  {
  }

  lemma CountTells(sh: Shared, o: Op)
    requires RegionOf(o.pc) == Counting
    ensures TellLaw(o, CountGo(sh, o).o)
  {
  }

  lemma TicketTells(sh: Shared, o: Op)
    requires RegionOf(o.pc) == AtTicket
    ensures TellLaw(o, TicketGo(sh, o).o)
  {
  }

  lemma ServeTells(sh: Shared, o: Op)
    requires RegionOf(o.pc) == Serving
    ensures TellLaw(o, ServeGo(sh, o).o)
  {
  }

  lemma SessionTells(sh: Shared, o: Op)
    requires RegionOf(o.pc) == Session
    ensures TellLaw(o, SessionGo(sh, o).o)
  {
  }

  lemma StatTells(sh: Shared, o: Op)
    requires RegionOf(o.pc) == Updating
    ensures TellLaw(o, StatGo(sh, o).o)
  {
  }

  lemma PauseTells(cfg: Config, sh: Shared, o: Op, pid: nat, choice: bool)
    requires RegionOf(o.pc) == Pausing
    ensures TellLaw(o, PauseGo(cfg, sh, o, pid, choice).o)
  {
  }

  lemma RestTells(sh: Shared, o: Op)
    requires RegionOf(o.pc) == Paused
    ensures TellLaw(o, RestGo(sh, o).o)
  {
  }

  lemma CloseTells(sh: Shared, o: Op, pid: nat)
    requires RegionOf(o.pc) == Leaving
    ensures TellLaw(o, CloseGo(sh, o, pid).o)
  {
  }

  lemma OpTells(cfg: Config, sh: Shared, o: Op, pid: nat, a: Act)
    ensures TellLaw(o, OpDo(cfg, sh, o, pid, a).o)
  {
    hide GateGo, DeskGo, CountGo, TicketGo, ServeGo, SessionGo, StatGo, PauseGo, RestGo, CloseGo;
    if a.Go? {
      hide TellLaw;
      match RegionOf(o.pc)
      case Gate => GateTells(sh, o);
      case AtDesk => DeskTells(sh, o, pid);
      case Counting => CountTells(sh, o);
      case AtTicket => TicketTells(sh, o);
      case Serving => ServeTells(sh, o);
      case Session => SessionTells(sh, o);
      case Updating => StatTells(sh, o);
      case Pausing => PauseTells(cfg, sh, o, pid, a.choice);
      case Paused => RestTells(sh, o);
      case Leaving => CloseTells(sh, o, pid);
      case Gone => SameTells(o);
    }
  }

  lemma SameTells(o: Op)
    ensures TellLaw(o, o)
  {
  }

  lemma ToldStep(o: Op, p: Op, notified: bool)
    requires OpTold(o, notified) && TellLaw(o, p) && !(o.pc.OStart? && !p.pc.OStart?)
    ensures OpTold(p, notified)
  {
  }

  lemma OpKeepsTelling(s: State, i: nat, a: Act)
    requires TellingOk(s) && BarrierOk(s) && CoreOk(s) && i < |s.ops|
    ensures TellingOk(Apply(s, StepOp(i, a)))
  {
    var o, r := s.ops[i], OpDo(s.cfg, s.sh, s.ops[i], i + 1, a);
    OpTells(s.cfg, s.sh, o, i + 1, a);
    OpSync(s.cfg, s.sh, o, i + 1, a);
    OpStep(s, i, a);
    hide OpDo, CoreOk, Apply, OpSpares, Sum;
    if PhaseOf(s.dir.pc) == Opened {
      assert s.sh.sim.s0 == 0 && NotTold(s);
      hide BarrierOk, TellLaw;
      assert OpTold(o, Notified(s.dir.pc, i));
      ToldStep(o, r.o, Notified(s.dir.pc, i));
      hide OpTold, DispTold, Notified;
    }
    hide BarrierOk;
  }

  // ----- dispenser

  /** How the dispenser's flag and the pending signal move. */
  predicate DispTells(d: Disp, e: Disp) {
    && (e.pend2 ==> d.pend2)
    && (e.dayEnd ==> d.dayEnd || (d.pend2 && !e.pend2))
    && (d.pc.ERecv? && e.pc.EWait3? ==> d.dayEnd)
    && (e.pc.EStart? && !d.pc.EStart? ==> !e.dayEnd)
  }

  lemma DispTellsMorning(s: State)
    ensures DispTells(s.disp, DispMorning(s).disp)
  {
  }

  lemma DispTellsTake(s: State, req: Request)
    ensures DispTells(s.disp, DispTake(s, req).disp)
  {
  }

  lemma DispTellsIssue(s: State)
    ensures DispTells(s.disp, DispIssue(s).disp)
  {
  }

  lemma DispTellsClose(s: State)
    ensures DispTells(s.disp, DispClose(s).disp)
  {
    hide Closed, Record;
  }

  lemma DispTellsFinal(s: State)
    ensures DispTells(s.disp, DispFinal(s).disp)
  {
  }

  lemma DispStep(s: State, a: Act, req: Request)
    ensures DispTells(s.disp, Apply(s, StepDisp(a, req)).disp)
  {
    hide DispMorning, DispTake, DispIssue, DispClose, DispFinal;
    if a.Go? {
      hide DispTells;
      match s.disp.pc
      case EStart | EWait2 | EReset | EJoin | EGate | ERead => DispTellsMorning(s);
      case ERecv | ECheck(_) | ELock(_) => DispTellsTake(s, req);
      case EInsert(_) | EPost(_) | EUnlock => DispTellsIssue(s);
      case EWait3 | EStatLock | EStatWalk | EStatUnlock | EPost4 => DispTellsClose(s);
      case EFinalLock | EFinal | EFinalUnlock | EFinalPost | EDone => DispTellsFinal(s);
    }
  }

  lemma DispKeepsTelling(s: State, t: State)
    requires TellingOk(s) && BarrierOk(s) && BarrierOk(t) && DispWrites(s, t) && DispFlows(s, t)
    requires DispTells(s.disp, t.disp)
    ensures TellingOk(t)
  {
  }

  // ----- director

  predicate SameFlags(o: Op, p: Op) {
    p.pc == o.pc && p.sig.pend2 == o.sig.pend2 && p.sig.usr2 == o.sig.usr2
  }

  /** No end-of-day signal is sent. */
  predicate SendsNone(s: State, t: State) {
    && |t.ops| == |s.ops|
    && t.disp.pend2 == s.disp.pend2 && t.disp.dayEnd == s.disp.dayEnd && t.disp.pc == s.disp.pc
    && (forall i :: 0 <= i < |s.ops| ==> SameFlags(s.ops[i], t.ops[i]))
  }

  /** Which end-of-day signals a step of the director sends. */
  predicate DirTells(s: State, t: State) {
    match s.dir.pc
    case DSuspend(k) =>
      if k == 0 then t == s.(disp := s.disp.(pend2 := true), dir := s.dir.(pc := DSuspend(1)))
      else if k <= |s.ops| then t == s.(ops := Marked2(s.ops, k - 1), dir := s.dir.(pc := DSuspend(k + 1)))
      else t == s.(dir := s.dir.(pc := DWaitStats))
    case _ => SendsNone(s, t)
  }

  lemma DirStepTells(s: State, arr: seq<int>, newUsers: nat)
    ensures DirTells(s, Apply(s, StepDir(arr, newUsers)))
  {
    hide DirReset, DirTurn, DirEnd, DirDay;
    match s.dir.pc
    case DPipe | DPost2 | DWait0 | DWait1 | DOpen | DDay | DWaitStats => DayTells(s);
    case DSuspend(k) => SuspendTells(s, k);
    case DReset2(_) | DReset0(_) | DReset1(_) | DReset3(_) | DReset4(_) | DResetT(_) => ResetSemEffect(s);
    case DClear | DUsers | DDecide | DApply | DExplode => TurnTells(s, arr, newUsers);
    case DEndSim(_) | DWaitFinal | DDone => EndTells(s);
  }

  lemma DayTells(s: State)
    requires !s.dir.pc.DSuspend?
    ensures SendsNone(s, DirDay(s))
  {
  }

  lemma SuspendTells(s: State, k: nat)
    requires s.dir.pc == DSuspend(k)
    ensures DirTells(s, DirDay(s))
  {
  }

  lemma TurnTells(s: State, arr: seq<int>, newUsers: nat)
    ensures SendsNone(s, DirTurn(s, arr, newUsers))
  {
  }

  lemma EndTells(s: State)
    ensures SendsNone(s, DirEnd(s))
  {
  }

  lemma DirKeepsTelling(s: State, t: State)
    requires TellingOk(s) && BarrierOk(s) && DirFlows(s, t) && DirTells(s, t)
    ensures TellingOk(t)
  {
    hide BarrierOk, TellingOk, DirTells;
    match s.dir.pc
    case DSuspend(k) => SuspendKeepsTelling(s, t, k);
    case DOpen => OpenKeepsTelling(s, t);
    case DWaitStats => StatsKeepTelling(s, t);
    case DDay => DayKeepsTelling(s, t);
    case _ => QuietKeepsTelling(s, t);
  }

  lemma DayKeepsTelling(s: State, t: State)
    requires TellingOk(s) && s.dir.pc.DDay? && DirFlows(s, t) && DirTells(s, t) && BarrierOk(s)
    ensures TellingOk(t)
  {
  }

  lemma QuietKeepsTelling(s: State, t: State)
    requires TellingOk(s) && PhaseOf(s.dir.pc) != Opened && PhaseOf(t.dir.pc) != Opened
    requires DirTells(s, t)
    ensures TellingOk(t)
  {
  }

  lemma SuspendKeepsTelling(s: State, t: State, k: nat)
    requires TellingOk(s) && s.dir.pc == DSuspend(k) && DirTells(s, t)
    requires BarrierOk(s)
    ensures TellingOk(t)
  {
  }

  lemma OpenKeepsTelling(s: State, t: State)
    requires TellingOk(s) && BarrierOk(s) && s.dir.pc.DOpen? && DirFlows(s, t) && DirTells(s, t)
    ensures TellingOk(t)
  {
    assert GatheringOk(s);
    SumZero(Starts, s.ops);
    hide Sum;
  }

  lemma StatsKeepTelling(s: State, t: State)
    requires TellingOk(s) && BarrierOk(s) && s.dir.pc.DWaitStats? && DirFlows(s, t) && DirTells(s, t)
    ensures TellingOk(t)
  {
    assert OpenedOk(s);
    AllStart(s.ops);
    hide Sum;
    if !t.dir.pc.DWaitStats? {
      forall i | 0 <= i < |t.ops| ensures !t.ops[i].sig.pend2 {
        assert OpTold(s.ops[i], true);
      }
    }
  }

  // ----- runs

  lemma StepKeepsTelling(s: State, step: Step)
    requires Inv(s) && TellingOk(s)
    ensures TellingOk(Apply(s, step))
  {
    hide *;
    Parts(s);
    var t := Apply(s, step);
    match step
    case StepOp(i, a) => if i < |s.ops| { OpKeepsTelling(s, i, a); } else { NoOperator(s, i, a); }
    case StepDisp(a, req) =>
      DispFrame(s, a, req);
      DispFlow(s, a, req);
      DispStep(s, a, req);
      DispKeepsBarrier(s, a, req);
      DispKeepsTelling(s, t);
    case StepDir(arr, newUsers) =>
      DirStep(s, arr, newUsers);
      DirStepTells(s, arr, newUsers);
      DirKeepsTelling(s, t);
    case StepUser => UserTells(s);
  }

  lemma NoOperator(s: State, i: nat, a: Act)
    requires i >= |s.ops|
    ensures Apply(s, StepOp(i, a)) == s
  {
  }

  lemma UserTells(s: State)
    requires TellingOk(s)
    ensures TellingOk(Apply(s, StepUser))
  {
  }

  lemma {:induction false} RunTells(u: Setup, steps: seq<Step>)
    requires ValidSetup(u)
    ensures Inv(Run(Begin(u), steps)) && TellingOk(Run(Begin(u), steps))
  {
    hide Inv, Apply;
    BeginInv(u);
    RunKeepsInv(Begin(u), steps);
    if steps != [] {
      RunTells(u, steps[..|steps|-1]);
      StepKeepsTelling(Run(Begin(u), steps[..|steps|-1]), steps[|steps|-1]);
    }
  }

  lemma ReachableTells(s: State)
    requires Reachable(s)
    ensures TellingOk(s) && BarrierOk(s)
  {
    hide TellingOk, Run, Begin, BarrierOk;
    var u, steps :| ValidSetup(u) && s == Run(Begin(u), steps);
    RunTells(u, steps);
    Parts(s);
  }

  /** An operator that closes its day has been told to, and cannot be told again: a signal has no
      effect on it any more, so the calls it makes from here to the close barrier are never
      interrupted by one. */
  lemma ClosesOnlyWhenTold(s: State, i: nat, a: Act)
    requires Reachable(s) && i < |s.ops| && Closing(s.ops[i].pc)
    ensures s.dir.pc.DWaitStats? || (s.dir.pc.DSuspend? && i + 1 < s.dir.pc.k)
    ensures !s.ops[i].sig.pend2
    ensures a == DeliverDayEnd || a == Interrupt ==> Apply(s, StepOp(i, a)).ops[i] == s.ops[i]
  {
    hide Reachable;
    ReachableTells(s);
    WorksInDay(s, i);
    assert OpTold(s.ops[i], Notified(s.dir.pc, i));
    hide BarrierOk, TellingOk;
  }

  /** No end-of-day signal is pending outside the day it belongs to. */
  lemma NoSignalCarriedOver(s: State, i: nat)
    requires Reachable(s) && PhaseOf(s.dir.pc) != Opened && i < |s.ops|
    ensures !s.ops[i].sig.pend2 && !s.disp.pend2 && !s.disp.dayEnd
  {
    hide Reachable, BarrierOk;
    ReachableTells(s);
  }

  /** The dispenser stops issuing tickets only after the director's signal of that day. */
  lemma DispenserStopsWhenTold(s: State)
    requires Reachable(s) && PhaseOf(s.dir.pc) == Opened && !Issuing(s.disp.pc)
    ensures s.dir.pc.DWaitStats? || (s.dir.pc.DSuspend? && s.dir.pc.k > 0)
    ensures !s.disp.pend2
  {
    hide Reachable, BarrierOk;
    ReachableTells(s);
  }
}
