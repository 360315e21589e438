/** The day barrier: an invariant of every reachable state that ties the director's program
    counter to the semaphores simSem[0], simSem[2..4], to the dispenser and to every operator. */
module Barrier {
  import opened Office
  import opened Processes
  import opened Tallies
  import opened Frames

  // ----- where the director is in the day cycle

  /** Gathering: from the refill of simSem[0] to the opening of the start gate.
      Opened: from there to the arrival of the statistics.  Closing: the two writes that raise
      the gate and refill simSem[0].  Ending: after the last day. */
  datatype Phase = Gathering | Opened | Closing | Ending

  function PhaseOf(pc: DirPc): Phase {
    match pc
    case DDay | DSuspend(_) | DWaitStats => Opened
    case DReset2(last) => if last then Ending else Closing
    case DReset0(last) => if last then Ending else Closing
    case DReset1(last) => if last then Ending else Gathering
    case DReset3(last) => if last then Ending else Gathering
    case DReset4(last) => if last then Ending else Gathering
    case DResetT(last) => if last then Ending else Gathering
    case DEndSim(_) | DWaitFinal | DDone => Ending
    case _ => Gathering
  }

  /** The director has handed the new day to the dispenser (or it is the first day). */
  predicate Posted(pc: DirPc) { pc.DWait0? || pc.DWait1? || pc.DOpen? }

  /** The director has told the dispenser that the simulation is over. */
  predicate Told(pc: DirPc) {
    match pc
    case DEndSim(k) => k > 0
    case DWaitFinal | DDone => true
    case _ => false
  }

  // ----- where the dispenser is

  predicate Resting(pc: DispPc) { pc.EStart? || pc.EWait2? }

  predicate NotJoined(pc: DispPc) { Resting(pc) || pc.EReset? || pc.EJoin? }

  predicate Issuing(pc: DispPc) {
    match pc
    case EGate | ERead | ERecv | ECheck(_) | ELock(_) | EInsert(_) | EPost(_) | EUnlock => true
    case _ => false
  }

  predicate Summing(pc: DispPc) { pc.EStatLock? || pc.EStatWalk? || pc.EStatUnlock? || pc.EPost4? }

  predicate Finishing(pc: DispPc) {
    pc.EFinalLock? || pc.EFinal? || pc.EFinalUnlock? || pc.EFinalPost? || pc.EDone?
  }

  // ----- the invariant

  predicate AtGate(pc: OpPc) { pc.OStart? || pc.OGate? }

  predicate NotTold(s: State) {
    && !s.disp.simEnd && !s.disp.pend1
    && forall i :: 0 <= i < |s.ops| ==> !s.ops[i].sig.usr1 && !s.ops[i].sig.pend1
  }

  predicate GatherSync(s: State) {
    var e, s4 := s.disp.pc, s.sh.sim.s4;
    if s.dir.first then
      && s.disp.first && s4 == 0 && (e.EStart? || e.EJoin? || e.EGate?)
      && (s.dir.pc.DPipe? || Posted(s.dir.pc))
    else
      && !s.disp.first
      && (Resting(e) || (Posted(s.dir.pc) && (e.EReset? || e.EJoin? || e.EGate?)))
      && s4 == if Posted(s.dir.pc) && Resting(e) then 2 else 0
  }

  predicate GatheringOk(s: State) {
    var sim, d, st := s.sh.sim, s.dir.pc, Sum(Starts, s.ops);
    && sim.s2 == 1
    && (forall i :: 0 <= i < |s.ops| ==> AtGate(s.ops[i].pc))
    && sim.s0 == st + One(NotJoined(s.disp.pc))
    && sim.s3 == (if d == DReset1(false) || d == DReset3(false) then 0 else |s.ops|)
    && (d.DWait1? || d.DOpen? ==> sim.s0 == 0)
    && GatherSync(s) && NotTold(s)
  }

  predicate OpenedOk(s: State) {
    var sim, e, st := s.sh.sim, s.disp.pc, Sum(Starts, s.ops);
    && sim.s2 == 0 && sim.s0 == 0 && sim.s3 + st == |s.ops|
    && (forall i :: 0 <= i < |s.ops| ==> !s.ops[i].pc.OExit?)
    && (Issuing(e) || e.EWait3? || Summing(e) || Resting(e))
    && (Summing(e) || Resting(e) ==> st == |s.ops|)
    && sim.s4 == One(Resting(e))
    && s.disp.first == (Issuing(e) && s.dir.first)
    && NotTold(s)
  }

  predicate ClosingOk(s: State) {
    var sim := s.sh.sim;
    && sim.s2 == One(s.dir.pc == DReset0(false)) && sim.s0 == 0 && sim.s3 == 0 && sim.s4 == 0
    && Sum(Starts, s.ops) == |s.ops|
    && Resting(s.disp.pc) && !s.disp.first && !s.dir.first && NotTold(s)
  }

  predicate EndingOk(s: State) {
    var sim, e := s.sh.sim, s.disp.pc;
    && sim.s2 == 1
    && (forall i :: 0 <= i < |s.ops| ==> Parked(s.ops[i].pc))
    && (Resting(e) || Finishing(e)) && !s.disp.first && !s.dir.first
    && sim.s4 == One(e.EDone? && !s.dir.pc.DDone?)
    && (s.dir.pc.DDone? ==> e.EDone?)
    && (!Told(s.dir.pc) ==> Resting(e) && !s.disp.simEnd && !s.disp.pend1)
  }

  predicate BarrierOk(s: State) {
    match PhaseOf(s.dir.pc)
    case Gathering => GatheringOk(s)
    case Opened => OpenedOk(s)
    case Closing => ClosingOk(s)
    case Ending => EndingOk(s)
  }

  // ----- preservation: operators

  lemma StartsStep(s: State, i: nat, o: Op)
    requires i < |s.ops|
    ensures var t := s.ops[i := o];
            && Sum(Starts, t) == Sum(Starts, s.ops) - One(s.ops[i].pc.OStart?) + One(o.pc.OStart?)
            && Sum(Starts, t) <= |t| && Sum(Starts, s.ops) <= |s.ops|
            && (Sum(Starts, s.ops) == |s.ops| ==> s.ops[i].pc.OStart?)
  {
    SumUpdate(Starts, s.ops, i, o);
    AllStart(s.ops);
    AllStart(s.ops[i := o]);
  }

  lemma OpKeepsBarrier(s: State, i: nat, a: Act)
    requires BarrierOk(s) && i < |s.ops|
    ensures BarrierOk(Apply(s, StepOp(i, a)))
  {
    var o := s.ops[i];
    var r := OpDo(s.cfg, s.sh, o, i + 1, a);
    OpSync(s.cfg, s.sh, o, i + 1, a);
    StartsStep(s, i, r.o);
    hide OpDo;
    var t := Apply(s, StepOp(i, a));
    assert t == s.(sh := r.sh, ops := s.ops[i := r.o]);
    match PhaseOf(s.dir.pc)
    case Gathering => OpKeepsGathering(s, i, r);
    case Opened => OpKeepsOpened(s, i, r);
    case Closing => OpKeepsClosing(s, i, r);
    case Ending => OpKeepsEnding(s, i, r);
  }

  predicate OpMoved(s: State, i: nat, r: Result)
    requires i < |s.ops|
  {
    && GateLaw(s.sh, s.ops[i], r)
    && Sum(Starts, s.ops[i := r.o]) == Sum(Starts, s.ops) - One(s.ops[i].pc.OStart?) + One(r.o.pc.OStart?)
    && Sum(Starts, s.ops[i := r.o]) <= |s.ops|
    && (Sum(Starts, s.ops) == |s.ops| ==> s.ops[i].pc.OStart?)
    && (PhaseOf(s.dir.pc) != Ending ==> !r.o.sig.usr1 && !r.o.sig.pend1)
  }

  lemma OpKeepsGathering(s: State, i: nat, r: Result)
    requires i < |s.ops| && GatheringOk(s) && OpMoved(s, i, r) && PhaseOf(s.dir.pc) == Gathering
    ensures GatheringOk(s.(sh := r.sh, ops := s.ops[i := r.o]))
  {
  }

  lemma OpKeepsOpened(s: State, i: nat, r: Result)
    requires i < |s.ops| && OpenedOk(s) && OpMoved(s, i, r) && PhaseOf(s.dir.pc) == Opened
    ensures OpenedOk(s.(sh := r.sh, ops := s.ops[i := r.o]))
  {
  }

  lemma OpKeepsClosing(s: State, i: nat, r: Result)
    requires i < |s.ops| && ClosingOk(s) && OpMoved(s, i, r) && PhaseOf(s.dir.pc) == Closing
    ensures ClosingOk(s.(sh := r.sh, ops := s.ops[i := r.o]))
  {
  }

  lemma OpKeepsEnding(s: State, i: nat, r: Result)
    requires i < |s.ops| && EndingOk(s) && OpMoved(s, i, r)
    ensures EndingOk(s.(sh := r.sh, ops := s.ops[i := r.o]))
  {
  }

  // ----- preservation: dispenser

  /** A dispenser step that only moves its program counter inside the part of the day it is in. */
  lemma DispMoves(s: State, t: State)
    requires BarrierOk(s)
    requires t == s.(sh := t.sh, disp := t.disp) && t.sh.sim == s.sh.sim
    requires t.disp.first == s.disp.first && (t.disp.simEnd || t.disp.pend1 ==> s.disp.simEnd || s.disp.pend1)
    requires t.disp.pc == s.disp.pc
          || (Issuing(s.disp.pc) && Issuing(t.disp.pc) && !s.disp.pc.EGate? && !t.disp.pc.EGate?)
          || (Summing(s.disp.pc) && Summing(t.disp.pc))
          || (Finishing(s.disp.pc) && Finishing(t.disp.pc) && !s.disp.pc.EDone? && !t.disp.pc.EDone?)
    ensures BarrierOk(t)
  {
    hide Sum;
    match PhaseOf(s.dir.pc)
    case Gathering => assert GatheringOk(t);
    case Opened => assert OpenedOk(t);
    case Closing => assert ClosingOk(t);
    case Ending => assert EndingOk(t);
  }

  lemma DispKeepsBarrier(s: State, a: Act, req: Request)
    requires BarrierOk(s)
    ensures BarrierOk(Apply(s, StepDisp(a, req)))
  {
    hide BarrierOk, DispMorning, DispTake, DispIssue, DispClose, DispFinal;
    if a.Go? {
      match s.disp.pc
      case EStart | EWait2 | EReset | EJoin | EGate | ERead => MorningKeepsBarrier(s);
      case ERecv | ECheck(_) | ELock(_) => TakeKeepsBarrier(s, req);
      case EInsert(_) | EPost(_) | EUnlock => IssueKeepsBarrier(s);
      case EWait3 | EStatLock | EStatWalk | EStatUnlock | EPost4 => CloseKeepsBarrier(s);
      case EFinalLock | EFinal | EFinalUnlock | EFinalPost | EDone => FinalKeepsBarrier(s);
    } else {
      DispSignalKeepsBarrier(s, a, req);
    }
  }

  lemma DispSignalKeepsBarrier(s: State, a: Act, req: Request)
    requires BarrierOk(s) && !a.Go?
    ensures BarrierOk(DispDo(s, a, req))
  {
    hide DispGo, Sum;
    var t := DispDo(s, a, req);
    if t.disp.pc == s.disp.pc || t.disp.pc.ERecv? {
      DispMoves(s, t);
    }
  }

  lemma MorningKeepsBarrier(s: State)
    requires BarrierOk(s)
    ensures BarrierOk(DispMorning(s))
  {
    hide BarrierOk;
    match s.disp.pc
    case EStart => StartKeepsBarrier(s);
    case EWait2 => HandoverKeepsBarrier(s);
    case EReset => HandoverKeepsBarrier(s);
    case EJoin => JoinKeepsBarrier(s);
    case EGate => GateKeepsBarrier(s);
    case ERead => ReadKeepsBarrier(s);
    case _ =>
  }

  lemma ReadKeepsBarrier(s: State)
    requires BarrierOk(s) && s.disp.pc.ERead?
    ensures BarrierOk(DispMorning(s))
  {
  }

  lemma StartKeepsBarrier(s: State)
    requires BarrierOk(s) && s.disp.pc.EStart?
    ensures BarrierOk(DispMorning(s))
  {
  }

  lemma HandoverKeepsBarrier(s: State)
    requires BarrierOk(s) && (s.disp.pc.EWait2? || s.disp.pc.EReset?)
    ensures BarrierOk(DispMorning(s))
  {
  }

  lemma JoinKeepsBarrier(s: State)
    requires BarrierOk(s) && s.disp.pc.EJoin?
    ensures BarrierOk(DispMorning(s))
  {
  }

  lemma GateKeepsBarrier(s: State)
    requires BarrierOk(s) && s.disp.pc.EGate?
    ensures BarrierOk(DispMorning(s))
  {
  }

  lemma TakeKeepsBarrier(s: State, req: Request)
    requires BarrierOk(s)
    ensures BarrierOk(DispTake(s, req))
  {
    hide BarrierOk;
    match s.disp.pc
    case ERecv => RecvKeepsBarrier(s, req);
    case ECheck(_) => DispMoves(s, DispTake(s, req));
    case ELock(_) => DispMoves(s, DispTake(s, req));
    case _ =>
  }

  lemma IssueKeepsBarrier(s: State)
    requires BarrierOk(s)
    ensures BarrierOk(DispIssue(s))
  {
    hide BarrierOk, Bump;
    match s.disp.pc
    case EInsert(_) => InsertKeepsBarrier(s);
    case EPost(_) => DispMoves(s, DispIssue(s));
    case EUnlock => DispMoves(s, DispIssue(s));
    case _ =>
  }

  lemma InsertKeepsBarrier(s: State)
    requires BarrierOk(s) && s.disp.pc.EInsert?
    ensures BarrierOk(DispIssue(s))
  {
    hide BarrierOk, Bump;
    var t := DispIssue(s);
    assert t.disp.pc.EUnlock? || t.disp.pc.EPost?;
    DispMoves(s, t);
  }

  lemma RecvKeepsBarrier(s: State, req: Request)
    requires BarrierOk(s) && s.disp.pc.ERecv?
    ensures BarrierOk(DispTake(s, req))
  {
  }

  lemma CloseKeepsBarrier(s: State)
    requires BarrierOk(s)
    ensures BarrierOk(DispClose(s))
  {
    hide Sum, Closed, Record;
    match s.disp.pc
    case EWait3 =>
    case EStatLock => DispMoves(s, DispClose(s));
    case EStatWalk => DispMoves(s, DispClose(s));
    case EStatUnlock => DispMoves(s, DispClose(s));
    case EPost4 =>
    case _ =>
  }

  lemma FinalKeepsBarrier(s: State)
    requires BarrierOk(s)
    ensures BarrierOk(DispFinal(s))
  {
    hide BarrierOk, Sum;
    match s.disp.pc
    case EFinalLock | EFinal | EFinalUnlock => DispMoves(s, DispFinal(s));
    case EFinalPost => LastPostKeepsBarrier(s);
    case _ =>
  }

  lemma LastPostKeepsBarrier(s: State)
    requires BarrierOk(s) && s.disp.pc.EFinalPost?
    ensures BarrierOk(DispFinal(s))
  {
  }

  // ----- preservation: director

  lemma {:induction false} SumMarked(k: Kind, ops: seq<Op>, i: nat)
    requires i < |ops|
    ensures Sum(k, Marked2(ops, i)) == Sum(k, ops) && Sum(k, Marked1(ops, i)) == Sum(k, ops)
  {
    SumUpdate(k, ops, i, Marked2(ops, i)[i]);
    SumUpdate(k, ops, i, Marked1(ops, i)[i]);
  }

  lemma DirKeepsBarrier(s: State, arr: seq<int>, newUsers: nat)
    requires BarrierOk(s)
    ensures BarrierOk(Apply(s, StepDir(arr, newUsers)))
  {
    hide BarrierOk, DirDay, DirReset, DirTurn, DirEnd;
    match s.dir.pc
    case DPipe | DPost2 | DWait0 | DWait1 | DOpen | DDay | DSuspend(_) | DWaitStats => DayKeepsBarrier(s);
    case DReset2(_) | DReset0(_) | DReset1(_) | DReset3(_) | DReset4(_) | DResetT(_) => ResetKeepsBarrier(s);
    case DClear | DUsers | DDecide | DApply | DExplode => TurnKeepsBarrier(s, arr, newUsers);
    case DEndSim(_) | DWaitFinal | DDone => EndKeepsBarrier(s);
  }

  lemma DayKeepsBarrier(s: State)
    requires BarrierOk(s)
    ensures BarrierOk(DirDay(s))
  {
    hide BarrierOk;
    match s.dir.pc
    case DPipe => PostKeepsBarrier(s);
    case DPost2 => PostKeepsBarrier(s);
    case DWait0 => OpenKeepsBarrier(s);
    case DWait1 => OpenKeepsBarrier(s);
    case DOpen => OpenKeepsBarrier(s);
    case DDay => WaitKeepsBarrier(s);
    case DSuspend(k) => SuspendKeepsBarrier(s, k);
    case DWaitStats => WaitKeepsBarrier(s);
    case _ =>
  }

  lemma PostKeepsBarrier(s: State)
    requires BarrierOk(s) && (s.dir.pc.DPipe? || s.dir.pc.DPost2?)
    ensures BarrierOk(DirDay(s))
  {
  }

  lemma WaitKeepsBarrier(s: State)
    requires BarrierOk(s) && (s.dir.pc.DDay? || s.dir.pc.DWaitStats?)
    ensures BarrierOk(DirDay(s))
  {
  }

  lemma OpenKeepsBarrier(s: State)
    requires BarrierOk(s) && Posted(s.dir.pc)
    ensures BarrierOk(DirDay(s))
  {
    hide Sum;
  }

  lemma SuspendKeepsBarrier(s: State, k: nat)
    requires BarrierOk(s) && s.dir.pc == DSuspend(k)
    ensures BarrierOk(DirDay(s))
  {
    if 0 < k <= |s.ops| {
      SumMarked(Starts, s.ops, k - 1);
    }
    hide Sum;
  }

  lemma ResetKeepsBarrier(s: State)
    requires BarrierOk(s)
    ensures BarrierOk(DirReset(s))
  {
    match PhaseOf(s.dir.pc)
    case Gathering => ResetKeepsGathering(s);
    case Closing => ResetKeepsClosing(s);
    case Ending => ResetKeepsEnding(s);
    case Opened =>
  }

  /** The gate goes up first, so that the operators let in by the refill stop behind it. */
  lemma ResetKeepsClosing(s: State)
    requires BarrierOk(s) && PhaseOf(s.dir.pc) == Closing
    ensures BarrierOk(DirReset(s))
  {
    AllStart(s.ops);
    hide Sum;
  }

  lemma ResetKeepsGathering(s: State)
    requires BarrierOk(s) && PhaseOf(s.dir.pc) == Gathering
    ensures BarrierOk(DirReset(s))
  {
    hide Sum;
    match s.dir.pc
    case DReset1(l) =>
    case DReset3(l) =>
    case DReset4(l) =>
    case DResetT(l) =>
    case _ =>
  }

  /** The second reset finds the gate up and the handover semaphore at 0. */
  lemma ResetKeepsEnding(s: State)
    requires BarrierOk(s) && PhaseOf(s.dir.pc) == Ending
    ensures BarrierOk(DirReset(s))
  {
    var t := DirReset(s);
    if t.dir.pc != s.dir.pc {
      ResetEffect(s);
      hide DirReset;
      assert EndingOk(t);
    }
  }

  lemma ResetEffect(s: State)
    requires PhaseOf(s.dir.pc) == Ending && DirReset(s).dir.pc != s.dir.pc
    ensures var t := DirReset(s);
            && t == s.(sh := t.sh, dir := s.dir.(pc := t.dir.pc)) && !Told(s.dir.pc)
            && PhaseOf(t.dir.pc) == Ending && !Told(t.dir.pc) && !t.dir.pc.DDone?
            && (t.sh.sim.s2 == 1 || t.sh.sim.s2 == s.sh.sim.s2)
            && (t.sh.sim.s4 == 0 || t.sh.sim.s4 == s.sh.sim.s4)
  {
  }

  predicate Turning(pc: DirPc) {
    pc.DClear? || pc.DUsers? || pc.DDecide? || pc.DApply? || pc.DExplode?
  }

  /** Between the reset and the next day the director touches no gate but simSem[1]. */
  lemma DirTurns(s: State, t: State)
    requires BarrierOk(s) && Turning(s.dir.pc) && (Turning(t.dir.pc) || t.dir.pc.DPipe?)
    requires t == s.(sh := t.sh, dir := t.dir) && t.dir.first == s.dir.first
    requires t.sh.sim == s.sh.sim.(s1 := t.sh.sim.s1)
    ensures BarrierOk(t)
  {
    hide Sum;
  }

  lemma TurnKeepsBarrier(s: State, arr: seq<int>, newUsers: nat)
    requires BarrierOk(s)
    ensures BarrierOk(DirTurn(s, arr, newUsers))
  {
    match s.dir.pc
    case DClear => hide BarrierOk; DirTurns(s, DirTurn(s, arr, newUsers));
    case DUsers => hide BarrierOk; DirTurns(s, DirTurn(s, arr, newUsers));
    case DDecide => hide BarrierOk; DirTurns(s, DirTurn(s, arr, newUsers));
    case DApply => hide BarrierOk; DirTurns(s, DirTurn(s, arr, newUsers));
    case DExplode => ExplodeKeepsBarrier(s, arr, newUsers);
    case _ =>
  }

  lemma ExplodeKeepsBarrier(s: State, arr: seq<int>, newUsers: nat)
    requires BarrierOk(s) && s.dir.pc.DExplode?
    ensures BarrierOk(DirTurn(s, arr, newUsers))
  {
  }

  lemma EndKeepsBarrier(s: State)
    requires BarrierOk(s)
    ensures BarrierOk(DirEnd(s))
  {
    hide BarrierOk;
    match s.dir.pc
    case DEndSim(k) => EndSimKeepsBarrier(s, k);
    case DWaitFinal => FinalWaitKeepsBarrier(s);
    case _ =>
  }

  lemma FinalWaitKeepsBarrier(s: State)
    requires BarrierOk(s) && s.dir.pc.DWaitFinal?
    ensures BarrierOk(DirEnd(s))
  {
  }

  lemma EndSimKeepsBarrier(s: State, k: nat)
    requires BarrierOk(s) && s.dir.pc == DEndSim(k)
    ensures BarrierOk(DirEnd(s))
  {
  }

  lemma StartBarrier(cfg: Config, services: seq<Service>, arr: seq<int>, users: nat)
    ensures BarrierOk(Processes.Start(cfg, services, arr, users))
  {
    AllStart(Processes.Start(cfg, services, arr, users).ops);
  }
}
