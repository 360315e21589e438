/** Mutual exclusion, and the invariants that hold at every moment of a run: records fit the
    program counters, no update of the statistics is lost, desks have the owners the operators
    believe in, and tickets wait in the order of their ids. */
module Core {
  import opened Office
  import opened Processes
  import opened Tallies
  import opened Frames
  import opened Barrier

  // ----- the invariants

  predicate OpsOk(s: State) { forall i :: 0 <= i < |s.ops| ==> OpOk(s.ops[i]) }

  /** Between the read and the write of an update nobody else changes the statistics. */
  predicate WritesFresh(s: State) {
    forall i :: 0 <= i < |s.ops| && Writing(s.ops[i].pc) ==> s.ops[i].tmp == s.sh.stats
  }

  /** A mutex is worth 1 or it is held by exactly one process. */
  predicate Mutexes(s: State) {
    && s.sh.mem.m0 + Sum(Holding(0), s.ops) == 1
    && s.sh.mem.m1 + Sum(Holding(1), s.ops) + One(DispMutex(s.disp.pc) == 1) == 1
    && s.sh.mem.m2 + Sum(Holding(2), s.ops) + One(DispMutex(s.disp.pc) == 2) == 1
  }

  predicate Ordered(q: seq<Ticket>, nextId: nat) {
    && (forall j :: 0 <= j < |q| ==> 0 < q[j].id < nextId)
    && (forall j, k :: 0 <= j < k < |q| ==> q[j].id < q[k].id)
    && nextId > 0
  }

  predicate DesksServe(ds: seq<Desk>) { forall k :: 0 <= k < |ds| ==> 1 <= ds[k].service <= SERVICES }

  predicate OwnsDesk(o: Op, k: nat) { o.log.own && o.desk == k + 1 }

  predicate Owned(ds: seq<Desk>, ops: seq<Op>) {
    && (forall i, k :: 0 <= i < |ops| && 0 <= k < |ds| ==> (ds[k].owner == i + 1 <==> OwnsDesk(ops[i], k)))
    && (forall k :: 0 <= k < |ds| ==> ds[k].owner <= |ops|)
    && (forall i :: 0 <= i < |ops| && ops[i].log.own ==>
          1 <= ops[i].desk <= |ds| && ds[ops[i].desk-1].service == ops[i].service)
  }

  predicate CoreOk(s: State) {
    && OpsOk(s) && WritesFresh(s) && Mutexes(s) && Ordered(s.sh.queue, s.sh.nextId)
    && DesksServe(s.sh.desks) && Owned(s.sh.desks, s.ops)
  }

  // ----- consequences

  /** Two operators are never in the critical section of the same mutex. */
  lemma MutexExcludes(s: State, i: nat, j: nat)
    requires Mutexes(s) && i < |s.ops| && j < |s.ops| && i != j
    ensures MutexOf(s.ops[i].pc) == 3 || MutexOf(s.ops[i].pc) != MutexOf(s.ops[j].pc)
  {
    SumTwo(Holding(0), s.ops, i, j);
    SumTwo(Holding(1), s.ops, i, j);
    SumTwo(Holding(2), s.ops, i, j);
  }

  lemma MutexExcludesDispenser(s: State, i: nat)
    requires Mutexes(s) && i < |s.ops|
    ensures DispMutex(s.disp.pc) == 1 ==> MutexOf(s.ops[i].pc) != 1
    ensures DispMutex(s.disp.pc) == 2 ==> MutexOf(s.ops[i].pc) != 2
  {
    SumAtLeast(Holding(1), s.ops, i);
    SumAtLeast(Holding(2), s.ops, i);
  }

  /** With nobody at work all desks are free. */
  lemma IdleDesksFree(ds: seq<Desk>, ops: seq<Op>)
    requires Owned(ds, ops) && forall i :: 0 <= i < |ops| ==> !ops[i].log.own
    ensures forall k :: 0 <= k < |ds| ==> ds[k].owner == 0
  {
    forall k | 0 <= k < |ds| ensures ds[k].owner == 0 {
      if ds[k].owner != 0 {
        OwnerKnows(ds, ops, k);
      }
    }
  }

  lemma OwnerKnows(ds: seq<Desk>, ops: seq<Op>, k: nat)
    requires Owned(ds, ops) && k < |ds| && ds[k].owner != 0
    ensures OwnsDesk(ops[ds[k].owner-1], k)
  {
  }

  lemma ReadyToMove(s: State, i: nat)
    requires CoreOk(s) && i < |s.ops|
    ensures Ready(s.sh, s.ops[i], i + 1)
  {
  }

  // ----- preservation: operators

  lemma OwnedStep(ds: seq<Desk>, ops: seq<Op>, i: nat, sh: Shared, r: Result)
    requires i < |ops| && sh.desks == ds && Owned(ds, ops) && DesksServe(ds)
    requires OwnerLaw(sh, ops[i], i + 1, r) && r.o.service == ops[i].service
    ensures Owned(r.sh.desks, ops[i := r.o]) && DesksServe(r.sh.desks)
  {
  }

  lemma MutexStep(s: State, i: nat, r: Result)
    requires Mutexes(s) && i < |s.ops| && MutexLaw(s.sh, s.ops[i], r)
    ensures Mutexes(s.(sh := r.sh, ops := s.ops[i := r.o]))
  {
    SumUpdate(Holding(0), s.ops, i, r.o);
    SumUpdate(Holding(1), s.ops, i, r.o);
    SumUpdate(Holding(2), s.ops, i, r.o);
  }

  lemma FreshStep(s: State, i: nat, r: Result)
    requires WritesFresh(s) && Mutexes(s) && i < |s.ops| && FrameLaw(s.sh, s.ops[i], r)
    ensures WritesFresh(s.(sh := r.sh, ops := s.ops[i := r.o]))
  {
    var ops := s.ops[i := r.o];
    forall j | 0 <= j < |ops| && Writing(ops[j].pc) ensures ops[j].tmp == r.sh.stats {
      if j != i && Writing(s.ops[i].pc) {
        MutexExcludes(s, i, j);
      }
    }
  }

  /** What the steps of operators never change. */
  predicate OpSpares(s: State, t: State) {
    && t.cfg == s.cfg && t.disp == s.disp && t.dir == s.dir && |t.ops| == |s.ops|
    && t.sh.hist == s.sh.hist && t.sh.nextId == s.sh.nextId && t.sh.pipe == s.sh.pipe
    && t.sh.stats.currentDay == s.sh.stats.currentDay && t.sh.stats.notServedDay == s.sh.stats.notServedDay
    && |t.sh.desks| == |s.sh.desks|
  }

  lemma OpStep(s: State, i: nat, a: Act)
    requires CoreOk(s) && i < |s.ops|
    ensures var r := OpDo(s.cfg, s.sh, s.ops[i], i + 1, a); var t := Apply(s, StepOp(i, a));
            && t == s.(sh := r.sh, ops := s.ops[i := r.o]) && OpSpares(s, t)
  {
    ReadyToMove(s, i);
    OpData(s.cfg, s.sh, s.ops[i], i + 1, a);
    hide CoreOk, OpDo;
  }

  lemma OpKeepsCore(s: State, i: nat, a: Act)
    requires CoreOk(s) && i < |s.ops|
    ensures CoreOk(Apply(s, StepOp(i, a)))
  {
    var o := s.ops[i];
    var r := OpDo(s.cfg, s.sh, o, i + 1, a);
    ReadyToMove(s, i);
    OpKeepsOk(s.cfg, s.sh, o, i + 1, a);
    OpSync(s.cfg, s.sh, o, i + 1, a);
    OpData(s.cfg, s.sh, o, i + 1, a);
    OpStep(s, i, a);
    hide OpDo, Apply, OpSpares, Sum, OpOk, MutexLaw, OwnerLaw, Ready;
    OwnedStep(s.sh.desks, s.ops, i, s.sh, r);
    MutexStep(s, i, r);
    FreshStep(s, i, r);
    OrderStep(s.sh, o, r);
    hide FrameLaw, WritesFresh, Mutexes, Owned, DesksServe, Ordered;
  }

  lemma OrderStep(sh: Shared, o: Op, r: Result)
    requires Ordered(sh.queue, sh.nextId) && FrameLaw(sh, o, r)
    ensures Ordered(r.sh.queue, r.sh.nextId)
  {
  }

  // ----- preservation: dispenser

  lemma DispKeepsMutexes(s: State, t: State)
    requires Mutexes(s) && DispLocks(s, t) && t.ops == s.ops
    ensures Mutexes(t)
  {
  }

  lemma DispKeepsOrder(s: State, t: State)
    requires Ordered(s.sh.queue, s.sh.nextId) && DispWrites(s, t)
    ensures Ordered(t.sh.queue, t.sh.nextId)
  {
  }

  /** The dispenser's two writes to the statistics, the unlocked reset among them, meet no
      operator in the middle of an update. */
  lemma DispKeepsFresh(s: State, t: State)
    requires WritesFresh(s) && Mutexes(s) && BarrierOk(s) && DispWrites(s, t)
    ensures WritesFresh(t)
  {
    if s.disp.pc.EReset? || s.disp.pc.EStatWalk? {
      NobodyWrites(s);
    }
    hide BarrierOk, Mutexes, DayReset, Closed, Record, Bump;
  }

  lemma NobodyWrites(s: State)
    requires Mutexes(s) && BarrierOk(s) && (s.disp.pc.EReset? || s.disp.pc.EStatWalk?)
    ensures forall i :: 0 <= i < |s.ops| ==> !Writing(s.ops[i].pc)
  {
    forall i | 0 <= i < |s.ops| ensures !Writing(s.ops[i].pc) {
      MutexExcludesDispenser(s, i);
      if s.disp.pc.EReset? {
        assert GatheringOk(s) && AtGate(s.ops[i].pc);
      }
    }
  }

  lemma DispKeepsCore(s: State, a: Act, req: Request)
    requires CoreOk(s) && BarrierOk(s)
    ensures CoreOk(Apply(s, StepDisp(a, req)))
  {
    var t := Apply(s, StepDisp(a, req));
    DispFrame(s, a, req);
    hide Apply, OpOk, Sum, BarrierOk;
    DispKeepsMutexes(s, t);
    DispKeepsOrder(s, t);
    DispKeepsFresh(s, t);
    hide Mutexes, Ordered, WritesFresh, DesksServe, Owned;
  }

  // ----- preservation: director

  /** A director step that leaves operators, desks, queue, statistics and mutexes alone. */
  lemma DirIdle(s: State, t: State)
    requires CoreOk(s) && t == s.(sh := t.sh, disp := t.disp, dir := t.dir)
    requires t.sh.mem == s.sh.mem && t.sh.queue == s.sh.queue && t.sh.nextId == s.sh.nextId
    requires t.sh.desks == s.sh.desks && t.sh.stats == s.sh.stats && t.disp.pc == s.disp.pc
    ensures CoreOk(t)
  {
  }

  /** Sending a signal changes nothing but the pending flags of one operator. */
  lemma MarkKeepsCore(s: State, i: nat, t: State)
    requires CoreOk(s) && i < |s.ops|
    requires t == s.(ops := Marked2(s.ops, i), dir := t.dir) || t == s.(ops := Marked1(s.ops, i), dir := t.dir)
    ensures CoreOk(t)
  {
    SumMarked(Holding(0), s.ops, i);
    SumMarked(Holding(1), s.ops, i);
    SumMarked(Holding(2), s.ops, i);
    assert forall j :: 0 <= j < |s.ops| ==> t.ops[j] == s.ops[j].(sig := t.ops[j].sig);
    assert t.sh == s.sh && |t.ops| == |s.ops| && Mutexes(t);
    hide Sum, Mutexes, Marked1, Marked2;
    SignalsKeepOps(s, t);
  }

  lemma SignalsKeepOps(s: State, t: State)
    requires OpsOk(s) && WritesFresh(s) && Owned(s.sh.desks, s.ops) && t.sh == s.sh && |t.ops| == |s.ops|
    requires forall j :: 0 <= j < |s.ops| ==> t.ops[j] == s.ops[j].(sig := t.ops[j].sig)
    ensures OpsOk(t) && WritesFresh(t) && Owned(t.sh.desks, t.ops)
  {
  }

  lemma DayKeepsCore(s: State)
    requires CoreOk(s)
    ensures CoreOk(DirDay(s))
  {
    hide CoreOk;
    match s.dir.pc
    case DPipe => DirIdle(s, DirDay(s));
    case DPost2 => DirIdle(s, DirDay(s));
    case DWait0 => DirIdle(s, DirDay(s));
    case DWait1 => DirIdle(s, DirDay(s));
    case DOpen => DirIdle(s, DirDay(s));
    case DDay => DirIdle(s, DirDay(s));
    case DSuspend(k) => if 0 < k <= |s.ops| { MarkKeepsCore(s, k - 1, DirDay(s)); } else { DirIdle(s, DirDay(s)); }
    case DWaitStats => DirIdle(s, DirDay(s));
    case _ =>
  }

  lemma ResetSemKeepsCore(s: State)
    requires CoreOk(s)
    ensures CoreOk(DirReset(s))
  {
    hide CoreOk;
    DirIdle(s, DirReset(s));
  }

  /** The unlocked clearing of the queue and of the desks' daily counts. */
  lemma ClearKeepsCore(s: State, arr: seq<int>, newUsers: nat)
    requires CoreOk(s) && s.dir.pc.DClear?
    ensures CoreOk(DirTurn(s, arr, newUsers))
  {
  }

  lemma IdleOps(s: State)
    requires OpsOk(s) && forall i :: 0 <= i < |s.ops| ==> AtGate(s.ops[i].pc)
    ensures forall i :: 0 <= i < |s.ops| ==> !s.ops[i].log.own
  {
  }

  /** The unlocked reassignment of services meets no operator at a desk. */
  lemma ChooseKeepsCore(s: State, arr: seq<int>, newUsers: nat)
    requires CoreOk(s) && BarrierOk(s) && s.dir.pc.DDecide? && ValidChoice(arr, |s.sh.desks|)
    ensures CoreOk(DirTurn(s, arr, newUsers))
  {
    assert GatheringOk(s);
    IdleOps(s);
    ReassignKeepsOwned(s.sh.desks, s.ops, arr);
    var t := DirTurn(s, arr, newUsers);
    assert t.sh == s.sh.(desks := t.sh.desks) && t.ops == s.ops && t.disp == s.disp;
    assert t.sh.desks == s.sh.desks || t.sh.desks == Reassigned(s.sh.desks, arr);
    hide DirTurn, Sum, OpOk, BarrierOk, GatheringOk, Owned, DesksServe, Ordered;
  }

  lemma ReassignKeepsOwned(ds: seq<Desk>, ops: seq<Op>, arr: seq<int>)
    requires Owned(ds, ops) && ValidChoice(arr, |ds|) && forall i :: 0 <= i < |ops| ==> !ops[i].log.own
    ensures Owned(Reassigned(ds, arr), ops) && DesksServe(Reassigned(ds, arr))
  {
  }

  lemma TurnKeepsCore(s: State, arr: seq<int>, newUsers: nat)
    requires CoreOk(s) && BarrierOk(s)
    ensures CoreOk(DirTurn(s, arr, newUsers))
  {
    hide CoreOk, BarrierOk;
    match s.dir.pc
    case DClear => ClearKeepsCore(s, arr, newUsers);
    case DUsers => DirIdle(s, DirTurn(s, arr, newUsers));
    case DDecide =>
      if ValidChoice(arr, |s.sh.desks|) {
        ChooseKeepsCore(s, arr, newUsers);
      } else {
        DirIdle(s, DirTurn(s, arr, newUsers));
      }
    case DApply => DirIdle(s, DirTurn(s, arr, newUsers));
    case DExplode => DirIdle(s, DirTurn(s, arr, newUsers));
    case _ =>
  }

  lemma EndKeepsCore(s: State)
    requires CoreOk(s)
    ensures CoreOk(DirEnd(s))
  {
    hide CoreOk;
    match s.dir.pc
    case DEndSim(k) => if 0 < k <= |s.ops| { MarkKeepsCore(s, k - 1, DirEnd(s)); } else { DirIdle(s, DirEnd(s)); }
    case DWaitFinal => DirIdle(s, DirEnd(s));
    case _ =>
  }

  lemma DirKeepsCore(s: State, arr: seq<int>, newUsers: nat)
    requires CoreOk(s) && BarrierOk(s)
    ensures CoreOk(Apply(s, StepDir(arr, newUsers)))
  {
    hide CoreOk, BarrierOk, DirDay, DirReset, DirTurn, DirEnd;
    match s.dir.pc
    case DPipe | DPost2 | DWait0 | DWait1 | DOpen | DDay | DSuspend(_) | DWaitStats => DayKeepsCore(s);
    case DReset2(_) | DReset0(_) | DReset1(_) | DReset3(_) | DReset4(_) | DResetT(_) => ResetSemKeepsCore(s);
    case DClear | DUsers | DDecide | DApply | DExplode => TurnKeepsCore(s, arr, newUsers);
    case DEndSim(_) | DWaitFinal | DDone => EndKeepsCore(s);
  }

  lemma StartCore(cfg: Config, services: seq<Service>, arr: seq<int>, users: nat)
    requires ValidChoice(arr, |arr|)
    ensures CoreOk(Processes.Start(cfg, services, arr, users))
  {
    var s := Processes.Start(cfg, services, arr, users);
    SumZero(Holding(0), s.ops);
    SumZero(Holding(1), s.ops);
    SumZero(Holding(2), s.ops);
    hide Sum;
  }
}
