/** The accounts of a day.  While a day is open, the semaphores, the queue, the statistics, the
    desk table and what the operators carry balance exactly; between two days everything is
    back at zero. */
module Books {
  import opened Office
  import opened Processes
  import opened Tallies
  import opened Frames
  import opened Barrier
  import opened Core
  import opened Director

  /** The director has emptied the queue and not yet opened the next day. */
  predicate Cleared(pc: DirPc) {
    match pc
    case DUsers | DDecide | DApply | DExplode | DPipe | DPost2 | DWait0 | DWait1 | DOpen => true
    case _ => PhaseOf(pc) == Ending
  }

  predicate DayLives(pc: DirPc) { PhaseOf(pc) == Opened || PhaseOf(pc) == Closing }

  /** Semaphore + permits carried or abandoned + a ticket appended but not yet posted = tickets
      of the service in the queue. */
  predicate PermitsBalance(s: State) {
    forall v: Service ::
      Of(s.sh.tSem, v) + Sum(Permits(v), s.ops) + One(s.disp.pc == EPost(v)) == CountOf(s.sh.queue, v)
  }

  /** Tickets issued today = services counted + tickets in the queue + tickets carried or abandoned. */
  predicate TicketsBalance(s: State) {
    forall v: Service ::
      Of(s.sh.hist.issued, v) == Of(s.sh.stats.daily, v) + CountOf(s.sh.queue, v) + Sum(Slips(v), s.ops)
  }

  /** Desk occupations = active operators + operators interrupted before they were counted. */
  predicate ActiveBalance(s: State) {
    OccupiedSum(s.sh.desks) == s.sh.stats.active + Sum(Uncounted, s.ops)
  }

  /** Semaphore + desk permits not yet used + desks freed but not yet posted = free desks. */
  predicate DesksBalance(s: State) {
    forall v: Service :: Of(s.sh.sSem, v) + Sum(DeskUse(v), s.ops) == FreeCount(s.sh.desks, v)
  }

  predicate DayBooks(s: State) {
    DayLives(s.dir.pc) ==> PermitsBalance(s) && TicketsBalance(s) && ActiveBalance(s)
  }

  predicate NightBooks(s: State) {
    && (Cleared(s.dir.pc) || s.dir.pc.DClear? ==> s.sh.tSem == ZEROES)
    && (Cleared(s.dir.pc) ==> s.sh.queue == [] && s.sh.hist.issued == ZEROES && OccupiedSum(s.sh.desks) == 0)
    && (PhaseOf(s.dir.pc) == Gathering && (s.disp.first || s.disp.pc.EJoin? || s.disp.pc.EGate?) ==>
          s.sh.stats.daily == ZEROES && s.sh.stats.active == 0
          && s.sh.stats.notServedDay == 0 && s.sh.stats.pauses == 0)
  }

  predicate DeskBooks(s: State) {
    && |s.dir.arr| == |s.sh.desks|
    && (forall k :: 0 <= k < |s.sh.desks| ==> s.sh.desks[k].service == s.dir.arr[k])
    && (!s.dir.pc.DApply? ==> DesksBalance(s))
    && (s.dir.pc.DApply? ==> forall k :: 0 <= k < |s.sh.desks| ==> s.sh.desks[k].owner == 0)
  }

  predicate BooksOk(s: State) { DayBooks(s) && NightBooks(s) && DeskBooks(s) }

  // ----- operators

  /** An operator at the gate changes nothing but the gates. */
  lemma OpAtGate(cfg: Config, sh: Shared, o: Op, pid: nat, a: Act)
    requires Parked(o.pc)
    ensures var r := OpDo(cfg, sh, o, pid, a);
            && r.sh == sh.(sim := r.sh.sim) && r.o.service == o.service
            && r.o.log.permit == o.log.permit && r.o.posting == o.posting
            && (o.pc.OStart? && r.o.pc.OStart? ==> r.o.log == o.log)
  {
  }

  /** While a day is open nobody joins it, so the laws of the tallies hold without exception. */
  lemma OpLaws(s: State, i: nat, a: Act, v: Service)
    requires CoreOk(s) && BarrierOk(s) && i < |s.ops| && DayLives(s.dir.pc)
    ensures var r := OpDo(s.cfg, s.sh, s.ops[i], i + 1, a);
            PermitLaw(v, s.sh, s.ops[i], r) && SlipLaw(v, s.sh, s.ops[i], r) && ActiveLaw(s.sh, s.ops[i], r)
  {
    var o := s.ops[i];
    ReadyToMove(s, i);
    if o.pc.OStart? {
      assert s.sh.sim.s0 == 0 && NotTold(s);
      hide CoreOk, BarrierOk;
      OpSync(s.cfg, s.sh, o, i + 1, a);
      OpAtGate(s.cfg, s.sh, o, i + 1, a);
      hide OpDo;
    } else {
      hide CoreOk, BarrierOk, OpDo;
      OpAccounts(v, s.cfg, s.sh, o, i + 1, a);
    }
  }

  lemma LawsBalance(s: State, i: nat, r: Result)
    requires i < |s.ops| && PermitsBalance(s) && TicketsBalance(s) && ActiveBalance(s)
    requires forall v: Service :: PermitLaw(v, s.sh, s.ops[i], r)
    requires forall v: Service :: SlipLaw(v, s.sh, s.ops[i], r)
    requires ActiveLaw(s.sh, s.ops[i], r) && r.sh.hist == s.sh.hist
    ensures var t := s.(sh := r.sh, ops := s.ops[i := r.o]);
            PermitsBalance(t) && TicketsBalance(t) && ActiveBalance(t)
  {
    var t := s.(sh := r.sh, ops := s.ops[i := r.o]);
    SumUpdate(Uncounted, s.ops, i, r.o);
    forall v: Service
      ensures Of(t.sh.tSem, v) + Sum(Permits(v), t.ops) + One(t.disp.pc == EPost(v)) == CountOf(t.sh.queue, v)
    {
      SumUpdate(Permits(v), s.ops, i, r.o);
      assert PermitLaw(v, s.sh, s.ops[i], r);
    }
    forall v: Service
      ensures Of(t.sh.hist.issued, v) == Of(t.sh.stats.daily, v) + CountOf(t.sh.queue, v) + Sum(Slips(v), t.ops)
    {
      SumUpdate(Slips(v), s.ops, i, r.o);
      assert SlipLaw(v, s.sh, s.ops[i], r);
    }
  }

  lemma OpKeepsDayBooks(s: State, i: nat, a: Act)
    requires DayBooks(s) && CoreOk(s) && BarrierOk(s) && i < |s.ops| && DayLives(s.dir.pc)
    ensures DayBooks(Apply(s, StepOp(i, a)))
  {
    var o := s.ops[i];
    var r := OpDo(s.cfg, s.sh, o, i + 1, a);
    hide OpDo, BarrierOk, CoreOk, PermitLaw, SlipLaw, ActiveLaw, FrameLaw, OwnerLaw, Ready;
    forall v: Service ensures PermitLaw(v, s.sh, o, r) && SlipLaw(v, s.sh, o, r) && ActiveLaw(s.sh, o, r) {
      OpLaws(s, i, a, v);
    }
    assert PermitLaw(1, s.sh, o, r);
    OpStep(s, i, a);
    LawsBalance(s, i, r);
    hide PermitsBalance, TicketsBalance, ActiveBalance;
    assert Apply(s, StepOp(i, a)) == s.(sh := r.sh, ops := s.ops[i := r.o]);
  }

  lemma OpKeepsNightBooks(s: State, i: nat, a: Act)
    requires NightBooks(s) && BarrierOk(s) && i < |s.ops|
    ensures NightBooks(Apply(s, StepOp(i, a)))
  {
    var r := OpDo(s.cfg, s.sh, s.ops[i], i + 1, a);
    if !DayLives(s.dir.pc) {
      assert Parked(s.ops[i].pc);
      OpAtGate(s.cfg, s.sh, s.ops[i], i + 1, a);
    }
    hide BarrierOk, OpDo;
    assert Apply(s, StepOp(i, a)) == s.(sh := r.sh, ops := s.ops[i := r.o]);
  }

  lemma OpKeepsDeskBooks(s: State, i: nat, a: Act)
    requires DeskBooks(s) && CoreOk(s) && BarrierOk(s) && i < |s.ops|
    ensures DeskBooks(Apply(s, StepOp(i, a)))
  {
    var r := OpDo(s.cfg, s.sh, s.ops[i], i + 1, a);
    ReadyToMove(s, i);
    if s.dir.pc.DApply? {
      assert Parked(s.ops[i].pc);
      OpAtGate(s.cfg, s.sh, s.ops[i], i + 1, a);
    } else {
      OpDeskLaws(s, i, a);
      hide OpDo, BarrierOk, CoreOk, DeskLaw;
      DeskLawsBalance(s, i, r);
    }
    hide OpDo, BarrierOk, CoreOk, DesksBalance;
    assert Apply(s, StepOp(i, a)) == s.(sh := r.sh, ops := s.ops[i := r.o]);
  }

  lemma OpDeskLaws(s: State, i: nat, a: Act)
    requires i < |s.ops| && Ready(s.sh, s.ops[i], i + 1)
    ensures var r := OpDo(s.cfg, s.sh, s.ops[i], i + 1, a);
            && |r.sh.desks| == |s.sh.desks|
            && (forall k :: 0 <= k < |s.sh.desks| ==> r.sh.desks[k].service == s.sh.desks[k].service)
            && forall v: Service :: DeskLaw(v, s.sh, s.ops[i], r)
  {
    var r := OpDo(s.cfg, s.sh, s.ops[i], i + 1, a);
    OpData(s.cfg, s.sh, s.ops[i], i + 1, a);
    forall v: Service ensures DeskLaw(v, s.sh, s.ops[i], r) {
      OpAccounts(v, s.cfg, s.sh, s.ops[i], i + 1, a);
    }
    hide OpDo, DeskLaw;
    SameServices(s.sh, s.ops[i], i + 1, r);
  }

  lemma DeskLawsBalance(s: State, i: nat, r: Result)
    requires i < |s.ops| && DesksBalance(s) && forall v: Service :: DeskLaw(v, s.sh, s.ops[i], r)
    ensures DesksBalance(s.(sh := r.sh, ops := s.ops[i := r.o]))
  {
    var t := s.(sh := r.sh, ops := s.ops[i := r.o]);
    forall v: Service ensures Of(t.sh.sSem, v) + Sum(DeskUse(v), t.ops) == FreeCount(t.sh.desks, v) {
      assert DeskLaw(v, s.sh, s.ops[i], r);
      SumUpdate(DeskUse(v), s.ops, i, r.o);
    }
  }

  lemma SameServices(sh: Shared, o: Op, pid: nat, r: Result)
    requires OwnerLaw(sh, o, pid, r)
    ensures |r.sh.desks| == |sh.desks|
    ensures forall k :: 0 <= k < |sh.desks| ==> r.sh.desks[k].service == sh.desks[k].service
  {
  }

  lemma OpKeepsBooks(s: State, i: nat, a: Act)
    requires BooksOk(s) && CoreOk(s) && BarrierOk(s) && i < |s.ops|
    ensures BooksOk(Apply(s, StepOp(i, a)))
  {
    OpKeepsNightBooks(s, i, a);
    OpKeepsDeskBooks(s, i, a);
    if DayLives(s.dir.pc) {
      OpKeepsDayBooks(s, i, a);
    }
    hide OpDo, BarrierOk, CoreOk, NightBooks, DeskBooks;
  }

  // ----- dispenser

  lemma DispKeepsPermits(s: State, t: State)
    requires PermitsBalance(s) && DispWrites(s, t)
    ensures PermitsBalance(t)
  {
    forall v: Service
      ensures Of(t.sh.tSem, v) + Sum(Permits(v), t.ops) + One(t.disp.pc == EPost(v)) == CountOf(t.sh.queue, v)
    {
      if s.disp.pc.EInsert? && t.disp.pc != s.disp.pc && |s.sh.queue| < s.cfg.cap {
        var r := s.disp.pc.r;
        CountAppend(s.sh.queue, Ticket(s.sh.nextId, r.service, r.user, r.time), v);
      }
    }
  }

  lemma DispKeepsTickets(s: State, t: State)
    requires TicketsBalance(s) && DispWrites(s, t) && !s.disp.pc.EReset?
    ensures TicketsBalance(t)
  {
    CloseCounts(s.sh.stats, s.sh.queue);
    forall v: Service
      ensures Of(t.sh.hist.issued, v) == Of(t.sh.stats.daily, v) + CountOf(t.sh.queue, v) + Sum(Slips(v), t.ops)
    {
      if s.disp.pc.EInsert? && t.disp.pc != s.disp.pc && |s.sh.queue| < s.cfg.cap {
        var r := s.disp.pc.r;
        CountAppend(s.sh.queue, Ticket(s.sh.nextId, r.service, r.user, r.time), v);
      }
    }
  }

  lemma DispKeepsActive(s: State, t: State)
    requires ActiveBalance(s) && DispWrites(s, t) && !s.disp.pc.EReset?
    ensures ActiveBalance(t)
  {
    CloseCounts(s.sh.stats, s.sh.queue);
  }

  lemma DispKeepsDayBooks(s: State, t: State)
    requires DayBooks(s) && BarrierOk(s) && DispWrites(s, t)
    ensures DayBooks(t)
  {
    if DayLives(s.dir.pc) {
      assert !s.disp.pc.EReset?;
      hide BarrierOk;
      DispKeepsPermits(s, t);
      DispKeepsTickets(s, t);
      DispKeepsActive(s, t);
    }
    hide PermitsBalance, TicketsBalance, ActiveBalance, BarrierOk;
  }

  lemma DispKeepsNightBooks(s: State, a: Act, req: Request)
    requires NightBooks(s) && BarrierOk(s)
    ensures NightBooks(Apply(s, StepDisp(a, req)))
  {
    var t := Apply(s, StepDisp(a, req));
    DispFrame(s, a, req);
    DispKeepsBarrier(s, a, req);
    DispFlow(s, a, req);
    hide Apply;
    if !DayLives(s.dir.pc) {
      NightDispenser(s);
      NightDispenser(t);
    }
    hide BarrierOk;
  }

  /** Outside an open day the dispenser is nowhere near the queue. */
  lemma NightDispenser(s: State)
    requires BarrierOk(s) && !DayLives(s.dir.pc)
    ensures !s.disp.pc.EInsert? && !s.disp.pc.EPost? && !s.disp.pc.EStatWalk?
  {
  }

  lemma DispKeepsBooks(s: State, a: Act, req: Request)
    requires BooksOk(s) && BarrierOk(s)
    ensures BooksOk(Apply(s, StepDisp(a, req)))
  {
    var t := Apply(s, StepDisp(a, req));
    DispKeepsNightBooks(s, a, req);
    DispFrame(s, a, req);
    DispKeepsDayBooks(s, t);
    hide Apply, BarrierOk, NightBooks, DayBooks, FreeCount, Sum;
  }

  // ----- director

  /** How the director's moves cross the parts of the day. */
  lemma DirPhases(d: DirPc, e: DirPc)
    requires e == d || DirFlow(d, e)
    ensures DayLives(e) ==> DayLives(d) || d.DOpen?
    ensures Cleared(e) ==> Cleared(d) || d.DClear?
    ensures PhaseOf(e) == Gathering ==> PhaseOf(d) == Gathering || PhaseOf(d) == Closing
    ensures PhaseOf(d) == Ending ==> PhaseOf(e) == Ending
    ensures e.DApply? ==> d.DApply? || d.DDecide?
  {
  }

  lemma {:induction false} SignalsKeepSums(k: Kind, ops: seq<Op>, ops': seq<Op>)
    requires OnlySignals(ops, ops')
    ensures Sum(k, ops') == Sum(k, ops)
  {
    if ops != [] {
      assert forall j :: 0 <= j < |ops| - 1 ==> ops[1..][j] == ops[j+1] && ops'[1..][j] == ops'[j+1];
      SignalsKeepSums(k, ops[1..], ops'[1..]);
    }
  }

  lemma SignalsKeepBalances(s: State, t: State)
    requires OnlySignals(s.ops, t.ops) && t.disp.pc == s.disp.pc
    requires t.sh == s.sh.(sim := t.sh.sim, pipe := t.sh.pipe, hist := s.sh.hist.(day := t.sh.hist.day))
    ensures PermitsBalance(s) ==> PermitsBalance(t)
    ensures TicketsBalance(s) ==> TicketsBalance(t)
    ensures ActiveBalance(s) ==> ActiveBalance(t)
    ensures DesksBalance(s) ==> DesksBalance(t)
  {
    SignalsKeepSums(Uncounted, s.ops, t.ops);
    forall v: Service
      ensures Sum(Permits(v), t.ops) == Sum(Permits(v), s.ops) && Sum(Slips(v), t.ops) == Sum(Slips(v), s.ops)
      ensures Sum(DeskUse(v), t.ops) == Sum(DeskUse(v), s.ops)
    {
      SignalsKeepSums(Permits(v), s.ops, t.ops);
      SignalsKeepSums(Slips(v), s.ops, t.ops);
      SignalsKeepSums(DeskUse(v), s.ops, t.ops);
    }
  }

  /** When the gate opens, all operators have joined with empty hands and every account is 0. */
  lemma OpeningBalances(s: State)
    requires NightBooks(s) && CoreOk(s) && BarrierOk(s) && s.dir.pc.DOpen?
    ensures PermitsBalance(s) && TicketsBalance(s) && ActiveBalance(s)
  {
    assert GatheringOk(s);
    SumZero(Starts, s.ops);
    assert forall i :: 0 <= i < |s.ops| ==> OpOk(s.ops[i]) && s.ops[i].pc.OGate?;
    assert s.disp.pc.EGate?;
    hide BarrierOk, GatheringOk, CoreOk;
    SumZero(Uncounted, s.ops);
    forall v: Service ensures Sum(Permits(v), s.ops) == 0 && Sum(Slips(v), s.ops) == 0 {
      SumZero(Permits(v), s.ops);
      SumZero(Slips(v), s.ops);
    }
    hide OpOk, Sum;
  }

  lemma DayKeepsBooks(s: State)
    requires BooksOk(s) && CoreOk(s) && BarrierOk(s)
    ensures BooksOk(DirDay(s))
  {
    var t := DirDay(s);
    DayEffect(s);
    SignalsKeepBalances(s, t);
    if s.dir.pc.DOpen? {
      OpeningBalances(s);
    }
    DayFlows(s);
    DirPhases(s.dir.pc, t.dir.pc);
    hide DirDay, BarrierOk, CoreOk, PermitsBalance, TicketsBalance, ActiveBalance, DesksBalance, Sum;
  }

  lemma ResetKeepsBooks(s: State)
    requires BooksOk(s) && BarrierOk(s)
    ensures BooksOk(DirReset(s))
  {
    var t := DirReset(s);
    ResetSemEffect(s);
    ResetFlows(s);
    ResetWrites(s);
    DirPhases(s.dir.pc, t.dir.pc);
    if PhaseOf(s.dir.pc) == Closing {
      assert NotJoined(s.disp.pc) && !s.disp.pc.EJoin? && !s.disp.first;
    }
    if DayLives(t.dir.pc) {
      SignalsKeepBalances(s, t);
    }
    hide DirReset, BarrierOk, PermitsBalance, TicketsBalance, ActiveBalance, Sum;
  }

  lemma EndKeepsBooks(s: State)
    requires BooksOk(s)
    ensures BooksOk(DirEnd(s))
  {
    var t := DirEnd(s);
    EndEffect(s);
    EndFlows(s);
    DirPhases(s.dir.pc, t.dir.pc);
    SignalsKeepBalances(s, t);
    hide DirEnd, PermitsBalance, TicketsBalance, ActiveBalance, DesksBalance, Sum;
  }

  lemma TurnKeepsBooks(s: State, arr: seq<int>, newUsers: nat)
    requires BooksOk(s) && CoreOk(s) && BarrierOk(s)
    ensures BooksOk(DirTurn(s, arr, newUsers))
  {
    hide CoreOk, BarrierOk, BooksOk;
    match s.dir.pc
    case DClear => ClearKeepsBooks(s, arr, newUsers);
    case DUsers => UsersKeepBooks(s, arr, newUsers);
    case DDecide => DecideKeepsBooks(s, arr, newUsers);
    case DApply => ApplyKeepsBooks(s, arr, newUsers);
    case DExplode => UsersKeepBooks(s, arr, newUsers);
    case _ =>
  }

  lemma UsersKeepBooks(s: State, arr: seq<int>, newUsers: nat)
    requires BooksOk(s) && (s.dir.pc.DUsers? || s.dir.pc.DExplode?)
    ensures BooksOk(DirTurn(s, arr, newUsers))
  {
  }

  /** clearTickets empties the queue and the daily counts of the desks. */
  lemma ClearKeepsBooks(s: State, arr: seq<int>, newUsers: nat)
    requires BooksOk(s) && s.dir.pc.DClear?
    ensures BooksOk(DirTurn(s, arr, newUsers))
  {
    var t := DirTurn(s, arr, newUsers);
    VacatedCounts(s.sh.desks, 1);
    forall v: Service ensures FreeCount(t.sh.desks, v) == FreeCount(s.sh.desks, v) {
      VacatedCounts(s.sh.desks, v);
    }
    hide Sum, FreeCount, OccupiedSum;
  }

  /** service_choose: all desks are free, the accounts of the queue stay closed. */
  lemma DecideKeepsBooks(s: State, arr: seq<int>, newUsers: nat)
    requires BooksOk(s) && CoreOk(s) && BarrierOk(s) && s.dir.pc.DDecide?
    ensures BooksOk(DirTurn(s, arr, newUsers))
  {
    assert GatheringOk(s);
    IdleOps(s);
    IdleDesksFree(s.sh.desks, s.ops);
    hide BarrierOk, GatheringOk, CoreOk;
    if s.sh.stats.currentDay != s.cfg.duration && ValidChoice(arr, |s.sh.desks|) {
      ReassignedCounts(s.sh.desks, arr, 1);
      ChooseKeepsBooks(s, arr, newUsers);
    }
    hide Sum, FreeCount, OccupiedSum;
  }

  lemma ChooseKeepsBooks(s: State, arr: seq<int>, newUsers: nat)
    requires BooksOk(s) && s.dir.pc.DDecide? && |arr| == |s.sh.desks|
    requires s.sh.stats.currentDay != s.cfg.duration && ValidChoice(arr, |s.sh.desks|)
    requires forall k :: 0 <= k < |s.sh.desks| ==> s.sh.desks[k].owner == 0
    requires OccupiedSum(Reassigned(s.sh.desks, arr)) == OccupiedSum(s.sh.desks)
    ensures BooksOk(DirTurn(s, arr, newUsers))
  {
  }

  /** service_apply: with all desks free the histogram is the number of free desks. */
  lemma ApplyKeepsBooks(s: State, arr: seq<int>, newUsers: nat)
    requires BooksOk(s) && CoreOk(s) && BarrierOk(s) && s.dir.pc.DApply?
    ensures BooksOk(DirTurn(s, arr, newUsers))
  {
    AssignmentIsFree(s);
    AppliedBalance(s, s.dir.arr);
    ApplyStep(s, arr, newUsers);
    hide DirTurn, AssignedAll, BarrierOk, CoreOk, Sum, FreeCount, OccupiedSum, Assigned;
  }

  lemma ApplyStep(s: State, arr: seq<int>, newUsers: nat)
    requires s.dir.pc.DApply?
    ensures DirTurn(s, arr, newUsers)
         == s.(sh := s.sh.(sSem := AssignedAll(s.dir.arr)), dir := s.dir.(pc := DExplode))
  {
  }

  lemma AssignmentIsFree(s: State)
    requires DeskBooks(s) && CoreOk(s) && BarrierOk(s) && s.dir.pc.DApply?
    ensures forall v: Service :: Assigned(s.dir.arr, v) + Sum(DeskUse(v), s.ops) == FreeCount(s.sh.desks, v)
  {
    assert GatheringOk(s);
    assert forall i :: 0 <= i < |s.ops| ==> OpOk(s.ops[i]) && AtGate(s.ops[i].pc);
    assert forall i :: 0 <= i < |s.ops| ==> !s.ops[i].log.permit && s.ops[i].posting == 0;
    hide BarrierOk, GatheringOk, CoreOk, OpOk, AtGate;
    forall v: Service ensures Assigned(s.dir.arr, v) + Sum(DeskUse(v), s.ops) == FreeCount(s.sh.desks, v) {
      SumZero(DeskUse(v), s.ops);
      assert s.sh.desks == Reassigned(s.sh.desks, s.dir.arr);
      ReassignedCounts(s.sh.desks, s.dir.arr, v);
    }
  }

  lemma AppliedBalance(s: State, arr: seq<int>)
    requires forall v: Service :: Assigned(arr, v) + Sum(DeskUse(v), s.ops) == FreeCount(s.sh.desks, v)
    ensures forall v: Service :: Of(AssignedAll(arr), v) + Sum(DeskUse(v), s.ops) == FreeCount(s.sh.desks, v)
  {
  }

  lemma DirKeepsBooks(s: State, arr: seq<int>, newUsers: nat)
    requires BooksOk(s) && CoreOk(s) && BarrierOk(s)
    ensures BooksOk(Apply(s, StepDir(arr, newUsers)))
  {
    hide BooksOk, CoreOk, BarrierOk, DirDay, DirReset, DirTurn, DirEnd;
    match s.dir.pc
    case DPipe | DPost2 | DWait0 | DWait1 | DOpen | DDay | DSuspend(_) | DWaitStats => DayKeepsBooks(s);
    case DReset2(_) | DReset0(_) | DReset1(_) | DReset3(_) | DReset4(_) | DResetT(_) => ResetKeepsBooks(s);
    case DClear | DUsers | DDecide | DApply | DExplode => TurnKeepsBooks(s, arr, newUsers);
    case DEndSim(_) | DWaitFinal | DDone => EndKeepsBooks(s);
  }

  lemma {:induction false} NewDesks(arr: seq<int>, v: Service)
    ensures var ds := seq(|arr|, k requires 0 <= k < |arr| => Desk(arr[k], 0, 0));
            FreeCount(ds, v) == Assigned(arr, v) && OccupiedSum(ds) == 0
  {
    if arr != [] {
      var ds := seq(|arr|, k requires 0 <= k < |arr| => Desk(arr[k], 0, 0));
      var rest := arr[1..];
      assert ds[1..] == seq(|rest|, k requires 0 <= k < |rest| => Desk(rest[k], 0, 0));
      NewDesks(rest, v);
    }
  }

  lemma StartBooks(cfg: Config, services: seq<Service>, arr: seq<int>, users: nat)
    ensures BooksOk(Processes.Start(cfg, services, arr, users))
  {
    var s := Processes.Start(cfg, services, arr, users);
    NewDesks(arr, 1);
    forall v: Service ensures Of(s.sh.sSem, v) + Sum(DeskUse(v), s.ops) == FreeCount(s.sh.desks, v) {
      SumZero(DeskUse(v), s.ops);
      NewDesks(arr, v);
      assert v == 1 || v == 2 || v == 3 || v == 4 || v == 5 || v == 6;
    }
    hide Sum, FreeCount, OccupiedSum;
  }
}
