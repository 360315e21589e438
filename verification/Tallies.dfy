/** Sums over the operators, and the local law every operator step obeys: what a step takes
    from the shared state it adds to the operator's own weight. */
module Tallies {
  import opened Office
  import opened Processes

  lemma {:induction false} SumUpdate(k: Kind, ops: seq<Op>, i: nat, o: Op)
    requires i < |ops|
    ensures Sum(k, ops[i := o]) == Sum(k, ops) - Weight(k, ops[i]) + Weight(k, o)
  {
    if i == 0 {
      assert ops[i := o][1..] == ops[1..];
    } else {
      assert ops[i := o][1..] == ops[1..][i-1 := o];
      SumUpdate(k, ops[1..], i - 1, o);
    }
  }

  lemma {:induction false} SumZero(k: Kind, ops: seq<Op>)
    ensures Sum(k, ops) == 0 <==> forall i :: 0 <= i < |ops| ==> Weight(k, ops[i]) == 0
  {
    if ops != [] {
      SumZero(k, ops[1..]);
      assert forall i :: 1 <= i < |ops| ==> ops[i] == ops[1..][i-1];
    }
  }

  /** All operators stand at the start exactly when their number says so. */
  lemma {:induction false} AllStart(ops: seq<Op>)
    ensures Sum(Starts, ops) <= |ops|
    ensures Sum(Starts, ops) == |ops| <==> forall i :: 0 <= i < |ops| ==> ops[i].pc.OStart?
  {
    if ops != [] {
      AllStart(ops[1..]);
      assert forall i :: 1 <= i < |ops| ==> ops[i] == ops[1..][i-1];
    }
  }

  lemma {:induction false} SumAtLeast(k: Kind, ops: seq<Op>, i: nat)
    requires i < |ops|
    ensures Sum(k, ops) >= Weight(k, ops[i])
  {
    if i > 0 {
      SumAtLeast(k, ops[1..], i - 1);
    }
  }

  /** Two different operators contribute separately. */
  lemma SumTwo(k: Kind, ops: seq<Op>, i: nat, j: nat)
    requires i < |ops| && j < |ops| && i != j
    ensures Sum(k, ops) >= Weight(k, ops[i]) + Weight(k, ops[j])
  {
    SumDrop(k, ops, i);
    SumAtLeast(k, Without(ops, i), if j < i then j else j - 1);
  }

  lemma {:induction false} SumDrop(k: Kind, ops: seq<Op>, i: nat)
    requires i < |ops|
    ensures Sum(k, ops) == Weight(k, ops[i]) + Sum(k, Without(ops, i))
  {
    if i == 0 {
      assert Without(ops, i) == ops[1..];
    } else {
      assert Without(ops, i)[1..] == Without(ops[1..], i - 1);
      SumDrop(k, ops[1..], i - 1);
    }
  }

  /** Slips of a service are held by operators of that service, at most one each. */
  lemma {:induction false} SlipsAtMostWorkers(s: Service, ops: seq<Op>)
    ensures Sum(Slips(s), ops) <= Sum(Workers(s), ops)
  {
    if ops != [] {
      SlipsAtMostWorkers(s, ops[1..]);
    }
  }

  /** Counted over all services, at most one slip per operator. */
  lemma {:induction false} SlipsAtMostOne(ops: seq<Op>)
    ensures Sum(Slips(1), ops) + Sum(Slips(2), ops) + Sum(Slips(3), ops)
          + Sum(Slips(4), ops) + Sum(Slips(5), ops) + Sum(Slips(6), ops) <= |ops|
  {
    if ops != [] {
      SlipsAtMostOne(ops[1..]);
    }
  }

  // ----- what the records of one operator say about its program counter

  predicate Parked(pc: OpPc) { pc.OStart? || pc.OGate? || pc.OExit? }

  predicate Writing(pc: OpPc) { pc.OCountWrite? || pc.OStatWrite? || pc.OPauseWrite? }

  predicate PermitFits(o: Op) {
    match o.pc
    case ODeskLock | OReserve | OReturnDesk => o.log.permit
    case OReserveUnlock => o.log.permit <==> o.desk == 0
    case OError => true
    case _ => !o.log.permit
  }

  predicate PostingFits(o: Op) {
    match o.pc
    case OPausePost | OClosePost => true
    case _ => o.posting == 0
  }

  predicate OwnFits(o: Op) {
    match o.pc
    case OStart | OGate | OReady | ODesk | ODeskLock | OReserve | OReturnDesk | OPausePost
         | OClosePost | OCloseUnlock | OBarrier | OExit => !o.log.own
    case OReserveUnlock => o.log.own <==> o.desk != 0
    case _ => o.log.own ==> o.desk != 0
  }

  predicate CountFits(o: Op) {
    match o.pc
    case OReserveUnlock => o.log.uncounted <==> o.desk != 0
    case OCountLock | OCountRead | OCountWrite => o.log.uncounted
    case OStart | OExit | OCloseLock | OCloseFree | OClosePost | OCloseUnlock | OBarrier => true
    case _ => !o.log.uncounted
  }

  predicate HeldFits(o: Op) {
    match o.pc
    case OTicketFlag | OTicketLock | OReturnTicket | OServe => o.log.held == Permit
    case OServeUnlock | OServed => o.log.held == if o.ticket == 0 then Permit else Slip
    case OCall | OAck | OFine | OStatLock | OStatRead | OStatWrite => o.log.held == Slip
    case OStart | OExit | OError | OCloseLock | OCloseFree | OClosePost | OCloseUnlock | OBarrier => true
    case _ => o.log.held == Nothing
  }

  predicate OpOk(o: Op) { PermitFits(o) && PostingFits(o) && OwnFits(o) && CountFits(o) && HeldFits(o) }

  // ----- the laws, spelled out on the fields

  predicate MutexLaw(sh: Shared, o: Op, r: Result) {
    && r.sh.mem.m0 + One(MutexOf(r.o.pc) == 0) == sh.mem.m0 + One(MutexOf(o.pc) == 0)
    && r.sh.mem.m1 + One(MutexOf(r.o.pc) == 1) == sh.mem.m1 + One(MutexOf(o.pc) == 1)
    && r.sh.mem.m2 + One(MutexOf(r.o.pc) == 2) == sh.mem.m2 + One(MutexOf(o.pc) == 2)
  }

  predicate PermitLaw(s: Service, sh: Shared, o: Op, r: Result) {
    Of(r.sh.tSem, s) + One(r.o.service == s && r.o.log.held == Permit) + CountOf(sh.queue, s)
    == Of(sh.tSem, s) + One(o.service == s && o.log.held == Permit) + CountOf(r.sh.queue, s)
  }

  predicate SlipLaw(s: Service, sh: Shared, o: Op, r: Result) {
    Of(r.sh.stats.daily, s) + CountOf(r.sh.queue, s) + One(r.o.service == s && r.o.log.held == Slip)
    == Of(sh.stats.daily, s) + CountOf(sh.queue, s) + One(o.service == s && o.log.held == Slip)
  }

  predicate DeskLaw(s: Service, sh: Shared, o: Op, r: Result) {
    Of(r.sh.sSem, s) + One(r.o.service == s && r.o.log.permit) + One(r.o.posting == s) + FreeCount(sh.desks, s)
    == Of(sh.sSem, s) + One(o.service == s && o.log.permit) + One(o.posting == s) + FreeCount(r.sh.desks, s)
  }

  predicate ActiveLaw(sh: Shared, o: Op, r: Result) {
    r.sh.stats.active + One(r.o.log.uncounted) + OccupiedSum(sh.desks)
    == sh.stats.active + One(o.log.uncounted) + OccupiedSum(r.sh.desks)
  }

  // ----- every step leaves the operator with consistent records

  lemma GateKeepsOk(sh: Shared, o: Op)
    requires RegionOf(o.pc) == Gate && OpOk(o)
    ensures OpOk(GateGo(sh, o).o)
  {
  }

  lemma DeskKeepsOk(sh: Shared, o: Op, pid: nat)
    requires RegionOf(o.pc) == AtDesk && OpOk(o)
    ensures OpOk(DeskGo(sh, o, pid).o)
  {
  }

  lemma CountKeepsOk(sh: Shared, o: Op)
    requires RegionOf(o.pc) == Counting && OpOk(o)
    ensures OpOk(CountGo(sh, o).o)
  {
  }

  lemma TicketKeepsOk(sh: Shared, o: Op)
    requires RegionOf(o.pc) == AtTicket && OpOk(o)
    ensures OpOk(TicketGo(sh, o).o)
  {
    hide Take, Bump;
  }

  lemma ServeKeepsOk(sh: Shared, o: Op)
    requires RegionOf(o.pc) == Serving && OpOk(o)
    requires forall j :: 0 <= j < |sh.queue| ==> sh.queue[j].id > 0
    ensures OpOk(ServeGo(sh, o).o)
  {
  }

  lemma SessionKeepsOk(sh: Shared, o: Op)
    requires RegionOf(o.pc) == Session && OpOk(o)
    ensures OpOk(SessionGo(sh, o).o)
  {
  }

  lemma StatKeepsOk(sh: Shared, o: Op)
    requires RegionOf(o.pc) == Updating && OpOk(o)
    ensures OpOk(StatGo(sh, o).o)
  {
  }

  lemma PauseKeepsOk(cfg: Config, sh: Shared, o: Op, pid: nat, choice: bool)
    requires RegionOf(o.pc) == Pausing && OpOk(o)
    ensures OpOk(PauseGo(cfg, sh, o, pid, choice).o)
  {
  }

  lemma RestKeepsOk(sh: Shared, o: Op)
    requires RegionOf(o.pc) == Paused && OpOk(o)
    ensures OpOk(RestGo(sh, o).o)
  {
  }

  lemma CloseKeepsOk(sh: Shared, o: Op, pid: nat)
    requires RegionOf(o.pc) == Leaving && OpOk(o)
    ensures OpOk(CloseGo(sh, o, pid).o)
  {
  }

  lemma SignalKeepsOk(cfg: Config, sh: Shared, o: Op, pid: nat, a: Act)
    requires OpOk(o) && !a.Go?
    ensures OpOk(OpDo(cfg, sh, o, pid, a).o)
  {
    if a == Interrupt {
      InterruptKeepsOk(o);
    } else {
      DeliverKeepsOk(o, OpDo(cfg, sh, o, pid, a).o);
    }
  }

  lemma InterruptKeepsOk(o: Op)
    requires OpOk(o)
    ensures OpOk(OpInterrupt(o))
  {
  }

  lemma DeliverKeepsOk(o: Op, p: Op)
    requires OpOk(o) && p == o.(sig := p.sig)
    ensures OpOk(p)
  {
  }

  // ----- the accounts: permits, waiting tickets, removed tickets; desk permits, free desks, active operators

  /** What leaves the shared lists and semaphores is on the operator, and what leaves the
      operator is counted as provided or active.  The join drops what was abandoned. */
  predicate Accounts(s: Service, sh: Shared, o: Op, r: Result) {
    DeskLaw(s, sh, o, r) && (!o.pc.OStart? ==> PermitLaw(s, sh, o, r) && SlipLaw(s, sh, o, r) && ActiveLaw(sh, o, r))
  }

  lemma GateAccounts(s: Service, sh: Shared, o: Op)
    requires RegionOf(o.pc) == Gate && OpOk(o)
    ensures Accounts(s, sh, o, GateGo(sh, o))
  {
  }

  lemma DeskAccounts(s: Service, sh: Shared, o: Op, pid: nat)
    requires RegionOf(o.pc) == AtDesk && OpOk(o) && pid != 0
    ensures Accounts(s, sh, o, DeskGo(sh, o, pid))
  {
    ReservedCounts(sh.desks, o.service, pid, s);
    hide Reserved, FirstFree, FreeCount, OccupiedSum, CountOf;
  }

  lemma CountAccounts(s: Service, sh: Shared, o: Op)
    requires RegionOf(o.pc) == Counting && OpOk(o)
    requires Writing(o.pc) ==> o.tmp == sh.stats
    ensures Accounts(s, sh, o, CountGo(sh, o))
  {
  }

  lemma TicketAccounts(s: Service, sh: Shared, o: Op)
    requires RegionOf(o.pc) == AtTicket && OpOk(o)
    ensures Accounts(s, sh, o, TicketGo(sh, o))
  {
  }

  lemma ServeAccounts(s: Service, sh: Shared, o: Op)
    requires RegionOf(o.pc) == Serving && OpOk(o)
    ensures Accounts(s, sh, o, ServeGo(sh, o))
  {
    var f := FirstOf(sh.queue, o.service);
    if f < |sh.queue| {
      CountWithout(sh.queue, f, s);
    }
  }

  lemma SessionAccounts(s: Service, sh: Shared, o: Op)
    requires RegionOf(o.pc) == Session && OpOk(o)
    ensures Accounts(s, sh, o, SessionGo(sh, o))
  {
  }

  lemma StatAccounts(s: Service, sh: Shared, o: Op)
    requires RegionOf(o.pc) == Updating && OpOk(o)
    requires Writing(o.pc) ==> o.tmp == sh.stats
    ensures Accounts(s, sh, o, StatGo(sh, o))
  {
  }

  lemma PauseAccounts(s: Service, cfg: Config, sh: Shared, o: Op, pid: nat, choice: bool)
    requires RegionOf(o.pc) == Pausing && OpOk(o) && pid != 0
    requires Releases(sh.desks, o.desk, pid) ==> 1 <= sh.desks[o.desk-1].service <= SERVICES
    ensures Accounts(s, sh, o, PauseGo(cfg, sh, o, pid, choice))
  {
    ReleasedCounts(sh.desks, o.desk, pid, s);
    hide Released, FreeCount, OccupiedSum, CountOf;
  }

  lemma RestAccounts(s: Service, sh: Shared, o: Op)
    requires RegionOf(o.pc) == Paused && OpOk(o)
    requires Writing(o.pc) ==> o.tmp == sh.stats
    ensures Accounts(s, sh, o, RestGo(sh, o))
  {
  }

  lemma CloseAccounts(s: Service, sh: Shared, o: Op, pid: nat)
    requires RegionOf(o.pc) == Leaving && OpOk(o) && pid != 0
    requires Releases(sh.desks, o.desk, pid) ==> 1 <= sh.desks[o.desk-1].service <= SERVICES
    ensures Accounts(s, sh, o, CloseGo(sh, o, pid))
  {
    if o.pc.OCloseFree? {
      ReleaseAccounts(s, sh, o, pid);
      hide *;
      GivesUp(sh, o, pid);
    } else {
      hide FreeCount, OccupiedSum, CountOf, Released, Releases;
    }
  }

  lemma GivesUp(sh: Shared, o: Op, pid: nat)
    requires o.pc.OCloseFree?
    ensures CloseGo(sh, o, pid) == Release(sh, o, pid, OClosePost)
  {
    hide Release;
  }

  lemma ReleaseAccounts(s: Service, sh: Shared, o: Op, pid: nat)
    requires o.pc.OCloseFree? && OpOk(o) && pid != 0
    requires Releases(sh.desks, o.desk, pid) ==> 1 <= sh.desks[o.desk-1].service <= SERVICES
    ensures Accounts(s, sh, o, Release(sh, o, pid, OClosePost))
  {
    ReleasedCounts(sh.desks, o.desk, pid, s);
    hide FreeCount, OccupiedSum, CountOf, Released;
  }

  // ----- the laws for every action of an operator

  lemma StillLaws(s: Service, sh: Shared, o: Op)
    ensures Accounts(s, sh, o, Result(sh, o))
  {
  }

  /** The delivery of a signal moves neither tickets nor desks nor mutexes. */
  lemma SignalLaws(s: Service, cfg: Config, sh: Shared, o: Op, pid: nat, a: Act)
    requires !a.Go?
    ensures var r := OpDo(cfg, sh, o, pid, a);
            && r.sh == sh && MutexOf(r.o.pc) == MutexOf(o.pc)
            && r.o == o.(pc := r.o.pc, sig := r.o.sig)
            && Accounts(s, sh, o, r)
  {
  }

  /** What an operator may rely on when it moves. */
  predicate Ready(sh: Shared, o: Op, pid: nat) {
    && OpOk(o) && pid != 0
    && (Writing(o.pc) ==> o.tmp == sh.stats)
    && (forall j :: 0 <= j < |sh.queue| ==> sh.queue[j].id > 0)
    && (Releases(sh.desks, o.desk, pid) ==> 1 <= sh.desks[o.desk-1].service <= SERVICES)
  }

  lemma OpKeepsOk(cfg: Config, sh: Shared, o: Op, pid: nat, a: Act)
    requires Ready(sh, o, pid)
    ensures OpOk(OpDo(cfg, sh, o, pid, a).o)
  {
    hide OpOk;
    hide GateGo, DeskGo, CountGo, TicketGo, ServeGo, SessionGo, StatGo, PauseGo, RestGo, CloseGo;
    if a.Go? {
      match RegionOf(o.pc)
      case Gate => GateKeepsOk(sh, o);
      case AtDesk => DeskKeepsOk(sh, o, pid);
      case Counting => CountKeepsOk(sh, o);
      case AtTicket => TicketKeepsOk(sh, o);
      case Serving => ServeKeepsOk(sh, o);
      case Session => SessionKeepsOk(sh, o);
      case Updating => StatKeepsOk(sh, o);
      case Pausing => PauseKeepsOk(cfg, sh, o, pid, a.choice);
      case Paused => RestKeepsOk(sh, o);
      case Leaving => CloseKeepsOk(sh, o, pid);
      case Gone => 
    } else {
      SignalKeepsOk(cfg, sh, o, pid, a);
    }
  }

  lemma OpAccounts(s: Service, cfg: Config, sh: Shared, o: Op, pid: nat, a: Act)
    requires Ready(sh, o, pid)
    ensures Accounts(s, sh, o, OpDo(cfg, sh, o, pid, a))
  {
    hide OpOk, Accounts;
    hide GateGo, DeskGo, CountGo, TicketGo, ServeGo, SessionGo, StatGo, PauseGo, RestGo, CloseGo;
    if a.Go? {
      match RegionOf(o.pc)
      case Gate => GateAccounts(s, sh, o);
      case AtDesk => DeskAccounts(s, sh, o, pid);
      case Counting => CountAccounts(s, sh, o);
      case AtTicket => TicketAccounts(s, sh, o);
      case Serving => ServeAccounts(s, sh, o);
      case Session => SessionAccounts(s, sh, o);
      case Updating => StatAccounts(s, sh, o);
      case Pausing => PauseAccounts(s, cfg, sh, o, pid, a.choice);
      case Paused => RestAccounts(s, sh, o);
      case Leaving => CloseAccounts(s, sh, o, pid);
      case Gone => StillLaws(s, sh, o);
    } else {
      SignalLaws(s, cfg, sh, o, pid, a);
    }
  }
}
