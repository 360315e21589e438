/** All invariants together: they hold in every state of every run. */
module Invariant {
  import opened Office
  import opened Processes
  import opened Tallies
  import opened Frames
  import opened Barrier
  import opened Core
  import opened Director
  import opened Books
  import opened Days
  import opened Ends

  // ----- reservations and serves never come back empty-handed

  /** A real ticket, issued earlier. */
  predicate Issued(o: Op, nextId: nat) { 0 < o.ticket < nextId }

  predicate Supplied(o: Op, nextId: nat) {
    match o.pc
    case OReserveUnlock => o.desk != 0
    case OServeUnlock | OServed => Issued(o, nextId)
    case OError => Issued(o, nextId) && ZeroAsInt(o.ticket)
    case _ => true
  }

  predicate AllSupplied(s: State) { forall i :: 0 <= i < |s.ops| ==> Supplied(s.ops[i], s.sh.nextId) }

  /** Only two program points look for something that might be missing. */
  lemma SupplyKept(cfg: Config, sh: Shared, o: Op, pid: nat, a: Act)
    requires Supplied(o, sh.nextId)
    requires o.pc.OReserve? ==> ReservedId(sh.desks, o.service) != 0
    requires o.pc.OServe? ==> FirstOf(sh.queue, o.service) < |sh.queue|
    requires forall j :: 0 <= j < |sh.queue| ==> 0 < sh.queue[j].id < sh.nextId
    ensures Supplied(OpDo(cfg, sh, o, pid, a).o, sh.nextId)
  {
  }


  /** Outside an open day every operator is at the gate, or has left. */
  lemma NightParked(s: State, i: nat)
    requires BarrierOk(s) && i < |s.ops| && PhaseOf(s.dir.pc) != Opened
    ensures Parked(s.ops[i].pc)
  {
    AllStart(s.ops);
    match PhaseOf(s.dir.pc)
    case Gathering => assert GatheringOk(s); assert AtGate(s.ops[i].pc);
    case Closing => assert ClosingOk(s);
    case Ending => assert EndingOk(s);
  }

  /** An operator in the serving loop works on an open day. */
  lemma WorksInDay(s: State, i: nat)
    requires BarrierOk(s) && i < |s.ops| && !Parked(s.ops[i].pc)
    ensures PhaseOf(s.dir.pc) == Opened
  {
    if PhaseOf(s.dir.pc) != Opened {
      NightParked(s, i);
    }
  }

  /** A desk permit guarantees a free desk of its service at the moment of the reservation. */
  lemma PermitFindsDesk(s: State, i: nat)
    requires BarrierOk(s) && CoreOk(s) && BooksOk(s) && i < |s.ops| && s.ops[i].log.permit
    requires !Parked(s.ops[i].pc)
    ensures ReservedId(s.sh.desks, s.ops[i].service) != 0
  {
    WorksInDay(s, i);
    var v := s.ops[i].service;
    assert DesksBalance(s);
    hide BarrierOk, CoreOk, BooksOk;
    SumAtLeast(DeskUse(v), s.ops, i);
    FreeIffCounted(s.sh.desks, v);
  }

  /** A ticket permit guarantees a ticket of its service at the moment of the serve. */
  lemma PermitFindsTicket(s: State, i: nat)
    requires BarrierOk(s) && CoreOk(s) && BooksOk(s) && i < |s.ops| && s.ops[i].log.held == Permit
    requires !Parked(s.ops[i].pc)
    ensures FirstOf(s.sh.queue, s.ops[i].service) < |s.sh.queue|
  {
    WorksInDay(s, i);
    var v := s.ops[i].service;
    assert PermitsBalance(s);
    hide BarrierOk, CoreOk, BooksOk;
    SumAtLeast(Permits(v), s.ops, i);
    FoundIffCounted(s.sh.queue, v);
  }

  lemma OpKeepsSupplied(s: State, i: nat, a: Act)
    requires AllSupplied(s) && BarrierOk(s) && CoreOk(s) && BooksOk(s) && i < |s.ops|
    ensures AllSupplied(Apply(s, StepOp(i, a)))
  {
    var o := s.ops[i];
    var r := OpDo(s.cfg, s.sh, o, i + 1, a);
    OpStep(s, i, a);
    if o.pc.OReserve? {
      assert OpOk(o);
      PermitFindsDesk(s, i);
    } else if o.pc.OServe? {
      assert OpOk(o);
      PermitFindsTicket(s, i);
    }
    assert forall j :: 0 <= j < |s.sh.queue| ==> 0 < s.sh.queue[j].id < s.sh.nextId;
    hide BarrierOk, CoreOk, BooksOk, OpDo, OpOk, Apply;
    SupplyKept(s.cfg, s.sh, o, i + 1, a);
    hide Supplied;
  }


  // ----- everything

  predicate Inv(s: State) {
    && BarrierOk(s) && CoreOk(s) && BooksOk(s) && TotalsAgree(s.sh.stats)
    && ServicesOk(s) && DaysOk(s) && RunOk(s) && AllSupplied(s)
  }

  lemma OpKeepsInv(s: State, i: nat, a: Act)
    requires Inv(s) && i < |s.ops|
    ensures Inv(Apply(s, StepOp(i, a)))
  {
    hide *;
    Parts(s);
    OpKeepsBarrier(s, i, a);
    OpKeepsCore(s, i, a);
    OpKeepsBooks(s, i, a);
    OpKeepsTotals(s, i, a);
    OpKeepsServices(s, i, a);
    OpKeepsDays(s, i, a);
    OpKeepsRun(s, i, a);
    OpKeepsSupplied(s, i, a);
    Whole(Apply(s, StepOp(i, a)));
  }

  lemma Parts(s: State)
    requires Inv(s)
    ensures BarrierOk(s) && CoreOk(s) && BooksOk(s) && TotalsAgree(s.sh.stats)
    ensures ServicesOk(s) && DaysOk(s) && RunOk(s) && AllSupplied(s)
  {
  }

  lemma Whole(s: State)
    requires BarrierOk(s) && CoreOk(s) && BooksOk(s) && TotalsAgree(s.sh.stats)
    requires ServicesOk(s) && DaysOk(s) && RunOk(s) && AllSupplied(s)
    ensures Inv(s)
  {
  }

  lemma DispKeepsSupplied(s: State, t: State)
    requires AllSupplied(s) && DispWrites(s, t)
    ensures AllSupplied(t)
  {
  }

  lemma DispKeepsInv(s: State, a: Act, req: Request)
    requires Inv(s)
    ensures Inv(Apply(s, StepDisp(a, req)))
  {
    hide *;
    var t := Apply(s, StepDisp(a, req));
    Parts(s);
    DispFrame(s, a, req);
    DispFlow(s, a, req);
    DispKeepsBarrier(s, a, req);
    DispKeepsCore(s, a, req);
    DispKeepsBooks(s, a, req);
    DispKeepsTotals(s, t);
    DispKeepsServices(s, t);
    DispKeepsDays(s, t);
    DispKeepsRun(s, t);
    DispKeepsSupplied(s, t);
    Whole(t);
  }

  /** The director never takes an issued number back. */
  lemma DirKeepsSupplied(s: State, arr: seq<int>, newUsers: nat)
    requires AllSupplied(s)
    ensures AllSupplied(Apply(s, StepDir(arr, newUsers)))
  {
    var t := Apply(s, StepDir(arr, newUsers));
    DirStep(s, arr, newUsers);
    hide Apply;
    forall i | 0 <= i < |t.ops| ensures Supplied(t.ops[i], t.sh.nextId) {
      assert Supplied(s.ops[i], s.sh.nextId);
    }
  }

  lemma DirKeepsInv(s: State, arr: seq<int>, newUsers: nat)
    requires Inv(s)
    ensures Inv(Apply(s, StepDir(arr, newUsers)))
  {
    hide *;
    var t := Apply(s, StepDir(arr, newUsers));
    Parts(s);
    Nights(s);
    DirStep(s, arr, newUsers);
    SameTotals(s, t);
    DirKeepsBarrier(s, arr, newUsers);
    DirKeepsCore(s, arr, newUsers);
    DirKeepsBooks(s, arr, newUsers);
    DirKeepsServices(s, arr, newUsers);
    DirKeepsDays(s, t);
    DirKeepsRun(s, t);
    DirKeepsSupplied(s, arr, newUsers);
    Whole(t);
  }

  lemma Nights(s: State)
    requires BooksOk(s)
    ensures NightBooks(s)
  {
  }

  lemma SameTotals(s: State, t: State)
    requires TotalsAgree(s.sh.stats) && DirSpares(s, t)
    ensures TotalsAgree(t.sh.stats)
  {
  }

  predicate OnlyUsers(s: State, t: State) {
    t == s.(sh := s.sh.(sim := s.sh.sim.(s1 := t.sh.sim.s1), trace := s.sh.trace.(passed := t.sh.trace.passed)))
  }

  /** A user passing the start takes from simSem[1] only, which no invariant mentions. */
  lemma UserOnlyStarts(s: State)
    ensures OnlyUsers(s, Apply(s, StepUser))
  {
  }

  lemma UserKeepsInv(s: State)
    requires Inv(s)
    ensures Inv(Apply(s, StepUser))
  {
    hide *;
    var t := Apply(s, StepUser);
    UserOnlyStarts(s);
    Parts(s);
    UserKeepsBarrier(s, t);
    UserKeepsBooks(s, t);
    UserKeepsRest(s, t);
    Whole(t);
  }

  lemma UserKeepsBooks(s: State, t: State)
    requires CoreOk(s) && BooksOk(s) && OnlyUsers(s, t)
    ensures CoreOk(t) && BooksOk(t)
  {
  }

  lemma UserKeepsRest(s: State, t: State)
    requires TotalsAgree(s.sh.stats) && ServicesOk(s) && DaysOk(s) && RunOk(s) && AllSupplied(s) && OnlyUsers(s, t)
    ensures TotalsAgree(t.sh.stats) && ServicesOk(t) && DaysOk(t) && RunOk(t) && AllSupplied(t)
  {
  }

  lemma UserKeepsBarrier(s: State, t: State)
    requires BarrierOk(s) && OnlyUsers(s, t)
    ensures BarrierOk(t)
  {
  }

  lemma StepKeepsInv(s: State, step: Step)
    requires Inv(s)
    ensures Inv(Apply(s, step))
  {
    match step
    case StepOp(i, a) => if i < |s.ops| { OpKeepsInv(s, i, a); }
    case StepDisp(a, req) => DispKeepsInv(s, a, req);
    case StepDir(arr, newUsers) => DirKeepsInv(s, arr, newUsers);
    case StepUser => UserKeepsInv(s);
  }

  // ----- runs

  /** The configuration, the operators' services, the first day's assignment and the users. */
  datatype Setup = Setup(cfg: Config, services: seq<Service>, arr: seq<int>, users: nat)

  predicate ValidSetup(u: Setup) { ValidChoice(u.arr, |u.arr|) }

  function Begin(u: Setup): State { Processes.Start(u.cfg, u.services, u.arr, u.users) }

  /** Some run, from some start, leads to s. */
  ghost predicate Reachable(s: State) {
    exists u: Setup, steps: seq<Step> :: ValidSetup(u) && s == Run(Begin(u), steps)
  }

  lemma BeginInv(u: Setup)
    requires ValidSetup(u)
    ensures Inv(Begin(u))
  {
    StartBarrier(u.cfg, u.services, u.arr, u.users);
    StartCore(u.cfg, u.services, u.arr, u.users);
    StartBooks(u.cfg, u.services, u.arr, u.users);
    StartRun(u.cfg, u.services, u.arr, u.users);
    hide BarrierOk, CoreOk, BooksOk, RunOk, Sum;
  }

  lemma {:induction false} RunKeepsInv(s: State, steps: seq<Step>)
    requires Inv(s)
    ensures Inv(Run(s, steps))
  {
    if steps != [] {
      RunKeepsInv(s, steps[..|steps|-1]);
      hide Inv, Apply;
      StepKeepsInv(Run(s, steps[..|steps|-1]), steps[|steps|-1]);
    }
  }

  /** The invariants hold in every reachable state. */
  lemma ReachableInv(s: State)
    requires Reachable(s)
    ensures Inv(s)
  {
    var u, steps :| ValidSetup(u) && s == Run(Begin(u), steps);
    BeginInv(u);
    RunKeepsInv(Begin(u), steps);
  }
}
