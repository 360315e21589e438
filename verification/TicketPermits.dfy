/** The ticket semaphores against the tickets, at every moment of a run: from the first ticket of a
    day to the clearing of the queue after it. */
module TicketPermits {
  import opened Office
  import opened Processes
  import opened Tallies
  import opened Frames
  import opened Barrier
  import opened Core
  import opened Books
  import opened Invariant
  import Director
  import Ends

  /** Between the refill of simSem[0] and the clearing of the queue. */
  predicate Refilling(pc: DirPc) {
    match pc
    case DReset1(last) => !last
    case DReset3(last) => !last
    case DReset4(last) => !last
    case DResetT(last) => !last
    case DClear => true
    case _ => false
  }

  function LastDay(s: State): DayRecord
    requires s.sh.hist.closed != []
  {
    s.sh.hist.closed[|s.sh.hist.closed|-1]
  }

  /** Permits of service v taken and not spent: by an operator that still can spend it, or by one
      that the end of the day kept from it. */
  function Unspent(s: State, v: Service): nat {
    if DayLives(s.dir.pc) then Sum(Permits(v), s.ops)
    else if Refilling(s.dir.pc) && s.sh.hist.closed != [] then Of(LastDay(s).abandoned, v)
    else 0
  }

  // ----- the invariant

  /** Once the day is closed nobody takes or spends a permit. */
  predicate KeptPermits(s: State) {
    DayLives(s.dir.pc) && Ends.PastWalk(s.disp.pc) ==>
      s.sh.hist.closed != [] && forall v: Service :: Of(LastDay(s).abandoned, v) == Sum(Permits(v), s.ops)
  }

  /** What the day left behind stays until the semaphores are reset. */
  predicate LeftPermits(s: State) {
    Refilling(s.dir.pc) ==>
      && s.sh.hist.closed != []
      && forall v: Service ::
           && Of(LastDay(s).abandoned, v) <= CountOf(s.sh.queue, v)
           && (!s.dir.pc.DClear? ==> Of(s.sh.tSem, v) + Of(LastDay(s).abandoned, v) == CountOf(s.sh.queue, v))
  }

  predicate PermitsOk(s: State) { KeptPermits(s) && LeftPermits(s) }

  // ----- operators

  lemma OpKeepsPermits(s: State, i: nat, a: Act)
    requires PermitsOk(s) && BarrierOk(s) && CoreOk(s) && i < |s.ops|
    ensures PermitsOk(Apply(s, StepOp(i, a)))
  {
    var o, r := s.ops[i], OpDo(s.cfg, s.sh, s.ops[i], i + 1, a);
    OpStep(s, i, a);
    if (DayLives(s.dir.pc) && Ends.PastWalk(s.disp.pc)) || Refilling(s.dir.pc) {
      ClosedAtGate(s, i);
      OpAtGate(s.cfg, s.sh, o, i + 1, a);
      if DayLives(s.dir.pc) {
        OpSync(s.cfg, s.sh, o, i + 1, a);
        forall v: Service ensures Sum(Permits(v), s.ops[i := r.o]) == Sum(Permits(v), s.ops) {
          SumUpdate(Permits(v), s.ops, i, r.o);
        }
      }
    }
    hide OpDo, Apply, CoreOk, BarrierOk, Sum, CountOf;
  }

  lemma ClosedAtGate(s: State, i: nat)
    requires BarrierOk(s) && i < |s.ops|
    requires (DayLives(s.dir.pc) && Ends.PastWalk(s.disp.pc)) || Refilling(s.dir.pc)
    ensures Parked(s.ops[i].pc)
    ensures DayLives(s.dir.pc) ==> s.ops[i].pc.OStart? && s.sh.sim.s0 == 0 && !s.ops[i].sig.usr1
  {
    AllStart(s.ops);
    match PhaseOf(s.dir.pc)
    case Opened => assert OpenedOk(s);
    case Closing => assert ClosingOk(s);
    case Gathering => assert GatheringOk(s) && AtGate(s.ops[i].pc);
  }

  // ----- dispenser

  lemma DispKeepsPermits(s: State, t: State)
    requires PermitsOk(s) && BarrierOk(s) && BarrierOk(t) && DispWrites(s, t) && DispFlows(s, t)
    ensures PermitsOk(t)
  {
    Ends.DispPhases(s, t);
    RecordsPermits(s);
    if Refilling(s.dir.pc) {
      assert GatheringOk(s);
    }
    hide BarrierOk, GatheringOk, DispFlows, Record, Closed, DayReset, Sum, CountOf;
  }

  lemma RecordsPermits(s: State)
    ensures forall v: Service :: Of(Record(s).abandoned, v) == Sum(Permits(v), s.ops)
  {
    hide Sum;
  }

  // ----- director

  lemma DirKeepsPermits(s: State, arr: seq<int>, newUsers: nat)
    requires PermitsOk(s) && BarrierOk(s) && BooksOk(s)
    ensures PermitsOk(Apply(s, StepDir(arr, newUsers)))
  {
    hide CountOf, Sum, BarrierOk, BooksOk;
    var t := Apply(s, StepDir(arr, newUsers));
    Director.DirStep(s, arr, newUsers);
    DirSameTickets(s, arr, newUsers);
    DirTurnsTo(s, t);
    hide Director.DirFlows, Apply;
    forall v: Service ensures Sum(Permits(v), t.ops) == Sum(Permits(v), s.ops) {
      SignalsKeepSums(Permits(v), s.ops, t.ops);
    }
    assert KeptPermits(t);
    if s.dir.pc == DReset0(false) && t.dir.pc != s.dir.pc {
      LeavesPermits(s);
    }
    hide KeptPermits;
  }

  lemma DirSameTickets(s: State, arr: seq<int>, newUsers: nat)
    ensures var t := Apply(s, StepDir(arr, newUsers));
            && (t.sh.queue == s.sh.queue || s.dir.pc.DClear?)
            && (t.sh.tSem == s.sh.tSem || s.dir.pc.DResetT?)
            && (s.dir.pc.DClear? ==> !t.dir.pc.DClear?)
  {
  }

  /** How the director enters the stretches that the invariant speaks about. */
  lemma DirTurnsTo(s: State, t: State)
    requires BarrierOk(s) && Director.DirFlows(s, t)
    ensures Refilling(t.dir.pc) ==> Refilling(s.dir.pc) || s.dir.pc == DReset0(false)
    ensures Refilling(t.dir.pc) && s.dir.pc.DResetT? && t.dir.pc != s.dir.pc ==> t.dir.pc.DClear?
    ensures DayLives(t.dir.pc) ==> DayLives(s.dir.pc) || (s.dir.pc.DOpen? && !Ends.PastWalk(s.disp.pc))
    ensures t.dir.pc.DClear? && !s.dir.pc.DClear? ==> s.dir.pc == DResetT(false)
  {
    hide Sum;
  }

  lemma LeavesPermits(s: State)
    requires PermitsOk(s) && BarrierOk(s) && BooksOk(s) && s.dir.pc == DReset0(false)
    ensures s.sh.hist.closed != []
    ensures forall v: Service :: Of(s.sh.tSem, v) + Of(LastDay(s).abandoned, v) == CountOf(s.sh.queue, v)
  {
    assert ClosingOk(s) && PermitsBalance(s);
    hide BarrierOk, BooksOk, Sum, CountOf;
  }

  // ----- runs

  lemma StepKeepsPermits(s: State, step: Step)
    requires Inv(s) && PermitsOk(s)
    ensures PermitsOk(Apply(s, step))
  {
    Parts(s);
    hide Inv, BarrierOk, CoreOk, BooksOk, PermitsOk, OpDo, DispDo, DirDo;
    match step
    case StepOp(i, a) => if i < |s.ops| { OpKeepsPermits(s, i, a); }
    case StepDisp(a, req) =>
      DispFrame(s, a, req);
      DispFlow(s, a, req);
      DispKeepsBarrier(s, a, req);
      hide DispWrites, DispFlows;
      DispKeepsPermits(s, Apply(s, step));
    case StepDir(arr, newUsers) => DirKeepsPermits(s, arr, newUsers);
    case StepUser => UserKeepsPermits(s);
  }

  lemma UserKeepsPermits(s: State)
    requires PermitsOk(s)
    ensures PermitsOk(Apply(s, StepUser))
  {
    hide Sum, CountOf;
  }

  lemma {:induction false} RunKeepsPermits(u: Setup, steps: seq<Step>)
    requires ValidSetup(u)
    ensures Inv(Run(Begin(u), steps)) && PermitsOk(Run(Begin(u), steps))
  {
    hide Inv, Apply, PermitsOk;
    BeginInv(u);
    RunKeepsInv(Begin(u), steps);
    if steps == [] {
      BeginPermits(u);
    } else {
      RunKeepsPermits(u, steps[..|steps|-1]);
      StepKeepsPermits(Run(Begin(u), steps[..|steps|-1]), steps[|steps|-1]);
    }
  }

  lemma BeginPermits(u: Setup)
    ensures PermitsOk(Begin(u))
  {
  }

  // ----- what it means

  /** In every reachable state: semaphore value + permits taken and not spent + a ticket appended
      but not yet announced never exceed the tickets of that service that wait, and are exactly as
      many, except while the semaphores have been reset and the queue not yet cleared. */
  lemma PermitAccount(s: State, v: Service)
    requires Reachable(s)
    ensures var n, waiting := Of(s.sh.tSem, v) + Unspent(s, v) + One(s.disp.pc == EPost(v)), CountOf(s.sh.queue, v);
            && n <= waiting
            && (n < waiting <==> s.dir.pc.DClear? && Unspent(s, v) < waiting)
  {
    ReachablePermits(s);
    hide Reachable, Run, Begin;
    Parts(s);
    hide Inv;
    if DayLives(s.dir.pc) {
      assert PermitsBalance(s);
      hide BarrierOk;
    } else {
      NotPosting(s, v);
      NightAccount(s, v);
    }
    hide CoreOk, BooksOk, PermitsOk, Unspent;
  }

  lemma NotPosting(s: State, v: Service)
    requires BarrierOk(s) && !DayLives(s.dir.pc)
    ensures s.disp.pc != EPost(v)
  {
    hide Sum;
    match PhaseOf(s.dir.pc)
    case Gathering => assert GatheringOk(s);
    case Ending => assert EndingOk(s);
  }

  lemma NightAccount(s: State, v: Service)
    requires NightBooks(s) && PermitsOk(s) && !DayLives(s.dir.pc)
    ensures var n, waiting := Of(s.sh.tSem, v) + Unspent(s, v), CountOf(s.sh.queue, v);
            n <= waiting && (n < waiting <==> s.dir.pc.DClear? && Unspent(s, v) < waiting)
  {
    assert Cleared(s.dir.pc) || Refilling(s.dir.pc);
    assert Cleared(s.dir.pc) || s.dir.pc.DClear? ==> Of(s.sh.tSem, v) == 0;
    hide Sum;
  }

  lemma ReachablePermits(s: State)
    requires Reachable(s)
    ensures Inv(s) && PermitsOk(s)
  {
    hide PermitsOk, Run, Begin, Inv;
    var u, steps :| ValidSetup(u) && s == Run(Begin(u), steps);
    RunKeepsPermits(u, steps);
  }
}
