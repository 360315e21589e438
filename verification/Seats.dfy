/** Operators serve only at desks they own: an operator that gave its desk up for a pause is woken
    only by the end of the day and leaves without touching another ticket. */
module Seats {
  import opened Office
  import opened Processes
  import opened Tallies
  import opened Core
  import opened Director
  import opened Invariant
  import opened Frames
  import opened DayEnd
  import opened Theorems

  /** From the reservation to the release the desk is the operator's; the top of the serving loop
      is reached without one only with the end-of-day flag up.  On a pause it owns none. */
  predicate Seated(o: Op) {
    match o.pc
    case OTop => o.log.own || o.sig.usr2
    case OReserveUnlock | OCountLock | OCountRead | OCountWrite | OCountUnlock | OTicket | OTicketFlag
         | OTicketLock | OReturnTicket | OServe | OServeUnlock | OServed | OCall | OAck | OFine | OStatLock
         | OStatRead | OStatWrite | OStatUnlock | OServedFlag | OPause | OPauseLock | OPauseFree => o.log.own
    case OPausePost | OPauseUnlock | OPauseStatLock | OPauseRead | OPauseWrite | OPauseStatUnlock | OStopped =>
      !o.log.own
    case ODesk | ODeskLock | OReserve | OReturnDesk => o.desk == 0
    case _ => true
  }

  predicate AllSeated(s: State) { forall i :: 0 <= i < |s.ops| ==> Seated(s.ops[i]) }

  lemma DeskSeats(sh: Shared, o: Op, pid: nat)
    requires RegionOf(o.pc) == AtDesk && Seated(o)
    requires o.pc.OReserve? ==> ReservedId(sh.desks, o.service) != 0
    requires o.pc.OReserveUnlock? ==> o.desk != 0
    ensures Seated(DeskGo(sh, o, pid).o)
  {
  }

  lemma CountSeats(sh: Shared, o: Op)
    requires RegionOf(o.pc) == Counting && Seated(o)
    ensures Seated(CountGo(sh, o).o)
  {
  }

  lemma TicketSeats(sh: Shared, o: Op)
    requires RegionOf(o.pc) == AtTicket && Seated(o)
    ensures Seated(TicketGo(sh, o).o)
  {
  }

  lemma ServeSeats(sh: Shared, o: Op)
    requires RegionOf(o.pc) == Serving && Seated(o)
    ensures Seated(ServeGo(sh, o).o)
  {
  }

  lemma StatSeats(sh: Shared, o: Op)
    requires RegionOf(o.pc) == Updating && Seated(o)
    ensures Seated(StatGo(sh, o).o)
  {
  }

  lemma PauseSeats(cfg: Config, sh: Shared, o: Op, pid: nat, choice: bool)
    requires RegionOf(o.pc) == Pausing && Seated(o)
    ensures Seated(PauseGo(cfg, sh, o, pid, choice).o)
  {
  }

  lemma OpKeepsSeat(cfg: Config, sh: Shared, o: Op, pid: nat, a: Act)
    requires Seated(o)
    requires o.pc.OReserve? ==> ReservedId(sh.desks, o.service) != 0
    requires o.pc.OReserveUnlock? ==> o.desk != 0
    ensures Seated(OpDo(cfg, sh, o, pid, a).o)
  {
    hide DeskGo, CountGo, TicketGo, ServeGo, StatGo, PauseGo;
    if a.Go? {
      match RegionOf(o.pc)
      case AtDesk => DeskSeats(sh, o, pid);
      case Counting => CountSeats(sh, o);
      case AtTicket => TicketSeats(sh, o);
      case Serving => ServeSeats(sh, o);
      case Updating => StatSeats(sh, o);
      case Pausing => PauseSeats(cfg, sh, o, pid, a.choice);
      case _ =>
    }
  }

  lemma OpStepSeats(s: State, i: nat, a: Act)
    requires Inv(s) && AllSeated(s) && i < |s.ops|
    ensures AllSeated(Apply(s, StepOp(i, a)))
  {
    hide Inv;
    var o := s.ops[i];
    Parts(s);
    OpStep(s, i, a);
    assert Supplied(o, s.sh.nextId) && OpOk(o);
    if o.pc.OReserve? {
      PermitFindsDesk(s, i);
    }
    hide *;
    Seating(s, i);
    OpKeepsSeat(s.cfg, s.sh, o, i + 1, a);
    Reseated(s, Apply(s, StepOp(i, a)), i);
  }

  lemma Seating(s: State, i: nat)
    requires AllSeated(s) && i < |s.ops|
    ensures Seated(s.ops[i])
  {
  }

  lemma Reseated(s: State, t: State, i: nat)
    requires AllSeated(s) && i < |s.ops| && |t.ops| == |s.ops| && Seated(t.ops[i])
    requires t.ops == s.ops[i := t.ops[i]]
    ensures AllSeated(t)
  {
  }

  /** Signals do not move anybody. */
  lemma SignalsKeepSeats(s: State, t: State)
    requires AllSeated(s) && OnlySignals(s.ops, t.ops)
    requires forall i :: 0 <= i < |s.ops| ==> s.ops[i].sig.usr2 ==> t.ops[i].sig.usr2
    ensures AllSeated(t)
  {
    forall i | 0 <= i < |t.ops| ensures Seated(t.ops[i]) {
      assert Seated(s.ops[i]);
    }
  }

  lemma DispStepSeats(s: State, a: Act, req: Request)
    ensures Apply(s, StepDisp(a, req)).ops == s.ops
  {
    DispFrame(s, a, req);
  }

  lemma DirKeepsFlags(s: State, arr: seq<int>, newUsers: nat)
    ensures var t := Apply(s, StepDir(arr, newUsers));
            OnlySignals(s.ops, t.ops) && forall i :: 0 <= i < |s.ops| ==> s.ops[i].sig.usr2 ==> t.ops[i].sig.usr2
  {
    DirStep(s, arr, newUsers);
    DirStepTells(s, arr, newUsers);
    hide Apply;
  }

  lemma StepKeepsSeats(s: State, step: Step)
    requires Inv(s) && AllSeated(s)
    ensures AllSeated(Apply(s, step))
  {
    hide Inv;
    match step
    case StepOp(i, a) => if i < |s.ops| { hide *; OpStepSeats(s, i, a); }
    case StepDisp(a, req) => DispStepSeats(s, a, req); hide Apply;
    case StepDir(arr, newUsers) =>
      DirKeepsFlags(s, arr, newUsers);
      hide *;
      SignalsKeepSeats(s, Apply(s, step));
    case StepUser =>
  }

  lemma {:induction false} RunKeepsSeats(u: Setup, steps: seq<Step>)
    requires ValidSetup(u)
    ensures Inv(Run(Begin(u), steps)) && AllSeated(Run(Begin(u), steps))
  {
    hide Inv, Apply;
    BeginInv(u);
    RunKeepsInv(Begin(u), steps);
    if steps != [] {
      RunKeepsSeats(u, steps[..|steps|-1]);
      StepKeepsSeats(Run(Begin(u), steps[..|steps|-1]), steps[|steps|-1]);
    }
  }

  /** An operator that takes a ticket, calls a user or counts a service owns the desk it sits at,
      and that desk offers the service. */
  lemma ServesOnlyAtOwnDesk(s: State, i: nat)
    requires Reachable(s) && i < |s.ops|
    requires RegionOf(s.ops[i].pc) == Serving || RegionOf(s.ops[i].pc) == Session || RegionOf(s.ops[i].pc) == Updating
    ensures var o := s.ops[i];
            && 1 <= o.desk <= |s.sh.desks|
            && s.sh.desks[o.desk-1].owner == i + 1 && s.sh.desks[o.desk-1].service == o.service
  {
    hide Reachable;
    ReachableSeats(s);
    Facts(s);
    assert Seated(s.ops[i]);
    assert Owned(s.sh.desks, s.ops);
    hide CoreOk, AllSeated, AllSupplied;
    var k := s.ops[i].desk - 1;
    assert s.sh.desks[k].owner == i + 1 <==> OwnsDesk(s.ops[i], k);
  }

  /** An operator on a pause owns no desk: from the release until the end of the day. */
  lemma PausedOwnsNoDesk(s: State, i: nat, k: nat)
    requires Reachable(s) && i < |s.ops| && k < |s.sh.desks|
    requires RegionOf(s.ops[i].pc) == Paused || s.ops[i].pc.OPausePost? || s.ops[i].pc.OPauseUnlock?
    ensures s.sh.desks[k].owner != i + 1
  {
    hide Reachable;
    ReachableSeats(s);
    Facts(s);
    assert Seated(s.ops[i]);
    assert Owned(s.sh.desks, s.ops);
    hide CoreOk, AllSeated, AllSupplied;
    assert s.sh.desks[k].owner == i + 1 <==> OwnsDesk(s.ops[i], k);
  }

  /** An operator that waits for a desk, or gives its permit back, has forgotten the desk of the day
      before, so the release at the close of its day frees none. */
  lemma WaitsWithoutDesk(s: State, i: nat)
    requires Reachable(s) && i < |s.ops|
    requires s.ops[i].pc.ODesk? || s.ops[i].pc.ODeskLock? || s.ops[i].pc.OReserve? || s.ops[i].pc.OReturnDesk?
    ensures s.ops[i].desk == 0 && forall k :: 0 <= k < |s.sh.desks| ==> s.sh.desks[k].owner != i + 1
  {
    hide Reachable;
    ReachableSeats(s);
    Facts(s);
    assert Seated(s.ops[i]);
    assert Owned(s.sh.desks, s.ops);
    hide CoreOk, AllSeated, AllSupplied;
    forall k | 0 <= k < |s.sh.desks| ensures s.sh.desks[k].owner != i + 1 {
      assert s.sh.desks[k].owner == i + 1 <==> OwnsDesk(s.ops[i], k);
    }
  }

  lemma ReachableSeats(s: State)
    requires Reachable(s)
    ensures AllSeated(s)
  {
    hide AllSeated, Run, Begin;
    var u, steps :| ValidSetup(u) && s == Run(Begin(u), steps);
    RunKeepsSeats(u, steps);
  }
}
