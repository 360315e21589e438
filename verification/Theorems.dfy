/** What the protocol guarantees in every state of every run: for any number of operators, any
    configuration, any interleaving, and any moment at which signals arrive. */
module Theorems {
  import opened Office
  import opened Processes
  import opened Tallies
  import opened Frames
  import opened Barrier
  import opened Core
  import opened Books
  import opened Days
  import opened Ends
  import opened Invariant

  lemma Facts(s: State)
    requires Reachable(s)
    ensures BarrierOk(s) && CoreOk(s) && BooksOk(s) && TotalsAgree(s.sh.stats)
    ensures ServicesOk(s) && DaysOk(s) && RunOk(s) && AllSupplied(s)
  {
    hide Reachable, BarrierOk, CoreOk, BooksOk, ServicesOk, DaysOk, RunOk, AllSupplied;
    ReachableInv(s);
    Parts(s);
  }

  // ----- tickets and their semaphores

  /** serveTicket, whenever an operator calls it, finds a ticket of the operator's service. */
  lemma ServeFindsTicket(s: State, i: nat)
    requires Reachable(s) && i < |s.ops| && s.ops[i].pc.OServe?
    ensures FirstOf(s.sh.queue, s.ops[i].service) < |s.sh.queue|
  {
    hide Reachable;
    Facts(s);
    assert OpOk(s.ops[i]);
    hide BarrierOk, BooksOk, CoreOk, ServicesOk, DaysOk, RunOk;
    PermitFindsTicket(s, i);
  }

  /** An operator takes the error exit exactly when the ticket it has just removed has an
      identifier whose low 32 bits are zero: the identifier is stored in an int before it is
      compared with 0.  No ticket was missing. */
  lemma ErrorExitExactly(s: State, i: nat, a: Act)
    requires Reachable(s) && i < |s.ops| && !s.ops[i].pc.OError?
    ensures var o := s.ops[i];
            Apply(s, StepOp(i, a)).ops[i].pc.OError?
            <==> o.pc.OServed? && a.Go? && o.ticket % TWO32 == 0
    ensures s.ops[i].pc.OServed? ==> 0 < s.ops[i].ticket < s.sh.nextId
  {
    hide *;
    Facts(s);
    var o := s.ops[i];
    AtHand(s, i);
    OpStep(s, i, a);
    ErrorSources(s.cfg, s.sh, o, i + 1, a);
  }

  lemma AtHand(s: State, i: nat)
    requires AllSupplied(s) && i < |s.ops|
    ensures s.ops[i].pc.OServed? ==> 0 < s.ops[i].ticket < s.sh.nextId
    ensures s.ops[i].pc.OReserveUnlock? ==> s.ops[i].desk != 0
  {
  }

  lemma ErrorSources(cfg: Config, sh: Shared, o: Op, pid: nat, a: Act)
    requires !o.pc.OError? && (o.pc.OReserveUnlock? ==> o.desk != 0)
    ensures OpDo(cfg, sh, o, pid, a).o.pc.OError? <==> o.pc.OServed? && a.Go? && o.ticket % TWO32 == 0
  {
  }

  /** With fewer than 2^32 tickets issued in the whole run no operator ever errs. */
  lemma NoErrorBelowWrap(s: State, i: nat)
    requires Reachable(s) && i < |s.ops| && s.sh.nextId <= TWO32
    ensures !s.ops[i].pc.OError?
  {
    hide Reachable;
    Facts(s);
    assert Supplied(s.ops[i], s.sh.nextId);
    hide BarrierOk, BooksOk, CoreOk, ServicesOk, DaysOk, RunOk, AllSupplied;
    if s.ops[i].pc.OError? {
      SmallNotZero(s.ops[i].ticket);
    }
  }

  lemma SmallNotZero(id: nat)
    requires 0 < id < TWO32
    ensures !ZeroAsInt(id)
  {
  }

  /** The waiting tickets stand in the order in which they were issued, over all days. */
  lemma QueueInIdOrder(s: State, j: nat, k: nat)
    requires Reachable(s) && j < k < |s.sh.queue|
    ensures 0 < s.sh.queue[j].id < s.sh.queue[k].id < s.sh.nextId
  {
    hide Reachable;
    Facts(s);
    assert Ordered(s.sh.queue, s.sh.nextId);
  }

  // ----- days

  /** An operator in its serving loop works while the director is between its start of that day
      and the end of its wait for the day's statistics, and it, the dispenser and every other
      operator have joined exactly as many days as the director has opened. */
  lemma DaySeparation(s: State, i: nat, j: nat)
    requires Reachable(s) && i < |s.ops| && j < |s.ops| && !Parked(s.ops[i].pc)
    ensures s.dir.pc.DDay? || s.dir.pc.DSuspend? || s.dir.pc.DWaitStats?
    ensures s.ops[i].log.days == s.ops[j].log.days == s.disp.days == s.sh.hist.day
    ensures s.sh.sim.s2 == 0 && s.sh.sim.s0 == 0
  {
    hide Reachable;
    Facts(s);
    hide BooksOk, CoreOk, ServicesOk, RunOk, AllSupplied;
    WorksInDay(s, i);
    assert OpenedOk(s);
    assert InStep(s.ops[i], s.sh.hist.day, true) && InStep(s.ops[j], s.sh.hist.day, true);
  }

  /** At any moment at all, nobody is more than the join ahead: whoever waits behind the closed
      gate has joined the next day, and no one has joined a day that is not next. */
  lemma NobodyAhead(s: State, i: nat)
    requires Reachable(s) && i < |s.ops|
    ensures s.sh.hist.day <= s.ops[i].log.days <= s.sh.hist.day + 1
    ensures s.ops[i].log.days == s.sh.hist.day + 1 ==>
              (s.ops[i].pc.OGate? || s.ops[i].pc.OExit?) && !DayLives(s.dir.pc) && s.sh.sim.s2 == 1
  {
    hide Reachable;
    Facts(s);
    hide BooksOk, CoreOk, ServicesOk, RunOk, AllSupplied;
    assert InStep(s.ops[i], s.sh.hist.day, DayLives(s.dir.pc));
    if !DayLives(s.dir.pc) {
      NightParked(s, i);
    }
  }

  /** simSem[4] serves two handovers that never meet.  The director's wait for the statistics
      can only be ended by the dispenser that has closed this day; the dispenser's wait for the
      next day only by the director's +2; the last wait only by the dispenser's last post; and
      every post finds the semaphore at 0. */
  lemma HandoversNeverMeet(s: State)
    requires Reachable(s)
    ensures s.dir.pc.DWaitStats? ==>
              (s.sh.sim.s4 > 0 <==> s.disp.pc.EStart? || s.disp.pc.EWait2?) && s.sh.sim.s4 <= 1
    ensures s.disp.pc.EWait2? ==> (s.sh.sim.s4 >= 2 <==> Posted(s.dir.pc)) && s.sh.sim.s4 <= 2
    ensures s.dir.pc.DWaitFinal? ==> (s.sh.sim.s4 > 0 <==> s.disp.pc.EDone?) && s.sh.sim.s4 <= 1
    ensures s.disp.pc.EPost4? || s.disp.pc.EFinalPost? || s.dir.pc.DPost2? ==> s.sh.sim.s4 == 0
  {
    hide Reachable;
    Facts(s);
    hide BooksOk, CoreOk, ServicesOk, RunOk, AllSupplied, DaysOk, Sum;
    match PhaseOf(s.dir.pc)
    case Gathering => assert GatheringOk(s);
    case Opened => assert OpenedOk(s);
    case Closing => assert ClosingOk(s);
    case Ending => assert EndingOk(s);
  }

  // ----- desks

  /** While nobody is in the desk mutex: semaphore + permits not yet used = free desks.  The
      only exception is the director between choosing and applying the day's services. */
  lemma DeskAccount(s: State, v: Service)
    requires Reachable(s) && !s.dir.pc.DApply?
    ensures Of(s.sh.sSem, v) + Sum(DeskUse(v), s.ops) == FreeCount(s.sh.desks, v)
    ensures s.sh.mem.m0 == 1 ==> forall i :: 0 <= i < |s.ops| ==> s.ops[i].posting == 0
  {
    hide Reachable;
    Facts(s);
    assert DesksBalance(s);
    if s.sh.mem.m0 == 1 {
      SumZero(Holding(0), s.ops);
      forall i | 0 <= i < |s.ops| ensures s.ops[i].posting == 0 {
        assert Weight(Holding(0), s.ops[i]) == 0 && OpOk(s.ops[i]);
      }
    }
  }

  /** After taking a desk permit, an operator that gets to reserve finds a desk. */
  lemma ReserveFindsDesk(s: State, i: nat)
    requires Reachable(s) && i < |s.ops| && s.ops[i].pc.OReserve?
    ensures var id := ReservedId(s.sh.desks, s.ops[i].service);
            id != 0 && FreeFor(s.sh.desks[id-1], s.ops[i].service)
  {
    hide Reachable;
    Facts(s);
    assert OpOk(s.ops[i]);
    hide BarrierOk, BooksOk, CoreOk, ServicesOk, DaysOk, RunOk;
    PermitFindsDesk(s, i);
  }

  /** A desk has at most one owner, an operator has at most one desk, and the desk offers the
      operator's service. */
  lemma DesksHaveOneOwner(s: State, k: nat, m: nat)
    requires Reachable(s) && k < |s.sh.desks| && m < |s.sh.desks| && s.sh.desks[k].owner != 0
    ensures var p := s.sh.desks[k].owner;
            && p <= |s.ops| && s.ops[p-1].desk == k + 1 && s.ops[p-1].log.own
            && s.ops[p-1].service == s.sh.desks[k].service
            && (m != k ==> s.sh.desks[m].owner != p)
  {
    hide Reachable;
    Facts(s);
    var p := s.sh.desks[k].owner;
    OwnerKnows(s.sh.desks, s.ops, k);
    assert s.sh.desks[m].owner == (p - 1) + 1 <==> OwnsDesk(s.ops[p-1], m);
  }

  /** The release at the close of the day frees the operator's own desk or, after a pause in
      which the desk was given up, changes nothing, even when another operator owns it now. */
  lemma SecondReleaseIsVoid(s: State, i: nat)
    requires Reachable(s) && i < |s.ops| && s.ops[i].pc.OCloseFree?
    ensures var o := s.ops[i]; var t := Apply(s, StepOp(i, Go(false)));
            && (!o.log.own ==> t.sh.desks == s.sh.desks && t.ops[i].posting == 0)
            && (o.log.own ==> 1 <= o.desk <= |s.sh.desks| && t.ops[i].posting == o.service)
            && (o.log.own ==> t.sh.desks == s.sh.desks[o.desk-1 := s.sh.desks[o.desk-1].(owner := 0)])
  {
    hide Reachable;
    Facts(s);
    var o := s.ops[i];
    assert Owned(s.sh.desks, s.ops);
    hide BarrierOk, BooksOk, CoreOk, ServicesOk, DaysOk, RunOk, AllSupplied;
    ReleaseByOwner(s.sh.desks, s.ops, i);
    CloseFreeStep(s, i);
  }

  lemma ReleaseByOwner(ds: seq<Desk>, ops: seq<Op>, i: nat)
    requires Owned(ds, ops) && i < |ops|
    ensures Releases(ds, ops[i].desk, i + 1) <==> ops[i].log.own
    ensures ops[i].log.own ==> ds[ops[i].desk-1].service == ops[i].service
  {
  }

  lemma CloseFreeStep(s: State, i: nat)
    requires i < |s.ops| && s.ops[i].pc.OCloseFree?
    ensures var t := Apply(s, StepOp(i, Go(false))); var o := s.ops[i];
            && t.sh.desks == Released(s.sh.desks, o.desk, i + 1)
            && t.ops[i].posting == if Releases(s.sh.desks, o.desk, i + 1) then s.sh.desks[o.desk-1].service else 0
  {
  }

  // ----- statistics

  /** A critical section's write adds exactly one to what is stored now, not to an older copy: after
      a session to the counters of the operator's own service and to the totals, otherwise to the
      number of operators or of pauses; nothing else changes. */
  lemma UpdatesAreExact(s: State, i: nat, choice: bool, v: Service)
    requires Reachable(s) && i < |s.ops|
    ensures var o, c, d := s.ops[i], s.sh.stats, Apply(s, StepOp(i, Go(choice))).sh.stats;
            && (o.pc.OStatWrite? ==>
                  && Of(d.provided, v) == Of(c.provided, v) + One(v == o.service)
                  && Of(d.daily, v) == Of(c.daily, v) + One(v == o.service)
                  && d == c.(provided := d.provided, daily := d.daily, usersAll := c.usersAll + 1,
                             dailyAll := c.dailyAll + 1, providedAll := c.providedAll + 1))
            && (o.pc.OCountWrite? ==> d == c.(active := c.active + 1))
            && (o.pc.OPauseWrite? ==> d == c.(pauses := c.pauses + 1, pausesAll := c.pausesAll + 1))
            && (!Writing(o.pc) ==> d == c)
  {
    hide Reachable;
    Facts(s);
    OpStep(s, i, Go(choice));
    ReadyToMove(s, i);
    hide BarrierOk, BooksOk, ServicesOk, DaysOk, RunOk, AllSupplied, CoreOk, Apply, OpDo;
    WritesHappen(s.cfg, s.sh, s.ops[i], i + 1, choice);
    hide Ready;
  }

  lemma WritesHappen(cfg: Config, sh: Shared, o: Op, pid: nat, choice: bool)
    requires Ready(sh, o, pid)
    ensures var d := OpDo(cfg, sh, o, pid, Go(choice)).sh.stats;
            && (o.pc.OStatWrite? ==> d == Provided(sh.stats, o.service))
            && (o.pc.OCountWrite? ==> d == sh.stats.(active := sh.stats.active + 1))
            && (o.pc.OPauseWrite? ==> d == TookPause(sh.stats))
            && (!Writing(o.pc) ==> d == sh.stats)
  {
    if !Writing(o.pc) {
      OpData(cfg, sh, o, pid, Go(choice));
      hide OpDo;
    }
  }

  /** Each day opens with empty accounts: daily counters, tickets, permits, occupations, and
      nothing in any operator's hands. */
  lemma DayOpensClean(s: State)
    requires Reachable(s) && s.dir.pc.DOpen?
    ensures var c := s.sh.stats;
            c.daily == ZEROES && c.dailyAll == 0 && c.active == 0 && c.pauses == 0 && c.notServedDay == 0
    ensures s.sh.queue == [] && s.sh.tSem == ZEROES && s.sh.hist.issued == ZEROES
    ensures forall v: Service :: Of(s.sh.sSem, v) == FreeCount(s.sh.desks, v)
    ensures forall k :: 0 <= k < |s.sh.desks| ==> s.sh.desks[k].owner == 0
    ensures OccupiedSum(s.sh.desks) == 0
    ensures s.disp.pc.EGate? && forall i :: 0 <= i < |s.ops| ==> s.ops[i].pc.OGate?
  {
    hide Reachable;
    Facts(s);
    assert GatheringOk(s);
    SumZero(Starts, s.ops);
    assert forall i :: 0 <= i < |s.ops| ==> s.ops[i].pc.OGate? && OpOk(s.ops[i]);
    IdleDesksFree(s.sh.desks, s.ops);
    forall v: Service ensures Of(s.sh.sSem, v) == FreeCount(s.sh.desks, v) {
      SumZero(DeskUse(v), s.ops);
    }
  }

  /** The sums over the services agree with the overall totals at every step of the model, in which
      an update writes its five counters in one action.  The source writes them one after another
      inside the critical section, so there they agree whenever the mutex is free. */
  lemma TotalsAlwaysAgree(s: State)
    requires Reachable(s)
    ensures s.sh.stats.providedAll == Total(s.sh.stats.provided) == s.sh.stats.usersAll
    ensures s.sh.stats.dailyAll == Total(s.sh.stats.daily)
    ensures s.sh.stats.notProvidedAll == Total(s.sh.stats.notProvided)
  {
    hide Reachable;
    Facts(s);
  }
}
