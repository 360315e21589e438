/** The tickets of a whole run: every ticket ever issued was served, counted as not provided when
    its day was closed, or lost to an operator interrupted by the end of the day. */
module Ledger {
  import opened Office
  import opened Processes
  import opened Tallies
  import opened Frames
  import opened Barrier
  import opened Core
  import opened Director
  import opened Books
  import opened Days
  import opened Ends
  import opened Invariant

  function IssuedSum(c: seq<DayRecord>): nat { if c == [] then 0 else IssuedSum(c[..|c|-1]) + c[|c|-1].issued }

  function ServedSum(c: seq<DayRecord>): nat { if c == [] then 0 else ServedSum(c[..|c|-1]) + c[|c|-1].served }

  function LeftSum(c: seq<DayRecord>): nat { if c == [] then 0 else LeftSum(c[..|c|-1]) + c[|c|-1].left }

  /** A day loses at most one ticket per operator. */
  predicate LosesFew(r: DayRecord, workers: nat) { r.served + r.left <= r.issued <= r.served + r.left + workers }

  /** The day in progress is not among the closed ones yet. */
  predicate LedgerOk(s: State) {
    var c, today := s.sh.hist.closed, InProgress(s);
    && s.sh.nextId == 1 + IssuedSum(c) + (if today then Total(s.sh.hist.issued) else 0)
    && s.sh.stats.providedAll == ServedSum(c) + (if today then s.sh.stats.dailyAll else 0)
    && s.sh.stats.notProvidedAll == LeftSum(c)
    && forall j :: 0 <= j < |c| ==> LosesFew(c[j], |s.ops|)
  }

  // ----- operators

  /** While an operator completes a service the day has not been closed. */
  lemma ServesInProgress(s: State, i: nat)
    requires BarrierOk(s) && i < |s.ops| && !Parked(s.ops[i].pc)
    ensures InProgress(s)
  {
    WorksInDay(s, i);
    AllStart(s.ops);
    assert OpenedOk(s);
    hide Sum;
  }

  lemma OpKeepsLedger(s: State, i: nat, a: Act)
    requires LedgerOk(s) && BarrierOk(s) && CoreOk(s) && i < |s.ops|
    ensures LedgerOk(Apply(s, StepOp(i, a)))
  {
    var t := Apply(s, StepOp(i, a));
    ReadyToMove(s, i);
    OpData(s.cfg, s.sh, s.ops[i], i + 1, a);
    OpStep(s, i, a);
    if Writing(s.ops[i].pc) {
      ServesInProgress(s, i);
    }
    hide BarrierOk, CoreOk, OpDo, Apply, LosesFew;
    assert InProgress(t) == InProgress(s);
    hide InProgress;
  }

  // ----- dispenser

  lemma DispKeepsLedger(s: State, t: State)
    requires LedgerOk(s) && BarrierOk(s) && BarrierOk(t) && BooksOk(s) && TotalsAgree(s.sh.stats)
    requires DispWrites(s, t) && DispFlows(s, t)
    ensures LedgerOk(t)
  {
    DispPhases(s, t);
    if s.disp.pc.EStatWalk? && t.disp.pc != s.disp.pc {
      CloseLosesFew(s);
      CloseCounts(s.sh.stats, s.sh.queue);
      RecordFields(s);
      hide BarrierOk, BooksOk, DispFlows, Record, TotalsAgree, LosesFew, InProgress;
      WalkKeepsLedger(s, t, Record(s));
    } else {
      if s.disp.pc.EInsert? {
        assert InProgress(s);
        TotalBump(s.sh.hist.issued, s.disp.pc.r.service);
      }
      hide BarrierOk, BooksOk, DispFlows, Record, Closed, Total, Bump, TotalsAgree, LosesFew, InProgress;
      hide IssuedSum, ServedSum, LeftSum;
    }
  }

  lemma WalkKeepsLedger(s: State, t: State, r: DayRecord)
    requires LedgerOk(s) && InProgress(s) && !InProgress(t) && LosesFew(r, |s.ops|) && t.ops == s.ops
    requires r.left == |s.sh.queue| && r.issued == Total(s.sh.hist.issued) && r.served == s.sh.stats.dailyAll
    requires t.sh.hist.closed == s.sh.hist.closed + [r] && t.sh.nextId == s.sh.nextId
    requires t.sh.stats.providedAll == s.sh.stats.providedAll
    requires t.sh.stats.notProvidedAll == s.sh.stats.notProvidedAll + |s.sh.queue|
    ensures LedgerOk(t)
  {
    hide InProgress, LosesFew, Total;
    assert t.sh.hist.closed[..|s.sh.hist.closed|] == s.sh.hist.closed;
  }

  lemma RecordFields(s: State)
    ensures Record(s).left == |s.sh.queue| && Record(s).issued == Total(s.sh.hist.issued)
    ensures Record(s).served == s.sh.stats.dailyAll
  {
  }

  /** At the close: issued = served + waiting + in the hands of interrupted operators. */
  lemma CloseLosesFew(s: State)
    requires BarrierOk(s) && BooksOk(s) && TotalsAgree(s.sh.stats) && s.disp.pc.EStatWalk?
    ensures LosesFew(Record(s), |s.ops|)
  {
    assert PhaseOf(s.dir.pc) == Opened;
    assert TicketsBalance(s);
    hide BarrierOk, BooksOk;
    assert forall v: Service ::
        Of(s.sh.hist.issued, v) == Of(s.sh.stats.daily, v) + CountOf(s.sh.queue, v) + Sum(Slips(v), s.ops);
    CountsCoverQueue(s.sh.queue);
    SlipsAtMostOne(s.ops);
    var p, d := s.sh.hist.issued, s.sh.stats.daily;
    assert Of(p, 1) == p[0] && Of(p, 2) == p[1] && Of(p, 3) == p[2];
    assert Of(p, 4) == p[3] && Of(p, 5) == p[4] && Of(p, 6) == p[5];
    assert Of(d, 1) == d[0] && Of(d, 2) == d[1] && Of(d, 3) == d[2];
    assert Of(d, 4) == d[3] && Of(d, 5) == d[4] && Of(d, 6) == d[5];
    hide CountOf, Sum;
  }

  // ----- director

  lemma DirKeepsLedger(s: State, t: State)
    requires LedgerOk(s) && BarrierOk(s) && NightBooks(s) && TotalsAgree(s.sh.stats)
    requires DirFlows(s, t) && DirSpares(s, t)
    ensures LedgerOk(t)
  {
    DirAtTurns(s, t);
    hide BarrierOk, LosesFew;
  }

  // ----- runs

  lemma StepKeepsLedger(s: State, step: Step)
    requires Inv(s) && LedgerOk(s)
    ensures LedgerOk(Apply(s, step))
  {
    hide *;
    Parts(s);
    var t := Apply(s, step);
    match step
    case StepOp(i, a) => if i < |s.ops| { OpKeepsLedger(s, i, a); } else { OutOfRange(s, i, a); }
    case StepDisp(a, req) =>
      DispFrame(s, a, req);
      DispFlow(s, a, req);
      DispKeepsBarrier(s, a, req);
      DispKeepsLedger(s, t);
    case StepDir(arr, newUsers) =>
      Nights(s);
      DirStep(s, arr, newUsers);
      DirKeepsLedger(s, t);
    case StepUser => UserKeepsLedger(s);
  }

  lemma OutOfRange(s: State, i: nat, a: Act)
    requires i >= |s.ops|
    ensures Apply(s, StepOp(i, a)) == s
  {
  }

  lemma UserKeepsLedger(s: State)
    requires LedgerOk(s)
    ensures LedgerOk(Apply(s, StepUser))
  {
    hide LosesFew;
  }

  lemma {:induction false} RunKeepsLedger(u: Setup, steps: seq<Step>)
    requires ValidSetup(u)
    ensures Inv(Run(Begin(u), steps)) && LedgerOk(Run(Begin(u), steps))
  {
    hide Inv, Apply;
    BeginInv(u);
    RunKeepsInv(Begin(u), steps);
    if steps != [] {
      RunKeepsLedger(u, steps[..|steps|-1]);
      StepKeepsLedger(Run(Begin(u), steps[..|steps|-1]), steps[|steps|-1]);
    }
  }

  /** Day by day and over the whole run, up to the end: tickets issued = services provided +
      services not provided + tickets lost, and no day loses more than one ticket per operator. */
  lemma RunConserves(s: State)
    requires Reachable(s) && PhaseOf(s.dir.pc) == Ending
    ensures var c := s.sh.hist.closed;
            && s.sh.nextId - 1 == IssuedSum(c)
            && s.sh.stats.providedAll == ServedSum(c) && s.sh.stats.notProvidedAll == LeftSum(c)
            && s.sh.stats.providedAll + s.sh.stats.notProvidedAll <= s.sh.nextId - 1
            && s.sh.nextId - 1 <= s.sh.stats.providedAll + s.sh.stats.notProvidedAll + |c| * |s.ops|
  {
    ReachableLedger(s);
    LossesAddUp(s.sh.hist.closed, |s.ops|);
  }

  lemma ReachableLedger(s: State)
    requires Reachable(s)
    ensures LedgerOk(s)
  {
    hide LedgerOk, Run, Begin;
    var u, steps :| ValidSetup(u) && s == Run(Begin(u), steps);
    RunKeepsLedger(u, steps);
  }

  lemma {:induction false} LossesAddUp(c: seq<DayRecord>, workers: nat)
    requires forall j :: 0 <= j < |c| ==> LosesFew(c[j], workers)
    ensures ServedSum(c) + LeftSum(c) <= IssuedSum(c) <= ServedSum(c) + LeftSum(c) + |c| * workers
  {
    if c != [] {
      var before := c[..|c|-1];
      LossesAddUp(before, workers);
      assert LosesFew(c[|c|-1], workers);
      assert |c| * workers == |before| * workers + workers;
    }
  }
}
