/** What a day and a whole run leave behind: tickets are conserved, the ratios add up, and the run
    ends on the right day. */
module Outcomes {
  import opened Office
  import opened Processes
  import opened Tallies
  import opened Barrier
  import opened Core
  import opened Books
  import opened Days
  import opened Ends
  import opened Invariant
  import opened Theorems
  import Layout

  // ----- tickets at the close of a day

  /** When the dispenser closes a day, the tickets issued that day are, service by service, the
      services provided, the tickets still in the queue, and those removed from the queue by an
      operator that the end of the day kept from serving: at most one per operator, and only of
      the operator's own service. */
  lemma CloseConserves(s: State, v: Service)
    requires Reachable(s) && s.disp.pc.EStatWalk?
    ensures Of(s.sh.hist.issued, v)
         == Of(s.sh.stats.daily, v) + CountOf(s.sh.queue, v) + Sum(Slips(v), s.ops)
    ensures Sum(Slips(v), s.ops) <= Sum(Workers(v), s.ops)
    ensures Of(s.sh.tSem, v) + Sum(Permits(v), s.ops) == CountOf(s.sh.queue, v)
    ensures forall i :: 0 <= i < |s.ops| ==> s.ops[i].pc.OStart?
  {
    hide Reachable;
    Facts(s);
    ClosesInDay(s);
    assert TicketsBalance(s) && PermitsBalance(s);
    hide BarrierOk, CoreOk, BooksOk, ServicesOk, DaysOk, RunOk, AllSupplied;
    SlipsAtMostWorkers(v, s.ops);
  }

  /** Over all services: at most one ticket is lost per operator. */
  lemma CloseConservesInAll(s: State)
    requires Reachable(s) && s.disp.pc.EStatWalk?
    ensures s.sh.stats.dailyAll + |s.sh.queue| <= Total(s.sh.hist.issued)
    ensures Total(s.sh.hist.issued) <= s.sh.stats.dailyAll + |s.sh.queue| + |s.ops|
  {
    hide Reachable;
    TotalsAlwaysAgree(s);
    CountsCoverQueue(s.sh.queue);
    SlipsAtMostOne(s.ops);
    CloseConserves(s, 1);
    CloseConserves(s, 2);
    CloseConserves(s, 3);
    CloseConserves(s, 4);
    CloseConserves(s, 5);
    CloseConserves(s, 6);
  }

  lemma ClosesInDay(s: State)
    requires BarrierOk(s) && s.disp.pc.EStatWalk?
    ensures PhaseOf(s.dir.pc) == Opened && forall i :: 0 <= i < |s.ops| ==> s.ops[i].pc.OStart?
  {
    AllStart(s.ops);
  }

  /** Closing the day records the length of the queue as the day's unserved users and adds every
      waiting ticket once to its own service. */
  lemma CloseCountsQueue(s: State, a: Act, req: Request, v: Service)
    requires Reachable(s) && s.disp.pc.EStatWalk? && a.Go?
    ensures var c := s.sh.stats; var t := Apply(s, StepDisp(a, req)); var w := t.sh.stats;
            && w.notServedDay == |s.sh.queue| && w.notProvidedAll == c.notProvidedAll + |s.sh.queue|
            && Of(w.notProvided, v) == Of(c.notProvided, v) + CountOf(s.sh.queue, v)
            && w.currentDay == c.currentDay + 1 == |t.sh.hist.closed|
            && t.sh.hist.closed[c.currentDay].left == |s.sh.queue|
  {
    hide Reachable;
    Facts(s);
    ClosesInDay(s);
    assert InProgress(s);
    hide BarrierOk, CoreOk, BooksOk, ServicesOk, DaysOk, AllSupplied;
    assert LeftOk(s) && CountsDays(s);
    hide RunOk;
    WalkStep(s, a, req);
    hide Apply;
    CloseCounts(s.sh.stats, s.sh.queue);
    hide Closed;
  }

  /** The day's row lies inside the ratio table. */
  lemma RatioRowInTable(s: State, k: nat)
    requires Reachable(s) && s.disp.pc.EStatWalk? && k < |s.sh.desks| && s.cfg.duration >= 1
    ensures 0 <= s.sh.stats.currentDay * |s.sh.desks| + k < s.cfg.duration * |s.sh.desks|
  {
    hide Reachable;
    Facts(s);
    ClosesInDay(s);
    assert InProgress(s);
    hide BarrierOk, CoreOk, BooksOk, ServicesOk, DaysOk, AllSupplied;
    DaysWithinDuration(s);
    assert s.sh.stats.currentDay < s.cfg.duration;
    hide *;
    Layout.RowFits(s.sh.stats.currentDay, k, s.cfg.duration, |s.sh.desks|);
  }

  lemma WalkStep(s: State, a: Act, req: Request)
    requires s.disp.pc.EStatWalk? && a.Go?
    ensures var t := Apply(s, StepDisp(a, req));
            t.sh.stats == Closed(s.sh.stats, s.sh.queue) && t.sh.hist.closed == s.sh.hist.closed + [Record(s)]
  {
  }

  // ----- ratios

  /** The ratios of every closed day add up to 1 exactly when nobody was interrupted between
      reserving a desk and being counted; each of them is 0 when nobody was active. */
  lemma RatiosAddUp(s: State, j: nat)
    requires Reachable(s) && j < |s.sh.hist.closed|
    ensures var r := s.sh.hist.closed[j];
            && |r.row| == |s.sh.desks|
            && (r.active > 0 ==> (SumReal(r.row) == 1.0 <==> r.interrupted == 0))
            && (r.active == 0 ==> forall k :: 0 <= k < |r.row| ==> r.row[k] == 0.0)
  {
    hide Reachable;
    Facts(s);
    var r := s.sh.hist.closed[j];
    assert RowOk(r, |s.sh.desks|);
    hide BarrierOk, CoreOk, BooksOk, ServicesOk, DaysOk, RunOk, AllSupplied, SumReal;
    if r.active > 0 {
      QuotientIsOne(r.active, r.interrupted);
    }
  }

  lemma QuotientIsOne(a: nat, i: nat)
    requires a > 0
    ensures (a + i) as real / a as real == 1.0 <==> i == 0
  {
  }

  // ----- the end of the run

  /** With a duration of at least one day, at most that many days are closed, and a day is only
      in progress while fewer are. */
  lemma DaysWithinDuration(s: State)
    requires RunOk(s)
    ensures s.cfg.duration >= 1 ==> |s.sh.hist.closed| <= s.cfg.duration
    ensures s.cfg.duration >= 1 && GoesOn(s) ==> |s.sh.hist.closed| < s.cfg.duration
  {
    var n := |s.sh.hist.closed|;
    var last := n - if GoesOn(s) then 0 else 1;
    if 1 <= s.cfg.duration <= last {
      NotLast(s, s.cfg.duration - 1);
    }
  }

  lemma NotLast(s: State, j: nat)
    requires RunOk(s) && j < |s.sh.hist.closed| - if GoesOn(s) then 0 else 1
    ensures j + 1 != s.cfg.duration
  {
    assert !Stops(s.cfg, s.sh.hist.closed, j);
  }

  /** A run that ends has closed at least one day; its last day is the first that reached the
      duration or the threshold, and the two flags say which. */
  lemma EndsOnFirstStop(s: State)
    requires Reachable(s) && PhaseOf(s.dir.pc) == Ending
    ensures var closed := s.sh.hist.closed; var n := |closed|;
            && n > 0 && Stops(s.cfg, closed, n - 1)
            && (forall j :: 0 <= j < n - 1 ==> !Stops(s.cfg, closed, j))
            && (s.dir.timeout <==> n == s.cfg.duration)
            && (s.dir.explode <==> closed[n-1].left >= s.cfg.threshold)
            && s.sh.stats.currentDay == s.sh.hist.day == n
  {
    hide Reachable;
    Facts(s);
  }

  /** And a day is opened only while no closed day has reached either. */
  lemma OpensOnlyWithoutStop(s: State, j: nat)
    requires Reachable(s) && (s.dir.pc.DOpen? || InProgress(s)) && j < |s.sh.hist.closed|
    ensures !Stops(s.cfg, s.sh.hist.closed, j)
    ensures s.cfg.duration >= 1 ==> |s.sh.hist.closed| < s.cfg.duration
  {
    hide Reachable;
    Facts(s);
    DaysWithinDuration(s);
  }

  /** The value compared with the threshold is the length of the queue when the day was closed. */
  lemma DecisionUsesClose(s: State)
    requires Reachable(s) && s.dir.pc.DExplode?
    ensures s.sh.hist.closed != []
    ensures s.sh.stats.notServedDay == s.sh.hist.closed[|s.sh.hist.closed|-1].left
  {
    hide Reachable;
    Facts(s);
    assert GatheringOk(s);
    hide CoreOk, BooksOk, ServicesOk, DaysOk, AllSupplied, Sum;
  }

  // ----- services

  /** Every waiting ticket is for a service that some desk offers today. */
  lemma TicketsAreOffered(s: State, j: nat)
    requires Reachable(s) && j < |s.sh.queue|
    ensures exists k :: 0 <= k < |s.sh.desks| && s.sh.desks[k].service == s.sh.queue[j].service
  {
    hide Reachable;
    Facts(s);
    assert s.sh.queue[j].service in s.dir.arr;
    var k :| 0 <= k < |s.dir.arr| && s.dir.arr[k] == s.sh.queue[j].service;
    assert s.sh.desks[k].service == s.dir.arr[k];
  }

  /** The array the dispenser checks requests against is, desk by desk, what the director
      stored in the desk table for this day. */
  lemma DispenserReadsToday(s: State)
    requires Reachable(s) && Reading(s.disp.pc)
    ensures |s.disp.enabled| == |s.sh.desks|
    ensures forall k :: 0 <= k < |s.sh.desks| ==> s.disp.enabled[k] == s.sh.desks[k].service
  {
    hide Reachable;
    Facts(s);
  }

  // ----- why resetSem raises the gate first

  /** resetSem with its first two assignments exchanged. */
  function RefillFirst(s: State): State {
    s.(sh := s.sh.(sim := s.sh.sim.(s0 := |s.ops| + 1)), dir := s.dir.(pc := DReset2(false)))
  }

  /** Refilling simSem[0] before raising simSem[2] would let any operator into its serving loop
      while the director is still closing the day before; in the order of the source this is
      impossible from the same state. */
  lemma GateMustRiseFirst(s: State, i: nat)
    requires Reachable(s) && s.dir.pc == DReset2(false) && i < |s.ops|
    ensures var t := Apply(Apply(RefillFirst(s), StepOp(i, Go(false))), StepOp(i, Go(false)));
            t.dir.pc == DReset2(false) && t.ops[i].pc.OReady? && !Parked(t.ops[i].pc)
    ensures forall steps: seq<Step> ::
              var t := Run(s, steps); t.dir.pc == DReset2(false) && i < |t.ops| ==> Parked(t.ops[i].pc)
  {
    hide Reachable, Run;
    Facts(s);
    assert ClosingOk(s);
    AllStart(s.ops);
    ReachableInv(s);
    hide BooksOk, CoreOk, ServicesOk, DaysOk, RunOk, AllSupplied, BarrierOk, Sum, Inv;
    assert s.ops[i].pc.OStart? && !s.ops[i].sig.usr1;
    hide ClosingOk, DeskGo, CountGo, TicketGo, ServeGo, SessionGo, StatGo, PauseGo, RestGo, CloseGo;
    forall steps: seq<Step> | Run(s, steps).dir.pc == DReset2(false) && i < |Run(s, steps).ops|
      ensures Parked(Run(s, steps).ops[i].pc)
    {
      RunKeepsInv(s, steps);
      Parts(Run(s, steps));
      NightParked(Run(s, steps), i);
    }
  }
}
