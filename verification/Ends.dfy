/** The days closed so far, the rows of the ratio table, and why and when a run ends. */
module Ends {
  import opened Office
  import opened Processes
  import opened Frames
  import opened Barrier
  import opened Core
  import opened Director
  import opened Books

  /** The dispenser has closed the current day. */
  predicate PastWalk(pc: DispPc) { pc.EStatUnlock? || pc.EPost4? || Resting(pc) }

  predicate InProgress(s: State) { PhaseOf(s.dir.pc) == Opened && !PastWalk(s.disp.pc) }

  /** The director has decided to open another day after the last one closed. */
  predicate GoesOn(s: State) {
    || s.dir.pc.DPipe? || s.dir.pc.DPost2? || Posted(s.dir.pc) || InProgress(s)
  }

  /** Day j, counted from 0, is the last one, or left too many users unserved. */
  predicate Stops(cfg: Config, closed: seq<DayRecord>, j: nat)
    requires j < |closed|
  {
    j + 1 == cfg.duration || closed[j].left >= cfg.threshold
  }

  /** The ratios of a day add up to desk occupations over active operators, and without active
      operators each of them is 0. */
  predicate RowOk(r: DayRecord, seats: nat) {
    && |r.row| == seats
    && SumReal(r.row) == (if r.active == 0 then 0.0 else (r.active + r.interrupted) as real / r.active as real)
    && (r.active == 0 ==> forall k :: 0 <= k < seats ==> r.row[k] == 0.0)
  }

  predicate LeftOk(s: State) {
    var closed, left := s.sh.hist.closed, s.sh.stats.notServedDay;
    if InProgress(s) then left == 0
    else if PhaseOf(s.dir.pc) == Gathering && (s.disp.first || s.disp.pc.EJoin? || s.disp.pc.EGate?) then true
    else closed != [] && left == closed[|closed|-1].left
  }

  predicate CountsDays(s: State) {
    var n := |s.sh.hist.closed|;
    && s.sh.stats.currentDay == n
    && s.sh.hist.day == n + One(InProgress(s))
    && (s.dir.first ==> n == if PhaseOf(s.dir.pc) == Opened then One(!InProgress(s)) else 0)
    && (!s.dir.first ==> n > 0)
  }

  predicate NoneStopped(s: State) {
    var closed := s.sh.hist.closed;
    forall j :: 0 <= j < |closed| - (if GoesOn(s) then 0 else 1) ==> !Stops(s.cfg, closed, j)
  }

  predicate Decides(s: State) {
    var closed := s.sh.hist.closed;
    && (s.dir.pc.DApply? ==> |closed| != s.cfg.duration)
    && (s.dir.timeout <==>
         |closed| == s.cfg.duration && (s.dir.pc.DExplode? || PhaseOf(s.dir.pc) == Ending))
    && (PhaseOf(s.dir.pc) == Ending ==>
         && closed != []
         && (s.dir.explode <==> closed[|closed|-1].left >= s.cfg.threshold)
         && (s.dir.timeout || s.dir.explode))
  }

  predicate RowsOk(s: State) {
    forall j :: 0 <= j < |s.sh.hist.closed| ==> RowOk(s.sh.hist.closed[j], |s.sh.desks|)
  }

  predicate RunOk(s: State) { LeftOk(s) && CountsDays(s) && NoneStopped(s) && Decides(s) && RowsOk(s) }

  // ----- operators

  lemma OpKeepsRun(s: State, i: nat, a: Act)
    requires RunOk(s) && CoreOk(s) && i < |s.ops|
    ensures RunOk(Apply(s, StepOp(i, a)))
  {
    OpStep(s, i, a);
    hide Apply, OpDo, CoreOk, RowOk, Stops;
  }

  // ----- dispenser

  /** A row of the table at the moment the day is closed. */
  lemma RecordedRow(s: State)
    requires ActiveBalance(s)
    ensures RowOk(Record(s), |s.sh.desks|) && Record(s).left == |s.sh.queue|
  {
    RowSum(s.sh.desks, s.sh.stats.active);
  }

  lemma DispKeepsRun(s: State, t: State)
    requires RunOk(s) && BooksOk(s) && BarrierOk(s) && BarrierOk(t) && DispWrites(s, t) && DispFlows(s, t)
    ensures RunOk(t)
  {
    DispPhases(s, t);
    hide BarrierOk, DispFlows;
    if s.disp.pc.EStatWalk? && t.disp.pc != s.disp.pc {
      assert PhaseOf(s.dir.pc) == Opened && ActiveBalance(s);
      hide BooksOk;
      RecordedRow(s);
      CloseCounts(s.sh.stats, s.sh.queue);
      WalkKeepsRun(s, t);
    } else {
      hide BooksOk, Closed, Record, RowOk, Stops;
    }
  }

  /** Within an open day only the closing walk ends it; in the night the dispenser reaches the
      gate only by way of its reset. */
  lemma DispPhases(s: State, t: State)
    requires BarrierOk(s) && BarrierOk(t) && DispFlows(s, t) && t.dir == s.dir
    ensures s.disp.pc.EStatWalk? ==> PhaseOf(s.dir.pc) == Opened && !PastWalk(s.disp.pc)
    ensures InProgress(t) <==> InProgress(s) && !(s.disp.pc.EStatWalk? && t.disp.pc.EStatUnlock?)
    ensures s.disp.pc.EStatWalk? && t.disp.pc != s.disp.pc ==> t.disp.pc.EStatUnlock?
    ensures PhaseOf(s.dir.pc) == Gathering ==>
              ((s.disp.first || s.disp.pc.EReset? || s.disp.pc.EJoin? || s.disp.pc.EGate?)
               <== (t.disp.first || t.disp.pc.EJoin? || t.disp.pc.EGate?))
    ensures PhaseOf(s.dir.pc) == Gathering && (s.disp.first || s.disp.pc.EJoin? || s.disp.pc.EGate?) ==>
              t.disp.first || t.disp.pc.EJoin? || t.disp.pc.EGate?
    ensures s.disp.pc.EReset? ==> PhaseOf(s.dir.pc) == Gathering && (t.disp.pc.EReset? || t.disp.pc.EJoin?)
  {
    hide Sum;
    match PhaseOf(s.dir.pc)
    case Opened => assert OpenedOk(s) && OpenedOk(t);
    case Gathering => assert GatheringOk(s) && GatheringOk(t);
    case Closing => assert ClosingOk(s) && ClosingOk(t);
    case Ending => assert EndingOk(s) && EndingOk(t);
  }

  lemma WalkKeepsRun(s: State, t: State)
    requires RunOk(s) && InProgress(s) && t.disp.pc.EStatUnlock?
    requires t.cfg == s.cfg && t.dir == s.dir && t.sh.desks == s.sh.desks && t.sh.hist.day == s.sh.hist.day
    requires t.sh.hist.closed == s.sh.hist.closed + [Record(s)]
    requires RowOk(Record(s), |s.sh.desks|) && Record(s).left == |s.sh.queue|
    requires t.sh.stats.currentDay == s.sh.stats.currentDay + 1
    requires t.sh.stats.notServedDay == s.sh.stats.notServedDay + |s.sh.queue|
    ensures RunOk(t)
  {
    hide Record, RowOk;
    var n := |s.sh.hist.closed|;
    assert forall j :: 0 <= j < n ==> t.sh.hist.closed[j] == s.sh.hist.closed[j];
    forall j | 0 <= j < n ensures !Stops(t.cfg, t.sh.hist.closed, j) {
      assert !Stops(s.cfg, s.sh.hist.closed, j);
    }
  }

  // ----- director

  lemma DirKeepsRun(s: State, t: State)
    requires RunOk(s) && NightBooks(s) && BarrierOk(s) && DirFlows(s, t) && DirSpares(s, t)
    ensures RunOk(t)
  {
    DirAtTurns(s, t);
    hide BarrierOk, NightBooks, RowOk;
    assert RowsOk(t);
    hide RowsOk;
    DirKeepsLeft(s, t);
    DirKeepsCount(s, t);
    DirKeepsStops(s, t);
    DirKeepsDecision(s, t);
    hide LeftOk, CountsDays, NoneStopped, Decides;
  }

  /** Where the dispenser is when the director changes phase. */
  predicate Turns(s: State, t: State) {
    && (s.dir.pc.DOpen? ==> s.disp.pc.EGate? && s.sh.stats.notServedDay == 0)
    && (s.dir.pc.DWaitStats? && t.dir.pc.DReset2? ==> PastWalk(s.disp.pc))
    && (PhaseOf(s.dir.pc) == Closing ==> Resting(s.disp.pc) && !s.disp.first && !s.dir.first)
    && (s.dir.pc.DExplode? || s.dir.pc.DDecide? || s.dir.pc.DApply? ==>
         Resting(s.disp.pc) && !s.disp.first && !s.dir.first)
    && (PhaseOf(s.dir.pc) == Ending ==> !s.dir.first && !s.disp.first && !s.disp.pc.EJoin? && !s.disp.pc.EGate?)
  }

  lemma DirAtTurns(s: State, t: State)
    requires BarrierOk(s) && NightBooks(s) && DirFlows(s, t)
    ensures Turns(s, t)
  {
  }

  lemma DirKeepsLeft(s: State, t: State)
    requires LeftOk(s) && Turns(s, t) && DirFlows(s, t) && DirSpares(s, t)
    ensures LeftOk(t)
  {
  }

  lemma DirKeepsCount(s: State, t: State)
    requires CountsDays(s) && Turns(s, t) && DirFlows(s, t) && DirSpares(s, t)
    ensures CountsDays(t)
  {
  }

  lemma DirKeepsStops(s: State, t: State)
    requires NoneStopped(s) && Decides(s) && LeftOk(s) && CountsDays(s)
    requires Turns(s, t) && DirFlows(s, t) && DirSpares(s, t)
    ensures NoneStopped(t)
  {
  }

  lemma DirKeepsDecision(s: State, t: State)
    requires Decides(s) && LeftOk(s) && CountsDays(s) && Turns(s, t) && DirFlows(s, t) && DirSpares(s, t)
    ensures Decides(t)
  {
  }

  // ----- the start

  lemma StartRun(cfg: Config, services: seq<Service>, arr: seq<int>, users: nat)
    ensures RunOk(Processes.Start(cfg, services, arr, users))
  {
  }
}
