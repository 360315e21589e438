/** The statistics block in the runs of the protocol.  Replaying, in the order of the run, the
    actions of operators and dispenser on the block of module Statistics, as the methods of that class
    perform them, yields at every moment the counters of the protocol, and the averages of module
    Averages, whatever the sessions took. */
module Sums {
  import opened Office
  import opened Processes
  import opened Tallies
  import opened Frames
  import opened Barrier
  import opened Core
  import opened Invariant
  import Averages
  import Ends
  import Ledger
  import Stat = Statistics

  /** How long the user of a session waited and how long the service took. */
  datatype Times = Times(wait: real, work: real)

  /** The block: services, overall averages and counters; and the days it has seen: those closed
      and the sessions of the one in progress. */
  datatype Sheet = Sheet(block: Stat.Block, overall: Stat.Overall, counters: Counters,
                         closed: seq<Averages.DayWork>, open: seq<Stat.Session>)

  const BLANK_SHEET := Sheet(Averages.NEW, Stat.NOTHING, BLANK, [], [])

  /** What the methods of StatsBlock do, and the record of days. */
  function Note(x: Sheet, e: SumEvent, t: Times): Sheet {
    var b, o, c := x.block, x.overall, x.counters;
    match e
    case Activated => x.(counters := c.(active := c.active + 1))
    case PauseTaken => x.(counters := TookPause(c))
    case Served(v) =>
      var session := Stat.Session(v, t.wait, t.work);
      x.(block := Stat.Served(b, session), overall := o.(erogated := o.erogated + 1), counters := Provided(c, v),
         open := x.open + [session])
    case DailyReset =>
      x.(block := Stat.ResetAll(b), overall := o.(dayWait := 0.0, dayWork := 0.0, dayPauses := 0.0),
         counters := DayReset(c))
    case DayClosed(left) =>
      Sheet(Stat.AverageAll(Stat.Unserved(b, left), c.currentDay), Stat.OverallClosed(o, b, c, |left|),
            Closed(c, left), x.closed + [Averages.DayWork(x.open, left)], [])
    case Finals =>
      x.(block := Stat.Final(b, c.currentDay), overall := Stat.OverallFinal(o, c.currentDay))
  }

  /** clock(k) are the times of the k-th action, if it is a session. */
  function Replay(es: seq<SumEvent>, clock: nat -> Times): Sheet {
    if es == [] then BLANK_SHEET
    else Note(Replay(es[..|es|-1], clock), es[|es|-1], clock(|es| - 1))
  }

  function SheetOf(s: State, clock: nat -> Times): Sheet { Replay(s.sh.trace.sums, clock) }

  // ----- the order of the actions

  /** Clean: from the reset of the morning to the close.  Night: from there to the next reset or to
      the final averages. */
  datatype Stage = Clean | Night | Done

  function StageOf(d: Disp): Stage {
    match d.pc
    case EStart => if d.first then Clean else Night
    case EWait2 | EReset | EStatUnlock | EPost4 | EFinalLock | EFinal => Night
    case EFinalUnlock | EFinalPost | EDone => Done
    case _ => Clean
  }

  lemma DispStages(s: State, t: State)
    requires BarrierOk(s) && BarrierOk(t) && DispFlows(s, t) && t.dir == s.dir
    ensures t.disp.pc == s.disp.pc || !(s.disp.pc.EReset? || s.disp.pc.EStatWalk? || s.disp.pc.EFinal?) ==>
              StageOf(t.disp) == StageOf(s.disp)
    ensures s.disp.pc.EReset? && t.disp.pc != s.disp.pc ==> StageOf(t.disp) == Clean
    ensures s.disp.pc.EStatWalk? && t.disp.pc != s.disp.pc ==> StageOf(t.disp) == Night
    ensures s.disp.pc.EFinal? && t.disp.pc != s.disp.pc ==> StageOf(t.disp) == Done
  {
    hide Sum;
    match PhaseOf(s.dir.pc)
    case Opened => assert OpenedOk(s) && OpenedOk(t);
    case Gathering => assert GatheringOk(s) && GatheringOk(t);
    case Closing => assert ClosingOk(s) && ClosingOk(t);
    case Ending => assert EndingOk(s) && EndingOk(t);
  }

  // ----- the invariant

  /** The block as the morning's reset leaves it: nothing to reset before the first day. */
  function Morning(closed: seq<Averages.DayWork>): Stat.Block {
    if closed == [] then Averages.NEW else Stat.ResetAll(Averages.AllDays(closed))
  }

  predicate StageOk(stage: Stage, x: Sheet) {
    match stage
    case Clean =>
      x.block == Averages.ServedAll(Morning(x.closed), x.open) && |x.open| == x.counters.dailyAll
    case Night => x.closed != [] && x.open == [] && x.block == Averages.AllDays(x.closed)
    case Done => x.closed != [] && x.open == [] && x.block == Stat.Final(Averages.AllDays(x.closed), |x.closed|)
  }

  /** The overall averages are the blends of the daily means, in the end divided by the days. */
  predicate BlendOk(stage: Stage, x: Sheet) {
    var n := if stage == Done && x.closed != [] then |x.closed| as real else 1.0;
    && x.overall.avgWait == Averages.Blend(Averages.DailyWaits(x.closed)) / n
    && x.overall.avgWork == Averages.Blend(Averages.DailyWorks(x.closed)) / n
    && x.overall.erogated == x.counters.providedAll
  }

  /** The overall figures of the day: those of the last close, nothing while a day is in progress. */
  predicate FiguresOk(stage: Stage, x: Sheet) {
    var r, c, n := x.overall, x.counters, |x.closed|;
    if stage == Clean then r.dayWait == 0.0 && r.dayWork == 0.0 && r.dayPauses == 0.0
    else
      && n > 0
      && r.dayServed * n as real == c.usersAll as real && r.dayProvided * n as real == c.providedAll as real
      && r.dayNotProvided * n as real == c.notProvidedAll as real
      && Stat.IsMean(r.dayPauses, c.pauses as real, c.active)
      && r.dayWait == Averages.DailyWaits(x.closed)[n-1] && r.dayWork == Averages.DailyWorks(x.closed)[n-1]
  }

  predicate SameCount(b: Stat.Block, c: Counters, v: Service) {
    var w := b[v-1];
    w.daily == Of(c.daily, v) && w.provided == Of(c.provided, v) && w.notProvided == Of(c.notProvided, v)
  }

  /** The integer fields of the block are the protocol's counters. */
  predicate SameCounts(b: Stat.Block, c: Counters) { forall v: Service :: SameCount(b, c, v) }

  /** The closed days are those the protocol has recorded. */
  predicate SameDays(closed: seq<Averages.DayWork>, records: seq<DayRecord>) {
    && |closed| == |records|
    && forall j :: 0 <= j < |closed| ==>
         |closed[j].sessions| == records[j].served && |closed[j].left| == records[j].left
  }

  function ActiveSum(c: seq<DayRecord>): nat { if c == [] then 0 else ActiveSum(c[..|c|-1]) + c[|c|-1].active }

  function PauseSum(c: seq<DayRecord>): nat { if c == [] then 0 else PauseSum(c[..|c|-1]) + c[|c|-1].pauses }

  /** The total of pauses counts every pause when it is taken and again when its day is closed. */
  predicate TwiceOk(stage: Stage, c: Counters, records: seq<DayRecord>) {
    && c.activeAll == ActiveSum(records)
    && c.pausesAll == 2 * PauseSum(records) + if stage == Clean then c.pauses else 0
  }

  predicate SumsOk(s: State, x: Sheet) {
    && TwiceOk(StageOf(s.disp), x.counters, s.sh.hist.closed)
    && x.counters == s.sh.stats && |x.closed| == x.counters.currentDay
    && StageOk(StageOf(s.disp), x) && BlendOk(StageOf(s.disp), x) && FiguresOk(StageOf(s.disp), x)
    && SameCounts(x.block, x.counters) && SameDays(x.closed, s.sh.hist.closed)
  }

  lemma NoteExtends(es: seq<SumEvent>, e: SumEvent, clock: nat -> Times)
    ensures Replay(es + [e], clock) == Note(Replay(es, clock), e, clock(|es|))
  {
    assert (es + [e])[..|es|] == es;
  }

  // ----- operators

  predicate Acts(o: Op, a: Act) { a.Go? && Writing(o.pc) }

  /** The action an update of the statistics is. */
  function ActionOf(o: Op): SumEvent
    requires Writing(o.pc)
  {
    match o.pc
    case OStatWrite => Served(o.service)
    case OCountWrite => Activated
    case OPauseWrite => PauseTaken
  }

  lemma OpNotes(cfg: Config, sh: Shared, o: Op, pid: nat, a: Act)
    ensures OpDo(cfg, sh, o, pid, a).sh.trace.sums
         == if Acts(o, a) then sh.trace.sums + [ActionOf(o)] else sh.trace.sums
  {
  }

  lemma OpStats(cfg: Config, sh: Shared, o: Op, pid: nat, a: Act)
    requires Ready(sh, o, pid)
    ensures OpDo(cfg, sh, o, pid, a).sh.stats
         == if !a.Go? then sh.stats
            else match o.pc
              case OStatWrite => Provided(sh.stats, o.service)
              case OCountWrite => sh.stats.(active := sh.stats.active + 1)
              case OPauseWrite => TookPause(sh.stats)
              case _ => sh.stats
  {
    if !Writing(o.pc) {
      OpData(cfg, sh, o, pid, a);
      hide OpDo;
    }
  }

  /** An operator's step does to the counters what its action does to the block. */
  lemma OpAffects(s: State, i: nat, a: Act, x: Sheet, at: Times)
    requires CoreOk(s) && i < |s.ops| && x.counters == s.sh.stats
    ensures var t, o := Apply(s, StepOp(i, a)), s.ops[i];
            && t.disp == s.disp && t.sh.hist == s.sh.hist
            && t.sh.trace.sums == (if Acts(o, a) then s.sh.trace.sums + [ActionOf(o)] else s.sh.trace.sums)
            && t.sh.stats == if Acts(o, a) then Note(x, ActionOf(o), at).counters else s.sh.stats
  {
    var o := s.ops[i];
    OpNotes(s.cfg, s.sh, o, i + 1, a);
    OpStep(s, i, a);
    ReadyToMove(s, i);
    hide CoreOk, Apply;
    OpStats(s.cfg, s.sh, o, i + 1, a);
    hide OpDo, Ready;
  }

  lemma OpKeepsSums(s: State, i: nat, a: Act, clock: nat -> Times)
    requires SumsOk(s, SheetOf(s, clock)) && BarrierOk(s) && CoreOk(s) && i < |s.ops|
    ensures var t := Apply(s, StepOp(i, a)); SumsOk(t, SheetOf(t, clock))
  {
    hide *;
    var t, x := Apply(s, StepOp(i, a)), SheetOf(s, clock);
    CountersFit(s, x);
    OpAffects(s, i, a, x, clock(|s.sh.trace.sums|));
    if Acts(s.ops[i], a) {
      ActingKeepsSums(s, t, i, a, clock);
    } else {
      SameSheet(s, t, clock);
      StillOk(s, t, x);
    }
  }

  lemma CountersFit(s: State, x: Sheet)
    requires SumsOk(s, x)
    ensures x.counters == s.sh.stats
  {
    hide StageOk, BlendOk, FiguresOk, SameCounts, SameDays, TwiceOk;
  }

  lemma NextSheet(s: State, t: State, e: SumEvent, clock: nat -> Times)
    requires t.sh.trace.sums == s.sh.trace.sums + [e]
    ensures SheetOf(t, clock) == Note(SheetOf(s, clock), e, clock(|s.sh.trace.sums|))
  {
    NoteExtends(s.sh.trace.sums, e, clock);
    hide Note, Replay;
  }

  lemma SameSheet(s: State, t: State, clock: nat -> Times)
    requires t.sh.trace.sums == s.sh.trace.sums
    ensures SheetOf(t, clock) == SheetOf(s, clock)
  {
  }

  lemma ActingKeepsSums(s: State, t: State, i: nat, a: Act, clock: nat -> Times)
    requires SumsOk(s, SheetOf(s, clock)) && BarrierOk(s) && i < |s.ops| && Acts(s.ops[i], a)
    requires t.disp == s.disp && t.sh.hist == s.sh.hist
    requires t.sh.trace.sums == s.sh.trace.sums + [ActionOf(s.ops[i])]
    requires t.sh.stats == Note(SheetOf(s, clock), ActionOf(s.ops[i]), clock(|s.sh.trace.sums|)).counters
    ensures SumsOk(t, SheetOf(t, clock))
  {
    var o := s.ops[i];
    var e := ActionOf(o);
    assert e.Served? || e.Activated? || e.PauseTaken?;
    assert Writing(o.pc);
    hide *;
    NextSheet(s, t, e, clock);
    Serving(s, i);
    InProgressIsClean(s);
    ActionKeepsSums(s, t, SheetOf(s, clock), e, clock(|s.sh.trace.sums|));
  }

  lemma Serving(s: State, i: nat)
    requires BarrierOk(s) && i < |s.ops| && Writing(s.ops[i].pc)
    ensures Ends.InProgress(s)
  {
    Ledger.ServesInProgress(s, i);
  }

  lemma StillOk(s: State, t: State, x: Sheet)
    requires SumsOk(s, x) && t.disp == s.disp && t.sh.hist == s.sh.hist && t.sh.stats == s.sh.stats
    ensures SumsOk(t, x)
  {
    hide StageOk, BlendOk, FiguresOk, SameCounts, SameDays, TwiceOk;
  }

  lemma InProgressIsClean(s: State)
    requires BarrierOk(s) && Ends.InProgress(s)
    ensures StageOf(s.disp) == Clean
  {
    hide Sum;
  }

  lemma ActionKeepsSums(s: State, t: State, x: Sheet, e: SumEvent, at: Times)
    requires SumsOk(s, x) && StageOf(s.disp) == Clean && t.disp == s.disp && t.sh.hist == s.sh.hist
    requires e.Served? || e.Activated? || e.PauseTaken?
    requires t.sh.stats == Note(x, e, at).counters
    ensures SumsOk(t, Note(x, e, at))
  {
    hide PauseSum, ActiveSum, SameDays;
    var y := Note(x, e, at);
    assert TwiceOk(Clean, y.counters, t.sh.hist.closed);
    hide TwiceOk;
    assert BlendOk(Clean, y) && FiguresOk(Clean, y);
    hide FiguresOk;
    if e.Served? {
      var session := Stat.Session(e.service, at.wait, at.work);
      assert y.open[..|x.open|] == x.open && y.open[|x.open|] == session;
    }
    assert StageOk(Clean, y);
    hide StageOk, BlendOk;
    ActionCounts(x, e, at);
    hide SameCounts, Note;
  }

  lemma ActionCounts(x: Sheet, e: SumEvent, at: Times)
    requires SameCounts(x.block, x.counters) && (e.Served? || e.Activated? || e.PauseTaken?)
    ensures SameCounts(Note(x, e, at).block, Note(x, e, at).counters)
  {
    var y := Note(x, e, at);
    forall u: Service ensures SameCount(y.block, y.counters, u) {
      assert SameCount(x.block, x.counters, u);
    }
  }

  // ----- dispenser

  lemma DispNotesWhat(s: State, a: Act, req: Request)
    ensures var t := DispDo(s, a, req); var sums := s.sh.trace.sums;
            t.sh.trace.sums == if !a.Go? then sums
                               else match s.disp.pc
                                 case EReset => sums + [DailyReset]
                                 case EStatWalk => sums + [DayClosed(s.sh.queue)]
                                 case EFinal => sums + [Finals]
                                 case _ => sums
  {
    hide Closed, Record, DayReset, Bump;
  }

  lemma DispMovesOn(s: State, a: Act, req: Request)
    requires s.disp.pc.EReset? || s.disp.pc.EStatWalk? || s.disp.pc.EFinal?
    ensures DispDo(s, a, req).disp.pc != s.disp.pc <==> a.Go?
  {
    hide Closed, Record, DayReset;
  }

  lemma DispKeepsSums(s: State, a: Act, req: Request, clock: nat -> Times)
    requires SumsOk(s, SheetOf(s, clock)) && BarrierOk(s)
    ensures var t := Apply(s, StepDisp(a, req)); SumsOk(t, SheetOf(t, clock))
  {
    hide StageOk, BlendOk, FiguresOk, SameCounts, SameDays, TwiceOk, Closed, Record, DayReset, Note;
    var t, sums, x := Apply(s, StepDisp(a, req)), s.sh.trace.sums, SheetOf(s, clock);
    DispFrame(s, a, req);
    DispFlow(s, a, req);
    DispKeepsBarrier(s, a, req);
    DispStages(s, t);
    DispNotesWhat(s, a, req);
    hide BarrierOk, DispFlows, DispLocks;
    if a.Go? && (s.disp.pc.EReset? || s.disp.pc.EStatWalk? || s.disp.pc.EFinal?) {
      DispMovesOn(s, a, req);
      var e := if s.disp.pc.EReset? then DailyReset else if s.disp.pc.EStatWalk? then DayClosed(s.sh.queue) else Finals;
      NoteExtends(sums, e, clock);
      hide DispDo, Replay;
      match s.disp.pc
      case EReset => ResetKeepsSums(s, t, x, clock(|sums|));
      case EStatWalk => CloseKeepsSums(s, t, x, clock(|sums|));
      case EFinal => FinalsKeepSums(s, t, x, clock(|sums|));
    } else {
      if s.disp.pc.EReset? || s.disp.pc.EStatWalk? || s.disp.pc.EFinal? { DispMovesOn(s, a, req); }
      hide DispDo, Replay, StageOk, SameDays, SameCounts, Closed, Record, DayReset;
    }
  }

  lemma ResetKeepsSums(s: State, t: State, x: Sheet, at: Times)
    requires SumsOk(s, x) && s.disp.pc.EReset? && StageOf(t.disp) == Clean
    requires t.sh.stats == DayReset(s.sh.stats) && t.sh.hist.closed == s.sh.hist.closed
    ensures SumsOk(t, Note(x, DailyReset, at))
  {
    hide PauseSum, ActiveSum, SameDays;
    var y := Note(x, DailyReset, at);
    assert BlendOk(Clean, y) && StageOk(Clean, y) && FiguresOk(Clean, y);
    hide StageOk, BlendOk, FiguresOk;
    forall v: Service ensures SameCount(y.block, y.counters, v) {
      Averages.AverageAt(x.block, 0, v);
      assert SameCount(x.block, x.counters, v);
    }
    hide SameCounts;
  }

  lemma CloseKeepsSums(s: State, t: State, x: Sheet, at: Times)
    requires SumsOk(s, x) && s.disp.pc.EStatWalk? && StageOf(t.disp) == Night
    requires t.sh.stats == Closed(s.sh.stats, s.sh.queue) && t.sh.hist.closed == s.sh.hist.closed + [Record(s)]
    ensures SumsOk(t, Note(x, DayClosed(s.sh.queue), at))
  {
    hide TwiceOk, BlendOk, SameCounts, FiguresOk;
    var q, n := s.sh.queue, |x.closed|;
    CloseCounts(x.counters, q);
    ClosedTwice(x.counters, q, s.sh.hist.closed, Record(s));
    DayIsRecorded(s, x, q);
    hide Record, SameDays;
    CloseBlends(x, q, at);
    CloseFigures(x, q, at);
    CloseIsOneDay(x, q);
    BlockCloses(x.block, q, n, x.counters, Closed(x.counters, q));
    hide Closed;
  }

  lemma DayIsRecorded(s: State, x: Sheet, q: seq<Ticket>)
    requires SameDays(x.closed, s.sh.hist.closed) && |x.open| == s.sh.stats.dailyAll && q == s.sh.queue
    ensures SameDays(x.closed + [Averages.DayWork(x.open, q)], s.sh.hist.closed + [Record(s)])
  {
    Ledger.RecordFields(s);
    hide Record;
  }

  lemma ClosedTwice(c: Counters, q: seq<Ticket>, records: seq<DayRecord>, r: DayRecord)
    requires TwiceOk(Clean, c, records) && r.active == c.active && r.pauses == c.pauses
    ensures TwiceOk(Night, Closed(c, q), records + [r])
  {
    CloseCounts(c, q);
    hide Closed;
    assert (records + [r])[..|records|] == records;
  }

  /** Reset, sessions and close of a day are one day of module Averages. */
  lemma CloseIsOneDay(x: Sheet, q: seq<Ticket>)
    requires StageOk(Clean, x)
    ensures var w := Averages.DayWork(x.open, q);
            Averages.AllDays(x.closed + [w]) == Stat.AverageAll(Stat.Unserved(x.block, q), |x.closed|)
  {
    var w := Averages.DayWork(x.open, q);
    assert (x.closed + [w])[..|x.closed|] == x.closed;
    hide Stat.AverageAll, Stat.Unserved, Averages.ServedAll, Stat.ResetAll;
  }

  /** The day's overall means are the means over all its sessions. */
  lemma CloseBlends(x: Sheet, q: seq<Ticket>, at: Times)
    requires StageOk(Clean, x) && BlendOk(Clean, x) && |x.closed| == x.counters.currentDay
    ensures BlendOk(Night, Note(x, DayClosed(q), at))
  {
    DayMeans(x, q);
    Averages.DailyMeansExtend(x.closed, Averages.DayWork(x.open, q));
    CloseCounts(x.counters, q);
    hide Closed, Averages.ServedAll, Averages.Blend, Averages.DailyWaits, Averages.DailyWorks, Morning;
    hide Stat.AverageAll, Stat.Unserved, Stat.WaitOf, Stat.WorkOf, Averages.AllWait, Averages.AllWork;
  }

  lemma CloseFigures(x: Sheet, q: seq<Ticket>, at: Times)
    requires StageOk(Clean, x) && |x.closed| == x.counters.currentDay
    ensures FiguresOk(Night, Note(x, DayClosed(q), at))
  {
    var y := Note(x, DayClosed(q), at);
    hide *;
    ClosedSheet(x, q, at);
    Stat.OverallFigures(x.overall, x.block, x.counters, |q|);
    MeansOfClose(x, q);
    CloseCounts(x.counters, q);
    FiguresFrom(x.counters, y);
  }

  lemma ClosedSheet(x: Sheet, q: seq<Ticket>, at: Times)
    ensures var y := Note(x, DayClosed(q), at);
            && y.overall == Stat.OverallClosed(x.overall, x.block, x.counters, |q|)
            && y.counters == Closed(x.counters, q) && y.closed == x.closed + [Averages.DayWork(x.open, q)]
  {
    hide Stat.OverallClosed, Closed, Stat.AverageAll, Stat.Unserved;
  }

  lemma FiguresFrom(c: Counters, y: Sheet)
    requires var r, d, n := y.overall, y.counters, (c.currentDay + 1) as real;
             && |y.closed| == c.currentDay + 1
             && r.dayServed * n == d.usersAll as real && r.dayProvided * n == d.providedAll as real
             && r.dayNotProvided * n == d.notProvidedAll as real && Stat.IsMean(r.dayPauses, d.pauses as real, d.active)
             && r.dayWait == Averages.DailyWaits(y.closed)[c.currentDay]
             && r.dayWork == Averages.DailyWorks(y.closed)[c.currentDay]
    ensures FiguresOk(Night, y)
  {
    hide Stat.IsMean, Averages.DailyWaits, Averages.DailyWorks;
  }

  lemma MeansOfClose(x: Sheet, q: seq<Ticket>)
    requires StageOk(Clean, x)
    ensures var r := Stat.OverallClosed(x.overall, x.block, x.counters, |q|);
            var days := x.closed + [Averages.DayWork(x.open, q)];
            && r.dayWait == Averages.DailyWaits(days)[|x.closed|] && r.dayWork == Averages.DailyWorks(days)[|x.closed|]
  {
    DayMeans(x, q);
    hide Stat.WaitOf, Stat.WorkOf, Averages.AllWait, Averages.AllWork, Averages.ServedAll, Stat.Mean;
  }

  /** The loop over the services finds the sessions of the day. */
  lemma DayMeans(x: Sheet, q: seq<Ticket>)
    requires StageOk(Clean, x)
    ensures Stat.WaitOf(x.block, SERVICES) == Averages.AllWait(x.open)
    ensures Stat.WorkOf(x.block, SERVICES) == Averages.AllWork(x.open)
  {
    var m := Morning(x.closed);
    Averages.WaitsAddUp(m, x.open);
    MorningHasNoWaits(x.closed);
    Averages.NoWaits(m, SERVICES);
    hide Averages.ServedAll, Morning, Stat.WaitOf, Stat.WorkOf, Averages.AllWait, Averages.AllWork;
  }

  lemma MorningHasNoWaits(closed: seq<Averages.DayWork>)
    ensures var m := Morning(closed); forall j :: 0 <= j < SERVICES ==> m[j].wait == 0.0 && m[j].work == 0.0
  {
    hide Averages.AllDays;
  }

  lemma BlockCloses(b: Stat.Block, q: seq<Ticket>, n: nat, c: Counters, d: Counters)
    requires SameCounts(b, c) && d.daily == c.daily && d.provided == c.provided
    requires forall v: Service :: Of(d.notProvided, v) == Of(c.notProvided, v) + CountOf(q, v)
    ensures SameCounts(Stat.AverageAll(Stat.Unserved(b, q), n), d)
  {
    var w := Stat.Unserved(b, q);
    forall v: Service ensures SameCount(Stat.AverageAll(w, n), d, v) {
      assert SameCount(b, c, v);
      Averages.LeftAddUp(b, q, v);
      Averages.WalkSparesTimes(b, q, v);
      Averages.AverageAt(w, n, v);
    }
  }

  lemma FinalsKeepSums(s: State, t: State, x: Sheet, at: Times)
    requires SumsOk(s, x) && s.disp.pc.EFinal? && StageOf(t.disp) == Done
    requires t.sh.stats == s.sh.stats && t.sh.hist.closed == s.sh.hist.closed
    ensures SumsOk(t, Note(x, Finals, at))
  {
    hide PauseSum, ActiveSum, SameDays, StageOk, BlendOk, SameCounts, FiguresOk, Note;
    FinalsStage(x, at);
    FinalsFigures(x, at);
    FinalsCounts(x, at);
  }

  lemma FinalsStage(x: Sheet, at: Times)
    requires StageOk(Night, x) && BlendOk(Night, x) && |x.closed| == x.counters.currentDay
    ensures var y := Note(x, Finals, at);
            StageOk(Done, y) && BlendOk(Done, y) && y.counters == x.counters && y.closed == x.closed
  {
    hide Stat.Final, Averages.Blend, Averages.DailyWaits, Averages.DailyWorks, Averages.AllDays;
  }

  lemma FinalsFigures(x: Sheet, at: Times)
    requires FiguresOk(Night, x)
    ensures FiguresOk(Done, Note(x, Finals, at))
  {
    hide Stat.Final, Averages.DailyWaits, Averages.DailyWorks, Stat.IsMean;
  }

  lemma FinalsCounts(x: Sheet, at: Times)
    requires SameCounts(x.block, x.counters)
    ensures var y := Note(x, Finals, at); SameCounts(y.block, y.counters)
  {
    var y := Note(x, Finals, at);
    forall v: Service ensures SameCount(y.block, y.counters, v) {
      assert SameCount(x.block, x.counters, v);
    }
  }

  // ----- director and users

  /** Neither touches the statistics, the records of closed days or the dispenser's stage. */
  predicate Aside(s: State, t: State) {
    && t.sh.trace.sums == s.sh.trace.sums && t.sh.stats == s.sh.stats && t.sh.hist.closed == s.sh.hist.closed
    && t.disp.pc == s.disp.pc && t.disp.first == s.disp.first
  }

  lemma DirAside(s: State, arr: seq<int>, newUsers: nat)
    ensures Aside(s, Apply(s, StepDir(arr, newUsers)))
  {
  }

  lemma DirKeepsSums(s: State, arr: seq<int>, newUsers: nat, clock: nat -> Times)
    requires SumsOk(s, SheetOf(s, clock))
    ensures var t := Apply(s, StepDir(arr, newUsers)); SumsOk(t, SheetOf(t, clock))
  {
    DirAside(s, arr, newUsers);
    hide Apply, SumsOk, Replay;
    AsideKeepsSums(s, Apply(s, StepDir(arr, newUsers)), SheetOf(s, clock));
  }

  lemma AsideKeepsSums(s: State, t: State, x: Sheet)
    requires SumsOk(s, x) && Aside(s, t)
    ensures SumsOk(t, x)
  {
    hide StageOk, BlendOk, FiguresOk, SameCounts, SameDays;
  }

  // ----- runs

  lemma StepKeepsSums(s: State, step: Step, clock: nat -> Times)
    requires Inv(s) && SumsOk(s, SheetOf(s, clock))
    ensures var t := Apply(s, step); SumsOk(t, SheetOf(t, clock))
  {
    hide *;
    Parts(s);
    match step
    case StepOp(i, a) => if i < |s.ops| { OpKeepsSums(s, i, a, clock); } else { Ledger.OutOfRange(s, i, a); }
    case StepDisp(a, req) => DispKeepsSums(s, a, req, clock);
    case StepDir(arr, newUsers) => DirKeepsSums(s, arr, newUsers, clock);
    case StepUser => UserKeepsSums(s, clock);
  }

  lemma UserKeepsSums(s: State, clock: nat -> Times)
    requires SumsOk(s, SheetOf(s, clock))
    ensures var t := Apply(s, StepUser); SumsOk(t, SheetOf(t, clock))
  {
    hide SumsOk, Replay;
    AsideKeepsSums(s, Apply(s, StepUser), SheetOf(s, clock));
  }

  lemma {:induction false} RunKeepsSums(u: Setup, steps: seq<Step>, clock: nat -> Times)
    requires ValidSetup(u)
    ensures var s := Run(Begin(u), steps); SumsOk(s, SheetOf(s, clock))
  {
    if steps != [] {
      var before := steps[..|steps|-1];
      RunKeepsSums(u, before, clock);
      BeginInv(u);
      RunKeepsInv(Begin(u), before);
      hide Inv, SumsOk, Apply, SheetOf;
      StepKeepsSums(Run(Begin(u), before), steps[|steps|-1], clock);
    }
  }

  lemma ReachableSums(s: State, clock: nat -> Times)
    requires Reachable(s)
    ensures SumsOk(s, SheetOf(s, clock))
  {
    hide Run, Begin, SumsOk, SheetOf;
    var u, steps :| ValidSetup(u) && s == Run(Begin(u), steps);
    RunKeepsSums(u, steps, clock);
  }

  // ----- what it means

  /** At every moment of every run the counters of the replayed block are the protocol's, service by
      service too, and the days it has been through are the days the dispenser has closed, with as
      many sessions and as many tickets left. */
  lemma BlockFollowsCounters(s: State, clock: nat -> Times, v: Service, j: nat)
    requires Reachable(s)
    ensures var x := SheetOf(s, clock); var w := x.block[v-1]; var c := s.sh.stats;
            && x.counters == c
            && w.daily == Of(c.daily, v) && w.provided == Of(c.provided, v) && w.notProvided == Of(c.notProvided, v)
            && |x.closed| == |s.sh.hist.closed|
            && (j < |x.closed| ==> |x.closed[j].sessions| == s.sh.hist.closed[j].served)
            && (j < |x.closed| ==> |x.closed[j].left| == s.sh.hist.closed[j].left)
  {
    hide Reachable, SheetOf;
    ReachableSums(s, clock);
    assert SameCount(SheetOf(s, clock).block, s.sh.stats, v);
    hide StageOk;
  }

  /** From the close of a day to the next reset, in every run, each service's running sums are the
      sums of the daily means so far: no close has halved them. */
  lemma SumsNeverHalved(s: State, clock: nat -> Times, v: Service)
    requires Reachable(s) && StageOf(s.disp) == Night
    ensures var x := SheetOf(s, clock);
            && |x.closed| == |s.sh.hist.closed|
            && x.block[v-1].avgWait == Averages.WaitMeans(x.closed, v)
            && x.block[v-1].avgWork == Averages.WorkMeans(x.closed, v)
  {
    hide Reachable, SheetOf;
    ReachableSums(s, clock);
    Averages.SumsOfMeans(SheetOf(s, clock).closed, v);
    hide Averages.AllDays, Averages.WaitMeans, Averages.WorkMeans, SameCounts, BlendOk;
  }

  /** Once a run has written its final averages, those of each service are the means, over the days
      that the run has closed, of the averages of the day. */
  lemma RunAveragesAreMeans(s: State, clock: nat -> Times, v: Service)
    requires Reachable(s) && StageOf(s.disp) == Done
    ensures var x := SheetOf(s, clock); var n := |s.sh.hist.closed|;
            && |x.closed| == n == s.sh.stats.currentDay && n > 0
            && x.block[v-1].avgWait == Averages.WaitMeans(x.closed, v) / n as real
            && x.block[v-1].avgWork == Averages.WorkMeans(x.closed, v) / n as real
  {
    hide Reachable, SheetOf;
    ReachableSums(s, clock);
    Averages.FinalAveragesAreMeans(SheetOf(s, clock).closed, v);
    hide Averages.AllDays, Averages.WaitMeans, Averages.WorkMeans, SameCounts, BlendOk;
  }

  /** At the end of a run the total of active operators is the sum over its days, and the total of
      pauses is twice the sum: right exactly when nobody took a pause. */
  lemma PausesCountedTwice(s: State)
    requires Reachable(s) && PhaseOf(s.dir.pc) == Ending
    ensures var c, records := s.sh.stats, s.sh.hist.closed;
            && c.activeAll == ActiveSum(records) && c.pausesAll == 2 * PauseSum(records)
            && (c.pausesAll == PauseSum(records) <==> forall j :: 0 <= j < |records| ==> records[j].pauses == 0)
  {
    hide Reachable;
    hide StageOk, BlendOk, SameCounts, SameDays, CoreOk, Inv, Replay, PauseSum, ActiveSum;
    ReachableSums(s, k => Times(0.0, 0.0));
    assert TwiceOk(StageOf(s.disp), s.sh.stats, s.sh.hist.closed);
    hide SumsOk;
    ReachableInv(s);
    Parts(s);
    EndingIsNight(s);
    hide BarrierOk;
    NoPauses(s.sh.hist.closed);
  }

  lemma EndingIsNight(s: State)
    requires BarrierOk(s) && PhaseOf(s.dir.pc) == Ending
    ensures StageOf(s.disp) != Clean
  {
    assert EndingOk(s);
  }

  lemma {:induction false} NoPauses(records: seq<DayRecord>)
    ensures PauseSum(records) == 0 <==> forall j :: 0 <= j < |records| ==> records[j].pauses == 0
  {
    if records != [] {
      NoPauses(records[..|records|-1]);
      assert records == records[..|records|-1] + [records[|records|-1]];
    }
  }

  ghost predicate NoNegatives(clock: nat -> Times) { forall k: nat :: clock(k).wait >= 0.0 && clock(k).work >= 0.0 }

  predicate Took(xs: seq<Stat.Session>) { forall j :: 0 <= j < |xs| ==> xs[j].wait >= 0.0 && xs[j].work >= 0.0 }

  predicate AllTook(days: seq<Averages.DayWork>) { forall j :: 0 <= j < |days| ==> Took(days[j].sessions) }

  lemma {:induction false} ReplayTook(es: seq<SumEvent>, clock: nat -> Times)
    requires NoNegatives(clock)
    ensures Took(Replay(es, clock).open) && AllTook(Replay(es, clock).closed)
  {
    if es != [] {
      ReplayTook(es[..|es|-1], clock);
      hide Stat.Served, Stat.AverageAll, Stat.Unserved, Stat.ResetAll, Stat.Final, Closed, Stat.OverallClosed;
    }
  }

  lemma {:induction false} SessionsTook(xs: seq<Stat.Session>)
    requires Took(xs)
    ensures Averages.AllWait(xs) >= 0.0 && Averages.AllWork(xs) >= 0.0
  {
    if xs != [] {
      SessionsTook(xs[..|xs|-1]);
    }
  }

  lemma MeansNonNegative(days: seq<Averages.DayWork>)
    requires AllTook(days)
    ensures Averages.NonNegative(Averages.DailyWaits(days)) && Averages.NonNegative(Averages.DailyWorks(days))
  {
    forall j | 0 <= j < |days| ensures Averages.DailyWaits(days)[j] >= 0.0 && Averages.DailyWorks(days)[j] >= 0.0 {
      assert Took(days[j].sessions);
      SessionsTook(days[j].sessions);
    }
  }

  /** The blend of these daily means, divided by the days, against their mean. */
  ghost predicate MeanExactly(average: real, means: seq<real>, n: nat)
    requires n > 0
  {
    var mean := Averages.SumOf(means) / n as real;
    && |means| == n
    && (average == mean <==> n == 1 || forall j :: 0 <= j < n ==> means[j] == 0.0)
    && (n >= 2 ==> average <= mean / 2.0)
  }

  /** The averages over all services are the means of the daily averages exactly in runs of one day
      and in runs in which all daily averages are 0; in all others they are at most half of them. */
  lemma RunOverallExactly(s: State, clock: nat -> Times)
    requires Reachable(s) && StageOf(s.disp) == Done && NoNegatives(clock)
    ensures var x := SheetOf(s, clock); var n := |s.sh.hist.closed|;
            && |x.closed| == n > 0
            && MeanExactly(x.overall.avgWait, Averages.DailyWaits(x.closed), n)
            && MeanExactly(x.overall.avgWork, Averages.DailyWorks(x.closed), n)
  {
    hide Reachable;
    ReachableSums(s, clock);
    ReplayTook(s.sh.trace.sums, clock);
    var x := SheetOf(s, clock);
    hide Replay, SheetOf;
    MeansNonNegative(x.closed);
    Averages.OverallMeanExactly(Averages.DailyWaits(x.closed));
    Averages.OverallMeanExactly(Averages.DailyWorks(x.closed));
    hide StageOk, SameCounts;
  }
}
