/** What the numbers of the statistics block mean, in every reachable state: each counter is a number
    of recorded actions, each figure of the day a mean over the day's sessions or an average per day
    elapsed, and each running average the weighted sum of the daily means. */
module Figures {
  import opened Office
  import opened Processes
  import opened Invariant
  import opened Sums
  import Averages
  import Stat = Statistics

  // ----- counters

  /** What is counted among the actions on the statistics. */
  datatype What =
    | ServicesOf(v: Service) | Services // sessions completed
    | LeftOf(v: Service) | Left         // tickets found by a close
    | Activations | Pauses | Closes

  function Worth(k: What, e: SumEvent): nat {
    match e
    case Served(v) => if k.Services? || (k.ServicesOf? && k.v == v) then 1 else 0
    case DayClosed(left) =>
      if k.Closes? then 1 else if k.Left? then |left| else if k.LeftOf? then CountOf(left, k.v) else 0
    case Activated => One(k.Activations?)
    case PauseTaken => One(k.Pauses?)
    case _ => 0
  }

  function Number(k: What, es: seq<SumEvent>): nat {
    if es == [] then 0 else Number(k, es[..|es|-1]) + Worth(k, es[|es|-1])
  }

  /** The actions since the last daily reset. */
  function Today(es: seq<SumEvent>): seq<SumEvent> {
    if es == [] || es[|es|-1].DailyReset? then [] else Today(es[..|es|-1]) + [es[|es|-1]]
  }

  lemma NumberExtends(k: What, es: seq<SumEvent>, e: SumEvent)
    ensures Number(k, es + [e]) == Number(k, es) + Worth(k, e)
    ensures Number(k, Today(es + [e])) == if e.DailyReset? then 0 else Number(k, Today(es)) + Worth(k, e)
  {
    assert (es + [e])[..|es|] == es;
    assert (Today(es) + [e])[..|Today(es)|] == Today(es);
  }

  /** The counters that belong to one service. */
  predicate CountedOf(c: Counters, es: seq<SumEvent>, v: Service) {
    && Of(c.provided, v) == Number(ServicesOf(v), es)
    && Of(c.daily, v) == Number(ServicesOf(v), Today(es))
    && Of(c.notProvided, v) == Number(LeftOf(v), es)
  }

  /** The others. */
  predicate Counted(c: Counters, es: seq<SumEvent>) {
    && c.usersAll == c.providedAll == Number(Services, es) && c.dailyAll == Number(Services, Today(es))
    && c.notProvidedAll == Number(Left, es) && c.notServedDay == Number(Left, Today(es))
    && c.active == Number(Activations, Today(es)) && c.pauses == Number(Pauses, Today(es))
    && c.currentDay == Number(Closes, es)
  }

  lemma NoteCountsOf(x: Sheet, es: seq<SumEvent>, e: SumEvent, at: Times, v: Service)
    requires CountedOf(x.counters, es, v)
    ensures CountedOf(Note(x, e, at).counters, es + [e], v)
  {
    NumberExtends(ServicesOf(v), es, e);
    NumberExtends(LeftOf(v), es, e);
    hide Number, Today;
    if e.DayClosed? { CloseCounts(x.counters, e.left); }
    hide Closed, CountOf, Stat.OverallClosed, Stat.AverageAll, Stat.Unserved;
  }

  lemma NoteCounts(x: Sheet, es: seq<SumEvent>, e: SumEvent, at: Times)
    requires Counted(x.counters, es)
    ensures Counted(Note(x, e, at).counters, es + [e])
  {
    NumberExtends(Services, es, e);
    NumberExtends(Left, es, e);
    NumberExtends(Activations, es, e);
    NumberExtends(Pauses, es, e);
    NumberExtends(Closes, es, e);
    hide Number, Today;
    if e.DayClosed? { CloseCounts(x.counters, e.left); }
    hide Closed, CountOf, Stat.OverallClosed, Stat.AverageAll, Stat.Unserved;
  }

  lemma {:induction false} ReplayCounts(es: seq<SumEvent>, clock: nat -> Times, v: Service)
    ensures var c := Replay(es, clock).counters; CountedOf(c, es, v) && Counted(c, es)
  {
    if es != [] {
      var before, e := es[..|es|-1], es[|es|-1];
      ReplayCounts(before, clock, v);
      hide CountedOf, Counted, Note;
      assert es == before + [e];
      NoteCountsOf(Replay(before, clock), before, e, clock(|before|), v);
      NoteCounts(Replay(before, clock), before, e, clock(|before|));
    }
  }

  /** In every reachable state, service by service: the services provided are the recorded sessions
      of that service, the daily ones those since the last reset, the services not provided the
      tickets of that service found by the closes; and so the totals, operators, pauses and days. */
  lemma CountersAreCounts(s: State, v: Service)
    requires Reachable(s)
    ensures var c, es := s.sh.stats, s.sh.trace.sums;
            && Of(c.provided, v) == Number(ServicesOf(v), es)
            && Of(c.daily, v) == Number(ServicesOf(v), Today(es))
            && Of(c.notProvided, v) == Number(LeftOf(v), es)
            && c.usersAll == c.providedAll == Number(Services, es) && c.dailyAll == Number(Services, Today(es))
            && c.notProvidedAll == Number(Left, es) && c.notServedDay == Number(Left, Today(es))
            && c.active == Number(Activations, Today(es)) && c.pauses == Number(Pauses, Today(es))
            && c.currentDay == Number(Closes, es)
  {
    var clock: nat -> Times := k => Times(0.0, 0.0);
    hide Reachable, Number, Today, Replay;
    ReachableSums(s, clock);
    ReplayCounts(s.sh.trace.sums, clock, v);
    hide StageOk, BlendOk, FiguresOk, SameCounts, SameDays, TwiceOk;
  }

  // ----- figures of the day

  /** In every reachable state, for each service: while a day is in progress its daily averages are 0
      and its totals are those of the closed days plus what the day has done; from the close of a day
      to the next reset, and after the last one, its daily averages are the means of that day's
      sessions, and its averages per day, times the days, its services provided and not provided. */
  lemma ServiceFigures(s: State, clock: nat -> Times, v: Service)
    requires Reachable(s)
    ensures var x := SheetOf(s, clock); var r, n := x.block[v-1], |x.closed|;
            if StageOf(s.disp) == Clean then
              && r.dayServed == r.dayNotServed == r.dayWait == r.dayWork == 0.0
              && r.daily == Averages.Sessions(x.open, v)
              && r.provided == Averages.AllSessions(x.closed, v) + r.daily
              && r.notProvided == Averages.AllLeft(x.closed, v)
              && r.wait == Averages.WaitSum(x.open, v) && r.work == Averages.WorkSum(x.open, v)
            else
              && n == |s.sh.hist.closed| > 0
              && r.provided == Averages.AllSessions(x.closed, v) && r.notProvided == Averages.AllLeft(x.closed, v)
              && r.dayServed * n as real == r.provided as real && r.dayNotServed * n as real == r.notProvided as real
              && var xs := x.closed[n-1].sessions;
              && Stat.IsMean(r.dayWait, Averages.WaitSum(xs, v), Averages.Sessions(xs, v))
              && Stat.IsMean(r.dayWork, Averages.WorkSum(xs, v), Averages.Sessions(xs, v))
  {
    hide *;
    ReachableSums(s, clock);
    var x := SheetOf(s, clock);
    SumsParts(s, x);
    match StageOf(s.disp)
    case Clean => OpenFigures(x, v);
    case Night => Averages.FiguresOfDays(x.closed, v);
    case Done =>
      Averages.FiguresOfDays(x.closed, v);
      FinalSpares(Averages.AllDays(x.closed), |x.closed|, v);
  }

  lemma SumsParts(s: State, x: Sheet)
    requires SumsOk(s, x)
    ensures |x.closed| == |s.sh.hist.closed| && FiguresOk(StageOf(s.disp), x) && BlendOk(StageOf(s.disp), x)
    ensures x.counters == s.sh.stats
    ensures StageOf(s.disp) == Clean ==>
              x.block == Averages.ServedAll(Morning(x.closed), x.open) && |x.open| == x.counters.dailyAll
    ensures StageOf(s.disp) == Night ==> x.closed != [] && x.open == [] && x.block == Averages.AllDays(x.closed)
    ensures StageOf(s.disp) == Done ==>
              x.closed != [] && x.open == [] && x.block == Stat.Final(Averages.AllDays(x.closed), |x.closed|)
  {
    hide TwiceOk, BlendOk, FiguresOk, SameCounts;
  }

  lemma FinalSpares(b: Stat.Block, days: nat, v: Service)
    ensures var r := Stat.Final(b, days)[v-1]; r == b[v-1].(avgWait := r.avgWait, avgWork := r.avgWork)
  {
  }

  lemma OpenFigures(x: Sheet, v: Service)
    requires x.block == Averages.ServedAll(Morning(x.closed), x.open)
    ensures var r := x.block[v-1];
            && r.dayServed == r.dayNotServed == r.dayWait == r.dayWork == 0.0
            && r.daily == Averages.Sessions(x.open, v)
            && r.provided == Averages.AllSessions(x.closed, v) + r.daily
            && r.notProvided == Averages.AllLeft(x.closed, v)
            && r.wait == Averages.WaitSum(x.open, v) && r.work == Averages.WorkSum(x.open, v)
  {
    var b := Averages.AllDays(x.closed);
    Averages.SessionsAddUp(Morning(x.closed), x.open, v);
    Averages.TotalsOfDays(x.closed, v);
    Averages.AverageAt(b, 0, v);
    hide Averages.ServedAll, Averages.Sessions, Averages.WaitSum, Averages.WorkSum;
  }

  /** The figures over all services: 0 for the day in progress, and of the day closed last otherwise. */
  lemma OverallFigures(s: State, clock: nat -> Times)
    requires Reachable(s)
    ensures var x, c := SheetOf(s, clock), s.sh.stats; var r, n := x.overall, |x.closed|;
            && r.erogated == c.providedAll
            && if StageOf(s.disp) == Clean then r.dayWait == r.dayWork == r.dayPauses == 0.0
               else
                 && n == |s.sh.hist.closed| > 0
                 && r.dayServed * n as real == c.usersAll as real && r.dayProvided * n as real == c.providedAll as real
                 && r.dayNotProvided * n as real == c.notProvidedAll as real
                 && Stat.IsMean(r.dayPauses, c.pauses as real, c.active)
                 && var xs := x.closed[n-1].sessions;
                 && Stat.IsMean(r.dayWait, Averages.AllWait(xs), |xs|)
                 && Stat.IsMean(r.dayWork, Averages.AllWork(xs), |xs|)
  {
    hide *;
    ReachableSums(s, clock);
    var x := SheetOf(s, clock);
    SumsParts(s, x);
    FiguresOpen(StageOf(s.disp), x);
    if StageOf(s.disp) != Clean {
      var xs := x.closed[|x.closed|-1].sessions;
      Stat.MeanIsMean(Averages.AllWait(xs), |xs|);
      Stat.MeanIsMean(Averages.AllWork(xs), |xs|);
    }
  }

  lemma FiguresOpen(stage: Stage, x: Sheet)
    requires FiguresOk(stage, x) && BlendOk(stage, x)
    ensures var r, c, n := x.overall, x.counters, |x.closed|;
            && r.erogated == c.providedAll
            && if stage == Clean then r.dayWait == r.dayWork == r.dayPauses == 0.0
               else
                 && n > 0
                 && r.dayServed * n as real == c.usersAll as real && r.dayProvided * n as real == c.providedAll as real
                 && r.dayNotProvided * n as real == c.notProvidedAll as real
                 && Stat.IsMean(r.dayPauses, c.pauses as real, c.active)
                 && var xs := x.closed[n-1].sessions;
                 && r.dayWait == Stat.Mean(Averages.AllWait(xs), |xs|)
                 && r.dayWork == Stat.Mean(Averages.AllWork(xs), |xs|)
  {
    hide Stat.Mean, Stat.IsMean, Averages.AllWait, Averages.AllWork, Averages.Blend;
  }

  // ----- running averages over all services

  /** In every reachable state the running averages over all services are the weighted sums of the
      daily means of the n days closed: the first two days weigh 1/2^(n-1), day i after them
      1/2^(n-i); the last action of a run divides them by n. */
  lemma RunningAverages(s: State, clock: nat -> Times)
    requires Reachable(s)
    ensures var x := SheetOf(s, clock); var n := |s.sh.hist.closed|;
            && |x.closed| == n && (StageOf(s.disp) == Done ==> n > 0)
            && var divisor := if StageOf(s.disp) == Done then n as real else 1.0;
            && x.overall.avgWait == Averages.Weighted(Averages.DailyWaits(x.closed), n, n) / divisor
            && x.overall.avgWork == Averages.Weighted(Averages.DailyWorks(x.closed), n, n) / divisor
  {
    hide *;
    ReachableSums(s, clock);
    var x := SheetOf(s, clock);
    SumsParts(s, x);
    Averages.BlendClosedForm(Averages.DailyWaits(x.closed));
    Averages.BlendClosedForm(Averages.DailyWorks(x.closed));
    BlendOpen(StageOf(s.disp), x);
  }

  lemma BlendOpen(stage: Stage, x: Sheet)
    requires BlendOk(stage, x) && (stage == Done ==> x.closed != [])
    ensures |Averages.DailyWaits(x.closed)| == |Averages.DailyWorks(x.closed)| == |x.closed|
    ensures var divisor := if stage == Done then |x.closed| as real else 1.0;
            && x.overall.avgWait == Averages.Blend(Averages.DailyWaits(x.closed)) / divisor
            && x.overall.avgWork == Averages.Blend(Averages.DailyWorks(x.closed)) / divisor
  {
    hide Averages.Blend, Stat.Mean, Averages.AllWait, Averages.AllWork;
  }
}
