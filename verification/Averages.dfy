/** The averages over a whole run.  Per service, the reset of the morning clears the very values
    that would make the close of the day halve the running sums, so that the final division by
    the number of days yields the mean of the daily averages.  The averages over all services are
    halved every day but the first and then divided all the same. */
module Averages {
  import opened Office
  import opened Statistics

  /** A day as the statistics see it: the sessions completed and the tickets left. */
  datatype DayWork = DayWork(sessions: seq<Session>, left: seq<Ticket>)

  const NEW: Block := [EMPTY, EMPTY, EMPTY, EMPTY, EMPTY, EMPTY]

  function ServedAll(b: Block, xs: seq<Session>): Block {
    if xs == [] then b else Served(ServedAll(b, xs[..|xs|-1]), xs[|xs|-1])
  }

  /** Reset (not on the first day), sessions, walk, averages. */
  function OneDay(b: Block, w: DayWork, day: nat): Block {
    AverageAll(Unserved(ServedAll(if day == 0 then b else ResetAll(b), w.sessions), w.left), day)
  }

  function AllDays(days: seq<DayWork>): Block {
    if days == [] then NEW else OneDay(AllDays(days[..|days|-1]), days[|days|-1], |days| - 1)
  }

  // ----- what the averages should be

  function Sessions(xs: seq<Session>, s: Service): nat {
    if xs == [] then 0 else Sessions(xs[..|xs|-1], s) + if xs[|xs|-1].service == s then 1 else 0
  }

  function WaitSum(xs: seq<Session>, s: Service): real {
    if xs == [] then 0.0 else WaitSum(xs[..|xs|-1], s) + if xs[|xs|-1].service == s then xs[|xs|-1].wait else 0.0
  }

  function WorkSum(xs: seq<Session>, s: Service): real {
    if xs == [] then 0.0 else WorkSum(xs[..|xs|-1], s) + if xs[|xs|-1].service == s then xs[|xs|-1].work else 0.0
  }

  /** Sum over the days of the mean waiting time of each day. */
  function WaitMeans(days: seq<DayWork>, s: Service): real {
    if days == [] then 0.0
    else
      var xs := days[|days|-1].sessions;
      WaitMeans(days[..|days|-1], s) + Mean(WaitSum(xs, s), Sessions(xs, s))
  }

  function WorkMeans(days: seq<DayWork>, s: Service): real {
    if days == [] then 0.0
    else
      var xs := days[|days|-1].sessions;
      WorkMeans(days[..|days|-1], s) + Mean(WorkSum(xs, s), Sessions(xs, s))
  }

  // ----- one day

  /** No daily average is left over from the day before. */
  predicate Fresh(b: Block) { forall i :: 0 <= i < SERVICES ==> b[i].dayWait == 0.0 && b[i].dayWork == 0.0 }

  lemma {:induction false} NothingCarried(b: Block, i: nat)
    requires Fresh(b) && i <= SERVICES
    ensures CarriedWait(b, i) == 0.0 && CarriedWork(b, i) == 0.0
  {
    if i > 0 {
      NothingCarried(b, i - 1);
    }
  }

  lemma {:induction false} SessionsAddUp(b: Block, xs: seq<Session>, s: Service)
    ensures var v, w := b[s-1], ServedAll(b, xs)[s-1];
            && w.daily == v.daily + Sessions(xs, s) && w.provided == v.provided + Sessions(xs, s)
            && w.notProvided == v.notProvided
            && w.wait == v.wait + WaitSum(xs, s) && w.work == v.work + WorkSum(xs, s)
            && w.dayWait == v.dayWait && w.dayWork == v.dayWork
            && w.dayServed == v.dayServed && w.dayNotServed == v.dayNotServed
            && w.avgWait == v.avgWait && w.avgWork == v.avgWork
  {
    if xs != [] {
      SessionsAddUp(b, xs[..|xs|-1], s);
    }
  }

  lemma {:induction false} WalkSparesTimes(b: Block, q: seq<Ticket>, s: Service)
    ensures Unserved(b, q)[s-1] == b[s-1].(notProvided := Unserved(b, q)[s-1].notProvided)
    decreases |q|
  {
    if q != [] {
      var v := b[q[0].service-1];
      WalkSparesTimes(b[q[0].service-1 := v.(notProvided := v.notProvided + 1)], q[1..], s);
    }
  }

  /** A day that starts from clean daily values adds its own means to the running sums. */
  lemma CleanDay(m: Block, w: DayWork, day: nat, s: Service)
    requires Fresh(m)
    requires m[s-1].daily == 0 && m[s-1].wait == 0.0 && m[s-1].work == 0.0
    ensures var r := AverageAll(Unserved(ServedAll(m, w.sessions), w.left), day)[s-1];
            && r.avgWait == m[s-1].avgWait + Mean(WaitSum(w.sessions, s), Sessions(w.sessions, s))
            && r.avgWork == m[s-1].avgWork + Mean(WorkSum(w.sessions, s), Sessions(w.sessions, s))
  {
    var a := ServedAll(m, w.sessions);
    var b := Unserved(a, w.left);
    forall i | 0 <= i < SERVICES ensures b[i].dayWait == 0.0 && b[i].dayWork == 0.0 {
      SessionsAddUp(m, w.sessions, i + 1);
      WalkSparesTimes(a, w.left, i + 1);
    }
    NothingCarried(b, s);
    SessionsAddUp(m, w.sessions, s);
    WalkSparesTimes(a, w.left, s);
    AverageAt(b, day, s);
  }

  lemma AverageAt(b: Block, day: nat, s: Service)
    ensures AverageAll(b, day)[s-1] == Averaged(b, s - 1, day)
    ensures ResetAll(b)[s-1] == Cleared(b[s-1])
  {
  }

  lemma ResetIsFresh(b: Block, s: Service)
    ensures Fresh(ResetAll(b))
    ensures var m := ResetAll(b)[s-1];
            m.daily == 0 && m.wait == 0.0 && m.work == 0.0 && m.avgWait == b[s-1].avgWait && m.avgWork == b[s-1].avgWork
  {
  }

  // ----- all days

  lemma {:induction false} SumsOfMeans(days: seq<DayWork>, s: Service)
    ensures AllDays(days)[s-1].avgWait == WaitMeans(days, s)
    ensures AllDays(days)[s-1].avgWork == WorkMeans(days, s)
  {
    if days != [] {
      var before, w, n := days[..|days|-1], days[|days|-1], |days| - 1;
      SumsOfMeans(before, s);
      var b := AllDays(before);
      ResetIsFresh(b, s);
      var m := if n == 0 then b else ResetAll(b);
      assert Fresh(m) && m[s-1].daily == 0 && m[s-1].wait == 0.0 && m[s-1].work == 0.0;
      CleanDay(m, w, n, s);
      hide AverageAll, Unserved, ServedAll, ResetAll, Mean, WaitSum, WorkSum, Sessions;
    }
  }

  /** At the end of a run each service's averages are the means, over all days, of the averages
      of the day, days without a session counting as 0. */
  lemma FinalAveragesAreMeans(days: seq<DayWork>, s: Service)
    requires days != []
    ensures var r := Final(AllDays(days), |days|)[s-1];
            r.avgWait == WaitMeans(days, s) / |days| as real && r.avgWork == WorkMeans(days, s) / |days| as real
  {
    SumsOfMeans(days, s);
  }

  // ----- the figures of the day

  /** Sessions of service s on all these days. */
  function AllSessions(days: seq<DayWork>, s: Service): nat {
    if days == [] then 0 else AllSessions(days[..|days|-1], s) + Sessions(days[|days|-1].sessions, s)
  }

  /** Tickets of service s left on all these days. */
  function AllLeft(days: seq<DayWork>, s: Service): nat {
    if days == [] then 0 else AllLeft(days[..|days|-1], s) + CountOf(days[|days|-1].left, s)
  }

  lemma {:induction false} LeftAddUp(b: Block, q: seq<Ticket>, s: Service)
    ensures Unserved(b, q)[s-1].notProvided == b[s-1].notProvided + CountOf(q, s)
    decreases |q|
  {
    if q != [] {
      var v := b[q[0].service-1];
      LeftAddUp(b[q[0].service-1 := v.(notProvided := v.notProvided + 1)], q[1..], s);
    }
  }

  /** One close: the day's figures of a service from what was done that day and before. */
  lemma CloseFigures(m: Block, w: DayWork, day: nat, s: Service)
    requires m[s-1].daily == 0 && m[s-1].wait == 0.0 && m[s-1].work == 0.0
    ensures var r, n := AverageAll(Unserved(ServedAll(m, w.sessions), w.left), day)[s-1], (day + 1) as real;
            && r.provided == m[s-1].provided + Sessions(w.sessions, s)
            && r.notProvided == m[s-1].notProvided + CountOf(w.left, s)
            && r.dayServed * n == r.provided as real && r.dayNotServed * n == r.notProvided as real
            && r.dayWait == Mean(WaitSum(w.sessions, s), Sessions(w.sessions, s))
            && r.dayWork == Mean(WorkSum(w.sessions, s), Sessions(w.sessions, s))
  {
    var a := ServedAll(m, w.sessions);
    var b := Unserved(a, w.left);
    SessionsAddUp(m, w.sessions, s);
    LeftAddUp(a, w.left, s);
    WalkSparesTimes(a, w.left, s);
    AverageAt(b, day, s);
    hide ServedAll, Unserved, AverageAll, CarriedWait, CarriedWork;
    TimesBack(b[s-1].provided as real, (day + 1) as real);
    TimesBack(b[s-1].notProvided as real, (day + 1) as real);
  }

  /** What the sessions of the last day start from. */
  function MorningOf(days: seq<DayWork>): Block
    requires days != []
  {
    var b := AllDays(days[..|days|-1]); if |days| == 1 then b else ResetAll(b)
  }

  lemma MorningIsClean(days: seq<DayWork>, s: Service)
    requires days != []
    ensures var m, b, w := MorningOf(days)[s-1], AllDays(days[..|days|-1])[s-1], days[|days|-1];
            && m.daily == 0 && m.wait == 0.0 && m.work == 0.0
            && m.provided == b.provided && m.notProvided == b.notProvided
            && AllDays(days) == AverageAll(Unserved(ServedAll(MorningOf(days), w.sessions), w.left), |days| - 1)
  {
    hide AverageAll, Unserved, ServedAll;
    var b := AllDays(days[..|days|-1]);
    ResetSparesTotals(b, s);
    ResetIsFresh(b, s);
    hide ResetAll;
  }

  /** The totals are over all days. */
  lemma {:induction false} TotalsOfDays(days: seq<DayWork>, s: Service)
    ensures AllDays(days)[s-1].provided == AllSessions(days, s)
    ensures AllDays(days)[s-1].notProvided == AllLeft(days, s)
  {
    if days != [] {
      TotalsOfDays(days[..|days|-1], s);
      MorningIsClean(days, s);
      CloseFigures(MorningOf(days), days[|days|-1], |days| - 1, s);
      hide AverageAll, Unserved, ServedAll, MorningOf, Mean, WaitSum, WorkSum, Sessions, CountOf;
    }
  }

  /** After any number of days, for each service: the daily averages are the means of the last day's
      sessions, and the averages per day, times the days, the services provided and not provided. */
  lemma FiguresOfDays(days: seq<DayWork>, s: Service)
    requires days != []
    ensures var r, n, w := AllDays(days)[s-1], |days| as real, days[|days|-1];
            && r.provided == AllSessions(days, s) && r.notProvided == AllLeft(days, s)
            && r.dayServed * n == r.provided as real && r.dayNotServed * n == r.notProvided as real
            && IsMean(r.dayWait, WaitSum(w.sessions, s), Sessions(w.sessions, s))
            && IsMean(r.dayWork, WorkSum(w.sessions, s), Sessions(w.sessions, s))
  {
    hide *;
    TotalsOfDays(days, s);
    MorningIsClean(days, s);
    var xs := days[|days|-1].sessions;
    CloseFigures(MorningOf(days), days[|days|-1], |days| - 1, s);
    MeanIsMean(WaitSum(xs, s), Sessions(xs, s));
    MeanIsMean(WorkSum(xs, s), Sessions(xs, s));
  }

  lemma ResetSparesTotals(b: Block, s: Service)
    ensures ResetAll(b)[s-1].provided == b[s-1].provided && ResetAll(b)[s-1].notProvided == b[s-1].notProvided
  {
  }

  // ----- the averages over all services

  function AllWait(xs: seq<Session>): real { if xs == [] then 0.0 else AllWait(xs[..|xs|-1]) + xs[|xs|-1].wait }

  function AllWork(xs: seq<Session>): real { if xs == [] then 0.0 else AllWork(xs[..|xs|-1]) + xs[|xs|-1].work }

  /** The mean waiting time of each day. */
  function DailyWaits(days: seq<DayWork>): seq<real> {
    seq(|days|, i requires 0 <= i < |days| => Mean(AllWait(days[i].sessions), |days[i].sessions|))
  }

  function DailyWorks(days: seq<DayWork>): seq<real> {
    seq(|days|, i requires 0 <= i < |days| => Mean(AllWork(days[i].sessions), |days[i].sessions|))
  }

  /** What the running average has become after these daily averages. */
  function Blend(means: seq<real>): real {
    if means == [] then 0.0
    else Blended(Blend(means[..|means|-1]), means[|means|-1], |means| - 1)
  }

  function SumOf(means: seq<real>): real {
    if means == [] then 0.0 else SumOf(means[..|means|-1]) + means[|means|-1]
  }

  function Pow2(n: nat): (p: real)
    ensures p > 0.0
  {
    if n == 0 then 1.0 else 2.0 * Pow2(n - 1)
  }

  /** The first k means, mean i weighing 1 / 2^(n-i), the first two alike: n is their number. */
  function Weighted(means: seq<real>, n: nat, k: nat): real
    requires k <= n && k <= |means|
  {
    if k == 0 then 0.0
    else Weighted(means, n, k - 1) + means[k-1] / Pow2(if k == 1 then n - 1 else n - k + 1)
  }

  /** One more day halves all weights. */
  lemma {:induction false} WeightsHalve(means: seq<real>, n: nat, k: nat)
    requires k <= n < |means|
    ensures n > 0 ==> Weighted(means, n + 1, k) == Weighted(means[..n], n, k) / 2.0
  {
    if k > 0 {
      WeightsHalve(means, n, k - 1);
      var e := if k == 1 then n - 1 else n - k + 1;
      assert means[..n][k-1] == means[k-1];
      HalfWeight(means[k-1], e);
    }
  }

  lemma HalfWeight(x: real, e: nat)
    ensures x / Pow2(e + 1) == x / Pow2(e) / 2.0
  {
    var p := Pow2(e);
    assert Pow2(e + 1) == 2.0 * p;
  }

  /** The running average after n days: the first mean divided by 2^(n-1), and mean i, from the
      second one on, by 2^(n-i). */
  lemma {:induction false} BlendClosedForm(means: seq<real>)
    ensures Blend(means) == Weighted(means, |means|, |means|)
  {
    if means != [] {
      var n := |means| - 1;
      BlendClosedForm(means[..n]);
      if n > 0 {
        WeightsHalve(means, n, n);
        LastWeight(means, n);
      }
    }
  }

  lemma LastWeight(means: seq<real>, n: nat)
    requires 0 < n < |means|
    ensures Weighted(means, n + 1, n + 1) == Weighted(means, n + 1, n) + means[n] / 2.0
  {
    assert Pow2(1) == 2.0 * Pow2(0) == 2.0;
  }

  predicate NonNegative(means: seq<real>) { forall j :: 0 <= j < |means| ==> means[j] >= 0.0 }

  lemma {:induction false} SumOfNonNegative(means: seq<real>)
    requires NonNegative(means)
    ensures SumOf(means) >= 0.0
    ensures SumOf(means) == 0.0 <==> forall j :: 0 <= j < |means| ==> means[j] == 0.0
  {
    if means != [] {
      SumOfNonNegative(means[..|means|-1]);
      assert means == means[..|means|-1] + [means[|means|-1]];
    }
  }

  /** From the second day on the running average is at most half the sum. */
  lemma {:induction false} BlendAtMostHalf(means: seq<real>)
    requires NonNegative(means)
    ensures |means| <= 1 ==> Blend(means) == SumOf(means)
    ensures |means| >= 2 ==> Blend(means) <= SumOf(means) / 2.0
  {
    if means != [] {
      var before := means[..|means|-1];
      BlendAtMostHalf(before);
      SumOfNonNegative(before);
    }
  }

  /** The final overall average is the mean of the daily averages exactly for a run of one day and
      for one in which all of them are 0; otherwise it is at most half of it. */
  lemma OverallMeanExactly(means: seq<real>)
    requires NonNegative(means) && means != []
    ensures var n := |means| as real;
            && (Blend(means) / n == SumOf(means) / n
                <==> |means| == 1 || forall j :: 0 <= j < |means| ==> means[j] == 0.0)
            && (|means| >= 2 ==> Blend(means) / n <= SumOf(means) / n / 2.0)
  {
    BlendAtMostHalf(means);
    SumOfNonNegative(means);
    BlendNonNegative(means);
    var n, b, t := |means| as real, Blend(means), SumOf(means);
    assert b / n == t / n <==> b == t by { Quotients(b, t, n); }
    Quotients(b, t / 2.0, n);
  }

  lemma {:induction false} BlendNonNegative(means: seq<real>)
    requires NonNegative(means)
    ensures Blend(means) >= 0.0
  {
    if means != [] {
      BlendNonNegative(means[..|means|-1]);
    }
  }

  lemma Quotients(b: real, t: real, n: real)
    requires n > 0.0
    ensures b / n == t / n <==> b == t
    ensures b <= t ==> b / n <= t / n
    ensures t / 2.0 / n == t / n / 2.0
  {
    assert b == b / n * n && t == t / n * n;
  }

  /** The loop over the services adds up all sessions of the day. */
  lemma {:induction false} WaitsAddUp(m: Block, xs: seq<Session>)
    ensures WaitOf(ServedAll(m, xs), SERVICES) == WaitOf(m, SERVICES) + AllWait(xs)
    ensures WorkOf(ServedAll(m, xs), SERVICES) == WorkOf(m, SERVICES) + AllWork(xs)
  {
    if xs != [] {
      WaitsAddUp(m, xs[..|xs|-1]);
      OneMoreWait(ServedAll(m, xs[..|xs|-1]), xs[|xs|-1], SERVICES);
    }
  }

  lemma {:induction false} OneMoreWait(b: Block, x: Session, i: nat)
    requires i <= SERVICES
    ensures WaitOf(Served(b, x), i) == WaitOf(b, i) + if x.service <= i then x.wait else 0.0
    ensures WorkOf(Served(b, x), i) == WorkOf(b, i) + if x.service <= i then x.work else 0.0
  {
    if i > 0 {
      OneMoreWait(b, x, i - 1);
    }
  }

  lemma {:induction false} NoWaits(b: Block, i: nat)
    requires i <= SERVICES && forall j :: 0 <= j < SERVICES ==> b[j].wait == 0.0 && b[j].work == 0.0
    ensures WaitOf(b, i) == 0.0 && WorkOf(b, i) == 0.0
  {
    if i > 0 {
      NoWaits(b, i - 1);
    }
  }

  /** One more closed day. */
  lemma DailyMeansExtend(days: seq<DayWork>, w: DayWork)
    ensures Blend(DailyWaits(days + [w]))
         == Blended(Blend(DailyWaits(days)), Mean(AllWait(w.sessions), |w.sessions|), |days|)
    ensures Blend(DailyWorks(days + [w]))
         == Blended(Blend(DailyWorks(days)), Mean(AllWork(w.sessions), |w.sessions|), |days|)
  {
    assert DailyWaits(days + [w])[..|days|] == DailyWaits(days);
    assert DailyWorks(days + [w])[..|days|] == DailyWorks(days);
  }

  // ----- when a service's sum is halved

  /** Exactly when a service's sum is halved: the last service, up to and including it, that
      served somebody today still carries a daily average other than 0 from an earlier close. */
  lemma HalvedExactly(b: Block, i: nat, day: nat)
    requires i < SERVICES
    ensures var sum := b[i].avgWait + Mean(b[i].wait, b[i].daily);
            Averaged(b, i, day).avgWait == if exists k: nat :: k <= i && Leftover(b, k, i) then sum / 2.0 else sum
    ensures var sum := b[i].avgWork + Mean(b[i].work, b[i].daily);
            Averaged(b, i, day).avgWork == if exists k: nat :: k <= i && LeftoverWork(b, k, i) then sum / 2.0 else sum
  {
    CarriedFrom(b, i);
    CarriedWorkFrom(b, i);
  }

  /** Service k served somebody today, none after it up to i did, and its old average is not 0. */
  predicate Leftover(b: Block, k: nat, i: nat)
    requires k <= i < SERVICES
  {
    b[k].daily > 0 && b[k].dayWait != 0.0 && forall j :: k < j <= i ==> b[j].daily == 0
  }

  /** The same for the service times. */
  predicate LeftoverWork(b: Block, k: nat, i: nat)
    requires k <= i < SERVICES
  {
    b[k].daily > 0 && b[k].dayWork != 0.0 && forall j :: k < j <= i ==> b[j].daily == 0
  }

  lemma {:induction false} CarriedWorkFrom(b: Block, i: nat)
    requires i < SERVICES
    ensures CarriedWork(b, i + 1) != 0.0 <==> exists k: nat :: k <= i && LeftoverWork(b, k, i)
  {
    if b[i].daily > 0 {
      assert b[i].dayWork != 0.0 <==> LeftoverWork(b, i, i);
    } else if i > 0 {
      CarriedWorkFrom(b, i - 1);
      var h := i - 1;
      forall k: nat | k <= h ensures LeftoverWork(b, k, h) <==> LeftoverWork(b, k, i) {
      }
    }
  }

  lemma {:induction false} CarriedFrom(b: Block, i: nat)
    requires i < SERVICES
    ensures CarriedWait(b, i + 1) != 0.0 <==> exists k: nat :: k <= i && Leftover(b, k, i)
  {
    if b[i].daily > 0 {
      assert b[i].dayWait != 0.0 <==> Leftover(b, i, i);
    } else if i > 0 {
      CarriedFrom(b, i - 1);
      var h := i - 1;
      forall k: nat | k <= h ensures Leftover(b, k, h) <==> Leftover(b, k, i) {
      }
    }
  }
}
