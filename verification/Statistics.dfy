/** The statistics block: the increments of the operators and the dispenser's daily reset, close
    and final normalisation.  The counters are proved against the functions of module Office
    that the protocol uses; the averages are followed over all days of a run. */
module Statistics {
  import opened Office
  import Queue = TicketQueue
  import Desks = DeskTable

  datatype ServiceStats = ServiceStats(
    provided: nat, notProvided: nat, daily: nat,
    dayServed: real, dayNotServed: real,                        // per day elapsed
    wait: real, work: real,                                     // totals of the day
    dayWait: real, dayWork: real, avgWait: real, avgWork: real) // averages of the day and of the run

  const EMPTY := ServiceStats(0, 0, 0, 0.0, 0.0, 0.0, 0.0, 0.0, 0.0, 0.0, 0.0)

  /** The averages over all services, and the second counter of services provided. */
  datatype Overall = Overall(
    erogated: nat,
    dayServed: real, dayProvided: real, dayNotProvided: real,   // per day elapsed
    dayPauses: real,                                            // per operator active today
    dayWait: real, dayWork: real, avgWait: real, avgWork: real) // averages of the day and of the run

  const NOTHING := Overall(0, 0.0, 0.0, 0.0, 0.0, 0.0, 0.0, 0.0, 0.0)

  /** One entry per service. */
  type Block = b: seq<ServiceStats> | |b| == SERVICES witness [EMPTY, EMPTY, EMPTY, EMPTY, EMPTY, EMPTY]

  /** One completed session: how long the user waited and how long the service took. */
  datatype Session = Session(service: Service, wait: real, work: real)

  // ----- what each operation does to the services

  function Served(b: Block, x: Session): Block {
    var v := b[x.service-1];
    b[x.service-1 := v.(daily := v.daily + 1, provided := v.provided + 1,
                        wait := v.wait + x.wait, work := v.work + x.work)]
  }

  function Unserved(b: Block, q: seq<Ticket>): Block
    decreases |q|
  {
    if q == [] then b
    else
      var v := b[q[0].service-1];
      Unserved(b[q[0].service-1 := v.(notProvided := v.notProvided + 1)], q[1..])
  }

  function Cleared(v: ServiceStats): ServiceStats {
    v.(daily := 0, wait := 0.0, work := 0.0, dayServed := 0.0, dayNotServed := 0.0, dayWait := 0.0, dayWork := 0.0)
  }

  function ResetAll(b: Block): Block {
    [Cleared(b[0]), Cleared(b[1]), Cleared(b[2]), Cleared(b[3]), Cleared(b[4]), Cleared(b[5])]
  }

  function Mean(total: real, n: nat): real { if n > 0 then total / n as real else 0.0 }

  /** x is the mean of n values that add up to total, 0 when there are none. */
  predicate IsMean(x: real, total: real, n: nat) { if n > 0 then x * n as real == total else x == 0.0 }

  lemma MeanIsMean(total: real, n: nat)
    ensures IsMean(Mean(total, n), total, n)
  {
    if n > 0 { TimesBack(total, n as real); }
  }

  lemma TimesBack(x: real, n: real)
    requires n != 0.0
    ensures x / n * n == x
  {
  }

  /** The value before_wait_val has after the first i services: the daily average stored before
      this close by the last of them that served anybody, 0 when none did. */
  function CarriedWait(b: Block, i: nat): real
    requires i <= SERVICES
  {
    if i == 0 then 0.0 else if b[i-1].daily > 0 then b[i-1].dayWait else CarriedWait(b, i - 1)
  }

  function CarriedWork(b: Block, i: nat): real
    requires i <= SERVICES
  {
    if i == 0 then 0.0 else if b[i-1].daily > 0 then b[i-1].dayWork else CarriedWork(b, i - 1)
  }

  function Halved(sum: real, carried: real): real { if carried != 0.0 then sum / 2.0 else sum }

  /** The i-th service after the close of day number `day`. */
  function Averaged(b: Block, i: nat, day: nat): ServiceStats
    requires i < SERVICES
  {
    var v := b[i];
    var wait, work := Mean(v.wait, v.daily), Mean(v.work, v.daily);
    v.(dayServed := v.provided as real / (day + 1) as real,
       dayNotServed := v.notProvided as real / (day + 1) as real,
       dayWait := wait, dayWork := work,
       avgWait := Halved(v.avgWait + wait, CarriedWait(b, i + 1)),
       avgWork := Halved(v.avgWork + work, CarriedWork(b, i + 1)))
  }

  /** The day's figures of a service: averages per day elapsed, and means over its sessions today. */
  lemma AveragedFigures(b: Block, i: nat, day: nat)
    requires i < SERVICES
    ensures var v, r, n := b[i], Averaged(b, i, day), (day + 1) as real;
            && r.dayServed * n == v.provided as real && r.dayNotServed * n == v.notProvided as real
            && IsMean(r.dayWait, v.wait, v.daily) && IsMean(r.dayWork, v.work, v.daily)
            && r.provided == v.provided && r.notProvided == v.notProvided && r.daily == v.daily
            && r.wait == v.wait && r.work == v.work
  {
    MeanIsMean(b[i].wait, b[i].daily);
    MeanIsMean(b[i].work, b[i].daily);
    hide Mean, IsMean, CarriedWait, CarriedWork;
    TimesBack(b[i].provided as real, (day + 1) as real);
    TimesBack(b[i].notProvided as real, (day + 1) as real);
  }

  function AverageAll(b: Block, day: nat): Block {
    [Averaged(b, 0, day), Averaged(b, 1, day), Averaged(b, 2, day),
     Averaged(b, 3, day), Averaged(b, 4, day), Averaged(b, 5, day)]
  }

  function Final(b: Block, days: nat): (r: Block)
    ensures forall i :: 0 <= i < SERVICES ==>
              r[i] == if days == 0 then b[i]
                      else b[i].(avgWait := b[i].avgWait / days as real, avgWork := b[i].avgWork / days as real)
  {
    if days == 0 then b
    else seq(SERVICES, i requires 0 <= i < SERVICES =>
               b[i].(avgWait := b[i].avgWait / days as real, avgWork := b[i].avgWork / days as real))
  }

  // ----- and to the overall averages

  /** The day's waiting times of the first i services. */
  function WaitOf(b: Block, i: nat): real
    requires i <= SERVICES
  {
    if i == 0 then 0.0 else WaitOf(b, i - 1) + b[i-1].wait
  }

  function WorkOf(b: Block, i: nat): real
    requires i <= SERVICES
  {
    if i == 0 then 0.0 else WorkOf(b, i - 1) + b[i-1].work
  }

  /** The running average after one more day: on every day but the first it is halved. */
  function Blended(avg: real, today: real, day: nat): real {
    if day != 0 then (avg + today) / 2.0 else avg + today
  }

  /** The close of day number c.currentDay. */
  function OverallClosed(o: Overall, b: Block, c: Counters, waiting: nat): Overall {
    var n := (c.currentDay + 1) as real;
    var wait, work := Mean(WaitOf(b, SERVICES), c.dailyAll), Mean(WorkOf(b, SERVICES), c.dailyAll);
    o.(dayServed := c.usersAll as real / n, dayProvided := c.providedAll as real / n,
       dayNotProvided := (c.notProvidedAll + waiting) as real / n, dayPauses := Mean(c.pauses as real, c.active),
       dayWait := wait, dayWork := work,
       avgWait := Blended(o.avgWait, wait, c.currentDay), avgWork := Blended(o.avgWork, work, c.currentDay))
  }

  /** What the overall figures of a closed day are: averages per day elapsed, means over the day's
      sessions, pauses per active operator, and the running averages, halved but on the first day. */
  lemma OverallFigures(o: Overall, b: Block, c: Counters, waiting: nat)
    ensures var r, n := OverallClosed(o, b, c, waiting), (c.currentDay + 1) as real;
            && r.dayServed * n == c.usersAll as real && r.dayProvided * n == c.providedAll as real
            && r.dayNotProvided * n == (c.notProvidedAll + waiting) as real
            && IsMean(r.dayPauses, c.pauses as real, c.active)
            && IsMean(r.dayWait, b[0].wait + b[1].wait + b[2].wait + b[3].wait + b[4].wait + b[5].wait, c.dailyAll)
            && IsMean(r.dayWork, b[0].work + b[1].work + b[2].work + b[3].work + b[4].work + b[5].work, c.dailyAll)
            && (c.currentDay == 0 ==> r.avgWait == o.avgWait + r.dayWait && r.avgWork == o.avgWork + r.dayWork)
            && (c.currentDay > 0 ==>
                  2.0 * r.avgWait == o.avgWait + r.dayWait && 2.0 * r.avgWork == o.avgWork + r.dayWork)
            && r.erogated == o.erogated
  {
    var n := (c.currentDay + 1) as real;
    AllSix(b);
    MeanIsMean(c.pauses as real, c.active);
    MeanIsMean(WaitOf(b, SERVICES), c.dailyAll);
    MeanIsMean(WorkOf(b, SERVICES), c.dailyAll);
    hide Mean, IsMean, WaitOf, WorkOf;
    TimesBack(c.usersAll as real, n);
    TimesBack(c.providedAll as real, n);
    TimesBack((c.notProvidedAll + waiting) as real, n);
  }

  lemma AllSix(b: Block)
    ensures WaitOf(b, SERVICES) == b[0].wait + b[1].wait + b[2].wait + b[3].wait + b[4].wait + b[5].wait
    ensures WorkOf(b, SERVICES) == b[0].work + b[1].work + b[2].work + b[3].work + b[4].work + b[5].work
  {
    assert WaitOf(b, 1) == b[0].wait && WorkOf(b, 1) == b[0].work;
    assert WaitOf(b, 3) == b[0].wait + b[1].wait + b[2].wait && WorkOf(b, 3) == b[0].work + b[1].work + b[2].work;
    assert WaitOf(b, 5) == WaitOf(b, 3) + b[3].wait + b[4].wait && WorkOf(b, 5) == WorkOf(b, 3) + b[3].work + b[4].work;
  }

  /** Only one field depends on the tickets left. */
  lemma OnlyNotProvidedWaits(o: Overall, b: Block, c: Counters, waiting: nat)
    ensures var notProvided := (c.notProvidedAll + waiting) as real / (c.currentDay + 1) as real;
            OverallClosed(o, b, c, waiting) == OverallClosed(o, b, c, 0).(dayNotProvided := notProvided)
  {
  }

  function OverallFinal(o: Overall, days: nat): Overall {
    if days == 0 then o else o.(avgWait := o.avgWait / days as real, avgWork := o.avgWork / days as real)
  }

  /** One step of the closing walk. */
  lemma WalkUnfolds(c: Counters, b: Block, q: seq<Ticket>)
    ensures q == [] ==> Walked(c, q) == c && Unserved(b, q) == b
    ensures q != [] ==>
              Walked(c, q) == Walked(c.(notProvided := Bump(c.notProvided, q[0].service),
                                        notProvidedAll := c.notProvidedAll + 1,
                                        notServedDay := c.notServedDay + 1), q[1..])
    ensures q != [] ==>
              var v := b[q[0].service-1];
              Unserved(b, q) == Unserved(b[q[0].service-1 := v.(notProvided := v.notProvided + 1)], q[1..])
  {
  }

  // ----- the class

  class StatsBlock {
    const service: array<ServiceStats>
    const ratios: array<real>
    var usersAll: nat
    var providedAll: nat
    var notProvidedAll: nat
    var dailyAll: nat
    var notServedDay: nat
    var active: nat
    var activeAll: nat
    var pauses: nat
    var pausesAll: nat
    var currentDay: nat
    var overall: Overall

    predicate Valid()
      reads this
    {
      service.Length == SERVICES
    }

    function Services(): Block
      reads this, service
      requires Valid()
    {
      service[..]
    }

    /** The counters the protocol works on. */
    function Abstract(): Counters
      reads this, service
      requires Valid()
    {
      Counters([service[0].daily, service[1].daily, service[2].daily,
                service[3].daily, service[4].daily, service[5].daily],
               [service[0].provided, service[1].provided, service[2].provided,
                service[3].provided, service[4].provided, service[5].provided],
               [service[0].notProvided, service[1].notProvided, service[2].notProvided,
                service[3].notProvided, service[4].notProvided, service[5].notProvided],
               dailyAll, providedAll, usersAll, notProvidedAll, notServedDay,
               active, pauses, activeAll, pausesAll, currentDay)
    }

    /** initStats in a fresh, zero-filled segment. */
    constructor (days: nat, seats: nat)
      ensures Valid() && fresh(service) && fresh(ratios) && ratios.Length == days * seats
      ensures Abstract() == BLANK && overall == NOTHING && forall i :: 0 <= i < SERVICES ==> Services()[i] == EMPTY
    {
      service := new ServiceStats[SERVICES](_ => EMPTY);
      ratios := new real[days * seats](_ => 0.0);
      usersAll, providedAll, notProvidedAll, dailyAll := 0, 0, 0, 0;
      notServedDay, active, activeAll, pauses, pausesAll, currentDay := 0, 0, 0, 0, 0, 0;
      overall := NOTHING;
    }

    /** aggiorna_statistiche, inside its critical section. */
    method ServiceDone(x: Session)
      requires Valid()
      modifies this`usersAll, this`dailyAll, this`providedAll, this`overall, service
      ensures Valid() && Services() == Served(old(Services()), x)
      ensures Abstract() == Provided(old(Abstract()), x.service)
      ensures forall i :: 0 <= i < SERVICES ==>
                var v := old(Services())[i];
                Services()[i] == if i + 1 != x.service then v
                                 else v.(daily := v.daily + 1, provided := v.provided + 1,
                                         wait := v.wait + x.wait, work := v.work + x.work)
      ensures usersAll == old(usersAll) + 1 && dailyAll == old(dailyAll) + 1 && providedAll == old(providedAll) + 1
      ensures overall == old(overall).(erogated := old(overall).erogated + 1)
    {
      var k := x.service - 1;
      service[k] := service[k].(daily := service[k].daily + 1);
      service[k] := service[k].(provided := service[k].provided + 1);
      service[k] := service[k].(wait := service[k].wait + x.wait);
      service[k] := service[k].(work := service[k].work + x.work);
      usersAll := usersAll + 1;
      overall := overall.(erogated := overall.erogated + 1);
      dailyAll := dailyAll + 1;
      providedAll := providedAll + 1;
    }

    /** The increment of an operator that has reserved a desk, inside its critical section. */
    method CountActive()
      requires Valid()
      modifies this`active
      ensures Abstract() == old(Abstract()).(active := old(Abstract()).active + 1)
    {
      active := active + 1;
    }

    /** The increment of an operator that goes on a pause, inside its critical section. */
    method CountPause()
      requires Valid()
      modifies this`pauses, this`pausesAll
      ensures Abstract() == TookPause(old(Abstract()))
    {
      pauses := pauses + 1;
      pausesAll := pausesAll + 1;
    }

    /** resetStatisticheGiornaliere */
    method ResetDaily()
      requires Valid()
      modifies this`dailyAll, this`notServedDay, this`pauses, this`active, this`overall, service
      ensures Valid() && Services() == ResetAll(old(Services()))
      ensures Abstract() == DayReset(old(Abstract()))
      ensures overall == old(overall).(dayWait := 0.0, dayWork := 0.0, dayPauses := 0.0)
    {
      dailyAll := 0;
      notServedDay := 0;
      overall := overall.(dayWait := 0.0, dayWork := 0.0);
      pauses := 0;
      overall := overall.(dayPauses := 0.0);
      for i := 0 to SERVICES
        modifies service
        invariant forall j :: 0 <= j < i ==> service[j] == Cleared(old(service[j]))
        invariant forall j :: i <= j < SERVICES ==> service[j] == old(service[j])
      {
        service[i] := Cleared(service[i]);
      }
      active := 0;
      assert Abstract().daily == ZEROES;
      assert Abstract().provided == old(Abstract().provided) && Abstract().notProvided == old(Abstract().notProvided);
    }

    /** The row of operator/desk ratios of the current day. */
    method WriteRatios(d: Desks.DeskTable)
      requires Valid() && (currentDay + 1) * d.desks.Length <= ratios.Length
      modifies ratios
      ensures var base := currentDay * d.desks.Length;
              && 0 <= base <= base + d.desks.Length <= ratios.Length
              && ratios[base..base+d.desks.Length] == RatioRow(d.desks[..], active)
              && ratios[..base] == old(ratios[..base])
              && ratios[base+d.desks.Length..] == old(ratios[base+d.desks.Length..])
      ensures forall k :: 0 <= k < d.desks.Length ==>
                IsMean(ratios[currentDay * d.desks.Length..][k], d.desks[k].occupied as real, active)
    {
      var n := d.desks.Length;
      var base := currentDay * n;
      assert (currentDay + 1) * n == base + n;
      var ratio := 0.0;
      for k := 0 to n
        invariant active == 0 ==> ratio == 0.0
        invariant forall j :: 0 <= j < k ==> ratios[base..base+n][j] == RatioRow(d.desks[..], active)[j]
        invariant forall j :: 0 <= j < base ==> ratios[j] == old(ratios[j])
        invariant forall j :: base + n <= j < ratios.Length ==> ratios[j] == old(ratios[j])
      {
        if active > 0 {
          ratio := d.desks[k].occupied as real / active as real;
        }
        ratios[base + k] := ratio;
      }
      assert ratios[base..base+n] == RatioRow(d.desks[..], active);
      forall k | 0 <= k < n ensures IsMean(ratios[base..][k], d.desks[k].occupied as real, active) {
        assert ratios[base..][k] == ratios[base..base+n][k];
        RatioEntry(d.desks[..], active, k);
      }
    }

    /** The walk along the links of the ticket queue.  It takes as many steps as tickets wait:
        the break on -1 is never the reason it ends. */
    method CountWaiting(q: Queue.TicketQueue) returns (steps: nat)
      requires Valid() && q.Valid()
      modifies this`notProvidedAll, this`notServedDay, service
      ensures Valid() && steps == |q.Tickets()|
      ensures Abstract() == Walked(old(Abstract()), q.Tickets())
      ensures Services() == Unserved(old(Services()), q.Tickets())
    {
      hide Walked, Unserved;
      steps := 0;
      var nextValid := q.first;
      ghost var tickets := q.Tickets();
      for i := 0 to q.count
        invariant Valid() && steps == i
        invariant i < |tickets| ==> nextValid == q.order[i]
        invariant Walked(Abstract(), tickets[i..]) == Walked(old(Abstract()), tickets)
        invariant Unserved(Services(), tickets[i..]) == Unserved(old(Services()), tickets)
      {
        assert Queue.Placed(q.slots[..], q.order, i) && tickets[i] == Queue.TicketAt(q.slots[..], q.order, i);
        assert tickets[i..][0] == tickets[i] && tickets[i..][1..] == tickets[i+1..];
        WalkUnfolds(Abstract(), Services(), tickets[i..]);
        if nextValid == -1 { break; }
        CountOne(q.slots[nextValid].service);
        nextValid := q.slots[nextValid].next;
        steps := steps + 1;
      }
      assert tickets[|tickets|..] == [];
      WalkUnfolds(Abstract(), Services(), []);
    }

    method CountOne(s: Service)
      requires Valid()
      modifies this`notProvidedAll, this`notServedDay, service
      ensures Valid()
      ensures var c := old(Abstract());
              Abstract() == c.(notProvided := Bump(c.notProvided, s), notProvidedAll := c.notProvidedAll + 1,
                               notServedDay := c.notServedDay + 1)
      ensures var b := old(Services());
              Services() == b[s-1 := b[s-1].(notProvided := b[s-1].notProvided + 1)]
    {
      service[s-1] := service[s-1].(notProvided := service[s-1].notProvided + 1);
      notProvidedAll := notProvidedAll + 1;
      notServedDay := notServedDay + 1;
    }

    /** The per-service averages; the two carried values live across the iterations. */
    method AverageServices()
      requires Valid()
      modifies service
      ensures Valid() && Services() == AverageAll(old(Services()), currentDay)
      ensures Abstract() == old(Abstract())
    {
      ghost var was := Services();
      var carriedWait, carriedWork := 0.0, 0.0;
      for i := 0 to SERVICES
        invariant Valid() && carriedWait == CarriedWait(was, i) && carriedWork == CarriedWork(was, i)
        invariant forall j :: 0 <= j < i ==> service[j] == Averaged(was, j, currentDay)
        invariant forall j :: i <= j < SERVICES ==> service[j] == was[j]
      {
        var v := service[i];
        v := v.(dayServed := v.provided as real / (currentDay + 1) as real);
        v := v.(dayNotServed := v.notProvided as real / (currentDay + 1) as real);
        if v.daily > 0 {
          carriedWait := v.dayWait;
          carriedWork := v.dayWork;
          v := v.(dayWait := v.wait / v.daily as real, dayWork := v.work / v.daily as real);
        } else {
          v := v.(dayWait := 0.0, dayWork := 0.0);
        }
        v := v.(avgWait := v.avgWait + v.dayWait, avgWork := v.avgWork + v.dayWork);
        if carriedWait != 0.0 {
          v := v.(avgWait := v.avgWait / 2.0);
        }
        if carriedWork != 0.0 {
          v := v.(avgWork := v.avgWork / 2.0);
        }
        service[i] := v;
      }
    }

    /** The overall averages of the day and the totals of operators and pauses. */
    method AverageOverall()
      requires Valid()
      modifies this`overall, this`activeAll, this`pausesAll
      ensures Abstract() == old(Abstract()).(activeAll := old(activeAll) + active, pausesAll := old(pausesAll) + pauses)
      ensures overall == OverallClosed(old(overall), Services(), old(Abstract()), 0)
                           .(dayNotProvided := old(overall).dayNotProvided)
    {
      var n := (currentDay + 1) as real;
      overall := overall.(dayServed := usersAll as real / n, dayProvided := providedAll as real / n);
      if dailyAll > 0 {
        var wait, work := 0.0, 0.0;
        for i := 0 to SERVICES
          invariant wait == WaitOf(Services(), i) && work == WorkOf(Services(), i)
        {
          wait := wait + service[i].wait;
          work := work + service[i].work;
        }
        overall := overall.(dayWait := wait / dailyAll as real, dayWork := work / dailyAll as real);
      } else {
        overall := overall.(dayWait := 0.0, dayWork := 0.0);
      }
      overall := overall.(avgWait := overall.avgWait + overall.dayWait, avgWork := overall.avgWork + overall.dayWork);
      if currentDay != 0 {
        overall := overall.(avgWait := overall.avgWait / 2.0, avgWork := overall.avgWork / 2.0);
      }
      activeAll := activeAll + active;
      pausesAll := pausesAll + pauses;
      overall := overall.(dayPauses := if active > 0 then pauses as real / active as real else 0.0);
    }

    /** aggiornaStatisticheGiornaliere */
    method CloseDay(q: Queue.TicketQueue, d: Desks.DeskTable)
      requires Valid() && q.Valid() && (currentDay + 1) * d.desks.Length <= ratios.Length
      modifies this`notProvidedAll, this`notServedDay, this`activeAll, this`pausesAll, this`currentDay, this`overall
      modifies service, ratios
      ensures Valid() && Abstract() == Closed(old(Abstract()), q.Tickets())
      ensures Services() == AverageAll(Unserved(old(Services()), q.Tickets()), old(currentDay))
      ensures overall == OverallClosed(old(overall), old(Services()), old(Abstract()), |q.Tickets()|)
      ensures var base := old(currentDay) * d.desks.Length;
              && 0 <= base <= base + d.desks.Length <= ratios.Length
              && ratios[base..base+d.desks.Length] == RatioRow(d.desks[..], active)
              && ratios[..base] == old(ratios[..base])
              && ratios[base+d.desks.Length..] == old(ratios[base+d.desks.Length..])
    {
      hide Walked, Unserved, AverageAll, RatioRow, OverallClosed;
      OnlyNotProvidedWaits(overall, Services(), Abstract(), |q.Tickets()|);
      AverageOverall();
      WriteRatios(d);
      WalkCounts(Abstract(), q.Tickets());
      var steps := CountWaiting(q);
      overall := overall.(dayNotProvided := notProvidedAll as real / (currentDay + 1) as real);
      AverageServices();
      currentDay := currentDay + 1;
    }

    /** aggiornaStatisticheFinali */
    method Finish()
      requires Valid()
      modifies this`overall, service
      ensures Valid() && Services() == Final(old(Services()), currentDay) && Abstract() == old(Abstract())
      ensures overall == OverallFinal(old(overall), currentDay)
    {
      if currentDay <= 0 { return; }
      overall := overall.(avgWait := overall.avgWait / currentDay as real);
      overall := overall.(avgWork := overall.avgWork / currentDay as real);
      for i := 0 to SERVICES
        invariant Valid() && overall == OverallFinal(old(overall), currentDay)
        invariant forall j :: 0 <= j < i ==> service[j] == Final(old(Services()), currentDay)[j]
        invariant forall j :: i <= j < SERVICES ==> service[j] == old(service[j])
      {
        service[i] := service[i].(avgWait := service[i].avgWait / currentDay as real);
        service[i] := service[i].(avgWork := service[i].avgWork / currentDay as real);
      }
    }
  }
}
