/** The values every part of the model shares: services, tickets, desks, and the abstract
    operations on the ticket list and on the desk table.  The classes in TicketQueue.dfy and
    DeskTable.dfy are proved against these functions, and the steps in Processes.dfy use the
    same functions. */
module Office {

  function One(b: bool): nat { if b then 1 else 0 }

  // ----- services and per-service counters

  const SERVICES := 6

  type Service = s: int | 1 <= s <= SERVICES witness 1

  type PerService = p: seq<nat> | |p| == SERVICES witness [0, 0, 0, 0, 0, 0]

  const ZEROES: PerService := [0, 0, 0, 0, 0, 0]

  function Of(p: PerService, s: Service): nat { p[s-1] }

  function Bump(p: PerService, s: Service): PerService { p[s-1 := p[s-1] + 1] }

  function Take(p: PerService, s: Service): PerService
    requires Of(p, s) > 0
  {
    p[s-1 := p[s-1] - 1]
  }

  function Total(p: PerService): nat { p[0] + p[1] + p[2] + p[3] + p[4] + p[5] }

  lemma TotalBump(p: PerService, s: Service)
    ensures Total(Bump(p, s)) == Total(p) + 1
  {
  }

  // ----- machine integers

  const TWO32 := 0x1_0000_0000
  const TWO64 := 0x1_0000_0000_0000_0000

  /** Storing a size_t in a C int keeps the low 32 bits; only "is it zero" is used. */
  predicate ZeroAsInt(id: nat) { id % TWO32 == 0 }

  // ----- the ticket list

  datatype Ticket = Ticket(id: nat, service: Service, user: int, time: int)

  /** How many tickets of service s wait. */
  function CountOf(q: seq<Ticket>, s: Service): nat {
    if q == [] then 0 else (if q[0].service == s then 1 else 0) + CountOf(q[1..], s)
  }

  /** Position k holds the first ticket of service v. */
  predicate FirstTicket(q: seq<Ticket>, v: Service, k: nat) {
    k < |q| && q[k].service == v && forall j :: 0 <= j < k ==> q[j].service != v
  }

  /** Position of the first ticket of service s, |q| when there is none. */
  function FirstOf(q: seq<Ticket>, s: Service): (k: nat)
    ensures k <= |q|
    ensures forall j :: 0 <= j < k ==> q[j].service != s
    ensures k < |q| ==> q[k].service == s
  {
    if q == [] || q[0].service == s then 0 else 1 + FirstOf(q[1..], s)
  }

  function Without<T>(q: seq<T>, k: nat): (r: seq<T>)
    requires k < |q|
    ensures |r| == |q| - 1
    ensures forall j :: 0 <= j < |r| ==> r[j] == q[if j < k then j else j + 1]
  {
    q[..k] + q[k+1..]
  }

  lemma {:induction false} CountConcat(p: seq<Ticket>, q: seq<Ticket>, s: Service)
    ensures CountOf(p + q, s) == CountOf(p, s) + CountOf(q, s)
  {
    if p == [] {
      assert p + q == q;
    } else {
      assert (p + q)[1..] == p[1..] + q;
      CountConcat(p[1..], q, s);
    }
  }

  lemma CountAppend(q: seq<Ticket>, t: Ticket, s: Service)
    ensures CountOf(q + [t], s) == CountOf(q, s) + if t.service == s then 1 else 0
  {
    CountConcat(q, [t], s);
  }

  lemma CountWithout(q: seq<Ticket>, k: nat, s: Service)
    requires k < |q|
    ensures CountOf(Without(q, k), s) == CountOf(q, s) - if q[k].service == s then 1 else 0
  {
    assert q == q[..k] + ([q[k]] + q[k+1..]);
    CountConcat(q[..k], q[k+1..], s);
    CountConcat(q[..k], [q[k]] + q[k+1..], s);
    CountConcat([q[k]], q[k+1..], s);
  }

  /** A ticket of service s is found exactly when one waits. */
  lemma {:induction false} FoundIffCounted(q: seq<Ticket>, s: Service)
    ensures FirstOf(q, s) < |q| <==> CountOf(q, s) > 0
  {
    if q != [] && q[0].service != s {
      FoundIffCounted(q[1..], s);
    }
  }

  /** Every waiting ticket is counted under exactly one service. */
  lemma {:induction false} CountsCoverQueue(q: seq<Ticket>)
    ensures CountOf(q, 1) + CountOf(q, 2) + CountOf(q, 3) + CountOf(q, 4) + CountOf(q, 5) + CountOf(q, 6) == |q|
  {
    if q != [] {
      CountsCoverQueue(q[1..]);
      var s := q[0].service;
      assert s == 1 || s == 2 || s == 3 || s == 4 || s == 5 || s == 6;
    }
  }

  // ----- the desk table

  /** owner 0 means free; a desk's identifier is its position plus one. */
  datatype Desk = Desk(service: int, owner: nat, occupied: nat)

  predicate FreeFor(d: Desk, s: Service) { d.owner == 0 && d.service == s }

  function FreeCount(ds: seq<Desk>, s: Service): nat {
    if ds == [] then 0 else (if FreeFor(ds[0], s) then 1 else 0) + FreeCount(ds[1..], s)
  }

  function OccupiedSum(ds: seq<Desk>): nat {
    if ds == [] then 0 else ds[0].occupied + OccupiedSum(ds[1..])
  }

  function FirstFree(ds: seq<Desk>, s: Service): (k: nat)
    ensures k <= |ds|
    ensures forall j :: 0 <= j < k ==> !FreeFor(ds[j], s)
    ensures k < |ds| ==> FreeFor(ds[k], s)
  {
    if ds == [] || FreeFor(ds[0], s) then 0 else 1 + FirstFree(ds[1..], s)
  }

  /** The desk identifier a reservation yields, 0 when no desk of the service is free. */
  function ReservedId(ds: seq<Desk>, s: Service): nat {
    var k := FirstFree(ds, s);
    if k < |ds| then k + 1 else 0
  }

  function Reserved(ds: seq<Desk>, s: Service, pid: nat): (r: seq<Desk>)
    ensures |r| == |ds|
  {
    var k := FirstFree(ds, s);
    if k < |ds| then ds[k := Desk(ds[k].service, pid, ds[k].occupied + 1)] else ds
  }

  /** The ownership check of a release: unsigned id - 1 excludes identifier 0. */
  predicate Releases(ds: seq<Desk>, id: nat, pid: nat) {
    1 <= id <= |ds| && ds[id-1].owner == pid
  }

  function Released(ds: seq<Desk>, id: nat, pid: nat): (r: seq<Desk>)
    ensures |r| == |ds|
  {
    if Releases(ds, id, pid) then ds[id-1 := ds[id-1].(owner := 0)] else ds
  }

  function Vacated(ds: seq<Desk>): (r: seq<Desk>)
    ensures |r| == |ds|
    ensures forall k :: 0 <= k < |ds| ==> r[k] == ds[k].(occupied := 0)
  {
    seq(|ds|, k requires 0 <= k < |ds| => ds[k].(occupied := 0))
  }

  function Reassigned(ds: seq<Desk>, arr: seq<int>): (r: seq<Desk>)
    requires |arr| == |ds|
    ensures |r| == |ds|
    ensures forall k :: 0 <= k < |ds| ==> r[k] == ds[k].(service := arr[k])
  {
    seq(|ds|, k requires 0 <= k < |ds| => ds[k].(service := arr[k]))
  }

  /** How many entries of arr name service s. */
  function Assigned(arr: seq<int>, s: Service): nat {
    if arr == [] then 0 else (if arr[0] == s then 1 else 0) + Assigned(arr[1..], s)
  }

  function AssignedAll(arr: seq<int>): PerService {
    [Assigned(arr, 1), Assigned(arr, 2), Assigned(arr, 3), Assigned(arr, 4), Assigned(arr, 5), Assigned(arr, 6)]
  }

  lemma {:induction false} FreeCountUpdate(ds: seq<Desk>, k: nat, d: Desk, s: Service)
    requires k < |ds|
    ensures FreeCount(ds[k := d], s)
         == FreeCount(ds, s) - (if FreeFor(ds[k], s) then 1 else 0) + (if FreeFor(d, s) then 1 else 0)
  {
    if k == 0 {
      assert ds[k := d][1..] == ds[1..];
    } else {
      assert ds[k := d][1..] == ds[1..][k-1 := d];
      FreeCountUpdate(ds[1..], k - 1, d, s);
    }
  }

  lemma {:induction false} OccupiedSumUpdate(ds: seq<Desk>, k: nat, d: Desk)
    requires k < |ds|
    ensures OccupiedSum(ds[k := d]) == OccupiedSum(ds) - ds[k].occupied + d.occupied
  {
    if k == 0 {
      assert ds[k := d][1..] == ds[1..];
    } else {
      assert ds[k := d][1..] == ds[1..][k-1 := d];
      OccupiedSumUpdate(ds[1..], k - 1, d);
    }
  }

  lemma {:induction false} FreeIffCounted(ds: seq<Desk>, s: Service)
    ensures FirstFree(ds, s) < |ds| <==> FreeCount(ds, s) > 0
  {
    if ds != [] && !FreeFor(ds[0], s) {
      FreeIffCounted(ds[1..], s);
    }
  }

  /** Reserving removes one free desk of exactly the requested service and is counted once,
      or finds none and changes nothing. */
  lemma ReservedCounts(ds: seq<Desk>, s: Service, pid: nat, t: Service)
    requires pid != 0
    ensures var n := if FreeCount(ds, s) > 0 then 1 else 0;
            && FreeCount(Reserved(ds, s, pid), t) == FreeCount(ds, t) - (if t == s then n else 0)
            && OccupiedSum(Reserved(ds, s, pid)) == OccupiedSum(ds) + n
            && (ReservedId(ds, s) != 0 <==> n == 1)
  {
    FreeIffCounted(ds, s);
    var k := FirstFree(ds, s);
    if k < |ds| {
      var d := Desk(ds[k].service, pid, ds[k].occupied + 1);
      FreeCountUpdate(ds, k, d, t);
      OccupiedSumUpdate(ds, k, d);
    }
  }

  /** A release by the owner frees one desk of that desk's service; any other release changes nothing. */
  lemma ReleasedCounts(ds: seq<Desk>, id: nat, pid: nat, t: Service)
    requires pid != 0
    ensures OccupiedSum(Released(ds, id, pid)) == OccupiedSum(ds)
    ensures FreeCount(Released(ds, id, pid), t)
         == FreeCount(ds, t) + if Releases(ds, id, pid) && ds[id-1].service == t then 1 else 0
  {
    if Releases(ds, id, pid) {
      var d := ds[id-1].(owner := 0);
      FreeCountUpdate(ds, id - 1, d, t);
      OccupiedSumUpdate(ds, id - 1, d);
    }
  }

  lemma {:induction false} VacatedCounts(ds: seq<Desk>, s: Service)
    ensures OccupiedSum(Vacated(ds)) == 0
    ensures FreeCount(Vacated(ds), s) == FreeCount(ds, s)
  {
    if ds != [] {
      assert Vacated(ds)[1..] == Vacated(ds[1..]);
      VacatedCounts(ds[1..], s);
    }
  }

  /** With every desk free, reassigning services leaves as many free desks of a service as
      the assignment names. */
  lemma {:induction false} ReassignedCounts(ds: seq<Desk>, arr: seq<int>, s: Service)
    requires |arr| == |ds|
    requires forall k :: 0 <= k < |ds| ==> ds[k].owner == 0
    ensures FreeCount(Reassigned(ds, arr), s) == Assigned(arr, s)
    ensures OccupiedSum(Reassigned(ds, arr)) == OccupiedSum(ds)
  {
    if ds != [] {
      assert Reassigned(ds, arr)[1..] == Reassigned(ds[1..], arr[1..]);
      ReassignedCounts(ds[1..], arr[1..], s);
    }
  }

  // ----- the counters of the statistics block

  /** The integer part of the statistics: per service and overall. */
  datatype Counters = Counters(
    daily: PerService, provided: PerService, notProvided: PerService,
    dailyAll: nat, providedAll: nat, usersAll: nat, notProvidedAll: nat, notServedDay: nat,
    active: nat, pauses: nat, activeAll: nat, pausesAll: nat, currentDay: nat)

  const BLANK := Counters(ZEROES, ZEROES, ZEROES, 0, 0, 0, 0, 0, 0, 0, 0, 0, 0)

  /** One completed service, written back from a value c read earlier. */
  function Provided(c: Counters, s: Service): Counters {
    c.(daily := Bump(c.daily, s), provided := Bump(c.provided, s),
       dailyAll := c.dailyAll + 1, providedAll := c.providedAll + 1, usersAll := c.usersAll + 1)
  }

  /** One more pause, written back from a value c read earlier. */
  function TookPause(c: Counters): Counters { c.(pauses := c.pauses + 1, pausesAll := c.pausesAll + 1) }

  function DayReset(c: Counters): Counters {
    c.(daily := ZEROES, dailyAll := 0, notServedDay := 0, active := 0, pauses := 0)
  }

  /** The closing walk over the waiting tickets, one at a time from the head. */
  function Walked(c: Counters, q: seq<Ticket>): Counters
    decreases |q|
  {
    if q == [] then c
    else Walked(c.(notProvided := Bump(c.notProvided, q[0].service),
                   notProvidedAll := c.notProvidedAll + 1, notServedDay := c.notServedDay + 1), q[1..])
  }

  /** The close adds the day's pauses to the total a second time. */
  function Closed(c: Counters, q: seq<Ticket>): Counters {
    var w := Walked(c.(activeAll := c.activeAll + c.active, pausesAll := c.pausesAll + c.pauses), q);
    w.(currentDay := w.currentDay + 1)
  }

  /** The walk adds, for each service, exactly the tickets of that service still waiting, and
      to the day's unserved users exactly the length of the queue; it touches nothing else. */
  lemma {:induction false} WalkCounts(c: Counters, q: seq<Ticket>)
    ensures var w := Walked(c, q);
            && (forall s: Service :: Of(w.notProvided, s) == Of(c.notProvided, s) + CountOf(q, s))
            && w == c.(notProvided := w.notProvided, notProvidedAll := c.notProvidedAll + |q|,
                       notServedDay := c.notServedDay + |q|)
    decreases |q|
  {
    if q != [] {
      WalkCounts(c.(notProvided := Bump(c.notProvided, q[0].service),
                    notProvidedAll := c.notProvidedAll + 1, notServedDay := c.notServedDay + 1), q[1..]);
    }
  }

  /** The same for the close: it also adds the day's operators and pauses to their totals. */
  lemma CloseCounts(c: Counters, q: seq<Ticket>)
    ensures var w := Closed(c, q);
            && (forall s: Service :: Of(w.notProvided, s) == Of(c.notProvided, s) + CountOf(q, s))
            && w == c.(notProvided := w.notProvided, notProvidedAll := c.notProvidedAll + |q|,
                       notServedDay := c.notServedDay + |q|, activeAll := c.activeAll + c.active,
                       pausesAll := c.pausesAll + c.pauses, currentDay := c.currentDay + 1)
  {
    hide Walked, CountOf, Of;
    var d := c.(activeAll := c.activeAll + c.active, pausesAll := c.pausesAll + c.pauses);
    WalkCounts(d, q);
  }

  // ----- the operator/desk ratios

  function SumReal(r: seq<real>): real {
    if r == [] then 0.0 else r[0] + SumReal(r[1..])
  }

  /** One row of the ratio table: 0 for every desk on a day without active operators. */
  function RatioRow(ds: seq<Desk>, active: nat): (r: seq<real>)
    ensures |r| == |ds|
  {
    seq(|ds|, k requires 0 <= k < |ds| => if active > 0 then ds[k].occupied as real / active as real else 0.0)
  }

  /** Entry k is about desk k: times the active operators it is that desk's occupations. */
  lemma RatioEntry(ds: seq<Desk>, active: nat, k: nat)
    requires k < |ds|
    ensures active > 0 ==> RatioRow(ds, active)[k] * active as real == ds[k].occupied as real
    ensures active == 0 ==> RatioRow(ds, active)[k] == 0.0
  {
    if active > 0 {
      var a := active as real;
      assert RatioRow(ds, active)[k] == ds[k].occupied as real / a;
    }
  }

  lemma {:induction false} RowSum(ds: seq<Desk>, active: nat)
    ensures SumReal(RatioRow(ds, active)) == if active > 0 then OccupiedSum(ds) as real / active as real else 0.0
  {
    if ds != [] {
      assert RatioRow(ds, active)[1..] == RatioRow(ds[1..], active);
      RowSum(ds[1..], active);
    }
  }
}
