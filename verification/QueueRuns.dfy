/** Whole runs of the ticket queue over many days, on the bounded sequence that class
    TicketQueue refines: every run is a sequence of inserts, serves and day-end clears. */
module QueueRuns {
  import opened Office

  datatype Command = Insert(service: Service, user: int, time: int) | Serve(service: Service) | Clear

  /** The tickets issued and served on one day, and those the clear threw away. */
  datatype DayLog = DayLog(issued: seq<Ticket>, served: seq<Ticket>, left: seq<Ticket>)

  /** The queue, the next identifier, today's tickets so far and the days before. */
  datatype Book = Book(queue: seq<Ticket>, nextId: nat, issued: seq<Ticket>, served: seq<Ticket>, past: seq<DayLog>)

  const FRESH := Book([], 1, [], [], [])

  function Do(cap: nat, b: Book, c: Command): Book {
    match c
    case Insert(s, user, time) =>
      if |b.queue| == cap then b
      else
        var t := Ticket(b.nextId, s, user, time);
        b.(queue := b.queue + [t], nextId := b.nextId + 1, issued := b.issued + [t])
    case Serve(s) =>
      var k := FirstOf(b.queue, s);
      if k < |b.queue| then b.(queue := Without(b.queue, k), served := b.served + [b.queue[k]]) else b
    case Clear =>
      Book([], b.nextId, [], [], b.past + [DayLog(b.issued, b.served, b.queue)])
  }

  function Replay(cap: nat, cs: seq<Command>): Book {
    if cs == [] then FRESH else Do(cap, Replay(cap, cs[..|cs|-1]), cs[|cs|-1])
  }

  /** The tickets of one service, in order. */
  function Only(q: seq<Ticket>, s: Service): seq<Ticket> {
    if q == [] then [] else (if q[0].service == s then [q[0]] else []) + Only(q[1..], s)
  }

  predicate Increasing(q: seq<Ticket>) { forall j, k :: 0 <= j < k < |q| ==> q[j].id < q[k].id }

  predicate Within(q: seq<Ticket>, lo: nat, hi: nat) { forall j :: 0 <= j < |q| ==> lo <= q[j].id < hi }

  /** Per service the tickets issued are exactly those served, in that order, followed by those
      that remain, in that order. */
  predicate FirstComeFirstServed(issued: seq<Ticket>, served: seq<Ticket>, rest: seq<Ticket>) {
    forall s: Service :: Only(issued, s) == Only(served, s) + Only(rest, s)
  }

  // ----- filtering

  lemma {:induction false} OnlyConcat(p: seq<Ticket>, q: seq<Ticket>, s: Service)
    ensures Only(p + q, s) == Only(p, s) + Only(q, s)
  {
    if p == [] {
      assert p + q == q;
    } else {
      var h := if p[0].service == s then [p[0]] else [];
      assert (p + q)[0] == p[0] && (p + q)[1..] == p[1..] + q;
      OnlyConcat(p[1..], q, s);
      assert Only(p + q, s) == h + (Only(p[1..], s) + Only(q, s));
    }
  }

  /** Removing the first ticket of service v takes the head off the tickets of v and leaves the
      others alone. */
  lemma OnlyWithout(q: seq<Ticket>, v: Service, s: Service)
    requires FirstOf(q, v) < |q|
    ensures var k := FirstOf(q, v);
            Only(q, s) == (if s == v then [q[k]] else []) + Only(Without(q, k), s)
  {
    var k := FirstOf(q, v);
    assert q == q[..k] + ([q[k]] + q[k+1..]);
    OnlyConcat(q[..k], q[k+1..], s);
    OnlyConcat(q[..k], [q[k]] + q[k+1..], s);
    OnlyConcat([q[k]], q[k+1..], s);
    NoneOnly(q[..k], v);
  }

  lemma {:induction false} NoneOnly(q: seq<Ticket>, v: Service)
    requires forall j :: 0 <= j < |q| ==> q[j].service != v
    ensures Only(q, v) == []
  {
    if q != [] {
      NoneOnly(q[1..], v);
    }
  }

  lemma {:induction false} OnlyIncreasing(q: seq<Ticket>, s: Service)
    requires Increasing(q)
    ensures Increasing(Only(q, s))
    ensures forall j :: 0 <= j < |Only(q, s)| ==> Only(q, s)[j] in q && Only(q, s)[j].service == s
  {
    if q != [] {
      OnlyIncreasing(q[1..], s);
    }
  }

  // ----- the invariant of a run

  /** Where the identifiers of a closed day lie. */
  predicate DayOk(d: DayLog, lo: nat, hi: nat) {
    Increasing(d.issued) && Within(d.issued, lo, hi) && FirstComeFirstServed(d.issued, d.served, d.left)
  }

  /** cuts[j] is the first identifier of day j. */
  predicate BookOk(b: Book, cuts: seq<nat>) {
    && |cuts| == |b.past| + 1
    && cuts[0] == 1 && cuts[|b.past|] <= b.nextId
    && (forall j :: 0 <= j < |b.past| ==> cuts[j] <= cuts[j+1] && DayOk(b.past[j], cuts[j], cuts[j+1]))
    && Increasing(b.issued) && Within(b.issued, cuts[|b.past|], b.nextId)
    && Increasing(b.queue) && Within(b.queue, cuts[|b.past|], b.nextId)
    && FirstComeFirstServed(b.issued, b.served, b.queue)
  }

  function Cuts(cap: nat, cs: seq<Command>): seq<nat> {
    if cs == [] then [1]
    else Cuts(cap, cs[..|cs|-1]) + if cs[|cs|-1].Clear? then [Replay(cap, cs[..|cs|-1]).nextId] else []
  }

  lemma InsertKeeps(cap: nat, b: Book, cuts: seq<nat>, c: Command)
    requires BookOk(b, cuts) && c.Insert? && |b.queue| != cap
    ensures BookOk(Do(cap, b, c), cuts)
  {
    var t := Ticket(b.nextId, c.service, c.user, c.time);
    forall s: Service ensures Only(b.issued + [t], s) == Only(b.served, s) + Only(b.queue + [t], s) {
      OnlyConcat(b.issued, [t], s);
      OnlyConcat(b.queue, [t], s);
    }
  }

  lemma ServeKeeps(cap: nat, b: Book, cuts: seq<nat>, c: Command)
    requires BookOk(b, cuts) && c.Serve? && FirstOf(b.queue, c.service) < |b.queue|
    ensures BookOk(Do(cap, b, c), cuts)
  {
    var k := FirstOf(b.queue, c.service);
    ServeServesFirst(b.issued, b.served, b.queue, c.service);
    WithoutKeeps(b.queue, k, cuts[|b.past|], b.nextId);
    hide FirstComeFirstServed, FirstOf, Increasing, Within, Without, DayOk;
  }

  lemma ServeServesFirst(issued: seq<Ticket>, served: seq<Ticket>, queue: seq<Ticket>, v: Service)
    requires FirstComeFirstServed(issued, served, queue) && FirstOf(queue, v) < |queue|
    ensures var k := FirstOf(queue, v); FirstComeFirstServed(issued, served + [queue[k]], Without(queue, k))
  {
    var k := FirstOf(queue, v);
    forall s: Service ensures Only(issued, s) == Only(served + [queue[k]], s) + Only(Without(queue, k), s) {
      OnlyConcat(served, [queue[k]], s);
      OnlyWithout(queue, v, s);
      hide FirstOf, Without;
    }
    hide Only, FirstOf, Without;
  }

  lemma WithoutKeeps(q: seq<Ticket>, k: nat, lo: nat, hi: nat)
    requires k < |q| && Increasing(q) && Within(q, lo, hi)
    ensures Increasing(Without(q, k)) && Within(Without(q, k), lo, hi)
  {
  }

  lemma ClearKeeps(cap: nat, b: Book, cuts: seq<nat>)
    requires BookOk(b, cuts)
    ensures BookOk(Do(cap, b, Clear), cuts + [b.nextId])
  {
  }

  lemma {:induction false} RunsAreOk(cap: nat, cs: seq<Command>)
    ensures BookOk(Replay(cap, cs), Cuts(cap, cs))
  {
    if cs != [] {
      var before, c := cs[..|cs|-1], cs[|cs|-1];
      RunsAreOk(cap, before);
      var b := Replay(cap, before);
      match c
      case Insert(_, _, _) => if |b.queue| != cap { InsertKeeps(cap, b, Cuts(cap, before), c); }
      case Serve(_) => if FirstOf(b.queue, c.service) < |b.queue| { ServeKeeps(cap, b, Cuts(cap, before), c); }
      case Clear => ClearKeeps(cap, b, Cuts(cap, before));
    }
  }

  lemma {:induction false} CutsIncrease(b: Book, cuts: seq<nat>, i: nat, j: nat)
    requires BookOk(b, cuts) && i <= j <= |b.past|
    ensures cuts[i] <= cuts[j]
  {
    if i < j {
      CutsIncrease(b, cuts, i, j - 1);
    }
  }

  // ----- what holds of every run

  /** Head to tail, the waiting tickets have strictly increasing identifiers, all issued today. */
  lemma QueueInOrder(cap: nat, cs: seq<Command>, j: nat, k: nat)
    requires j < k < |Replay(cap, cs).queue|
    ensures 0 < Replay(cap, cs).queue[j].id < Replay(cap, cs).queue[k].id < Replay(cap, cs).nextId
  {
    RunsAreOk(cap, cs);
    var b, cuts := Replay(cap, cs), Cuts(cap, cs);
    CutsIncrease(b, cuts, 0, |b.past|);
  }

  /** Day d of a run: a closed day, or today with the queue as what is left. */
  function DayOf(b: Book, d: nat): DayLog
    requires d <= |b.past|
  {
    if d < |b.past| then b.past[d] else DayLog(b.issued, b.served, b.queue)
  }

  lemma DayIsOk(cap: nat, cs: seq<Command>, d: nat)
    requires d <= |Replay(cap, cs).past|
    ensures var b, cuts := Replay(cap, cs), Cuts(cap, cs);
            && BookOk(b, cuts)
            && DayOk(DayOf(b, d), cuts[d], if d < |b.past| then cuts[d+1] else b.nextId)
  {
    RunsAreOk(cap, cs);
  }

  /** No identifier is issued on two different days, today among them. */
  lemma IdsNeverRepeat(cap: nat, cs: seq<Command>, i: nat, j: nat, t: Ticket, u: Ticket)
    requires i < j <= |Replay(cap, cs).past|
    requires t in DayOf(Replay(cap, cs), i).issued && u in DayOf(Replay(cap, cs), j).issued
    ensures t.id < u.id
  {
    DayIsOk(cap, cs, i);
    DayIsOk(cap, cs, j);
    CutsIncrease(Replay(cap, cs), Cuts(cap, cs), i + 1, j);
  }

  /** On every day, today among them, and for every service: what was served is the beginning, and
      what was thrown away or still waits the end, of what was issued; so services are in increasing
      order of identifier and nothing is lost or invented. */
  lemma ServedInOrder(cap: nat, cs: seq<Command>, d: nat, s: Service)
    requires d <= |Replay(cap, cs).past|
    ensures var day := DayOf(Replay(cap, cs), d);
            && Only(day.issued, s) == Only(day.served, s) + Only(day.left, s)
            && Increasing(Only(day.issued, s)) && Increasing(Only(day.served, s))
  {
    DayIsOk(cap, cs, d);
    var day := DayOf(Replay(cap, cs), d);
    OnlyIncreasing(day.issued, s);
    assert forall j :: 0 <= j < |Only(day.served, s)| ==> Only(day.issued, s)[j] == Only(day.served, s)[j];
  }

  /** The queue never exceeds its capacity. */
  lemma {:induction false} NeverOverfull(cap: nat, cs: seq<Command>)
    ensures |Replay(cap, cs).queue| <= cap
  {
    if cs != [] {
      NeverOverfull(cap, cs[..|cs|-1]);
    }
  }
}
