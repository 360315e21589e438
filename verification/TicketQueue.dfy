/** The ticket queue of src/ufficio.c: a doubly linked list threaded through a fixed array,
    with a cursor to a free slot.  `order` lists the occupied slots from head to tail and
    `Tickets()` is the bounded sequence the queue stands for. */
module TicketQueue {
  import opened Office

  /** One entry of lista_ticket; id 0 marks a free slot, -1 ends a chain of links. */
  datatype Slot = Slot(id: nat, service: int, user: int, time: int, next: int, prev: int)

  predicate Distinct(order: seq<int>) {
    forall j, k :: 0 <= j < k < |order| ==> order[j] != order[k]
  }

  function NextOf(order: seq<int>, k: nat): int
    requires k < |order|
  {
    if k + 1 < |order| then order[k+1] else -1
  }

  function PrevOf(order: seq<int>, k: nat): int
    requires k < |order|
  {
    if k > 0 then order[k-1] else -1
  }

  /** The k-th slot of the order is occupied and linked to its neighbours. */
  ghost predicate Placed(a: seq<Slot>, order: seq<int>, k: nat)
    requires k < |order|
  {
    && 0 <= order[k] < |a|
    && a[order[k]].id != 0
    && 1 <= a[order[k]].service <= SERVICES
    && a[order[k]].next == NextOf(order, k)
    && a[order[k]].prev == PrevOf(order, k)
  }

  /** Links and occupancy of the slots agree with the order. */
  ghost predicate Linked(a: seq<Slot>, order: seq<int>) {
    && Distinct(order)
    && (forall k :: 0 <= k < |order| ==> Placed(a, order, k))
    && (forall p :: 0 <= p < |a| && a[p].id != 0 ==> p in order)
  }

  function TicketIn(x: Slot): Ticket
    requires 1 <= x.service <= SERVICES
  {
    Ticket(x.id, x.service, x.user, x.time)
  }

  ghost function View(a: seq<Slot>, order: seq<int>): (r: seq<Ticket>)
    requires Linked(a, order)
    ensures |r| == |order|
  {
    seq(|order|, k requires 0 <= k < |order| => TicketAt(a, order, k))
  }

  ghost function TicketAt(a: seq<Slot>, order: seq<int>, k: nat): Ticket
    requires k < |order| && Placed(a, order, k)
  {
    TicketIn(a[order[k]])
  }

  /** Fewer occupied slots than slots: one is free. */
  lemma {:induction false} FreeSlotExists(order: seq<int>, n: nat) returns (p: nat)
    requires (forall k :: 0 <= k < |order| ==> 0 <= order[k] < n) && Distinct(order) && |order| < n
    ensures p < n && p !in order
  {
    p := n - 1;
    if p in order {
      var k :| 0 <= k < |order| && order[k] == p;
      p := FreeSlotExists(Without(order, k), n - 1);
      forall j | 0 <= j < |order| ensures order[j] != p {
        if j != k {
          assert Without(order, k)[if j < k then j else j - 1] == order[j];
        }
      }
    }
  }

  /** The slots after appending slot f: its own links, and the old tail's next link. */
  ghost function Appended(a: seq<Slot>, order: seq<int>, f: nat, x: Slot): seq<Slot>
    requires f < |a| && (order != [] ==> 0 <= order[|order|-1] < |a|)
  {
    if order == [] then a[f := x]
    else var l := order[|order|-1]; a[f := x][l := a[f := x][l].(next := f)]
  }

  lemma AppendKeepsPlaced(a: seq<Slot>, order: seq<int>, f: nat, x: Slot, k: nat)
    requires k < |order| && Placed(a, order, k) && Placed(a, order, |order| - 1)
    requires Distinct(order) && f < |a| && a[f].id == 0
    ensures var c := Appended(a, order, f, x);
            && order[k] != f
            && Placed(c, order + [f], k)
            && TicketAt(c, order + [f], k) == TicketAt(a, order, k)
  {
  }

  lemma AppendKeepsLinked(a: seq<Slot>, order: seq<int>, f: nat, x: Slot)
    requires Linked(a, order) && f < |a| && a[f].id == 0
    requires order != [] ==> Placed(a, order, |order| - 1)
    requires x.id != 0 && 1 <= x.service <= SERVICES && x.next == -1
    requires x.prev == if order == [] then -1 else order[|order|-1]
    ensures var c := Appended(a, order, f, x);
            && Linked(c, order + [f])
            && View(c, order + [f]) == View(a, order) + [TicketIn(x)]
  {
    var c, o := Appended(a, order, f, x), order + [f];
    assert c[f] == x;
    assert Linked(c, o) by {
      assert Placed(c, o, |order|);
      forall k | 0 <= k < |order| ensures order[k] != f && Placed(c, o, k) {
        AppendKeepsPlaced(a, order, f, x, k);
      }
      forall p | 0 <= p < |c| && c[p].id != 0 ensures p in o {
        assert p != f ==> a[p].id != 0 && p in order;
      }
    }
    forall k | 0 <= k < |o| ensures View(c, o)[k] == (View(a, order) + [TicketIn(x)])[k] {
      if k < |order| {
        AppendKeepsPlaced(a, order, f, x, k);
      }
    }
  }

  /** The slots after removing the k-th of the order: its neighbours bridge it, it is blank. */
  ghost function Unlinked(a: seq<Slot>, order: seq<int>, k: nat, blank: Slot): seq<Slot>
    requires k < |order| && forall j :: 0 <= j < |order| ==> 0 <= order[j] < |a|
  {
    var b := if k > 0 then a[order[k-1] := a[order[k-1]].(next := NextOf(order, k))] else a;
    var c := if k + 1 < |order| then b[order[k+1] := b[order[k+1]].(prev := PrevOf(order, k))] else b;
    c[order[k] := blank]
  }

  lemma OrderInRange(a: seq<Slot>, order: seq<int>)
    requires Linked(a, order)
    ensures forall k :: 0 <= k < |order| ==> 0 <= order[k] < |a|
  {
    forall k | 0 <= k < |order| ensures 0 <= order[k] < |a| {
      assert Placed(a, order, k);
    }
  }

  lemma UnlinkKeepsPlaced(a: seq<Slot>, order: seq<int>, k: nat, blank: Slot, i: nat)
    requires Linked(a, order) && k < |order| && i < |order| && i != k
    requires forall j :: 0 <= j < |order| ==> 0 <= order[j] < |a|
    ensures var c, o := Unlinked(a, order, k, blank), Without(order, k);
            var j := if i < k then i else i - 1;
            && o[j] == order[i]
            && Placed(c, o, j)
            && TicketAt(c, o, j) == TicketAt(a, order, i)
  {
    assert Placed(a, order, i);
  }

  lemma UnlinkKeepsLinked(a: seq<Slot>, order: seq<int>, k: nat, blank: Slot)
    requires Linked(a, order) && k < |order| && blank.id == 0
    requires forall j :: 0 <= j < |order| ==> 0 <= order[j] < |a|
    ensures Linked(Unlinked(a, order, k, blank), Without(order, k))
  {
    var c, o := Unlinked(a, order, k, blank), Without(order, k);
    forall j | 0 <= j < |o| ensures Placed(c, o, j) {
      UnlinkKeepsPlaced(a, order, k, blank, if j < k then j else j + 1);
    }
    forall p | 0 <= p < |c| && c[p].id != 0 ensures p in o {
      assert p != order[k] && a[p].id != 0;
      var i :| 0 <= i < |order| && order[i] == p;
      UnlinkKeepsPlaced(a, order, k, blank, i);
    }
  }

  lemma UnlinkedView(a: seq<Slot>, order: seq<int>, k: nat, blank: Slot)
    requires Linked(a, order) && k < |order|
    requires forall j :: 0 <= j < |order| ==> 0 <= order[j] < |a|
    requires Linked(Unlinked(a, order, k, blank), Without(order, k))
    ensures View(Unlinked(a, order, k, blank), Without(order, k)) == Without(View(a, order), k)
  {
  }

  class TicketQueue {
    const slots: array<Slot>
    var first: int
    var last: int
    var nextFree: int
    var count: int
    var ticketId: nat         // the dispenser's next id, a size_t
    var permits: PerService   // one ticket semaphore per service
    ghost var order: seq<int>

    ghost predicate Valid()
      reads this, slots
    {
      && Linked(slots[..], order)
      && count == |order| <= slots.Length
      && first == (if order == [] then -1 else order[0])
      && last == (if order == [] then -1 else order[|order|-1])
      && (count < slots.Length ==> 0 <= nextFree < slots.Length && slots[nextFree].id == 0)
      && ticketId < TWO64
    }

    ghost function Tickets(): seq<Ticket>
      reads this, slots
      requires Valid()
    {
      View(slots[..], order)
    }

    /** initQueue */
    constructor (maxTicket: nat)
      ensures Valid() && fresh(slots) && slots.Length == maxTicket
      ensures Tickets() == [] && ticketId == 1 && permits == ZEROES
    {
      slots := new Slot[maxTicket](_ => Slot(0, 0, 0, 0, -1, -1));
      first, last, count, nextFree := -1, -1, 0, 0;
      ticketId := 1;
      permits := ZEROES;
      order := [];
    }

    /** insertTicket.  Full: nothing changes.  Otherwise the ticket goes to the tail and its
        service gets a permit.  The last case is the only failure: after the 64-bit counter has
        wrapped to 0 the slot taken still looks free and no permit is released. */
    method Insert(service: Service, user: int, time: int) returns (ret: nat)
      requires Valid()
      modifies this, slots
      ensures |old(Tickets())| == slots.Length ==>
                ret == 0 && unchanged(this) && unchanged(slots)
      ensures |old(Tickets())| < slots.Length && old(ticketId) != 0 ==>
                && ret == old(ticketId)
                && Valid()
                && Tickets() == old(Tickets()) + [Ticket(ret, service, user, time)]
                && permits == Bump(old(permits), service)
      ensures |old(Tickets())| < slots.Length && old(ticketId) == 0 ==>
                ret == 0 && count == old(count) + 1 && permits == old(permits) && !Valid()
      ensures |old(Tickets())| < slots.Length ==> ticketId == (old(ticketId) + 1) % TWO64
    {
      ret := 0;
      if count != slots.Length {
        ret := PlaceAtTail(service, user, time);
        if count != slots.Length {
          ghost var free: nat := last;
          if ret != 0 {
            OrderInRange(slots[..], order);
            free := FreeSlotExists(order, slots.Length);
            assert slots[..][free].id == 0;
          }
          ScanForFree(free);
        }
      }
      if ret != 0 {
        permits := Bump(permits, service);
      }
    }

    /** Fills the slot at the cursor, links it behind the tail and moves the tail to it. */
    method PlaceAtTail(service: Service, user: int, time: int) returns (ret: nat)
      requires Valid() && count != slots.Length
      modifies this, slots
      ensures ret == old(ticketId) && ticketId == (old(ticketId) + 1) % TWO64
      ensures count == old(count) + 1 == |order| && permits == old(permits)
      ensures 0 <= last < slots.Length && slots[last].id == ret
      ensures first == order[0] && last == order[|order|-1]
      ensures ret == 0 ==> !Placed(slots[..], order, |order| - 1)
      ensures ret != 0 ==> Linked(slots[..], order)
      ensures ret != 0 ==> View(slots[..], order) == old(Tickets()) + [Ticket(ret, service, user, time)]
    {
      ghost var was, ord := slots[..], order;
      assert ord != [] ==> Placed(was, ord, |ord| - 1);
      var f := nextFree;
      slots[f] := Slot(ticketId, service, user, time, -1, slots[f].prev);
      ticketId := (ticketId + 1) % TWO64;
      ret := slots[f].id;
      if count == 0 {
        first := f;
        slots[f] := slots[f].(prev := -1);
      } else {
        slots[last] := slots[last].(next := f);
        slots[f] := slots[f].(prev := last);
      }
      last := f;
      count := count + 1;
      order := order + [f];
      ghost var x := Slot(ret, service, user, time, -1, if ord == [] then -1 else ord[|ord|-1]);
      assert slots[..] == Appended(was, ord, f, x);
      if ret != 0 {
        AppendKeepsLinked(was, ord, f, x);
      } else {
        assert slots[..][f].id == 0;
      }
    }

    /** The circular scan for a free slot, started behind `last`.  It stops, within as many
        probes as there are slots, at the first free slot in cyclic order. */
    method ScanForFree(ghost free: nat)
      requires 0 <= last < slots.Length
      requires free < slots.Length && slots[free].id == 0
      modifies this`nextFree
      ensures 0 <= nextFree < slots.Length && slots[nextFree].id == 0
      ensures forall p :: 0 <= p < slots.Length
                && Steps(last, p, slots.Length) < Steps(last, nextFree, slots.Length)
                ==> slots[p].id != 0
    {
      var found := false;
      var i := (last + 1) % slots.Length;
      WrapsOnce(last, slots.Length);
      ghost var probes := 0;
      while !found
        invariant 0 <= i < slots.Length
        invariant 0 <= probes <= slots.Length
        invariant !found ==> probes < slots.Length
        invariant !found ==> Steps(last, i, slots.Length) == probes <= Steps(last, free, slots.Length)
        invariant !found ==>
                    forall p :: 0 <= p < slots.Length && Steps(last, p, slots.Length) < probes ==> slots[p].id != 0
        invariant found ==> 0 <= nextFree < slots.Length && slots[nextFree].id == 0
        invariant found ==>
                    forall p ::
                      0 <= p < slots.Length && Steps(last, p, slots.Length) < Steps(last, nextFree, slots.Length)
                      ==> slots[p].id != 0
        decreases slots.Length - probes, !found
      {
        if slots[i].id == 0 {
          nextFree := i;
          found := true;
        }
        WrapsOnce(i, slots.Length);
        i := (i + 1) % slots.Length;
        probes := probes + 1;
      }
    }

    /** serveTicket: the first ticket of the service leaves, wherever it stands, and the order
        of the others is kept.  With none of that service nothing changes and the caller's
        user and time stay as they were. */
    method Serve(service: Service, user0: int, time0: int) returns (ret: nat, user: int, time: int)
      requires Valid()
      modifies this, slots
      ensures Valid() && permits == old(permits) && ticketId == old(ticketId)
      ensures var q := old(Tickets()); var k := FirstOf(q, service);
              if k < |q| then
                && ret == q[k].id && ret != 0 && user == q[k].user && time == q[k].time
                && Tickets() == Without(q, k)
              else
                && ret == 0 && user == user0 && time == time0
                && Tickets() == q
    {
      ret, user, time := 0, user0, time0;
      var c := 0;
      var pos := first;
      ghost var q := Tickets();
      while ret == 0 && c < count
        invariant 0 <= c <= count && ret == 0 && user == user0 && time == time0
        invariant unchanged(this) && unchanged(slots)
        invariant c < count ==> pos == order[c]
        invariant c <= FirstOf(q, service)
        decreases count - c
      {
        assert Placed(slots[..], order, c) && q[c] == TicketAt(slots[..], order, c);
        if slots[pos].service == service {
          ret := slots[pos].id;
          user := slots[pos].user;
          time := slots[pos].time;
          assert c == FirstOf(q, service);
          Detach(pos, c);
          break;
        }
        assert c + 1 < count ==> Placed(slots[..], order, c + 1);
        c := c + 1;
        pos := slots[pos].next;
        if pos == -1 {
          break;
        }
      }
    }

    /** Bridges the neighbours of the slot at pos, empties it and points the cursor at it. */
    method Detach(pos: int, ghost k: nat)
      requires Valid() && k < |order| && order[k] == pos
      modifies this, slots
      ensures Valid() && Tickets() == Without(old(Tickets()), k)
      ensures permits == old(permits) && ticketId == old(ticketId)
    {
      ghost var was, ord, blank := slots[..], order, Slot(0, 0, 0, 0, -1, -1);
      OrderInRange(was, ord);
      UnlinkKeepsLinked(was, ord, k, blank);
      UnlinkedView(was, ord, k, blank);
      assert Placed(was, ord, k);
      var pred, next := slots[pos].prev, slots[pos].next;
      if pred != -1 {
        slots[pred] := slots[pred].(next := next);
      } else {
        first := next;
      }
      if next != -1 {
        slots[next] := slots[next].(prev := pred);
      } else {
        last := pred;
      }
      slots[pos] := Slot(0, 0, 0, 0, -1, -1);
      nextFree := pos;
      count := count - 1;
      order := Without(ord, k);
      assert slots[..] == Unlinked(was, ord, k, blank);
    }

    /** The queue part of clearTickets.  The semaphores are reset elsewhere. */
    method Clear()
      modifies this`first, this`last, this`count, this`nextFree, this`order, slots
      requires ticketId < TWO64
      ensures Valid() && Tickets() == [] && nextFree == 0
    {
      for i := 0 to slots.Length
        invariant forall p :: 0 <= p < i ==> slots[p].id == 0
      {
        slots[i] := slots[i].(id := 0, service := 0, user := 0, time := 0, next := -1);
      }
      count, first, last, nextFree := 0, -1, -1, 0;
      order := [];
    }
  }

  /** Probes needed from behind `from` to reach p, going round. */
  function Steps(from: int, p: int, n: nat): int {
    if p > from then p - from - 1 else p - from - 1 + n
  }

  lemma WrapsOnce(i: nat, n: nat)
    requires i < n
    ensures (i + 1) % n == if i + 1 == n then 0 else i + 1
  {
  }
}
