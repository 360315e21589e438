/** The desk table: the array of desks, the daily choice of their services, and one semaphore
    per service counting the free desks that offer it. */
module DeskTable {
  import opened Office

  lemma {:induction false} AssignedSnoc(arr: seq<int>, x: int, s: Service)
    ensures Assigned(arr + [x], s) == Assigned(arr, s) + if x == s then 1 else 0
  {
    if arr != [] {
      assert (arr + [x])[1..] == arr[1..] + [x];
      AssignedSnoc(arr[1..], x, s);
    }
  }

  class DeskTable {
    const desks: array<Desk>
    var permits: PerService

    /** initSportelli; the semaphores start at 0. */
    constructor (seats: nat)
      ensures fresh(desks) && desks.Length == seats && permits == ZEROES
      ensures forall k :: 0 <= k < seats ==> desks[k] == Desk(-1, 0, 0)
    {
      desks := new Desk[seats](_ => Desk(-1, 0, 0));
      permits := ZEROES;
    }

    /** reserveSportello, entered with the permit already taken: the first free desk of the
        service goes to pid, or nothing changes and the result is 0. */
    method Reserve(pid: nat, service: Service) returns (ret: nat)
      requires pid != 0
      modifies desks
      ensures ret == ReservedId(old(desks[..]), service)
      ensures desks[..] == Reserved(old(desks[..]), service, pid)
      ensures ret <= desks.Length
      ensures ret != 0 ==> desks[ret-1] == Desk(service, pid, old(desks[..])[ret-1].occupied + 1)
      ensures ret != 0 ==> FreeFor(old(desks[..])[ret-1], service)
      ensures forall k :: 0 <= k < desks.Length && k != ret - 1 ==> desks[k] == old(desks[k])
      ensures forall k :: 0 <= k < desks.Length && (ret == 0 || k < ret - 1) ==> !FreeFor(old(desks[k]), service)
    {
      ret := 0;
      var found := false;
      var i := 0;
      while i < desks.Length && !found
        invariant 0 <= i <= desks.Length
        invariant !found ==> ret == 0 && desks[..] == old(desks[..])
        invariant !found ==> forall j :: 0 <= j < i ==> !FreeFor(desks[..][j], service)
        invariant found ==> ret == ReservedId(old(desks[..]), service)
        invariant found ==> desks[..] == Reserved(old(desks[..]), service, pid)
      {
        if desks[i].owner == 0 && desks[i].service == service {
          assert FirstFree(desks[..], service) == i;
          desks[i] := desks[i].(owner := pid);
          desks[i] := desks[i].(occupied := desks[i].occupied + 1);
          ret := i + 1;
          found := true;
        }
        i := i + 1;
      }
    }

    /** freeSportello: only the owner's release frees the desk and gives one permit back to
        the desk's own service. */
    method Free(id: nat, pid: nat) returns (ret: bool)
      requires forall k :: 0 <= k < desks.Length ==> 1 <= desks[k].service <= SERVICES
      modifies this`permits, desks
      ensures ret == Releases(old(desks[..]), id, pid)
      ensures desks[..] == Released(old(desks[..]), id, pid)
      ensures permits == if ret then Bump(old(permits), old(desks[..])[id-1].service) else old(permits)
      ensures ret <==> 1 <= id <= desks.Length && old(desks[..])[id-1].owner == pid
      ensures ret ==> desks[id-1] == old(desks[..])[id-1].(owner := 0)
      ensures forall k :: 0 <= k < desks.Length && (!ret || k != id - 1) ==> desks[k] == old(desks[k])
      ensures forall s: Service ::
                Of(permits, s) == Of(old(permits), s) + One(ret && old(desks[..])[id-1].service == s)
    {
      ret := false;
      // id - 1 is computed on unsigned numbers: identifier 0 fails the range check
      if 0 < id && id - 1 < desks.Length && pid == desks[id-1].owner {
        var s := desks[id-1].service;
        desks[id-1] := desks[id-1].(owner := 0);
        permits := Bump(permits, s);
        ret := true;
      }
    }

    /** service_choose, with the random choice passed in. */
    method Choose(arr: seq<int>)
      requires |arr| == desks.Length
      modifies desks
      ensures desks[..] == Reassigned(old(desks[..]), arr)
    {
      for i := 0 to desks.Length
        invariant forall j :: 0 <= j < i ==> desks[j] == old(desks[j]).(service := arr[j])
        invariant forall j :: i <= j < desks.Length ==> desks[j] == old(desks[j])
      {
        desks[i] := desks[i].(service := arr[i]);
      }
    }

    /** service_apply: a histogram of the assignment becomes the semaphore values. */
    method Apply(arr: seq<int>)
      requires forall k :: 0 <= k < |arr| ==> 1 <= arr[k] <= SERVICES
      modifies this`permits
      ensures permits == AssignedAll(arr)
      ensures forall s: Service :: Of(permits, s) == Assigned(arr, s)
    {
      var values: PerService := ZEROES;
      assert arr[..0] == [];
      for i := 0 to |arr|
        invariant forall s: Service :: Of(values, s) == Assigned(arr[..i], s)
      {
        assert arr[..i+1] == arr[..i] + [arr[i]];
        ghost var before := values;
        values := Bump(values, arr[i]);
        forall s: Service ensures Of(values, s) == Assigned(arr[..i+1], s) {
          AssignedSnoc(arr[..i], arr[i], s);
          assert Of(before, s) == Assigned(arr[..i], s);
        }
      }
      assert arr[..|arr|] == arr;
      permits := values;
      forall s: Service ensures Of(permits, s) == Of(AssignedAll(arr), s) {
        assert s == 1 || s == 2 || s == 3 || s == 4 || s == 5 || s == 6;
      }
      SamePerService(permits, AssignedAll(arr));
    }

    /** The desk part of clearTickets. */
    method ClearOccupied()
      modifies desks
      ensures desks[..] == Vacated(old(desks[..]))
    {
      for i := 0 to desks.Length
        invariant forall j :: 0 <= j < i ==> desks[j] == old(desks[j]).(occupied := 0)
        invariant forall j :: i <= j < desks.Length ==> desks[j] == old(desks[j])
      {
        desks[i] := desks[i].(occupied := 0);
      }
    }
  }

  lemma SamePerService(p: PerService, q: PerService)
    requires forall s: Service :: Of(p, s) == Of(q, s)
    ensures p == q
  {
    assert forall k :: 0 <= k < SERVICES ==> p[k] == Of(p, k + 1) && q[k] == Of(q, k + 1);
  }

  // ----- desks and semaphores together

  /** Outside the critical sections the semaphores say how many desks of each service are free. */
  predicate Agrees(ds: seq<Desk>, permits: PerService) {
    forall s: Service :: Of(permits, s) == FreeCount(ds, s)
  }

  /** Taking a permit and then reserving always yields a free desk of that service, and the
      semaphores agree with the table again. */
  lemma PermitYieldsDesk(ds: seq<Desk>, permits: PerService, s: Service, pid: nat)
    requires Agrees(ds, permits) && Of(permits, s) > 0 && pid != 0
    ensures ReservedId(ds, s) != 0 && FreeFor(ds[ReservedId(ds, s)-1], s)
    ensures Agrees(Reserved(ds, s, pid), Take(permits, s))
  {
    forall t: Service ensures Of(Take(permits, s), t) == FreeCount(Reserved(ds, s, pid), t) {
      ReservedCounts(ds, s, pid, t);
      ReservedCounts(ds, s, pid, s);
    }
    FreeIffCounted(ds, s);
  }

  /** What a reservation took, the owner's release gives back; a second release by the same
      pid, whoever owns the desk by then, changes nothing. */
  lemma ReleaseUndoesReserve(ds: seq<Desk>, s: Service, pid: nat)
    requires FirstFree(ds, s) < |ds| && pid != 0
    ensures var id, taken := ReservedId(ds, s), Reserved(ds, s, pid);
            var back := Released(taken, id, pid);
            && Releases(taken, id, pid)
            && back == ds[id-1 := ds[id-1].(occupied := ds[id-1].occupied + 1)]
            && !Releases(back, id, pid)
            && (forall other: nat :: other != pid ==> !Releases(Reserved(back, s, other), id, pid))
  {
  }

  /** The day's assignment, applied while all desks are free, makes semaphores and table agree. */
  lemma ApplyAgrees(ds: seq<Desk>, arr: seq<int>)
    requires |arr| == |ds| && forall k :: 0 <= k < |ds| ==> ds[k].owner == 0
    ensures Agrees(Reassigned(ds, arr), AssignedAll(arr))
  {
    forall s: Service ensures Of(AssignedAll(arr), s) == FreeCount(Reassigned(ds, arr), s) {
      ReassignedCounts(ds, arr, s);
      assert s == 1 || s == 2 || s == 3 || s == 4 || s == 5 || s == 6;
    }
  }
}
