/** What the steps on queue, desks, semaphores and statistics do, entry by entry, without the functions
    they are written with; and what the calls on the ticket list do in a run of module QueueRuns. */
module Effects {
  import opened Office
  import opened Processes
  import QueueRuns

  predicate NoTicket(q: seq<Ticket>, v: Service) { forall j :: 0 <= j < |q| ==> q[j].service != v }

  /** p with d more at service v. */
  predicate Adds(p: PerService, q: PerService, v: Service, d: int) {
    forall u: Service :: Of(q, u) == Of(p, u) + if u == v then d else 0
  }

  lemma BumpAdds(p: PerService, v: Service)
    ensures Adds(p, Bump(p, v), v, 1)
    ensures Of(p, v) > 0 ==> Adds(p, Take(p, v), v, -1)
  {
  }

  // ----- tickets

  /** The dispenser appends the request as a ticket with the next identifier while there is room, and then
      raises the semaphore of the ticket's service by one. */
  lemma TicketIsIssued(s: State, choice: bool, req: Request)
    requires s.disp.pc.EInsert? || s.disp.pc.EPost?
    ensures var sh, r, t := s.sh, s.disp.pc, Apply(s, StepDisp(Go(choice), req)).sh;
            match r
            case EInsert(r) =>
              if |sh.queue| < s.cfg.cap then
                && t == sh.(queue := sh.queue + [Ticket(sh.nextId, r.service, r.user, r.time)], nextId := sh.nextId + 1,
                            hist := t.hist, trace := t.trace)
                && t.hist == sh.hist.(issued := t.hist.issued) && Adds(sh.hist.issued, t.hist.issued, r.service, 1)
              else t == sh.(trace := t.trace)
            case EPost(v) => t == sh.(tSem := t.tSem) && Adds(sh.tSem, t.tSem, v, 1)
            case _ => true
  {
    if s.disp.pc.EInsert? {
      BumpAdds(s.sh.hist.issued, s.disp.pc.r.service);
    } else {
      BumpAdds(s.sh.tSem, s.disp.pc.s);
    }
    hide Bump, Adds;
  }

  /** An operator removes the first ticket of its own service, and no other, and keeps its identifier; when
      there is none the queue stays and the identifier is 0. */
  lemma TicketIsServed(s: State, i: nat, choice: bool)
    requires i < |s.ops| && s.ops[i].pc.OServe?
    ensures var sh, o, t := s.sh, s.ops[i], Apply(s, StepOp(i, Go(choice)));
            && t.sh == sh.(queue := t.sh.queue, trace := t.sh.trace)
            && (NoTicket(sh.queue, o.service) ==> t.sh.queue == sh.queue && t.ops[i].ticket == 0)
            && (!NoTicket(sh.queue, o.service) ==>
                  exists k: nat :: FirstTicket(sh.queue, o.service, k)
                    && t.sh.queue == sh.queue[..k] + sh.queue[k+1..] && t.ops[i].ticket == sh.queue[k].id)
  {
    var q, v := s.sh.queue, s.ops[i].service;
    var k := FirstOf(q, v);
    assert k < |q| ==> FirstTicket(q, v, k);
    hide FirstOf;
  }

  // ----- permits and desks

  /** Waiting for a desk or a ticket takes one permit of the operator's own service, if there is one. */
  lemma PermitIsTaken(s: State, i: nat, choice: bool)
    requires i < |s.ops| && (s.ops[i].pc.ODesk? || s.ops[i].pc.OTicket?)
    ensures var sh, o, t := s.sh, s.ops[i], Apply(s, StepOp(i, Go(choice))).sh;
            && (o.pc.ODesk? ==>
                  if Of(sh.sSem, o.service) == 0 then t == sh
                  else t == sh.(sSem := t.sSem) && Adds(sh.sSem, t.sSem, o.service, -1))
            && (o.pc.OTicket? ==>
                  if Of(sh.tSem, o.service) == 0 then t == sh
                  else t == sh.(tSem := t.tSem) && Adds(sh.tSem, t.tSem, o.service, -1))
  {
    BumpAdds(s.sh.sSem, s.ops[i].service);
    BumpAdds(s.sh.tSem, s.ops[i].service);
    hide Take, Adds;
  }

  /** A release frees the operator's desk if it owns it, and the post that follows raises the semaphore of
      that desk's service by one; otherwise neither changes anything. */
  lemma DeskIsGivenBack(s: State, i: nat, choice: bool)
    requires i < |s.ops| && (s.ops[i].pc.OPauseFree? || s.ops[i].pc.OCloseFree?)
    ensures var ds, o, t := s.sh.desks, s.ops[i], Apply(s, StepOp(i, Go(choice)));
            && t.sh == s.sh.(desks := t.sh.desks) && |t.sh.desks| == |ds|
            && if 1 <= o.desk <= |ds| && ds[o.desk-1].owner == i + 1 then
                 t.ops[i].posting == ds[o.desk-1].service && t.sh.desks == ds[o.desk-1 := ds[o.desk-1].(owner := 0)]
               else t.ops[i].posting == 0 && t.sh.desks == ds
  {
  }

  lemma PermitIsPosted(s: State, i: nat, choice: bool)
    requires i < |s.ops| && (s.ops[i].pc.OPausePost? || s.ops[i].pc.OClosePost?)
    ensures var o, t := s.ops[i], Apply(s, StepOp(i, Go(choice)));
            && t.ops[i].posting == 0
            && if 1 <= o.posting <= SERVICES then
                 t.sh == s.sh.(sSem := t.sh.sSem) && Adds(s.sh.sSem, t.sh.sSem, o.posting, 1)
               else t.sh == s.sh
  {
    if 1 <= s.ops[i].posting <= SERVICES { BumpAdds(s.sh.sSem, s.ops[i].posting); }
    hide Bump, Adds;
  }

  // ----- between two days

  /** The daily counters become 0; what is kept over the days stays. */
  lemma DayIsReset(s: State, choice: bool, req: Request)
    requires s.disp.pc.EReset?
    ensures var c, d := s.sh.stats, Apply(s, StepDisp(Go(choice), req)).sh.stats;
            && (forall v: Service :: Of(d.daily, v) == 0)
            && d == c.(daily := d.daily, dailyAll := 0, notServedDay := 0, active := 0, pauses := 0)
  {
  }

  /** The day's services go through the pipe to the dispenser.  Clearing empties the queue and every desk's
      count; the services of the next day go to the desks one by one, and each semaphore becomes the number
      of desks assigned to its service. */
  lemma DayIsPrepared(s: State, arr: seq<int>, newUsers: nat)
    ensures var sh, t := s.sh, Apply(s, StepDir(arr, newUsers)).sh;
            match s.dir.pc
            case DPipe => t == sh.(pipe := sh.pipe + [s.dir.arr])
            case DClear =>
              && t == sh.(queue := [], desks := t.desks, hist := t.hist, trace := t.trace) && |t.desks| == |sh.desks|
              && (forall k :: 0 <= k < |sh.desks| ==> t.desks[k] == sh.desks[k].(occupied := 0))
              && t.hist == sh.hist.(issued := ZEROES)
            case DDecide =>
              && t == sh.(desks := t.desks) && |t.desks| == |sh.desks|
              && (s.sh.stats.currentDay != s.cfg.duration && ValidChoice(arr, |sh.desks|) ==>
                    && Apply(s, StepDir(arr, newUsers)).dir.arr == arr
                    && forall k :: 0 <= k < |sh.desks| ==> t.desks[k] == sh.desks[k].(service := arr[k]))
            case DApply => t == sh.(sSem := t.sSem) && forall v: Service :: Of(t.sSem, v) == Assigned(s.dir.arr, v)
            case DResetT(_) => t == sh.(tSem := t.tSem) && forall v: Service :: Of(t.tSem, v) == 0
            case _ => true
  {
    if s.dir.pc.DApply? {
      forall v: Service ensures Of(AssignedAll(s.dir.arr), v) == Assigned(s.dir.arr, v) {
        assert v == 1 || v == 2 || v == 3 || v == 4 || v == 5 || v == 6;
      }
    }
    hide AssignedAll, Vacated, Reassigned, DirDay, DirEnd;
  }

  /** The director's hand on the gates of the day: all five are reset, whatever was left of them, and of
      the others it moves one at a time. */
  lemma GatesAreSet(s: State, arr: seq<int>, newUsers: nat)
    ensures var g, h, n := s.sh.sim, Apply(s, StepDir(arr, newUsers)).sh.sim, |s.ops|;
            match s.dir.pc
            case DReset2(_) => h == g.(s2 := 1)
            case DReset0(_) => h == g.(s0 := n + 1)
            case DReset1(_) => h == g.(s1 := s.sh.users)
            case DReset3(_) => h == g.(s3 := n)
            case DReset4(_) => h == g.(s4 := 0)
            case DUsers => h == g.(s1 := g.s1 + newUsers)
            case DPost2 => h == g.(s4 := g.s4 + 2)
            case DOpen => h == g.(s2 := if g.s2 > 0 then g.s2 - 1 else 0)
            case DWaitStats => h == g.(s4 := if g.s4 > 0 then g.s4 - 1 else 0)
            case DWaitFinal => h == g.(s4 := if g.s4 > 0 then g.s4 - 1 else 0)
            case _ => h == g
  {
    hide AssignedAll, Vacated, Reassigned, Marked1, Marked2, ValidChoice;
  }

  // ----- calls on the ticket list

  /** In a run of module QueueRuns: an insert appends the ticket of the call with the next identifier unless
      the queue is full, a serve removes the first ticket of its service, and a clear all of them. */
  lemma CallsTakeEffect(cap: nat, b: QueueRuns.Book, c: QueueRuns.Command)
    ensures var r := QueueRuns.Do(cap, b, c);
            match c
            case Insert(v, user, time) =>
              if |b.queue| == cap then r == b
              else
                var t := Ticket(b.nextId, v, user, time);
                r == b.(queue := b.queue + [t], nextId := b.nextId + 1, issued := b.issued + [t])
            case Serve(v) =>
              if NoTicket(b.queue, v) then r == b
              else exists k: nat :: FirstTicket(b.queue, v, k)
                     && r == b.(queue := b.queue[..k] + b.queue[k+1..], served := b.served + [b.queue[k]])
            case Clear =>
              r == QueueRuns.Book([], b.nextId, [], [], b.past + [QueueRuns.DayLog(b.issued, b.served, b.queue)])
  {
    if c.Serve? {
      var k := FirstOf(b.queue, c.service);
      assert k < |b.queue| ==> FirstTicket(b.queue, c.service, k);
    }
    hide FirstOf;
  }
}
