/** What every call to receive takes out of a queue and what every process then does, day and evening:
    an operator calls the owner of the first ticket of its own service, the dispenser reads the oldest
    request of the lowest service and answers as the queue of tickets allows, and every message goes
    to the process it names.  The statements speak of positions in the queues only. */
module Receipts {
  import opened Office
  import opened Handshake
  import opened Evening

  // ----- operators

  /** The operator of service v has called the owner of its first ticket, and nothing else has changed. */
  predicate Called(s: Day, t: Day, i: nat, k: nat)
    requires i < |s.opers|
  {
    var v := s.opers[i].service;
    && FirstTicket(s.queue, v, k) && s.queue[k].user >= 0
    && t == s.(queue := s.queue[..k] + s.queue[k+1..], opers := s.opers[i := Oper(v, Calling(s.queue[k].user))])
  }

  /** A free operator takes the first ticket of its own service, whoever is before it in the queue, and
      calls the user that ticket was issued to; it stays free exactly when no such ticket waits. */
  lemma OperatorTakes(s: Day, i: nat)
    requires Known(s) && i < |s.opers| && s.opers[i].pc.Free?
    ensures var t := Do(s, ByOper(i));
            if forall k :: 0 <= k < |s.queue| ==> s.queue[k].service != s.opers[i].service then t == s
            else exists k: nat :: Called(s, t, i, k)
  {
    var v := s.opers[i].service;
    var k := FirstOf(s.queue, v);
    if k < |s.queue| {
      assert Called(s, Do(s, ByOper(i)), i, k);
    }
  }

  /** The rest of a session: call, wait for one's own acknowledgement, "fine". */
  lemma OperatorTalks(s: Day, i: nat)
    requires i < |s.opers| && !s.opers[i].pc.Free?
    ensures var t, v, pc := Do(s, ByOper(i)), s.opers[i].service, s.opers[i].pc;
            match pc
            case Calling(u) => t == s.(notes := s.notes + [Call(i, u)], opers := s.opers[i := Oper(v, WaitAck(u))])
            case WaitAck(u) =>
              if forall k :: 0 <= k < |s.notes| ==> !(s.notes[k].Ack? && s.notes[k].op == i) then t == s
              else exists k: nat :: FirstAck(s.notes, i, k)
                     && t == s.(notes := Without(s.notes, k), opers := s.opers[i := Oper(v, Serving(u))])
            case Serving(u) => t == s.(notes := s.notes + [Fine(i, u)], opers := s.opers[i := Oper(v, Free)])
            case Free => true
  {
    if s.opers[i].pc.WaitAck? {
      var k := Find(AcksTo(i), s.notes);
      if k < |s.notes| {
        assert FirstAck(s.notes, i, k);
      }
    }
  }

  predicate FirstAck(q: seq<Note>, i: nat, k: nat) {
    k < |q| && q[k].Ack? && q[k].op == i && forall j :: 0 <= j < k ==> !(q[j].Ack? && q[j].op == i)
  }

  // ----- the dispenser

  /** Position k holds the oldest request of the lowest service that has one. */
  predicate LowestAsk(q: seq<Letter>, k: nat) {
    && k < |q| && q[k].Ask?
    && (forall j :: 0 <= j < |q| && q[j].Ask? ==> q[k].service <= q[j].service)
    && (forall j :: 0 <= j < k && q[j].Ask? ==> q[j].service != q[k].service)
  }

  /** What the dispenser reads, what it answers, and to whom. */
  lemma DispenserWorks(s: Day)
    requires s.clerk.Got? ==> s.clerk.ask.Ask?
    ensures var t := Do(s, ByClerk);
            match s.clerk
            case Receiving =>
              if forall k :: 0 <= k < |s.letters| ==> !s.letters[k].Ask? then t == s
              else exists k: nat :: LowestAsk(s.letters, k)
                     && t == s.(letters := Without(s.letters, k), clerk := Got(s.letters[k]))
            case Got(m) =>
              && t == s.(clerk := t.clerk, queue := t.queue, nextId := t.nextId)
              && t.clerk.Replying? && t.clerk.user == m.user
              && (t.clerk.answer.Refused? <==> m.service !in s.enabled)
              && (t.clerk.answer.Full? <==> m.service in s.enabled && |s.queue| == s.cap)
              && (t.clerk.answer.Granted? ==>
                    && t.clerk.answer.id == s.nextId && t.nextId == s.nextId + 1
                    && t.queue == s.queue + [Ticket(s.nextId, m.service, m.user, 0)])
              && (!t.clerk.answer.Granted? ==> t.queue == s.queue && t.nextId == s.nextId)
            case Replying(u, a) => t == s.(letters := s.letters + [Reply(u, a)], clerk := Receiving)
  {
    if s.clerk.Receiving? {
      var k := NextAsk(s.letters, 1);
      if k < |s.letters| {
        assert LowestAsk(s.letters, k);
      }
    }
  }

  // ----- users

  predicate FirstReply(q: seq<Letter>, u: nat, k: nat) {
    k < |q| && q[k].Reply? && q[k].user == u && forall j :: 0 <= j < k ==> !(q[j].Reply? && q[j].user == u)
  }

  predicate FirstNote(q: seq<Note>, u: nat, k: nat) {
    k < |q| && !q[k].Ack? && q[k].user == u && forall j :: 0 <= j < k ==> q[j].Ack? || q[j].user != u
  }

  /** What a user asks for. */
  lemma UserAsks(s: Day, u: nat, v: Service)
    requires u < |s.users| && (s.users[u].Idle? || s.users[u].Retry?)
    ensures var w := if s.users[u].Retry? then s.users[u].service else v;
            Do(s, ByUser(u, v)) == s.(letters := s.letters + [Ask(w, u)], users := s.users[u := WantReply(w)])
  {
  }

  /** How a user reads the oldest answer to it: -2 makes it ask again for the same service, -1 give up,
      and every other number wait for its call. */
  lemma UserReads(s: Day, u: nat, v: Service)
    requires u < |s.users| && s.users[u].WantReply?
    ensures var t, w := Do(s, ByUser(u, v)), s.users[u].service;
            if forall k :: 0 <= k < |s.letters| ==> !(s.letters[k].Reply? && s.letters[k].user == u) then t == s
            else exists k: nat :: FirstReply(s.letters, u, k)
                   && var a := s.letters[k].answer;
                   && t == s.(letters := Without(s.letters, k), users := s.users[u := t.users[u]], astray := t.astray)
                   && (a.Full? ==> t.users[u] == Retry(w)) && (a.Refused? ==> t.users[u] == Idle)
                   && (a.Granted? ==>
                         t.users[u] == if AsInt(a.id) == -2 then Retry(w)
                                       else if AsInt(a.id) == -1 then Idle else WantCall)
                   && t.astray == s.astray + if a.Granted? && !Plain(a.id) then {u} else {}
  {
    hide AsInt;
    var k := Find(RepliesTo(u), s.letters);
    if k < |s.letters| {
      assert FirstReply(s.letters, u, k);
    }
  }

  /** How a user goes through its session: it acknowledges the operator that called it, and is free
      again after the next message to it. */
  lemma UserMeets(s: Day, u: nat, v: Service)
    requires u < |s.users|
    ensures var t := Do(s, ByUser(u, v));
            match s.users[u]
            case WantCall =>
              if forall k :: 0 <= k < |s.notes| ==> s.notes[k].Ack? || s.notes[k].user != u then t == s
              else exists k: nat :: FirstNote(s.notes, u, k)
                     && var pc := if s.notes[k].Call? then Acking(s.notes[k].op) else Lost;
                     t == s.(notes := Without(s.notes, k), users := s.users[u := pc])
            case Acking(o) => t == s.(notes := s.notes + [Ack(o, u)], users := s.users[u := WantFine(o)])
            case WantFine(_) =>
              if forall k :: 0 <= k < |s.notes| ==> s.notes[k].Ack? || s.notes[k].user != u then t == s
              else exists k: nat :: FirstNote(s.notes, u, k)
                     && t == s.(notes := Without(s.notes, k), users := s.users[u := Idle])
            case Lost => t == s
            case _ => true
  {
    var k := Find(NotesTo(u), s.notes);
    if k < |s.notes| {
      assert FirstNote(s.notes, u, k);
    }
  }

  // ----- with the signals of the evening, over all days

  /** In every state of every run, an operator leaves its place only by its own step, unsignalled, and
      with the first ticket of its own service; and that step leaves it there only when no such ticket
      waits or the operator is done for the day. */
  lemma TakesOwnTicket(e: Dusk, a: Act, i: nat)
    requires Reached(e) && i < |e.day.opers| && e.day.opers[i].pc.Free?
    ensures var s, t := e.day, DoAct(e, a).day; var v, p := s.opers[i].service, AnOper(i);
            && |t.opers| == |s.opers| && t.opers[i].service == v
            && (!t.opers[i].pc.Free? ==>
                  a == Work(ByOper(i)) && p !in e.flag && p !in e.out && exists k: nat :: Called(s, t, i, k))
            && (a == Work(ByOper(i)) && t.opers[i].pc.Free? ==>
                  p in e.flag || p in e.out || forall k :: 0 <= k < |s.queue| ==> s.queue[k].service != v)
  {
    hide Reached;
    ReachedOk(e);
    OperatorTakes(e.day, i);
    hide Orderly, SignalsOk, StraysOk, Called;
    Sizes(e, a);
    if a != Work(ByOper(i)) { OthersStand(e, a, i); }
    hide OperGo;
  }

  /** Nobody else moves an operator. */
  lemma OthersStand(e: Dusk, a: Act, i: nat)
    requires i < |e.day.opers| && a != Work(ByOper(i))
    ensures |DoAct(e, a).day.opers| == |e.day.opers| && DoAct(e, a).day.opers[i] == e.day.opers[i]
  {
    hide Find, NextAsk, FirstOf, Without;
  }

  /** In every state of every run, the queue of tickets changes in three ways only: the dispenser
      appends a ticket for the request it has received, an operator takes the first ticket of its own
      service, or a new day begins with none. */
  lemma QueueChanges(e: Dusk, a: Act)
    requires Reached(e)
    ensures var s, t := e.day, DoAct(e, a).day;
            || t.queue == s.queue
            || (a == Work(ByClerk) && s.clerk.Got? && s.clerk.ask.Ask? && s.clerk.ask.service in s.enabled
                && t.queue == s.queue + [Ticket(s.nextId, s.clerk.ask.service, s.clerk.ask.user, 0)]
                && |s.queue| != s.cap && t.clerk == Replying(s.clerk.ask.user, Granted(s.nextId)))
            || (a.Work? && a.m.ByOper? && a.m.i < |s.opers| && s.opers[a.m.i].pc.Free?
                && exists k: nat :: Called(s, t, a.m.i, k))
            || (a.NextDay? && Over(e) && t.queue == [])
  {
    hide Reached;
    ReachedOk(e);
    hide Orderly, SignalsOk, StraysOk;
    if a.Work? && a.m.ByOper? && a.m.i < |e.day.opers| && e.day.opers[a.m.i].pc.Free? {
      OperatorTakes(e.day, a.m.i);
    }
    hide Find, NextAsk, FirstOf, Without, Called;
  }

  /** A step of somebody who has not noticed the signal is a step of the day. */
  lemma UnawareWorks(e: Dusk, m: Move)
    requires match m
             case ByClerk => TheClerk !in e.flag && TheClerk !in e.out
             case ByUser(u, _) => AUser(u) !in e.flag && AUser(u) !in e.out
             case ByOper(i) => AnOper(i) !in e.flag && AnOper(i) !in e.out
    ensures DoAct(e, Work(m)) == e.(day := Do(e.day, m))
  {
    hide Find, NextAsk, FirstOf, Without;
  }

  /** An operator that has noticed the signal calls nobody any more: its next step, before a ticket or
      with one in hand, ends its day and leaves queue and messages as they are. */
  lemma SignalledOperatorStops(e: Dusk, i: nat)
    requires i < |e.day.opers| && AnOper(i) in e.flag && AnOper(i) !in e.out
    requires e.day.opers[i].pc.Free? || e.day.opers[i].pc.Calling?
    ensures DoAct(e, Work(ByOper(i)))
         == e.(day := e.day.(opers := e.day.opers[i := Oper(e.day.opers[i].service, Free)]), out := e.out + {AnOper(i)})
  {
    assert e.day.opers[i].pc.Free? ==>
             e.day.opers[i := Oper(e.day.opers[i].service, Free)] == e.day.opers;
  }

  /** So does the dispenser: it leaves before the next request, drops a request it would have to put
      into the queue and an answer other than a refusal, and still refuses what is not on offer. */
  lemma SignalledDispenserStops(e: Dusk)
    requires TheClerk in e.flag && TheClerk !in e.out
    ensures var s, gone := e.day, e.(out := e.out + {TheClerk});
            match s.clerk
            case Receiving => DoAct(e, Leave) == gone
            case Got(m) =>
              if m.Ask? && m.service in s.enabled then DoAct(e, Work(ByClerk)) == gone.(day := s.(clerk := Receiving))
              else m.Ask? ==> DoAct(e, Work(ByClerk)) == e.(day := s.(clerk := Replying(m.user, Refused)))
            case Replying(u, a) =>
              var sent := if a.Refused? then s.letters + [Reply(u, a)] else s.letters;
              DoAct(e, Work(ByClerk)) == gone.(day := s.(clerk := Receiving, letters := sent))
  {
  }

  /** A user that has noticed it asks no more. */
  lemma SignalledUserStops(e: Dusk, u: nat, v: Service)
    requires u < |e.day.users| && AUser(u) in e.flag && AUser(u) !in e.out
    ensures var t := DoAct(e, Work(ByUser(u, v)));
            if e.day.users[u].Idle? then t == e.(out := e.out + {AUser(u)}, flag := e.flag - {AUser(u)})
            else t == e.(day := Do(e.day, ByUser(u, v)))
  {
    hide Find, Without;
  }

  // ----- signals

  /** The director signals the dispenser, then every operator, then every user, one at a time and
      each exactly once a day. */
  lemma EveryoneIsSignalled(e: Dusk)
    requires Reached(e)
    ensures var t := DoAct(e, Suspend);
            if e.sent < 1 + |e.day.opers| + |e.day.users| then
              exists p :: Member(e.day, p) && Number(e.day, p) == e.sent
                && p !in e.pend && p !in e.flag && p !in e.out
                && t == e.(day := e.day.(evening := true), sent := e.sent + 1, pend := e.pend + {p})
            else t == e
    ensures forall p :: Member(e.day, p) && p !in e.pend && p !in e.flag && p !in e.out ==> Number(e.day, p) >= e.sent
  {
    hide Reached;
    ReachedOk(e);
    hide Orderly, StraysOk;
    var p := Target(e.day, e.sent);
    assert Number(e.day, p) == e.sent;
    if e.sent < 1 + |e.day.opers| + |e.day.users| {
      assert Member(e.day, p);
    }
  }

  /** A pending signal is noticed between two calls unless the process blocks it: an operator from its
      call to the "fine", a user from the call it has read to the "fine". */
  lemma SignalIsNoticed(e: Dusk, p: Proc)
    requires p in e.pend
    ensures var s, t := e.day, DoAct(e, Deliver(p));
            if || (p.AnOper? && p.i < |s.opers| && (s.opers[p.i].pc.WaitAck? || s.opers[p.i].pc.Serving?))
               || (p.AUser? && p.u < |s.users| && (s.users[p.u].Acking? || s.users[p.u].WantFine?))
            then t == e else t == e.(pend := e.pend - {p}, flag := e.flag + {p})
  {
  }

  /** Or it interrupts a wait, when nothing that would end the wait has arrived: the dispenser's, a free
      operator's and a user's for its call end the day of that process, a user's for its answer
      makes it ask again. */
  lemma SignalInterrupts(e: Dusk, p: Proc)
    requires Reached(e) && p in e.pend
    ensures var s, t := e.day, DoAct(e, Fail(p)); var less, more := e.pend - {p}, e.flag + {p};
            match p
            case TheClerk =>
              if s.clerk.Receiving? && (forall k :: 0 <= k < |s.letters| ==> !s.letters[k].Ask?) then
                t == e.(pend := less, flag := more, out := e.out + {p})
              else t == e
            case AnOper(i) =>
              if i < |s.opers| && s.opers[i].pc.Free?
                 && (forall k :: 0 <= k < |s.queue| ==> s.queue[k].service != s.opers[i].service) then
                t == e.(pend := less, flag := more, out := e.out + {p})
              else t == e
            case AUser(u) =>
              if u < |s.users| && s.users[u].WantReply?
                 && (forall k :: 0 <= k < |s.letters| ==> !(s.letters[k].Reply? && s.letters[k].user == u)) then
                && t == e.(day := t.day, pend := less, flag := more, resent := e.resent + {u})
                && t.day == s.(users := s.users[u := Retry(s.users[u].service)], astray := t.day.astray)
              else if u < |s.users| && s.users[u].WantCall?
                      && (forall k :: 0 <= k < |s.notes| ==> s.notes[k].Ack? || s.notes[k].user != u) then
                t == e.(pend := less, out := e.out + {p})
              else t == e
  {
    hide Reached;
    ReachedOk(e);
    hide Orderly, StraysOk, Find, NextAsk, FirstOf;
    match p
    case TheClerk => NextAskFinds(e.day.letters);
    case AnOper(i) => if i < |e.day.opers| { FirstOfFinds(e.day.queue, e.day.opers[i].service); }
    case AUser(u) => FindFinds(e.day, u);
  }

  lemma NextAskFinds(q: seq<Letter>)
    ensures NextAsk(q, 1) == |q| <==> forall k :: 0 <= k < |q| ==> !q[k].Ask?
  {
  }

  lemma FirstOfFinds(q: seq<Ticket>, v: Service)
    ensures FirstOf(q, v) == |q| <==> forall k :: 0 <= k < |q| ==> q[k].service != v
  {
  }

  lemma FindFinds(s: Day, u: nat)
    ensures Find(RepliesTo(u), s.letters) == |s.letters|
       <==> forall k :: 0 <= k < |s.letters| ==> !(s.letters[k].Reply? && s.letters[k].user == u)
    ensures Find(NotesTo(u), s.notes) == |s.notes|
       <==> forall k :: 0 <= k < |s.notes| ==> s.notes[k].Ack? || s.notes[k].user != u
  {
  }

  /** The first day begins with idle users, free operators of the given services, and nothing under way. */
  lemma FirstDayBegins(users: nat, services: seq<Service>, enabled: set<int>, cap: nat, nextId: nat)
    ensures var e := Dawn(users, services, enabled, cap, nextId);
            && |e.day.users| == users && (forall u :: 0 <= u < users ==> e.day.users[u].Idle?)
            && |e.day.opers| == |services|
            && (forall i :: 0 <= i < |services| ==> e.day.opers[i] == Oper(services[i], Free))
            && e.day.clerk.Receiving? && e.day.letters == [] && e.day.notes == [] && e.day.queue == []
            && e.day.nextId == e.day.firstId == nextId && e.day.enabled == enabled && e.day.cap == cap
            && !e.day.evening && e.day.astray == {}
            && e == Dusk(e.day, 0, {}, {}, {}, {})
  {
  }

  /** A new day begins when everybody is done: users are idle and the tickets gone, but the messages
      and the operators' services are those of the evening. */
  lemma NextDayBegins(e: Dusk, enabled: set<int>)
    requires Reached(e) && Over(e)
    ensures var s, t := e.day, DoAct(e, NextDay(enabled));
            && t.day == s.(users := t.day.users, queue := [], enabled := enabled, evening := false)
            && |t.day.users| == |s.users| && (forall u :: 0 <= u < |s.users| ==> t.day.users[u].Idle?)
            && (forall i :: 0 <= i < |s.opers| ==> t.day.opers[i].pc.Free?) && t.day.clerk.Receiving?
            && t == Dusk(t.day, 0, {}, {}, {}, e.resent)
  {
    hide Reached;
    ReachedOk(e);
    hide Orderly, StraysOk;
  }
}
