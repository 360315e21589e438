/** Tickets whose identifiers a user reads as "not on offer" or "queue full": runs in which it happens,
    and exactly which days are safe from it. */
module Misread {
  import opened Office
  import opened Handshake

  // ----- building runs

  ghost predicate Leads(s: Day, t: Day) { exists ms: seq<Move> :: Play(s, ms) == t }

  lemma LeadsNowhere(s: Day)
    ensures Leads(s, s)
  {
    assert Play(s, []) == s;
  }

  lemma LeadsOn(s: Day, r: Day, m: Move, t: Day)
    requires Leads(s, r) && Do(r, m) == t
    ensures Leads(s, t)
  {
    hide Do;
    var ms :| Play(s, ms) == r;
    var more := ms + [m];
    assert more[..|more|-1] == ms;
    assert Play(s, more) == t;
  }

  // ----- one user and one operator

  /** Queues and dispenser are idle, and user 0 is about to ask for a service on offer. */
  predicate Asking(s: Day, v: Service) {
    && |s.users| > 0 && (s.users[0] == Idle || s.users[0] == Retry(v))
    && s.clerk.Receiving? && s.letters == [] && v in s.enabled && |s.queue| < s.cap
  }

  function AfterAnswer(s: Day, v: Service): Day
    requires |s.users| > 0
  {
    var a := Granted(s.nextId);
    s.(users := s.users[0 := Answered(v, a)], queue := s.queue + [Ticket(s.nextId, v, 0, 0)], nextId := s.nextId + 1,
       astray := Strays(s, 0, a))
  }

  lemma AskIsNext(v: Service)
    ensures NextAsk([Ask(v, 0)], 1) == 0
  {
    var q := [Ask(v, 0)];
    assert q[0] == Ask(v, 0);
  }

  /** The request becomes a ticket and the user reads its number. */
  lemma Issues(b: Day, s: Day, v: Service)
    requires Leads(b, s) && Asking(s, v)
    ensures Leads(b, AfterAnswer(s, v))
  {
    hide Leads, AsInt, NextAsk;
    var ask, a := Ask(v, 0), Granted(s.nextId);
    var s1 := s.(letters := [ask], users := s.users[0 := WantReply(v)]);
    assert s.letters + [ask] == [ask];
    LeadsOn(b, s, ByUser(0, v), s1);
    AskIsNext(v);
    var s2 := s1.(letters := [], clerk := Got(ask));
    assert Without([ask], 0) == [];
    LeadsOn(b, s1, ByClerk, s2);
    var s3 := s2.(queue := s.queue + [Ticket(s.nextId, v, 0, 0)], nextId := s.nextId + 1, clerk := Replying(0, a));
    LeadsOn(b, s2, ByClerk, s3);
    var s4 := s3.(letters := [Reply(0, a)], clerk := Receiving);
    assert s3.letters + [Reply(0, a)] == [Reply(0, a)];
    LeadsOn(b, s3, ByClerk, s4);
    assert Find(RepliesTo(0), [Reply(0, a)]) == 0 && Without([Reply(0, a)], 0) == [];
    assert s1.users[0 := Answered(v, a)] == s.users[0 := Answered(v, a)];
    LeadsOn(b, s4, ByUser(0, v), AfterAnswer(s, v));
  }

  predicate Waiting(s: Day, i: nat, v: Service) {
    && |s.users| > 0 && s.users[0] == WantCall && i < |s.opers| && s.opers[i] == Oper(v, Free)
    && |s.queue| == 1 && s.queue[0].service == v && s.queue[0].user == 0 && s.notes == []
  }

  /** The operator takes the only ticket and calls the user. */
  lemma CallsUser(b: Day, s: Day, i: nat, v: Service)
    requires Leads(b, s) && Waiting(s, i, v)
    ensures Leads(b, s.(queue := [], notes := [Call(i, 0)], opers := s.opers[i := Oper(v, WaitAck(0))]))
  {
    hide Leads;
    assert FirstOf(s.queue, v) == 0 && Without(s.queue, 0) == [];
    var s1 := s.(queue := [], opers := s.opers[i := Oper(v, Calling(0))]);
    LeadsOn(b, s, ByOper(i), s1);
    var s2 := s1.(notes := [Call(i, 0)], opers := s.opers[i := Oper(v, WaitAck(0))]);
    assert s1.notes + [Call(i, 0)] == [Call(i, 0)];
    assert s1.opers[i := Oper(v, WaitAck(0))] == s2.opers;
    LeadsOn(b, s1, ByOper(i), s2);
  }

  /** The user reads and acknowledges the call, and the operator reads the acknowledgement. */
  lemma Acknowledges(b: Day, s: Day, i: nat, v: Service)
    requires Leads(b, s) && |s.users| > 0 && s.users[0] == WantCall && i < |s.opers|
    requires s.opers[i] == Oper(v, WaitAck(0)) && s.notes == [Call(i, 0)]
    ensures Leads(b, s.(users := s.users[0 := WantFine(i)], notes := [], opers := s.opers[i := Oper(v, Serving(0))]))
  {
    hide Leads;
    var call, ack := Call(i, 0), Ack(i, 0);
    assert Find(NotesTo(0), [call]) == 0 && Without([call], 0) == [];
    assert Find(AcksTo(i), [ack]) == 0 && Without([ack], 0) == [];
    hide Find, Without;
    var s1 := s.(notes := [], users := s.users[0 := Acking(i)]);
    LeadsOn(b, s, ByUser(0, v), s1);
    var s2 := s1.(notes := [ack], users := s.users[0 := WantFine(i)]);
    assert s1.notes + [ack] == [ack] && s1.users[0 := WantFine(i)] == s2.users;
    LeadsOn(b, s1, ByUser(0, v), s2);
    var s3 := s2.(notes := [], opers := s.opers[i := Oper(v, Serving(0))]);
    LeadsOn(b, s2, ByOper(i), s3);
  }

  /** The operator sends its "fine" and the user reads it. */
  lemma Completes(b: Day, s: Day, i: nat, v: Service)
    requires Leads(b, s) && |s.users| > 0 && s.users[0] == WantFine(i) && i < |s.opers|
    requires s.opers[i] == Oper(v, Serving(0)) && s.notes == []
    ensures Leads(b, s.(users := s.users[0 := Idle], opers := s.opers[i := Oper(v, Free)]))
  {
    hide Leads;
    var fine := Fine(i, 0);
    assert Find(NotesTo(0), [fine]) == 0 && Without([fine], 0) == [];
    hide Find, Without;
    var s1 := s.(notes := [fine], opers := s.opers[i := Oper(v, Free)]);
    assert s.notes + [fine] == [fine];
    LeadsOn(b, s, ByOper(i), s1);
    LeadsOn(b, s1, ByUser(0, v), s1.(notes := [], users := s.users[0 := Idle]));
  }

  // ----- from ticket to ticket

  /** A day with a user, room in the queue and an operator i whose service is on offer. */
  predicate Lively(s: Day, i: nat, v: Service) {
    && |s.users| > 0 && s.users[0] == Idle && i < |s.opers| && s.opers[i] == Oper(v, Free) && v in s.enabled
    && s.cap > 0 && s.clerk.Receiving? && s.letters == [] && s.notes == [] && s.queue == [] && s.astray == {}
  }

  lemma OneLap(b: Day, s: Day, i: nat, v: Service)
    requires Leads(b, s) && Lively(s, i, v) && Plain(s.nextId)
    ensures Leads(b, s.(nextId := s.nextId + 1))
  {
    hide Leads, AsInt;
    Issues(b, s, v);
    var t := AfterAnswer(s, v);
    assert Waiting(t, i, v);
    CallsUser(b, t, i, v);
    var r := t.(queue := [], notes := [Call(i, 0)], opers := t.opers[i := Oper(v, WaitAck(0))]);
    Acknowledges(b, r, i, v);
    var f := r.(users := r.users[0 := WantFine(i)], notes := [], opers := r.opers[i := Oper(v, Serving(0))]);
    Completes(b, f, i, v);
    assert f.users[0 := Idle] == s.users && f.opers[i := Oper(v, Free)] == s.opers;
    assert f.(users := s.users, opers := s.opers) == s.(nextId := s.nextId + 1);
  }

  /** While identifiers are plain, one ticket after the other is issued and served. */
  lemma {:induction false} CountsUpTo(s: Day, i: nat, v: Service, n: nat)
    requires Lively(s, i, v) && s.nextId <= n && AllPlain(s.nextId, n)
    ensures Leads(s, s.(nextId := n))
    decreases n
  {
    hide Leads, Plain;
    if n == s.nextId {
      LeadsNowhere(s);
    } else {
      CountsUpTo(s, i, v, n - 1);
      OneLap(s, s.(nextId := n - 1), i, v);
      assert s.(nextId := n - 1).(nextId := n) == s.(nextId := n);
    }
  }

  lemma {:induction false} LeastOdd(lo: nat, hi: nat) returns (n: nat)
    requires !AllPlain(lo, hi)
    ensures lo <= n < hi && !Plain(n) && AllPlain(lo, n)
    decreases hi - lo
  {
    hide Plain;
    if hi > 0 && !AllPlain(lo, hi - 1) {
      n := LeastOdd(lo, hi - 1);
    } else {
      n := hi - 1;
    }
  }

  // ----- exactly which days are safe

  /** A day that issues the identifiers from nextId to last keeps every user to one claim, whatever
      the order of its steps, exactly when none of them reads as -1 or -2. */
  lemma OneClaimExactly(users: nat, services: seq<Service>, enabled: set<int>, cap: nat, nextId: nat, last: nat, i: nat)
    requires users > 0 && cap > 0 && i < |services| && services[i] in enabled
    ensures var s := Morning(users, services, enabled, cap, nextId);
            (forall ms: seq<Move>, u: nat ::
               u < users && Play(s, ms).nextId <= last ==> Claims(Play(s, ms), u) <= 1)
            <==> AllPlain(nextId, last)
  {
    var s := Morning(users, services, enabled, cap, nextId);
    if AllPlain(nextId, last) {
      forall ms: seq<Move>, u: nat | u < users && Play(s, ms).nextId <= last ensures Claims(Play(s, ms), u) <= 1 {
        MorningOrderly(users, services, enabled, cap, nextId);
        hide Orderly, Play, Plain, Claims;
        PlayKeeps(s, ms);
        PlayLed(s, ms, u, nextId);
        OrderlyClaims(Play(s, ms), u);
      }
    } else {
      var n := LeastOdd(nextId, last);
      var ms := DoublesAt(s, i, services[i], n);
      hide Play, Plain, Claims, Morning;
      assert Claims(Play(s, ms), 0) >= 2;
    }
  }

  /** The ticket that is read as another answer is still in the queue when the user asks again. */
  lemma DoublesAt(s: Day, i: nat, v: Service, n: nat) returns (ms: seq<Move>)
    requires Lively(s, i, v) && s.nextId <= n && AllPlain(s.nextId, n) && !Plain(n)
    ensures Claims(Play(s, ms), 0) >= 2 && Play(s, ms).nextId == n + 1
  {
    hide AsInt, Leads, AllPlain, Claims;
    CountsUpTo(s, i, v, n);
    var r := s.(nextId := n);
    Issues(s, r, v);
    var t := AfterAnswer(r, v);
    var pc := t.users[0];
    assert pc == Idle || pc == Retry(v);
    var f := t.(letters := [Ask(v, 0)], users := t.users[0 := WantReply(v)]);
    assert t.letters + [Ask(v, 0)] == f.letters;
    LeadsOn(s, t, ByUser(0, v), f);
    TwoClaims(f, v);
    ms := TheMoves(s, f);
    hide Play;
  }

  lemma TwoClaims(s: Day, v: Service)
    requires s.letters == [Ask(v, 0)] && |s.queue| == 1 && s.queue[0].user == 0
    ensures Claims(s, 0) >= 2
  {
    CountDrop(AsksOf(0), s.letters, 0);
    CountDrop(TicketsOf(0), s.queue, 0);
  }

  lemma TheMoves(s: Day, t: Day) returns (ms: seq<Move>)
    requires Leads(s, t)
    ensures Play(s, ms) == t
  {
    ms :| Play(s, ms) == t;
  }

  // ----- the two identifiers

  /** One user, one operator, both for service 1, and room for two tickets. */
  function OneAndOne(): Day { Morning(1, [1], {1}, 2, 1) }

  lemma LeadsReaches(t: Day)
    requires Leads(OneAndOne(), t)
    ensures Reachable(t)
  {
    var services: seq<Service> := [1];
    var ms :| Play(OneAndOne(), ms) == t;
    assert t == Play(Morning(1, services, {1}, 2, 1), ms);
  }

  lemma BelowIsPlain()
    ensures AllPlain(1, TWO32 - 2) && !Plain(TWO32 - 2) && !Plain(TWO32 - 1)
    ensures AsInt(TWO32 - 2) == -2 && AsInt(TWO32 - 1) == -1
  {
  }

  /** Ticket 2^32 - 2 reads as "queue full": nobody is interrupted, and the user is about to ask
      again while its ticket waits. */
  lemma ReadsAsFull()
    ensures exists s :: Reachable(s) && s.users == [Retry(1)] && s.queue == [Ticket(TWO32 - 2, 1, 0, 0)]
  {
    var s := AtFull();
    LeadsReaches(s);
    hide Reachable;
  }

  lemma AtFull() returns (s: Day)
    ensures Leads(OneAndOne(), s) && s.users == [Retry(1)] && s.queue == [Ticket(TWO32 - 2, 1, 0, 0)]
    ensures s == OneAndOne().(users := s.users, queue := s.queue, nextId := TWO32 - 1, astray := {0})
  {
    BelowIsPlain();
    hide Leads, AllPlain, AsInt;
    var b := OneAndOne();
    CountsUpTo(b, 0, 1, TWO32 - 2);
    var r := b.(nextId := TWO32 - 2);
    Issues(b, r, 1);
    s := AfterAnswer(r, 1);
  }

  /** Ticket 2^32 - 1 reads as "not on offer": the user gives up although two tickets of its wait. */
  lemma ReadsAsRefused()
    ensures exists s :: Reachable(s) && s.users == [Idle]
                        && s.queue == [Ticket(TWO32 - 2, 1, 0, 0), Ticket(TWO32 - 1, 1, 0, 0)]
  {
    var s := AtFull();
    BelowIsPlain();
    hide Leads, AllPlain, AsInt, Reachable;
    Issues(OneAndOne(), s, 1);
    var t := AfterAnswer(s, 1);
    LeadsReaches(t);
    assert t.queue == [Ticket(TWO32 - 2, 1, 0, 0), Ticket(TWO32 - 1, 1, 0, 0)];
    assert t.users == [Idle];
  }
}
