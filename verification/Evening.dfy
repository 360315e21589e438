/** The end-of-day signal in the exchange of messages.  The director signals the dispenser, then
    every operator, then every user; a signal is pending until its process runs into it, between
    two calls or inside a blocking one.  Processes stop where the source lets them stop, and drop
    what they hold there.  When all have stopped the next day begins, with the messages left over. */
module Evening {
  import opened Office
  import opened Handshake

  datatype Proc = TheClerk | AnOper(i: nat) | AUser(u: nat)

  /** sent counts the signals sent; out holds the processes that are done for the day.  resent
      records the users whose wait for an answer was interrupted; no step depends on it. */
  datatype Dusk = Dusk(day: Day, sent: nat, pend: set<Proc>, flag: set<Proc>, out: set<Proc>, resent: set<nat>)

  /** Leave is the dispenser's test of its flag before it waits for a request, NextDay the
      beginning of a day with these services. */
  datatype Act = Work(m: Move) | Suspend | Deliver(p: Proc) | Fail(p: Proc) | Leave | NextDay(enabled: set<int>)

  /** suspendSim's order. */
  function Target(d: Day, k: nat): Proc {
    if k == 0 then TheClerk else if k <= |d.opers| then AnOper(k - 1) else AUser(k - 1 - |d.opers|)
  }

  function Number(d: Day, p: Proc): nat {
    match p
    case TheClerk => 0
    case AnOper(i) => i + 1
    case AUser(u) => u + 1 + |d.opers|
  }

  predicate Member(d: Day, p: Proc) {
    match p case TheClerk => true case AnOper(i) => i < |d.opers| case AUser(u) => u < |d.users|
  }

  /** An operator blocks the signal from its call to the end of the session, a user from the
      call it has read to the "fine". */
  predicate Masked(d: Day, p: Proc) {
    match p
    case TheClerk => false
    case AnOper(i) => i < |d.opers| && (d.opers[i].pc.WaitAck? || d.opers[i].pc.Serving?)
    case AUser(u) => u < |d.users| && (d.users[u].Acking? || d.users[u].WantFine?)
  }

  // ----- steps

  /** src/erogatore_ticket.c:389-454: a dispenser past the test of its flag receives one more request;
      a refusal is always sent; otherwise the flag makes the dispenser drop the request it has
      received, or the answer it has ready, and stop. */
  function ClerkWork(e: Dusk): Dusk {
    var late := TheClerk in e.flag;
    match e.day.clerk
    case Receiving => e.(day := ClerkGo(e.day))
    case Got(m) =>
      if late && m.Ask? && m.service in e.day.enabled then
        e.(day := e.day.(clerk := Receiving), out := e.out + {TheClerk})
      else e.(day := ClerkGo(e.day))
    case Replying(_, a) =>
      if !late then e.(day := ClerkGo(e.day))
      else if a.Refused? then e.(day := ClerkGo(e.day), out := e.out + {TheClerk})
      else e.(day := e.day.(clerk := Receiving), out := e.out + {TheClerk})
  }

  /** src/utente.c:140-145: the flag is looked at before a request only. */
  function UserWork(e: Dusk, u: nat, v: Service): Dusk
    requires u < |e.day.users|
  {
    if e.day.users[u].Idle? && AUser(u) in e.flag then
      e.(out := e.out + {AUser(u)}, flag := e.flag - {AUser(u)})
    else e.(day := UserGo(e.day, u, v))
  }

  /** src/operatori.c:355-418: the flag is looked at before a ticket and after it was removed,
      when the ticket is dropped. */
  function OperWork(e: Dusk, i: nat): Dusk
    requires i < |e.day.opers|
  {
    var o := e.day.opers[i];
    if AnOper(i) in e.flag && o.pc.Free? then e.(out := e.out + {AnOper(i)})
    else if AnOper(i) in e.flag && o.pc.Calling? then
      e.(day := e.day.(opers := e.day.opers[i := o.(pc := Free)]), out := e.out + {AnOper(i)})
    else e.(day := OperGo(e.day, i))
  }

  function DoWork(e: Dusk, m: Move): Dusk {
    match m
    case ByClerk => if TheClerk in e.out then e else ClerkWork(e)
    case ByUser(u, v) => if u < |e.day.users| && AUser(u) !in e.out then UserWork(e, u, v) else e
    case ByOper(i) => if i < |e.day.opers| && AnOper(i) !in e.out then OperWork(e, i) else e
  }

  /** The user's msgrcv for the answer fails: a pending signal and no answer in the queue. */
  predicate WillResend(e: Dusk, u: nat) {
    && u < |e.day.users| && AUser(u) in e.pend && AUser(u) !in e.out
    && e.day.users[u].WantReply? && Find(RepliesTo(u), e.day.letters) == |e.day.letters|
  }

  /** A blocking call that fails because a pending signal arrives. */
  function DoFail(e: Dusk, p: Proc): Dusk {
    if p !in e.pend || p in e.out then e
    else
      match p
      case TheClerk =>
        if e.day.clerk.Receiving? && NextAsk(e.day.letters, 1) == |e.day.letters| then
          e.(pend := e.pend - {p}, flag := e.flag + {p}, out := e.out + {p})
        else e
      case AnOper(i) =>
        if i < |e.day.opers| && e.day.opers[i].pc.Free?
           && FirstOf(e.day.queue, e.day.opers[i].service) == |e.day.queue| then
          e.(pend := e.pend - {p}, flag := e.flag + {p}, out := e.out + {p})
        else e
      case AUser(u) =>
        if WillResend(e, u) then
          e.(day := Interrupt(e.day, u), pend := e.pend - {p}, flag := e.flag + {p}, resent := e.resent + {u})
        else if u < |e.day.users| && e.day.users[u].WantCall? && Find(NotesTo(u), e.day.notes) == |e.day.notes| then
          e.(pend := e.pend - {p}, out := e.out + {p})
        else e
  }

  /** Everybody is done for the day. */
  predicate Over(e: Dusk) {
    && TheClerk in e.out
    && (forall i: nat :: i < |e.day.opers| ==> AnOper(i) in e.out)
    && (forall u: nat :: u < |e.day.users| ==> AUser(u) in e.out)
  }

  /** The director has emptied the queue of tickets; nobody empties the message queues. */
  function Tomorrow(e: Dusk, enabled: set<int>): Dusk {
    Dusk(e.day.(users := seq(|e.day.users|, _ => Idle), queue := [], enabled := enabled, evening := false),
         0, {}, {}, {}, e.resent)
  }

  function DoAct(e: Dusk, a: Act): Dusk {
    match a
    case Work(m) => DoWork(e, m)
    case Suspend =>
      if e.sent < 1 + |e.day.opers| + |e.day.users| then
        e.(day := e.day.(evening := true), sent := e.sent + 1, pend := e.pend + {Target(e.day, e.sent)})
      else e
    case Deliver(p) =>
      if p in e.pend && !Masked(e.day, p) then e.(pend := e.pend - {p}, flag := e.flag + {p}) else e
    case Fail(p) => DoFail(e, p)
    case Leave =>
      if TheClerk in e.flag && TheClerk !in e.out && e.day.clerk.Receiving? then e.(out := e.out + {TheClerk}) else e
    case NextDay(enabled) => if Over(e) then Tomorrow(e, enabled) else e
  }

  function Pass(e: Dusk, acts: seq<Act>): Dusk {
    if acts == [] then e else DoAct(Pass(e, acts[..|acts|-1]), acts[|acts|-1])
  }

  function Dawn(users: nat, services: seq<Service>, enabled: set<int>, cap: nat, nextId: nat): Dusk {
    Dusk(Morning(users, services, enabled, cap, nextId), 0, {}, {}, {}, {})
  }

  /** Every state some interleaving of work and signals leads to from clean queues. */
  ghost predicate Reached(e: Dusk) {
    exists users: nat, services: seq<Service>, enabled: set<int>, cap: nat, nextId: nat, acts: seq<Act> ::
      e == Pass(Dawn(users, services, enabled, cap, nextId), acts)
  }

  // ----- what is dropped

  lemma AskDropped(s: Day, w: nat)
    requires s.clerk.Got? && s.clerk.ask.Ask?
    ensures var p, q := TrailOf(s, w), TrailOf(s.(clerk := Receiving), w);
            if w == s.clerk.ask.user then p.asks > 0 && q == p.(asks := p.asks - 1) else q == p
  {
    hide Count;
  }

  lemma AnswerDropped(s: Day, w: nat)
    requires s.clerk.Replying?
    ensures var p, q := TrailOf(s, w), TrailOf(s.(clerk := Receiving), w);
            && (w != s.clerk.user ==> q == p)
            && (w == s.clerk.user && s.clerk.answer.Granted? ==> p.grants > 0 && q == p.(grants := p.grants - 1))
            && (w == s.clerk.user && !s.clerk.answer.Granted? ==> p.denials > 0 && q == p.(denials := p.denials - 1))
  {
    hide Count;
  }

  lemma TicketDropped(s: Day, i: nat, u: nat, w: nat)
    requires i < |s.opers| && s.opers[i].pc == Calling(u)
    ensures var p, q := TrailOf(s, w), TrailOf(s.(opers := s.opers[i := s.opers[i].(pc := Free)]), w);
            if w == u then p.tickets > 0 && q == p.(tickets := p.tickets - 1) else q == p
  {
    OperMoved(s.opers, i, Free, w);
    hide Count;
  }

  lemma ClerkDropKeeps(s: Day)
    requires Orderly(s) && s.evening && !s.clerk.Receiving?
    ensures Orderly(s.(clerk := Receiving))
  {
    hide TrailOf;
    var t := s.(clerk := Receiving);
    forall w: nat | w < |s.users|
      ensures TrailOf(t, w).fines == TrailOf(s, w).fines
      ensures Straight(t, w) ==> Fits(t.users[w], TrailOf(t, w), t.evening)
    {
      if s.clerk.Got? { AskDropped(s, w); } else { AnswerDropped(s, w); }
      assert Straight(s, w) ==> Fits(s.users[w], TrailOf(s, w), s.evening);
    }
    hide Fits;
    TrailsKept(s, t);
  }

  lemma OperDropKeeps(s: Day, i: nat, u: nat)
    requires Orderly(s) && s.evening && i < |s.opers| && s.opers[i].pc == Calling(u)
    ensures Orderly(s.(opers := s.opers[i := s.opers[i].(pc := Free)]))
  {
    hide TrailOf;
    var t := s.(opers := s.opers[i := s.opers[i].(pc := Free)]);
    forall w: nat | w < |s.users|
      ensures (Straight(t, w) ==> Fits(t.users[w], TrailOf(t, w), t.evening)) && PartnerOk(t, w)
    {
      TicketDropped(s, i, u, w);
      assert PartnerOk(s, w) && (Straight(s, w) ==> Fits(s.users[w], TrailOf(s, w), s.evening));
    }
    forall j | 0 <= j < |t.notes| ensures NoteOk(t, t.notes[j]) {
      assert NoteOk(s, s.notes[j]);
    }
    forall o: nat ensures TokensOk(t, o) {
      assert TokensOk(s, o);
    }
  }

  /** In the evening everything that fits by day still fits. */
  lemma DuskFalls(s: Day)
    requires Orderly(s)
    ensures Orderly(s.(evening := true))
  {
    var t := s.(evening := true);
    forall w: nat ensures TrailOf(t, w) == TrailOf(s, w) {
    }
    hide TrailOf;
    forall w: nat | w < |s.users|
      ensures (Straight(t, w) ==> Fits(t.users[w], TrailOf(t, w), true)) && PartnerOk(t, w)
    {
      assert PartnerOk(s, w) && (Straight(s, w) ==> Fits(s.users[w], TrailOf(s, w), s.evening));
    }
    forall j | 0 <= j < |t.notes| ensures NoteOk(t, t.notes[j]) {
      assert NoteOk(s, s.notes[j]);
    }
    forall o: nat ensures TokensOk(t, o) {
      assert TokensOk(s, o);
    }
  }

  /** A user goes astray that asks again although something of its request is left; nobody else does. */
  lemma InterruptKeeps(s: Day, u: nat)
    requires Orderly(s) && u < |s.users|
    ensures Orderly(Interrupt(s, u))
  {
    hide Find;
    var t := Interrupt(s, u);
    if t != s {
      var pc := t.users[u];
      forall w: nat ensures TrailOf(t, w) == TrailOf(s, w) {
      }
      if Straight(t, u) {
        forall k | 0 <= k < |t.notes| ensures t.notes[k].user != u || t.notes[k].Call? {
          if s.notes[k].user == u { OnlyCalls(s, u, k); }
        }
      }
      hide TrailOf;
      forall w: nat | w < |s.users|
        ensures (Straight(t, w) ==> Fits(t.users[w], TrailOf(t, w), t.evening)) && PartnerOk(t, w)
      {
        assert PartnerOk(s, w) && (Straight(s, w) ==> Fits(s.users[w], TrailOf(s, w), s.evening));
      }
      forall o: nat ensures TokensOk(t, o) {
        UserTokens(s, u, pc, o);
        assert TokensOk(s, o);
      }
      NotesKept(s, t, u);
    }
  }

  // ----- who has been signalled

  ghost predicate SignalsOk(e: Dusk) {
    && (forall p :: p in e.pend ==> Number(e.day, p) < e.sent)
    && (forall p :: p in e.flag ==> Number(e.day, p) < e.sent)
    && (forall p :: p in e.out ==> Number(e.day, p) < e.sent)
    && (forall p :: p in e.pend ==> p !in e.flag && p !in e.out)
    && (forall p :: Member(e.day, p) && Number(e.day, p) < e.sent ==> p in e.pend || p in e.flag || p in e.out)
    && (e.sent > 0 ==> e.day.evening)
    && (TheClerk in e.out ==> e.day.clerk.Receiving?)
    && (forall u: nat :: u < |e.day.users| && AUser(u) in e.out ==> e.day.users[u].Idle? || e.day.users[u].WantCall?)
    && (forall i: nat :: i < |e.day.opers| && AnOper(i) in e.out ==> e.day.opers[i].pc.Free?)
  }

  /** Who is astray has been interrupted or has read an identifier that is not plain. */
  ghost predicate StraysOk(e: Dusk) { forall u: nat :: u !in e.resent ==> LedBy(e.day, u, e.day.firstId) }

  ghost predicate DuskOk(e: Dusk) { SignalsOk(e) && StraysOk(e) && Orderly(e.day) }

  /** What a step of the day leaves alone. */
  predicate DayStep(s: Day, t: Day, m: Move) {
    && SameDay(s, t) && s.astray <= t.astray
    && (!m.ByClerk? ==> t.clerk == s.clerk)
    && (forall u: nat :: u < |s.users| && !(m.ByUser? && m.u == u) ==> t.users[u] == s.users[u])
    && (forall i: nat :: i < |s.opers| && !(m.ByOper? && m.i == i) ==> t.opers[i] == s.opers[i])
  }

  lemma DoIsDayStep(s: Day, m: Move)
    ensures DayStep(s, Do(s, m), m)
  {
    hide Find, NextAsk, FirstOf, Without;
  }

  lemma SignalsStay(e: Dusk, t: Dusk, m: Move)
    requires SignalsOk(e) && t == e.(day := t.day) && DayStep(e.day, t.day, m)
    requires m.ByClerk? ==> TheClerk !in e.out
    requires m.ByUser? ==> AUser(m.u) !in e.out
    requires m.ByOper? ==> AnOper(m.i) !in e.out
    ensures SignalsOk(t)
  {
  }

  /** A step that is the work of nobody interrupted. */
  lemma StraysStay(e: Dusk, t: Dusk)
    requires StraysOk(e) && t.resent == e.resent && t.day.firstId == e.day.firstId
    requires forall u: nat :: LedBy(e.day, u, e.day.firstId) ==> LedBy(t.day, u, e.day.firstId)
    ensures StraysOk(t)
  {
    hide LedBy;
  }

  lemma MoveStrays(e: Dusk, m: Move)
    requires StraysOk(e)
    ensures StraysOk(e.(day := Do(e.day, m)))
  {
    DoIsDayStep(e.day, m);
    var t := e.(day := Do(e.day, m));
    forall u: nat | LedBy(e.day, u, e.day.firstId) ensures LedBy(t.day, u, e.day.firstId) {
      DoLed(e.day, m, u, e.day.firstId);
    }
    hide LedBy, Do;
    StraysStay(e, t);
  }

  /** What is dropped leads nobody astray. */
  lemma DropStrays(e: Dusk, d: Day)
    requires StraysOk(e) && (d == e.day.(clerk := Receiving) || d == e.day.(opers := d.opers))
    ensures StraysOk(e.(day := d))
  {
    hide Plain;
    forall u: nat | LedBy(e.day, u, e.day.firstId) ensures LedBy(d, u, e.day.firstId) {
    }
    hide LedBy;
  }

  lemma ClerkWorkOk(e: Dusk)
    requires DuskOk(e) && TheClerk !in e.out
    ensures DuskOk(ClerkWork(e))
  {
    var late := TheClerk in e.flag;
    DoIsDayStep(e.day, ByClerk);
    SignalsStay(e, e.(day := ClerkGo(e.day)), ByClerk);
    ClerkKeeps(e.day);
    MoveStrays(e, ByClerk);
    DropStrays(e, e.day.(clerk := Receiving));
    if !e.day.clerk.Receiving? && late {
      ClerkDropKeeps(e.day);
    }
    hide Orderly, NextAsk, Find, LedBy;
  }

  lemma UserWorkOk(e: Dusk, u: nat, v: Service)
    requires DuskOk(e) && u < |e.day.users| && AUser(u) !in e.out
    ensures DuskOk(UserWork(e, u, v))
  {
    DoIsDayStep(e.day, ByUser(u, v));
    SignalsStay(e, e.(day := UserGo(e.day, u, v)), ByUser(u, v));
    UserKeeps(e.day, u, v);
    MoveStrays(e, ByUser(u, v));
    hide Orderly, UserGo, LedBy;
  }

  lemma OperWorkOk(e: Dusk, i: nat)
    requires DuskOk(e) && i < |e.day.opers| && AnOper(i) !in e.out
    ensures DuskOk(OperWork(e, i))
  {
    var o := e.day.opers[i];
    DoIsDayStep(e.day, ByOper(i));
    SignalsStay(e, e.(day := OperGo(e.day, i)), ByOper(i));
    OperKeeps(e.day, i);
    MoveStrays(e, ByOper(i));
    DropStrays(e, e.day.(opers := e.day.opers[i := o.(pc := Free)]));
    if AnOper(i) in e.flag && o.pc.Calling? {
      OperDropKeeps(e.day, i, o.pc.user);
    }
    hide Orderly, OperGo, LedBy;
  }

  lemma SuspendOk(e: Dusk)
    requires DuskOk(e)
    ensures DuskOk(DoAct(e, Suspend))
  {
    DuskFalls(e.day);
    hide Orderly, Plain;
    assert Number(e.day, Target(e.day, e.sent)) == e.sent;
    assert forall p :: Number(e.day.(evening := true), p) == Number(e.day, p);
    forall u: nat | LedBy(e.day, u, e.day.firstId) ensures LedBy(e.day.(evening := true), u, e.day.firstId) {
    }
    hide LedBy;
  }

  lemma SignalOk(e: Dusk, a: Act)
    requires DuskOk(e) && (a.Deliver? || a.Fail? || a.Leave?)
    ensures DuskOk(DoAct(e, a))
  {
    var t := DoAct(e, a);
    SignalCounts(e, a);
    if a.Fail? && a.p.AUser? && WillResend(e, a.p.u) {
      InterruptKeeps(e.day, a.p.u);
      InterruptStrays(e, t, a.p.u);
    } else {
      assert t.day == e.day && t.resent == e.resent;
    }
    hide Orderly, Find, NextAsk, FirstOf, RepliesTo, NotesTo, LedBy, SignalsOk;
  }

  lemma SignalCounts(e: Dusk, a: Act)
    requires SignalsOk(e) && (a.Deliver? || a.Fail? || a.Leave?)
    ensures SignalsOk(DoAct(e, a))
  {
    hide Find, NextAsk, FirstOf, RepliesTo, NotesTo, TrailOf;
  }

  /** Whoever is not astray begins the next day with nothing under way. */
  lemma TrailEnds(e: Dusk, enabled: set<int>, u: nat)
    requires DuskOk(e) && Over(e) && Straight(e.day, u)
    ensures TrailOf(Tomorrow(e, enabled).day, u) == NOTHING
  {
    var s := e.day;
    assert Fits(s.users[u], TrailOf(s, u), s.evening);
    CountNone(CallersOf(u), s.opers);
    CountNone(WaitersOf(u), s.opers);
    CountNone(ServersOf(u), s.opers);
    hide Count, LedBy, NoteOk, PartnerOk, TokensOk;
  }

  lemma TomorrowOrderly(e: Dusk, enabled: set<int>)
    requires DuskOk(e) && Over(e)
    ensures Orderly(Tomorrow(e, enabled).day)
  {
    var s, t := e.day, Tomorrow(e, enabled).day;
    forall u: nat | Straight(t, u) ensures Fits(t.users[u], TrailOf(t, u), t.evening) {
      TrailEnds(e, enabled, u);
    }
    hide TrailOf, LedBy;
    forall o: nat ensures TokensOk(t, o) {
      assert TokensOk(s, o);
      CountNone(AckersTo(o), t.users);
    }
    forall k | 0 <= k < |t.notes| ensures NoteOk(t, t.notes[k]) {
      assert NoteOk(s, s.notes[k]);
    }
  }

  lemma TomorrowOk(e: Dusk, enabled: set<int>)
    requires DuskOk(e) && Over(e)
    ensures DuskOk(Tomorrow(e, enabled))
  {
    TomorrowOrderly(e, enabled);
    var t := Tomorrow(e, enabled);
    hide Orderly, Plain;
    forall u: nat | LedBy(e.day, u, e.day.firstId) ensures LedBy(t.day, u, e.day.firstId) {
    }
    hide LedBy;
  }

  lemma InterruptStrays(e: Dusk, t: Dusk, u: nat)
    requires StraysOk(e) && u < |e.day.users| && t.day == Interrupt(e.day, u) && t.day != e.day
    requires t.resent == e.resent + {u}
    ensures StraysOk(t)
  {
    hide Plain, Find;
    forall w: nat | w != u && LedBy(e.day, w, e.day.firstId) ensures LedBy(t.day, w, e.day.firstId) {
    }
    hide LedBy;
  }

  lemma ActOk(e: Dusk, a: Act)
    requires DuskOk(e)
    ensures DuskOk(DoAct(e, a)) && |DoAct(e, a).day.users| == |e.day.users| && |DoAct(e, a).day.opers| == |e.day.opers|
  {
    Sizes(e, a);
    hide DuskOk;
    match a
    case Suspend => SuspendOk(e);
    case Deliver(_) => SignalOk(e, a);
    case Fail(_) => SignalOk(e, a);
    case Leave => SignalOk(e, a);
    case NextDay(enabled) => if Over(e) { TomorrowOk(e, enabled); }
    case Work(m) =>
      match m {
        case ByClerk => hide ClerkWork; if TheClerk !in e.out { ClerkWorkOk(e); }
        case ByUser(u, v) => hide UserWork; if u < |e.day.users| && AUser(u) !in e.out { UserWorkOk(e, u, v); }
        case ByOper(i) => hide OperWork; if i < |e.day.opers| && AnOper(i) !in e.out { OperWorkOk(e, i); }
      }
  }

  lemma Sizes(e: Dusk, a: Act)
    ensures |DoAct(e, a).day.users| == |e.day.users| && |DoAct(e, a).day.opers| == |e.day.opers|
  {
    if a.Work? {
      DoSameDay(e.day, a.m);
    }
    hide UserGo, ClerkGo, OperGo, NextAsk, Find, FirstOf;
  }

  lemma {:induction false} PassOk(e: Dusk, acts: seq<Act>)
    requires DuskOk(e)
    ensures DuskOk(Pass(e, acts)) && |Pass(e, acts).day.users| == |e.day.users|
    ensures |Pass(e, acts).day.opers| == |e.day.opers|
  {
    if acts != [] {
      PassOk(e, acts[..|acts|-1]);
      hide DuskOk, DoAct;
      ActOk(Pass(e, acts[..|acts|-1]), acts[|acts|-1]);
    }
  }

  lemma ReachedOk(e: Dusk)
    requires Reached(e)
    ensures DuskOk(e)
  {
    var users: nat, services: seq<Service>, enabled: set<int>, cap: nat, nextId: nat, acts: seq<Act> :|
      e == Pass(Dawn(users, services, enabled, cap, nextId), acts);
    MorningOrderly(users, services, enabled, cap, nextId);
    hide Orderly, Plain;
    PassOk(Dawn(users, services, enabled, cap, nextId), acts);
  }
}
