/** How often each desk is taken: the desk table's daily counts are the reservations of the day, desk
    by desk, and so are the rows of ratios that the closed days leave behind. */
module Occupations {
  import opened Office
  import opened Processes
  import opened Tallies
  import opened Frames
  import opened Barrier
  import opened Core
  import opened Invariant
  import opened Director

  /** How many of these reservations are of desk id. */
  function Times(taken: seq<nat>, id: nat): nat {
    if taken == [] then 0 else Times(taken[..|taken|-1], id) + One(taken[|taken|-1] == id)
  }

  predicate TableCounts(s: State) {
    forall k :: 0 <= k < |s.sh.desks| ==> s.sh.desks[k].occupied == Times(s.sh.trace.taken, k + 1)
  }

  /** Each ratio times the active operators is the desk's reservations; without active operators it
      is 0. */
  predicate RowTells(r: DayRecord, seats: nat) {
    && |r.row| == seats
    && forall k :: 0 <= k < seats ==>
         if r.active > 0 then r.row[k] * r.active as real == Times(r.taken, k + 1) as real else r.row[k] == 0.0
  }

  predicate RowsTell(s: State) {
    forall j :: 0 <= j < |s.sh.hist.closed| ==> RowTells(s.sh.hist.closed[j], |s.sh.desks|)
  }

  predicate OccupationsOk(s: State) { TableCounts(s) && RowsTell(s) }

  // ----- operators

  lemma Books(taken: seq<nat>, id: nat, k: nat)
    ensures Times(taken + [id], k) == Times(taken, k) + One(id == k)
  {
    assert (taken + [id])[..|taken|] == taken;
  }

  /** A reservation takes a free desk of the service, none before it being one, and counts it. */
  predicate TakesDesk(sh: Shared, r: Result, service: Service, pid: nat) {
    var ds, id := sh.desks, r.o.desk;
    if id == 0 then
      && r.sh.desks == ds && r.sh.trace.taken == sh.trace.taken
      && forall k :: 0 <= k < |ds| ==> ds[k].owner != 0 || ds[k].service != service
    else
      && id <= |ds| && ds[id-1].owner == 0 && ds[id-1].service == service
      && (forall k :: 0 <= k < id - 1 ==> ds[k].owner != 0 || ds[k].service != service)
      && r.sh.desks == ds[id-1 := Desk(ds[id-1].service, pid, ds[id-1].occupied + 1)]
      && r.sh.trace.taken == sh.trace.taken + [id]
  }

  lemma Reserving(cfg: Config, sh: Shared, o: Op, pid: nat, choice: bool)
    requires o.pc.OReserve?
    ensures TakesDesk(sh, OpDo(cfg, sh, o, pid, Go(choice)), o.service, pid)
  {
  }

  predicate KeepsCounts(sh: Shared, r: Shared) {
    && r.trace.taken == sh.trace.taken && |r.desks| == |sh.desks|
    && forall k :: 0 <= k < |sh.desks| ==> r.desks[k].occupied == sh.desks[k].occupied
  }

  lemma NotReserving(cfg: Config, sh: Shared, o: Op, pid: nat, a: Act)
    requires !(o.pc.OReserve? && a.Go?)
    ensures KeepsCounts(sh, OpDo(cfg, sh, o, pid, a).sh)
  {
    hide GateGo, DeskGo, CountGo, TicketGo, ServeGo, SessionGo, StatGo, PauseGo, RestGo, CloseGo;
    if a.Go? {
      hide KeepsCounts;
      QuietRegions(cfg, sh, o, pid, a.choice);
      QuietReleases(cfg, sh, o, pid, a.choice);
      SameCounts(sh);
    } else {
      SameCounts(sh);
    }
  }

  lemma SameCounts(sh: Shared)
    ensures KeepsCounts(sh, sh)
  {
  }

  lemma QuietRegions(cfg: Config, sh: Shared, o: Op, pid: nat, choice: bool)
    requires !o.pc.OReserve?
    ensures KeepsCounts(sh, GateGo(sh, o).sh) && KeepsCounts(sh, DeskGo(sh, o, pid).sh)
    ensures KeepsCounts(sh, CountGo(sh, o).sh) && KeepsCounts(sh, TicketGo(sh, o).sh)
    ensures KeepsCounts(sh, ServeGo(sh, o).sh) && KeepsCounts(sh, SessionGo(sh, o).sh)
    ensures KeepsCounts(sh, StatGo(sh, o).sh) && KeepsCounts(sh, RestGo(sh, o).sh)
  {
    hide Bump, Provided, Without;
  }

  lemma QuietReleases(cfg: Config, sh: Shared, o: Op, pid: nat, choice: bool)
    ensures KeepsCounts(sh, PauseGo(cfg, sh, o, pid, choice).sh) && KeepsCounts(sh, CloseGo(sh, o, pid).sh)
  {
    hide Bump;
  }

  lemma OpKeepsOccupations(s: State, i: nat, a: Act)
    requires OccupationsOk(s) && CoreOk(s) && i < |s.ops|
    ensures OccupationsOk(Apply(s, StepOp(i, a)))
  {
    hide OpDo, Apply, CoreOk, RowTells;
    var o, r, t := s.ops[i], OpDo(s.cfg, s.sh, s.ops[i], i + 1, a), Apply(s, StepOp(i, a));
    OpStep(s, i, a);
    if o.pc.OReserve? && a.Go? {
      Reserving(s.cfg, s.sh, o, i + 1, a.choice);
      forall k | 0 <= k < |t.sh.desks| ensures t.sh.desks[k].occupied == Times(t.sh.trace.taken, k + 1) {
        Books(s.sh.trace.taken, r.o.desk, k + 1);
      }
    } else {
      NotReserving(s.cfg, s.sh, o, i + 1, a);
    }
  }

  // ----- dispenser

  lemma RecordTells(s: State)
    requires TableCounts(s)
    ensures RowTells(Record(s), |s.sh.desks|)
  {
    var r, ds := Record(s), s.sh.desks;
    assert r.row == RatioRow(ds, r.active) && r.taken == s.sh.trace.taken;
    forall k | 0 <= k < |ds|
      ensures if r.active > 0 then r.row[k] * r.active as real == Times(r.taken, k + 1) as real else r.row[k] == 0.0
    {
      RatioEntry(ds, r.active, k);
    }
    hide Record, RatioRow;
  }

  lemma DispTakesNone(s: State, a: Act, req: Request)
    ensures Apply(s, StepDisp(a, req)).sh.trace.taken == s.sh.trace.taken
  {
    hide Closed, Record, DayReset, Bump;
  }

  lemma DispKeepsOccupations(s: State, a: Act, req: Request)
    requires OccupationsOk(s)
    ensures OccupationsOk(Apply(s, StepDisp(a, req)))
  {
    hide Apply, RowTells, Record, Closed, DayReset, DispLocks;
    DispFrame(s, a, req);
    DispTakesNone(s, a, req);
    RecordTells(s);
  }

  // ----- director

  /** Only the clearing touches the counts, and it sets them all to 0. */
  lemma DirOccupations(s: State, arr: seq<int>, newUsers: nat)
    ensures var t := Apply(s, StepDir(arr, newUsers));
            if s.dir.pc.DClear? then
              && |t.sh.desks| == |s.sh.desks| && t.sh.trace.taken == []
              && forall k :: 0 <= k < |s.sh.desks| ==> t.sh.desks[k].occupied == 0
            else KeepsCounts(s.sh, t.sh)
  {
    hide DirDay, DirReset, DirTurn, DirEnd;
    match s.dir.pc
    case DPipe | DPost2 | DWait0 | DWait1 | DOpen | DDay | DSuspend(_) | DWaitStats => DayEffect(s); SameCounts(s.sh);
    case DReset2(_) | DReset0(_) | DReset1(_) | DReset3(_) | DReset4(_) | DResetT(_) => ResetSemEffect(s);
    case DClear => ClearOccupations(s, arr, newUsers);
    case DUsers | DDecide | DApply | DExplode => TurnOccupations(s, arr, newUsers);
    case DEndSim(_) | DWaitFinal | DDone => EndEffect(s);
  }

  lemma ClearOccupations(s: State, arr: seq<int>, newUsers: nat)
    requires s.dir.pc.DClear?
    ensures var t := DirTurn(s, arr, newUsers);
            && |t.sh.desks| == |s.sh.desks| && t.sh.trace.taken == []
            && forall k :: 0 <= k < |s.sh.desks| ==> t.sh.desks[k].occupied == 0
  {
  }

  lemma TurnOccupations(s: State, arr: seq<int>, newUsers: nat)
    requires !s.dir.pc.DClear?
    ensures KeepsCounts(s.sh, DirTurn(s, arr, newUsers).sh)
  {
  }

  lemma DirKeepsOccupations(s: State, arr: seq<int>, newUsers: nat)
    requires OccupationsOk(s)
    ensures OccupationsOk(Apply(s, StepDir(arr, newUsers)))
  {
    DirOccupations(s, arr, newUsers);
    DirStep(s, arr, newUsers);
    hide Apply, RowTells, DirFlows;
  }

  // ----- runs

  lemma StepKeepsOccupations(s: State, step: Step)
    requires Inv(s) && OccupationsOk(s)
    ensures OccupationsOk(Apply(s, step))
  {
    hide *;
    Parts(s);
    match step
    case StepOp(i, a) => if i < |s.ops| { OpKeepsOccupations(s, i, a); } else { NoSuchOperator(s, i, a); }
    case StepDisp(a, req) => DispKeepsOccupations(s, a, req);
    case StepDir(arr, newUsers) => DirKeepsOccupations(s, arr, newUsers);
    case StepUser => UserKeepsOccupations(s);
  }

  lemma NoSuchOperator(s: State, i: nat, a: Act)
    requires i >= |s.ops|
    ensures Apply(s, StepOp(i, a)) == s
  {
  }

  lemma UserKeepsOccupations(s: State)
    requires OccupationsOk(s)
    ensures OccupationsOk(Apply(s, StepUser))
  {
    hide RowTells;
  }

  lemma {:induction false} RunOccupies(u: Setup, steps: seq<Step>)
    requires ValidSetup(u)
    ensures Inv(Run(Begin(u), steps)) && OccupationsOk(Run(Begin(u), steps))
  {
    hide Inv, Apply;
    BeginInv(u);
    RunKeepsInv(Begin(u), steps);
    if steps != [] {
      RunOccupies(u, steps[..|steps|-1]);
      StepKeepsOccupations(Run(Begin(u), steps[..|steps|-1]), steps[|steps|-1]);
    }
  }

  // ----- what it means

  /** In every reachable state each desk's count is the number of times it has been reserved since the
      last clearing. */
  lemma CountsAreReservations(s: State, k: nat)
    requires Reachable(s) && k < |s.sh.desks|
    ensures s.sh.desks[k].occupied == Times(s.sh.trace.taken, k + 1)
  {
    ReachableOccupations(s);
  }

  /** Every entry of every closed day's row: the ratio times the operators active that day is the
      number of times that very desk was reserved that day. */
  lemma RowsAreReservations(s: State, j: nat, k: nat)
    requires Reachable(s) && j < |s.sh.hist.closed| && k < |s.sh.desks|
    ensures var r := s.sh.hist.closed[j];
            && |r.row| == |s.sh.desks|
            && (r.active > 0 ==> r.row[k] * r.active as real == Times(r.taken, k + 1) as real)
            && (r.active == 0 ==> r.row[k] == 0.0)
  {
    ReachableOccupations(s);
    assert RowTells(s.sh.hist.closed[j], |s.sh.desks|);
  }

  lemma ReachableOccupations(s: State)
    requires Reachable(s)
    ensures OccupationsOk(s)
  {
    hide OccupationsOk, Run, Begin, Inv;
    var u, steps :| ValidSetup(u) && s == Run(Begin(u), steps);
    RunOccupies(u, steps);
  }
}
