/** What the steps of the director change, what they leave alone, and how its program counter
    moves. */
module Director {
  import opened Office
  import opened Processes

  predicate OnlySignals(ops: seq<Op>, ops': seq<Op>) {
    |ops'| == |ops| && forall j :: 0 <= j < |ops| ==> ops'[j] == ops[j].(sig := ops'[j].sig)
  }

  /** A director step that writes gates, the pipe and signals only. */
  predicate DirQuiet(s: State, t: State) {
    && t.cfg == s.cfg && OnlySignals(s.ops, t.ops)
    && t.sh == s.sh.(sim := t.sh.sim, pipe := t.sh.pipe, hist := s.sh.hist.(day := t.sh.hist.day))
    && t.disp.pc == s.disp.pc && t.disp.first == s.disp.first
    && t.disp.enabled == s.disp.enabled && t.disp.days == s.disp.days
    && t.dir.arr == s.dir.arr
  }

  /** From the start of a day to its statistics the director writes only gates and the pipe. */
  lemma DayEffect(s: State)
    ensures DirQuiet(s, DirDay(s))
  {
  }

  lemma EndEffect(s: State)
    ensures DirQuiet(s, DirEnd(s))
  {
  }

  lemma ResetSemEffect(s: State)
    ensures var t := DirReset(s);
            && t == s.(sh := t.sh, dir := s.dir.(pc := t.dir.pc))
            && t.sh == s.sh.(sim := t.sh.sim, tSem := t.sh.tSem, trace := s.sh.trace.(passed := t.sh.trace.passed))
  {
  }

  /** The ticket semaphores change only at the end of a reset. */
  lemma ResetWrites(s: State)
    ensures var t := DirReset(s);
            t.sh.tSem == if s.dir.pc.DResetT? then ZEROES else s.sh.tSem
  {
  }

  // ----- the director's control flow

  predicate DirFlow(p: DirPc, q: DirPc) {
    match p
    case DPipe => q.DPost2? || q.DWait0?
    case DPost2 => q.DWait0?
    case DWait0 => q.DWait1?
    case DWait1 => q.DOpen?
    case DOpen => q.DDay?
    case DDay => q == DSuspend(0)
    case DSuspend(_) => q.DSuspend? || q.DWaitStats?
    case DWaitStats => q == DReset2(false)
    case DReset2(l) => q == DReset0(l)
    case DReset0(l) => q == DReset1(l)
    case DReset1(l) => q == DReset3(l)
    case DReset3(l) => q == DReset4(l)
    case DReset4(l) => q == DResetT(l)
    case DResetT(l) => if l then q.DEndSim? else q.DClear?
    case DClear => q.DUsers?
    case DUsers => q.DDecide?
    case DDecide => q.DApply? || q.DExplode?
    case DApply => q.DExplode?
    case DExplode => q == DReset2(true) || q.DPipe?
    case DEndSim(_) => q.DEndSim? || q.DWaitFinal?
    case DWaitFinal => q.DDone?
    case DDone => false
  }

  /** Control flow, the day count, and what the director decides from the statistics. */
  predicate DirFlows(s: State, t: State) {
    var d, e := s.dir, t.dir;
    && (e.pc == d.pc || DirFlow(d.pc, e.pc))
    && t.sh.hist.day == s.sh.hist.day + One(d.pc.DOpen? && e.pc.DDay?)
    && (d.pc.DWaitStats? && e.pc.DReset2? ==> s.sh.sim.s4 > 0)
    && (e.first <==> d.first && !(d.pc.DWaitStats? && e.pc.DReset2?))
    && (e.timeout <==> d.timeout || (d.pc.DDecide? && e.pc.DExplode?))
    && (d.pc.DDecide? && e.pc.DExplode? ==> s.sh.stats.currentDay == s.cfg.duration)
    && (d.pc.DDecide? && e.pc.DApply? ==> s.sh.stats.currentDay != s.cfg.duration)
    && (if d.pc.DExplode? && e.pc != d.pc then
          && (e.explode <==> s.sh.stats.notServedDay >= s.cfg.threshold)
          && e.pc == if d.timeout || e.explode then DReset2(true) else DPipe
        else e.explode == d.explode)
  }

  /** What no director step changes. */
  predicate DirSpares(s: State, t: State) {
    && t.cfg == s.cfg && t.sh.stats == s.sh.stats && t.sh.hist.closed == s.sh.hist.closed
    && t.sh.nextId == s.sh.nextId && (s.dir.pc.DClear? || t.sh.hist.issued == s.sh.hist.issued)
    && t.disp.pc == s.disp.pc && t.disp.days == s.disp.days && t.disp.first == s.disp.first
    && |t.sh.desks| == |s.sh.desks| && OnlySignals(s.ops, t.ops)
  }

  lemma DayFlows(s: State)
    ensures DirFlows(s, DirDay(s))
  {
  }

  lemma ResetFlows(s: State)
    ensures DirFlows(s, DirReset(s))
  {
  }

  lemma ResetSpares(s: State)
    ensures DirSpares(s, DirReset(s))
  {
  }

  lemma TurnFlows(s: State, arr: seq<int>, newUsers: nat)
    ensures DirFlows(s, DirTurn(s, arr, newUsers))
  {
  }

  lemma TurnSpares(s: State, arr: seq<int>, newUsers: nat)
    ensures DirSpares(s, DirTurn(s, arr, newUsers))
  {
  }

  lemma EndFlows(s: State)
    ensures DirFlows(s, DirEnd(s))
  {
  }

  lemma DirStep(s: State, arr: seq<int>, newUsers: nat)
    ensures var t := Apply(s, StepDir(arr, newUsers)); DirFlows(s, t) && DirSpares(s, t)
  {
    hide DirDay, DirReset, DirTurn, DirEnd, DirFlows;
    match s.dir.pc
    case DPipe | DPost2 | DWait0 | DWait1 | DOpen | DDay | DSuspend(_) | DWaitStats => DayFlows(s); DayEffect(s);
    case DReset2(_) | DReset0(_) | DReset1(_) | DReset3(_) | DReset4(_) | DResetT(_) => ResetFlows(s); ResetSpares(s);
    case DClear | DUsers | DDecide | DApply | DExplode => TurnFlows(s, arr, newUsers); TurnSpares(s, arr, newUsers);
    case DEndSim(_) | DWaitFinal | DDone => EndFlows(s); EndEffect(s);
  }
}
