/** The MCPServer reconciler: when a cron fire is due, that at most one run is active, which runs
    are pruned and which verdict the server shows. */
module ServerController {
  import opened Options
  import opened RunController

  // ---- the schedule -------------------------------------------------------------------------

  type Schedule = int -> int

  /** next(t) is the first fire strictly after t, and there always is one. */
  ghost predicate IsSchedule(next: Schedule) {
    && (forall t :: t < next(t))
    && (forall t, u :: t <= u < next(t) ==> next(u) == next(t))
  }

  ghost predicate IsFire(next: Schedule, f: int) { next(f - 1) == f }

  /** The n-th fire after t; t itself for n = 0. */
  function Nth(next: Schedule, t: int, n: nat): int {
    if n == 0 then t else next(Nth(next, t, n - 1))
  }

  lemma NextIsFire(next: Schedule, t: int)
    requires IsSchedule(next)
    ensures IsFire(next, next(t))
    ensures forall f :: IsFire(next, f) && t < f ==> next(t) <= f
  {
    var f := next(t);
    assert t <= f - 1 < next(t);
    forall g | IsFire(next, g) && t < g ensures f <= g {
      assert t <= g - 1 < next(t) ==> next(g - 1) == f;
    }
  }

  lemma {:induction false} NthGrows(next: Schedule, t: int, m: nat, n: nat)
    requires IsSchedule(next) && m <= n
    ensures Nth(next, t, m) + (n - m) <= Nth(next, t, n)
    decreases n
  {
    if m < n {
      NthGrows(next, t, m, n - 1);
    }
  }

  const WALK_LIMIT: nat := 1000

  /** f is the greatest fire in (since, now]. */
  ghost predicate MostRecent(next: Schedule, since: int, now: int, f: int) {
    IsFire(next, f) && since < f <= now && forall g :: IsFire(next, g) && g <= now ==> g <= f
  }

  /** isDue, from the reference point on. The walk stops after 1000 fires: what it returns is an
      elapsed fire, and it is the most recent one exactly if no more than 1000 have elapsed. */
  method IsDue(next: Schedule, since: int, now: int) returns (fire: Option<int>)
    requires IsSchedule(next)
    ensures fire.Some? <==> next(since) <= now
    ensures fire.Some? ==> IsFire(next, fire.value) && since < fire.value <= now
    ensures fire.Some? ==> (MostRecent(next, since, now, fire.value) <==> now < Nth(next, since, WALK_LIMIT + 1))
  {
    ghost var i;
    fire, i := WalkFires(next, since, now);
    WalkEnds(next, since, now, i);
  }

  lemma FireAfter(next: Schedule, t: int)
    requires IsSchedule(next)
    ensures t < next(t) && IsFire(next, next(t))
  {
    NextIsFire(next, t);
  }

  /** The walk: it takes i fires. */
  method WalkFires(next: Schedule, since: int, now: int) returns (fire: Option<int>, ghost i: nat)
    requires IsSchedule(next)
    ensures i <= WALK_LIMIT && fire == if i == 0 then None else Some(Nth(next, since, i))
    ensures i < WALK_LIMIT ==> now < next(Nth(next, since, i))
    ensures i > 0 ==> IsFire(next, Nth(next, since, i)) && since < Nth(next, since, i) <= now
  {
    fire, i := None, 0;
    var cursor := since;
    var n := 0;
    while n < WALK_LIMIT
      invariant i == n <= WALK_LIMIT && cursor == Nth(next, since, i)
      invariant fire == if i == 0 then None else Some(cursor)
      invariant i > 0 ==> IsFire(next, cursor) && since < cursor <= now
    {
      var f := next(cursor);
      if f > now {
        break;
      }
      FireAfter(next, cursor);
      fire, cursor := Some(f), f;
      n, i := n + 1, i + 1;
    }
  }

  lemma WalkEnds(next: Schedule, since: int, now: int, i: nat)
    requires IsSchedule(next) && i <= WALK_LIMIT
    requires i < WALK_LIMIT ==> now < next(Nth(next, since, i))
    requires i > 0 ==> IsFire(next, Nth(next, since, i)) && since < Nth(next, since, i) <= now
    ensures i > 0 <==> next(since) <= now
    ensures i > 0 ==> (MostRecent(next, since, now, Nth(next, since, i)) <==> now < Nth(next, since, WALK_LIMIT + 1))
  {
    var last := Nth(next, since, i);
    NextIsFire(next, last);
    if i > 0 {
      assert Nth(next, since, 1) == next(Nth(next, since, 0)) == next(since);
      NthGrows(next, since, 1, i);
      if i < WALK_LIMIT {
        NthGrows(next, since, i + 1, WALK_LIMIT + 1);
      }
      assert next(last) == Nth(next, since, i + 1);
      if now < next(last) {
        forall g | IsFire(next, g) && g <= now ensures g <= last { }
      } else {
        assert !MostRecent(next, since, now, last) by { assert IsFire(next, next(last)) && last < next(last) <= now; }
      }
    }
  }

  // ---- runs of a server --------------------------------------------------------------------------

  /** `fire` is the cron fire a run was started for, if any. */
  datatype Run = Run(name: nat, created: int, phase: Phase, score: int, scoring: Option<Scoring>, deleting: bool,
                     fire: Option<int>)

  predicate Active(r: Run) { !r.deleting && !IsTerminal(r.phase) }

  function ActiveCount(runs: seq<Run>): nat {
    if runs == [] then 0 else (if Active(runs[0]) then 1 else 0) + ActiveCount(runs[1..])
  }

  ghost predicate AnyActive(runs: seq<Run>) { exists i :: 0 <= i < |runs| && Active(runs[i]) }

  /** findActiveRun. */
  method FindActiveRun(runs: seq<Run>) returns (found: bool)
    ensures found == AnyActive(runs)
  {
    for i := 0 to |runs|
      invariant forall j :: 0 <= j < i ==> !Active(runs[j])
    {
      if runs[i].deleting {
        continue;
      }
      if !IsTerminal(runs[i].phase) {
        return true;
      }
    }
    return false;
  }

  lemma {:induction false} NoneActive(runs: seq<Run>)
    ensures AnyActive(runs) <==> ActiveCount(runs) > 0
  {
    if runs != [] {
      NoneActive(runs[1..]);
      assert runs == [runs[0]] + runs[1..];
      if AnyActive(runs) && !Active(runs[0]) {
        var i :| 0 <= i < |runs| && Active(runs[i]);
        assert Active(runs[1..][i - 1]);
      }
    }
  }

  lemma {:induction false} ActiveConcat(a: seq<Run>, b: seq<Run>)
    ensures ActiveCount(a + b) == ActiveCount(a) + ActiveCount(b)
  {
    if a == [] {
      assert a + b == b;
    } else {
      assert (a + b)[0] == a[0] && (a + b)[1..] == a[1..] + b;
      ActiveConcat(a[1..], b);
    }
  }

  // ---- firing ----------------------------------------------------------------------------------------

  /** The server: when it was last evaluated, its trigger annotation and its runs; and, for the record,
      which cron fires were written off as evaluated, and for which ones a run was started. */
  datatype Server = Server(born: int, lastEval: Option<int>, trigger: bool, runs: seq<Run>, consumed: seq<int>,
                           started: seq<int>, clock: int)

  /** What one reconcile meets: the clock, the (possibly stale) cached list, and which API calls work. */
  datatype Visit = Visit(now: int, cached: seq<Run>, freshOk: bool, createOk: bool, name: nat, clearOk: bool,
                         patchOk: bool)

  function Since(s: Server): int { if s.lastEval.Some? then s.lastEval.value else s.born }

  function NewRun(v: Visit, fire: Option<int>): Run { Run(v.name, v.now, Unset, 0, None, false, fire) }

  /** The status patch at the end of the reconcile. */
  function Patch(s: Server, v: Visit, lastEval: Option<int>, fires: seq<int>): Server {
    if v.patchOk then s.(lastEval := lastEval, consumed := s.consumed + fires) else s
  }

  /** The firing part of Reconcile; `fire` is what isDue found. */
  ghost function Fire(s0: Server, v: Visit, fire: Option<int>): Server {
    var s := s0.(clock := v.now);
    if fire.None? && !s.trigger then s
    else if !AnyActive(v.cached) && !v.freshOk then s
    else if AnyActive(v.cached) || AnyActive(s.runs) then
      if fire.Some? then Patch(s, v, fire, [fire.value]) else s
    else if !v.createOk then s
    else
      var byCron := fire.Some? && !s.trigger;
      var t := if byCron then s.(runs := s.runs + [NewRun(v, fire)], started := s.started + [fire.value])
               else s.(runs := s.runs + [NewRun(v, None)]);
      var last := if byCron then fire else Some(v.now);
      if s.trigger && !v.clearOk then t
      else Patch(t.(trigger := false), v, last, if byCron then [fire.value] else [])
  }

  /** A fire is due or the trigger is set, and the cached list alone or the fresh one shows an active run. */
  ghost predicate Blocked(s: Server, v: Visit, fire: Option<int>) {
    (fire.Some? || s.trigger) && (AnyActive(v.cached) || (v.freshOk && AnyActive(s.runs)))
  }

  /** A fire is due or the trigger is set, no list shows an active run, and the API server plays along. */
  ghost predicate StartsRun(s: Server, v: Visit, fire: Option<int>) {
    (fire.Some? || s.trigger) && !AnyActive(v.cached) && v.freshOk && !AnyActive(s.runs) && v.createOk
  }

  /** One run is started exactly when that is due and nothing is active; the trigger is cleared exactly
      with the run it started; a fire is written off exactly with the run it started or if a run is
      active, and a triggered run leaves the fire to the clock. */
  lemma FiringEffects(s: Server, v: Visit, fire: Option<int>)
    ensures var t := Fire(s, v, fire);
      && (|t.runs| == |s.runs| + 1 <==> StartsRun(s, v, fire)) && (!StartsRun(s, v, fire) ==> t.runs == s.runs)
      && (StartsRun(s, v, fire) ==>
            s.runs <= t.runs && Active(t.runs[|s.runs|]) && t.runs[|s.runs|].fire == if s.trigger then None else fire)
      && (t.trigger <==> s.trigger && !(StartsRun(s, v, fire) && v.clearOk))
      && t.lastEval == (if !v.patchOk then s.lastEval
                        else if StartsRun(s, v, fire) && (s.trigger ==> v.clearOk) then
                          if s.trigger then Some(v.now) else fire
                        else if Blocked(s, v, fire) && fire.Some? then fire
                        else s.lastEval)
  {
  }

  class ServerReconciler {
    var server: Server

    method ReconcileFiring(next: Schedule, v: Visit) returns (fire: Option<int>)
      requires IsSchedule(next)
      modifies this
      ensures server == Fire(old(server), v, fire)
      ensures fire.Some? <==> next(Since(old(server))) <= v.now
      ensures fire.Some? ==> IsFire(next, fire.value) && Since(old(server)) < fire.value <= v.now
    {
      fire := IsDue(next, Since(server), v.now);
      server := server.(clock := v.now);
      var trigger := server.trigger;
      var wanted := fire.Some? || trigger;
      var active := FindActiveRun(v.cached);
      if wanted && !active {
        if !v.freshOk {
          return;
        }
        active := FindActiveRun(server.runs);
      }
      var lastEval := server.lastEval;
      var fires: seq<int> := [];
      if wanted && !active {
        if !v.createOk {
          return;
        }
        lastEval := Some(v.now);
        if fire.Some? && !trigger {
          server := server.(runs := server.runs + [NewRun(v, fire)], started := server.started + [fire.value]);
          lastEval := fire;
          fires := [fire.value];
        } else {
          server := server.(runs := server.runs + [NewRun(v, None)]);
        }
        if trigger {
          if !v.clearOk {
            return;
          }
          server := server.(trigger := false);
        }
      } else if wanted && active {
        if fire.Some? {
          lastEval := fire;
          fires := [fire.value];
        }
      }
      if v.patchOk {
        server := server.(lastEval := lastEval, consumed := server.consumed + fires);
      }
    }
  }

  // ---- whole runs of the system ------------------------------------------------------------------------

  /** Between reconciles a run changes in any way, goes away, or a user sets the trigger; only the
      controller creates runs. */
  datatype Event = Reconcile(visit: Visit) | RunChanges(i: nat, run: Run) | RunGone(i: nat) | SetTrigger

  ghost predicate Step(next: Schedule, s: Server, e: Event, t: Server) {
    match e
    case Reconcile(v) =>
      && s.clock <= v.now
      && exists fire: Option<int> ::
           && (fire.Some? <==> next(Since(s)) <= v.now)
           && (fire.Some? ==> IsFire(next, fire.value) && Since(s) < fire.value <= v.now)
           && t == Fire(s, v, fire)
    case RunChanges(i, run) =>
      && i < |s.runs| && t == s.(runs := s.runs[i := run])
      && run.name == s.runs[i].name && run.created == s.runs[i].created && run.fire == s.runs[i].fire
    case RunGone(i) => i < |s.runs| && t == s.(runs := s.runs[..i] + s.runs[i + 1..])
    case SetTrigger => t == s.(trigger := true)
  }

  function One(b: bool): nat { if b then 1 else 0 }

  lemma ChangeCounts(runs: seq<Run>, i: nat, run: Run)
    requires i < |runs|
    ensures ActiveCount(runs[i := run]) == ActiveCount(runs) - One(Active(runs[i])) + One(Active(run))
    ensures ActiveCount(runs[..i] + runs[i + 1..]) == ActiveCount(runs) - One(Active(runs[i]))
  {
    var a, b := runs[..i], runs[i + 1..];
    assert runs == a + ([runs[i]] + b) && runs[i := run] == a + ([run] + b);
    ActiveConcat(a, [runs[i]] + b);
    ActiveConcat(a, [run] + b);
    ActiveConcat([runs[i]], b);
    ActiveConcat([run], b);
    ActiveConcat(a, b);
  }

  ghost predicate History(next: Schedule, states: seq<Server>, es: seq<Event>) {
    && |states| == |es| + 1
    && forall i :: 0 <= i < |es| ==> Step(next, states[i], es[i], states[i + 1])
  }

  ghost predicate Increasing(fires: seq<int>) {
    forall i, j :: 0 <= i < j < |fires| ==> fires[i] < fires[j]
  }

  ghost predicate UpTo(fires: seq<int>, last: Option<int>) {
    forall f :: f in fires ==> last.Some? && f <= last.value
  }

  /** Consumed fires in increasing order, none after the last evaluation; the last evaluation not in
      the future. */
  ghost predicate Good(s: Server) {
    && Increasing(s.consumed)
    && UpTo(s.consumed, s.lastEval)
    && (s.lastEval.Some? ==> s.lastEval.value <= s.clock)
  }

  /** The last evaluation does not go back and no consumed fire is forgotten. */
  ghost predicate Forward(s: Server, t: Server) {
    && (s.lastEval.Some? ==> t.lastEval.Some? && s.lastEval.value <= t.lastEval.value)
    && s.consumed <= t.consumed
  }

  lemma PatchGood(s: Server, v: Visit, last: int, fires: seq<int>)
    requires Good(s) && last <= s.clock && (s.lastEval.Some? ==> s.lastEval.value <= last)
    requires fires == [] || (fires == [last] && (s.lastEval.Some? ==> s.lastEval.value < last))
    ensures Good(Patch(s, v, Some(last), fires)) && Forward(s, Patch(s, v, Some(last), fires))
  {
    assert forall i :: 0 <= i < |s.consumed| ==> s.consumed[i] in s.consumed;
  }

  lemma FireGood(s: Server, v: Visit, fire: Option<int>)
    requires Good(s) && s.clock <= v.now
    requires fire.Some? ==> Since(s) < fire.value <= v.now
    ensures Good(Fire(s, v, fire)) && Forward(s, Fire(s, v, fire))
  {
    var t := Fire(s, v, fire);
    var c := s.(clock := v.now, runs := t.runs, started := t.started, trigger := t.trigger);
    if t.lastEval != s.lastEval || t.consumed != s.consumed {
      if s.trigger && !(AnyActive(v.cached) || AnyActive(s.runs)) {
        PatchGood(c, v, v.now, []);
      } else {
        PatchGood(c, v, fire.value, [fire.value]);
      }
    }
  }

  lemma StepGood(next: Schedule, s: Server, e: Event, t: Server)
    requires Good(s) && Step(next, s, e, t)
    ensures Good(t) && Forward(s, t)
  {
    if e.Reconcile? {
      var fire: Option<int> :| (fire.Some? ==> Since(s) < fire.value <= e.visit.now) && t == Fire(s, e.visit, fire);
      FireGood(s, e.visit, fire);
    }
  }

  /** Over every history, whatever the cache showed and whichever API calls failed: every cron fire is
      consumed at most once, and the last evaluation never goes back. */
  lemma {:induction false} HistoryGood(next: Schedule, states: seq<Server>, es: seq<Event>, i: nat, j: nat)
    requires History(next, states, es) && Good(states[0]) && i <= j <= |es|
    ensures Good(states[i]) && Good(states[j]) && Forward(states[i], states[j])
    decreases j
  {
    if j > 0 {
      HistoryGood(next, states, es, if i < j then i else j - 1, j - 1);
      StepGood(next, states[j - 1], es[j - 1], states[j]);
      if i == j {
        assert Good(states[i]);
      }
    }
  }

  // ---- how many runs are active ------------------------------------------------------------------------

  /** A finished run becomes active again while another run is active. */
  predicate Revives(s: Server, e: Event) {
    e.RunChanges? && e.i < |s.runs| && Active(e.run) && !Active(s.runs[e.i]) && ActiveCount(s.runs) > 0
  }

  /** A reconcile never adds an active run beside another. */
  lemma FireActive(s: Server, v: Visit, fire: Option<int>)
    requires ActiveCount(s.runs) <= 1
    ensures ActiveCount(Fire(s, v, fire).runs) <= 1
  {
    NoneActive(s.runs);
    ActiveConcat(s.runs, [NewRun(v, fire)]);
    ActiveConcat(s.runs, [NewRun(v, None)]);
  }

  lemma StepActiveIff(next: Schedule, s: Server, e: Event, t: Server)
    requires ActiveCount(s.runs) <= 1 && Step(next, s, e, t)
    ensures ActiveCount(t.runs) <= 1 <==> !Revives(s, e)
  {
    match e
    case Reconcile(v) =>
      var fire: Option<int> :| t == Fire(s, v, fire);
      FireActive(s, v, fire);
    case RunChanges(i, run) => ChangeCounts(s.runs, i, run);
    case RunGone(i) => ChangeCounts(s.runs, i, s.runs[i]);
    case SetTrigger =>
  }

  /** Over every history at most one run is active if and only if no finished run is revived while
      another is active; the controller itself never breaks it, however stale its cache is. */
  lemma {:induction false} OneActiveIff(next: Schedule, states: seq<Server>, es: seq<Event>, n: nat)
    requires History(next, states, es) && n <= |es| && ActiveCount(states[0].runs) <= 1
    ensures (forall i :: 0 <= i <= n ==> ActiveCount(states[i].runs) <= 1) <==>
      (forall i :: 0 <= i < n ==> !Revives(states[i], es[i]))
  {
    if n > 0 {
      OneActiveIff(next, states, es, n - 1);
      if ActiveCount(states[n - 1].runs) <= 1 {
        StepActiveIff(next, states[n - 1], es[n - 1], states[n]);
      }
    }
  }

  /** Two active runs are possible: a failed run is replaced by a new one, and then a late patch of its
      evaluator reopens it. */
  lemma RevivedBesideNew(next: Schedule, s: Server, v: Visit, fire: Option<int>, i: nat)
    requires ActiveCount(s.runs) == 0 && i < |s.runs| && !s.runs[i].deleting
    requires (fire.Some? || s.trigger) && !AnyActive(v.cached) && v.freshOk && v.createOk
    ensures var t := Fire(s, v, fire);
      i < |t.runs| && var run := t.runs[i].(phase := Evaluating);
      var u := t.(runs := t.runs[i := run]);
      Step(next, t, RunChanges(i, run), u) && Revives(t, RunChanges(i, run)) && ActiveCount(u.runs) == 2
  {
    NoneActive(s.runs);
    ActiveConcat(s.runs, [NewRun(v, fire)]);
    ActiveConcat(s.runs, [NewRun(v, None)]);
    var t := Fire(s, v, fire);
    assert t.runs[i] == s.runs[i];
    assert !Active(s.runs[i]);
    ChangeCounts(t.runs, i, t.runs[i].(phase := Evaluating));
  }

  // ---- how many runs one fire starts --------------------------------------------------------------------

  /** The reconcile starts a run for the cron fire f. */
  ghost predicate Starts(s: Server, v: Visit, f: int) {
    !s.trigger && !AnyActive(v.cached) && v.freshOk && !AnyActive(s.runs) && v.createOk && Since(s) < f <= v.now
  }

  lemma StartedFor(s: Server, v: Visit, fire: Option<int>)
    requires fire.Some? ==> Since(s) < fire.value <= v.now
    ensures Fire(s, v, fire).started ==
      if fire.Some? && Starts(s, v, fire.value) then s.started + [fire.value] else s.started
    ensures fire.Some? && Starts(s, v, fire.value) && v.patchOk ==> Fire(s, v, fire).lastEval == fire
  {
  }

  /** Every fire that starts a run is later than the last evaluation on record. */
  ghost predicate LaterThan(fires: seq<int>, f: int) { forall x :: x in fires ==> f < x }

  lemma {:induction false} NeverAgain(next: Schedule, states: seq<Server>, es: seq<Event>, n: nat, f: int)
    requires History(next, states, es) && n <= |es| && Good(states[0])
    requires states[0].lastEval.Some? && f <= states[0].lastEval.value
    ensures states[0].started <= states[n].started && LaterThan(states[n].started[|states[0].started|..], f)
  {
    if n > 0 {
      NeverAgain(next, states, es, n - 1, f);
      HistoryGood(next, states, es, 0, n - 1);
      var s, t, base := states[n - 1], states[n], |states[0].started|;
      if es[n - 1].Reconcile? {
        var fire: Option<int> :| (fire.Some? ==> Since(s) < fire.value <= es[n - 1].visit.now)
          && t == Fire(s, es[n - 1].visit, fire);
        StartedFor(s, es[n - 1].visit, fire);
        if t.started != s.started {
          assert t.started[base..] == s.started[base..] + [fire.value];
        }
      }
    }
  }

  /** The reconcile wrote its status patch if it started a run for a fire. */
  predicate FiringPatched(s: Server, e: Event, t: Server) {
    e.Reconcile? && t.started != s.started ==> e.visit.patchOk
  }

  /** No two runs of the list were started for one fire. */
  ghost predicate OneRunEach(s: Server) {
    && Increasing(s.started) && UpTo(s.started, s.lastEval)
    && (forall i :: 0 <= i < |s.runs| && s.runs[i].fire.Some? ==> s.runs[i].fire.value in s.started)
    && (forall i, j :: 0 <= i < j < |s.runs| && s.runs[i].fire.Some? ==> s.runs[i].fire != s.runs[j].fire)
  }

  lemma FireOneRunEach(s: Server, v: Visit, fire: Option<int>)
    requires Good(s) && s.clock <= v.now && OneRunEach(s) && (fire.Some? ==> Since(s) < fire.value <= v.now)
    requires Fire(s, v, fire).started != s.started ==> v.patchOk
    ensures OneRunEach(Fire(s, v, fire))
  {
    var t := Fire(s, v, fire);
    StartedFor(s, v, fire);
    FireGood(s, v, fire);
    if fire.Some? && Starts(s, v, fire.value) {
      assert t.runs == s.runs + [NewRun(v, fire)];
      assert forall i :: 0 <= i < |s.started| ==> s.started[i] in s.started;
    } else {
      assert t.runs == s.runs || t.runs == s.runs + [NewRun(v, None)];
    }
  }

  /** Over every history in which each reconcile that starts a run for a fire gets its patch written,
      no fire starts two runs. */
  lemma {:induction false} OneRunPerFire(next: Schedule, states: seq<Server>, es: seq<Event>, n: nat)
    requires History(next, states, es) && n <= |es| && Good(states[0]) && OneRunEach(states[0])
    requires forall i :: 0 <= i < n ==> FiringPatched(states[i], es[i], states[i + 1])
    ensures OneRunEach(states[n])
  {
    if n > 0 {
      OneRunPerFire(next, states, es, n - 1);
      HistoryGood(next, states, es, 0, n - 1);
      var s, e, t := states[n - 1], es[n - 1], states[n];
      match e
      case Reconcile(v) =>
        var fire: Option<int> :| (fire.Some? ==> Since(s) < fire.value <= v.now) && t == Fire(s, v, fire);
        FireOneRunEach(s, v, fire);
      case RunChanges(i, run) =>
      case RunGone(i) =>
      case SetTrigger =>
    }
  }

  /** The run just started finishes, and the next reconcile, with the status unpatched, starts another. */
  lemma LostPatchStartsAgain(next: Schedule, s: Server, v: Visit, f: int) returns (states: seq<Server>, es: seq<Event>)
    requires Starts(s, v, f) && IsFire(next, f) && next(Since(s)) <= v.now && !v.patchOk
    ensures History(next, states, es) && |es| == 2 && states[0] == Fire(s, v, Some(f))
    ensures states[2].started == s.started + [f, f]
  {
    var t := Fire(s, v, Some(f));
    var last := |s.runs|;
    var done := t.runs[last].(phase := Completed);
    var u := t.(runs := t.runs[last := done]);
    assert u.runs == s.runs + [done];
    forall i | 0 <= i < |u.runs| ensures !Active(u.runs[i]) { }
    var w := Fire(u, v, Some(f));
    StartedFor(u, v, Some(f));
    states, es := [t, u, w], [RunChanges(last, done), Reconcile(v)];
    assert Step(next, u, Reconcile(v), w) by { assert w == Fire(u, v, Some(f)) && Since(u) == Since(s); }
    assert Step(next, t, RunChanges(last, done), u);
  }

  /** The fires for which runs were started between two states. */
  function Newly(s: Server, t: Server): seq<int> {
    if |s.started| <= |t.started| then t.started[|s.started|..] else []
  }

  /** Some continuation starts a run for f. */
  ghost predicate StartsAgain(next: Schedule, t: Server, f: int) {
    exists states: seq<Server>, es: seq<Event> ::
      History(next, states, es) && states[0] == t && f in Newly(t, states[|es|])
  }

  /** A fire starts at most one run if and only if the status patch of the reconcile that started it was
      written: then no continuation starts another for it, and otherwise one does. */
  lemma OneRunPerFireIff(next: Schedule, s: Server, v: Visit, f: int)
    requires Good(s) && s.clock <= v.now && Starts(s, v, f) && IsFire(next, f) && next(Since(s)) <= v.now
    ensures StartsAgain(next, Fire(s, v, Some(f)), f) <==> !v.patchOk
  {
    var t := Fire(s, v, Some(f));
    StartedFor(s, v, Some(f));
    FireGood(s, v, Some(f));
    if v.patchOk {
      forall states: seq<Server>, es: seq<Event> | History(next, states, es) && states[0] == t
        ensures f !in Newly(t, states[|es|])
      {
        NeverAgain(next, states, es, |es|, f);
      }
    } else {
      var states, es := LostPatchStartsAgain(next, s, v, f);
      assert Newly(t, states[|es|]) == [f];
    }
  }

  // ---- the verdict a server shows -----------------------------------------------------------------------

  /** A Completed run, or one that failed because an injection was found. */
  predicate HasVerdict(r: Run) {
    r.phase == Completed || (r.phase == Failed && r.scoring.Some? && r.scoring.value.risk == Malicious)
  }

  datatype Verdict = Verdict(score: int, risk: Risk)

  function Shown(r: Run): Verdict {
    Verdict(r.score, if r.scoring.Some? && r.scoring.value.risk != NoRisk then r.scoring.value.risk else Unknown)
  }

  /** A run with a verdict shows its recorded risk, and Unknown if it has none: never no risk at all. */
  lemma ShownRisk(r: Run)
    requires HasVerdict(r)
    ensures Shown(r).score == r.score && !Shown(r).risk.NoRisk?
    ensures r.scoring.Some? && !r.scoring.value.risk.NoRisk? ==> Shown(r).risk == r.scoring.value.risk
    ensures r.phase == Completed && (r.scoring.None? || r.scoring.value.risk.NoRisk?) ==> Shown(r).risk == Unknown
    ensures r.phase == Failed ==> Shown(r).risk == Malicious
  {
  }

  /** The newest run with a verdict; the first listed among equally old ones. */
  ghost predicate LatestAt(runs: seq<Run>, i: int) {
    && 0 <= i < |runs| && HasVerdict(runs[i])
    && (forall j :: 0 <= j < |runs| && HasVerdict(runs[j]) ==> runs[j].created <= runs[i].created)
    && (forall j :: 0 <= j < i && HasVerdict(runs[j]) ==> runs[j].created < runs[i].created)
  }

  ghost predicate NoVerdict(runs: seq<Run>) { forall r :: r in runs ==> !HasVerdict(r) }

  /** What the server shows after a sync that found `before` there. */
  ghost predicate Mirrors(runs: seq<Run>, before: Verdict, after: Verdict) {
    if NoVerdict(runs) then after == before else exists i :: LatestAt(runs, i) && after == Shown(runs[i])
  }

  /** syncLatestRunResult. */
  method SyncLatestRunResult(runs: seq<Run>, before: Verdict) returns (after: Verdict)
    ensures Mirrors(runs, before, after)
  {
    var latest := -1;
    for i := 0 to |runs|
      invariant latest == -1 ==> NoVerdict(runs[..i])
      invariant latest != -1 ==> 0 <= latest < i && LatestAt(runs[..i], latest)
    {
      assert runs[..i + 1] == runs[..i] + [runs[i]];
      if HasVerdict(runs[i]) && (latest == -1 || runs[i].created > runs[latest].created) {
        assert latest == -1 ==> forall j :: 0 <= j < i ==> runs[j] in runs[..i];
        latest := i;
      }
    }
    assert runs[..|runs|] == runs;
    if latest == -1 {
      return before;
    }
    assert LatestAt(runs, latest) && runs[latest] in runs;
    return Shown(runs[latest]);
  }

  // ---- pruning ----------------------------------------------------------------------------------------------

  predicate Prunable(r: Run) { IsTerminal(r.phase) && !r.deleting }

  function Prunables(runs: seq<Run>): (out: seq<Run>)
    ensures forall r :: r in out <==> r in runs && Prunable(r)
  {
    if runs == [] then []
    else
      var last := runs[|runs| - 1];
      Prunables(runs[..|runs| - 1]) + if Prunable(last) then [last] else []
  }

  ghost predicate ByCreation(runs: seq<Run>) {
    forall i, j :: 0 <= i < j < |runs| ==> runs[i].created <= runs[j].created
  }

  lemma AppendNewest(runs: seq<Run>, r: Run)
    requires ByCreation(runs) && forall q :: q in runs ==> q.created <= r.created
    ensures ByCreation(runs + [r])
  {
    assert forall i :: 0 <= i < |runs| ==> runs[i] in runs;
  }

  function InsertByCreation(runs: seq<Run>, r: Run): (out: seq<Run>)
    requires ByCreation(runs)
    ensures ByCreation(out)
    ensures forall q: Run :: q in out <==> q in runs || q == r
  {
    var n := |runs|;
    if n == 0 || runs[n - 1].created <= r.created then AppendNewest(runs, r); runs + [r]
    else
      var init := InsertByCreation(runs[..n - 1], r);
      AppendNewest(init, runs[n - 1]);
      init + [runs[n - 1]]
  }

  lemma {:induction false} InsertKeepsAll(runs: seq<Run>, r: Run)
    requires ByCreation(runs)
    ensures multiset(InsertByCreation(runs, r)) == multiset(runs) + multiset{r}
  {
    var n := |runs|;
    if n > 0 && runs[n - 1].created > r.created {
      InsertKeepsAll(runs[..n - 1], r);
      assert runs == runs[..n - 1] + [runs[n - 1]];
    }
  }

  /** sort.Slice: only that the result is ordered and a permutation is used of it. */
  function SortByCreation(runs: seq<Run>): (out: seq<Run>)
    ensures ByCreation(out) && multiset(out) == multiset(runs)
  {
    if runs == [] then []
    else
      var init := SortByCreation(runs[..|runs| - 1]);
      assert runs == runs[..|runs| - 1] + [runs[|runs| - 1]];
      InsertKeepsAll(init, runs[|runs| - 1]);
      InsertByCreation(init, runs[|runs| - 1])
  }

  function Max0(n: int): nat { if n < 0 then 0 else n }

  /** What pruning may delete: prunable runs only, none newer than a prunable run that stays, and
      no more than the excess over the limit. */
  ghost predicate PrunedFrom(runs: seq<Run>, limit: int, deleted: seq<Run>) {
    && multiset(deleted) <= multiset(Prunables(runs))
    && |deleted| <= Max0(|Prunables(runs)| - Max0(limit))
    && (forall d, k :: d in deleted && k in multiset(Prunables(runs)) - multiset(deleted) ==> d.created <= k.created)
  }

  /** The whole excess is gone. */
  ghost predicate Full(runs: seq<Run>, limit: int, deleted: seq<Run>) {
    |deleted| == Max0(|Prunables(runs)| - Max0(limit))
  }

  /** Deletes the first k of `sorted` until a call fails. */
  method DeleteOldest(sorted: seq<Run>, k: nat, broken: set<nat>) returns (n: nat)
    requires k <= |sorted|
    ensures n <= k && (n < k ==> sorted[n].name in broken)
    ensures forall i :: 0 <= i < n ==> sorted[i].name !in broken
  {
    n := 0;
    while n < k
      invariant n <= k && forall i :: 0 <= i < n ==> sorted[i].name !in broken
    {
      if sorted[n].name in broken {
        return;
      }
      n := n + 1;
    }
  }

  method CollectPrunable(runs: seq<Run>) returns (terminal: seq<Run>)
    ensures terminal == Prunables(runs)
  {
    terminal := [];
    for i := 0 to |runs|
      invariant terminal == Prunables(runs[..i])
    {
      assert runs[..i + 1][..i] == runs[..i];
      if Prunable(runs[i]) {
        terminal := terminal + [runs[i]];
      }
    }
    assert runs[..|runs|] == runs;
  }

  /** pruneRuns; `broken` are the names whose Delete call fails with anything but NotFound. */
  method PruneRuns(runs: seq<Run>, limit: int, broken: set<nat>) returns (deleted: seq<Run>, ok: bool)
    ensures PrunedFrom(runs, limit, deleted)
    ensures ok ==> Full(runs, limit, deleted)
    ensures !ok ==> exists r :: r in runs && Prunable(r) && r.name in broken
    ensures forall d :: d in deleted ==> d.name !in broken
  {
    var terminal := CollectPrunable(runs);
    if |terminal| <= Max0(limit) {
      NothingPruned(runs, limit);
      return [], true;
    }
    var sorted := SortByCreation(terminal);
    SameSize(sorted, terminal);
    var excess := |terminal| - Max0(limit);
    var n := DeleteOldest(sorted, excess, broken);
    PrefixPruned(runs, limit, sorted, n);
    return sorted[..n], n == excess;
  }

  lemma SameSize(a: seq<Run>, b: seq<Run>)
    requires multiset(a) == multiset(b)
    ensures |a| == |b| && forall i :: 0 <= i < |a| ==> a[i] in b
  {
    assert |multiset(a)| == |a| && |multiset(b)| == |b|;
    forall i | 0 <= i < |a| ensures a[i] in b { assert a[i] in multiset(a); }
  }

  lemma NothingPruned(runs: seq<Run>, limit: int)
    ensures PrunedFrom(runs, limit, [])
  {
    assert multiset([]) <= multiset(Prunables(runs));
  }

  lemma OlderFirst(sorted: seq<Run>, k: nat, d: Run, x: Run)
    requires ByCreation(sorted) && k <= |sorted| && d in sorted[..k] && x in sorted[k..]
    ensures d.created <= x.created
  {
    var i :| 0 <= i < k && sorted[..k][i] == d;
    var j :| 0 <= j < |sorted| - k && sorted[k..][j] == x;
    assert sorted[i] == d && sorted[k + j] == x;
  }

  lemma SplitAll(sorted: seq<Run>, k: nat)
    requires k <= |sorted|
    ensures multiset(sorted[..k]) <= multiset(sorted)
    ensures multiset(sorted) - multiset(sorted[..k]) == multiset(sorted[k..])
  {
    assert sorted == sorted[..k] + sorted[k..];
  }

  lemma PrefixPruned(runs: seq<Run>, limit: int, sorted: seq<Run>, k: nat)
    requires ByCreation(sorted) && multiset(sorted) == multiset(Prunables(runs))
    requires k <= |sorted| && k <= Max0(|Prunables(runs)| - Max0(limit))
    ensures PrunedFrom(runs, limit, sorted[..k])
  {
    SplitAll(sorted, k);
    var all, gone := multiset(Prunables(runs)), sorted[..k];
    forall d, x | d in gone && x in all - multiset(gone) ensures d.created <= x.created {
      assert x in multiset(sorted[k..]);
      OlderFirst(sorted, k, d, x);
    }
  }

  // ---- pruning and the verdict ------------------------------------------------------------------------------

  ghost predicate Distinct(runs: seq<Run>) {
    forall i, j :: 0 <= i < j < |runs| ==> runs[i].created != runs[j].created
  }

  ghost predicate Latest(runs: seq<Run>, r: Run) {
    r in runs && HasVerdict(r) && forall q :: q in runs && HasVerdict(q) ==> q.created <= r.created
  }

  /** The prunable runs newer than r. */
  ghost function Newer(runs: seq<Run>, r: Run): set<Run> {
    set q | q in runs && Prunable(q) && q.created > r.created
  }

  /** The list once the deleted runs are gone. */
  ghost predicate Remaining(runs: seq<Run>, deleted: seq<Run>, rest: seq<Run>) {
    Distinct(rest) && forall r :: r in rest <==> r in runs && r !in deleted
  }

  /** When pruning makes the server fall back on an older verdict: the newest verdict has `limit`
      newer prunable runs, and a run that is already being deleted still carries a verdict. */
  ghost predicate FallsBack(runs: seq<Run>, limit: int) {
    exists r, q ::
      && Latest(runs, r) && !r.deleting && |Newer(runs, r)| >= Max0(limit)
      && q in runs && q.deleting && HasVerdict(q)
  }

  lemma SameCreation(runs: seq<Run>, a: Run, b: Run)
    requires Distinct(runs) && a in runs && b in runs && a.created == b.created
    ensures a == b
  {
    var i :| 0 <= i < |runs| && runs[i] == a;
    var j :| 0 <= j < |runs| && runs[j] == b;
    assert !(i < j) && !(j < i);
  }

  /** With distinct creation times every prunable run is listed once. */
  lemma {:induction false} PrunableOnce(runs: seq<Run>, r: Run)
    requires Distinct(runs)
    ensures multiset(Prunables(runs))[r] <= 1
  {
    if runs != [] {
      var init, last := runs[..|runs| - 1], runs[|runs| - 1];
      PrunableOnce(init, r);
      assert forall i :: 0 <= i < |init| ==> init[i] != last;
      assert last !in Prunables(init);
    }
  }

  lemma PartSize(a: multiset<Run>, b: multiset<Run>)
    requires a <= b
    ensures |a| + |b - a| == |b|
  {
    assert b == a + (b - a);
  }

  ghost function Kept(runs: seq<Run>, deleted: seq<Run>): multiset<Run> {
    multiset(Prunables(runs)) - multiset(deleted)
  }

  lemma KeptAreNewer(runs: seq<Run>, limit: int, deleted: seq<Run>, r: Run)
    requires Distinct(runs) && PrunedFrom(runs, limit, deleted) && r in deleted
    ensures |Kept(runs, deleted)| <= |Newer(runs, r)|
  {
    var newer := multiset(Newer(runs, r));
    forall q: Run ensures Kept(runs, deleted)[q] <= newer[q] {
      PrunableOnce(runs, q);
      assert r in multiset(Prunables(runs)) && r in runs;
      if q in Kept(runs, deleted) {
        assert q in Prunables(runs) && r.created <= q.created;
        if q.created == r.created {
          SameCreation(runs, q, r);
          assert false;
        }
      }
    }
    PartSize(Kept(runs, deleted), newer);
  }

  lemma NewerAreKept(runs: seq<Run>, limit: int, deleted: seq<Run>, r: Run)
    requires PrunedFrom(runs, limit, deleted) && r in runs && Prunable(r) && r !in deleted
    ensures |Newer(runs, r)| < |Kept(runs, deleted)|
  {
    var newer := Newer(runs, r) + {r};
    forall q | q in newer ensures q in Kept(runs, deleted) { StaysUnlessOlder(runs, limit, deleted, r, q); }
    SetSize(newer, Kept(runs, deleted));
    assert |newer| == |Newer(runs, r)| + 1;
  }

  lemma StaysUnlessOlder(runs: seq<Run>, limit: int, deleted: seq<Run>, r: Run, q: Run)
    requires PrunedFrom(runs, limit, deleted) && r in runs && Prunable(r) && r !in deleted
    requires q in runs && Prunable(q) && (q == r || q.created > r.created)
    ensures q in Kept(runs, deleted)
  {
    assert r in multiset(Prunables(runs)) && r !in multiset(deleted) && r in Kept(runs, deleted);
    assert q in multiset(Prunables(runs));
    assert q in deleted ==> q in multiset(deleted);
  }

  lemma SetSize(a: set<Run>, b: multiset<Run>)
    requires forall q :: q in a ==> q in b
    ensures |a| <= |b|
  {
    assert multiset(a) <= b;
    PartSize(multiset(a), b);
  }

  /** A prunable run is deleted exactly if at least `limit` prunable runs are newer. */
  lemma PrunedIff(runs: seq<Run>, limit: int, deleted: seq<Run>, r: Run)
    requires Distinct(runs) && PrunedFrom(runs, limit, deleted) && r in runs && Prunable(r)
    requires Full(runs, limit, deleted)
    ensures r in deleted <==> |Newer(runs, r)| >= Max0(limit)
  {
    KeptSize(runs, limit, deleted);
    if r in deleted {
      KeptAreNewer(runs, limit, deleted, r);
    } else {
      NewerAreKept(runs, limit, deleted, r);
    }
  }

  lemma KeptSize(runs: seq<Run>, limit: int, deleted: seq<Run>)
    requires multiset(deleted) <= multiset(Prunables(runs)) && Full(runs, limit, deleted)
    ensures |Kept(runs, deleted)| <= Max0(limit)
    ensures deleted != [] ==> |Kept(runs, deleted)| == Max0(limit)
  {
    PartSize(multiset(deleted), multiset(Prunables(runs)));
    assert |multiset(deleted)| == |deleted| && |multiset(Prunables(runs))| == |Prunables(runs)|;
  }

  /** The mirrored verdict is that of the newest run. */
  lemma MirrorsLatest(runs: seq<Run>, before: Verdict, after: Verdict, r: Run)
    requires Distinct(runs) && Mirrors(runs, before, after) && Latest(runs, r)
    ensures after == Shown(r)
  {
    var i :| LatestAt(runs, i) && after == Shown(runs[i]);
    assert runs[i] in runs;
    var j :| 0 <= j < |runs| && runs[j] == r;
    SameCreation(runs, runs[i], r);
  }

  lemma LatestExists(runs: seq<Run>, before: Verdict, after: Verdict) returns (r: Run)
    requires Mirrors(runs, before, after) && !NoVerdict(runs)
    ensures Latest(runs, r) && after == Shown(r)
  {
    var i :| LatestAt(runs, i) && after == Shown(runs[i]);
    r := runs[i];
    assert forall q :: q in runs ==> exists j :: 0 <= j < |runs| && runs[j] == q;
  }

  /** A verdict that stays although a newer one was pruned belongs to a run already being deleted. */
  lemma OlderIsDeleting(runs: seq<Run>, limit: int, deleted: seq<Run>, r: Run, q: Run)
    requires Distinct(runs) && PrunedFrom(runs, limit, deleted)
    requires Latest(runs, r) && r in deleted && q in runs && HasVerdict(q) && q !in deleted
    ensures q.deleting && q.created < r.created
  {
    if q.created == r.created {
      SameCreation(runs, q, r);
      assert false;
    }
    assert q !in multiset(deleted) && q in multiset(runs);
    assert Prunable(q) ==> q in multiset(Prunables(runs)) && q in Kept(runs, deleted);
  }

  /** The newest verdict before and the newest one after: q is another, older and already being
      deleted, and the server shows it. */
  ghost predicate ShowsOlder(runs: seq<Run>, rest: seq<Run>, later: Verdict) {
    exists r, q :: Latest(runs, r) && Latest(rest, q) && q.created < r.created && q.deleting && later == Shown(q)
  }

  lemma PrunedVerdict(runs: seq<Run>, limit: int, deleted: seq<Run>, rest: seq<Run>, mirrored: Verdict, later: Verdict,
                      r: Run)
    requires Distinct(runs) && PrunedFrom(runs, limit, deleted) && Remaining(runs, deleted, rest)
    requires Full(runs, limit, deleted)
    requires Mirrors(rest, mirrored, later) && Latest(runs, r) && r in deleted
    ensures FallsBack(runs, limit) <==> !NoVerdict(rest)
    ensures ShowsOlder(runs, rest, later) <==> !NoVerdict(rest)
  {
    assert r in multiset(Prunables(runs));
    PrunedIff(runs, limit, deleted, r);
    if NoVerdict(rest) {
      forall q | q in runs && q.deleting ensures !HasVerdict(q) {
        assert q !in multiset(Prunables(runs)) && q !in multiset(deleted);
      }
    } else {
      var q := LatestExists(rest, mirrored, later);
      OlderIsDeleting(runs, limit, deleted, r, q);
    }
  }

  lemma KeptVerdict(runs: seq<Run>, limit: int, deleted: seq<Run>, rest: seq<Run>, mirrored: Verdict, later: Verdict,
                    r: Run)
    requires Distinct(runs) && PrunedFrom(runs, limit, deleted) && Remaining(runs, deleted, rest)
    requires Full(runs, limit, deleted)
    requires Mirrors(rest, mirrored, later) && Latest(runs, r) && r !in deleted
    ensures later == Shown(r) && !FallsBack(runs, limit) && !ShowsOlder(runs, rest, later)
  {
    assert Latest(rest, r);
    MirrorsLatest(rest, mirrored, later, r);
    forall p | Latest(runs, p) ensures p == r { SameCreation(runs, p, r); }
    if !r.deleting {
      PrunedIff(runs, limit, deleted, r);
    }
  }

  /** With distinct creation times pruning leaves the mirrored verdict as it is, except exactly when
      the newest verdict is pruned away and a run already being deleted carries an older one: then
      the server falls back on that older verdict. */
  lemma PruningAndVerdict(runs: seq<Run>, limit: int, deleted: seq<Run>, rest: seq<Run>,
                          before: Verdict, mirrored: Verdict, later: Verdict)
    requires Distinct(runs) && PrunedFrom(runs, limit, deleted) && Remaining(runs, deleted, rest)
    requires Full(runs, limit, deleted)
    requires Mirrors(runs, before, mirrored) && Mirrors(rest, mirrored, later)
    ensures FallsBack(runs, limit) <==> ShowsOlder(runs, rest, later)
    ensures !FallsBack(runs, limit) ==> later == mirrored
  {
    if NoVerdict(runs) {
      assert NoVerdict(rest);
    } else {
      var r := LatestExists(runs, before, mirrored);
      if r in deleted {
        PrunedVerdict(runs, limit, deleted, rest, mirrored, later, r);
      } else {
        KeptVerdict(runs, limit, deleted, rest, mirrored, later, r);
      }
    }
  }

  lemma TwoVerdicts(a: Run, b: Run)
    requires HasVerdict(a) && HasVerdict(b) && a.deleting && !b.deleting && a.created < b.created
    ensures Distinct([a, b]) && Latest([a, b], b) && Latest([a], a) && FallsBack([a, b], 0)
    ensures PrunedFrom([a, b], 0, [b]) && Full([a, b], 0, [b])
  {
    var runs := [a, b];
    assert runs[0] in runs && runs[1] in runs && a in [a];
    assert Latest(runs, b) && a in runs;
    assert runs[..1][..0] == [] && Prunables(runs[..1]) == [];
    assert Prunables(runs) == [b];
    assert multiset(Prunables(runs)) - multiset([b]) == multiset{};
  }

  /** The exception is real: a is a finished run on its way out, b a newer one that aborted on an
      injection; with no history kept, the Malicious verdict of b gives way to the older one of a. */
  lemma MaliciousGivesWay(a: Run, b: Run, before: Verdict, mirrored: Verdict, later: Verdict)
    requires a.phase == Completed && a.deleting && a.created < b.created
    requires b.phase == Failed && !b.deleting && b.scoring == Some(Scoring(Malicious, 0))
    requires Mirrors([a, b], before, mirrored) && Mirrors([a], mirrored, later)
    ensures PrunedFrom([a, b], 0, [b]) && Full([a, b], 0, [b])
    ensures mirrored == Verdict(b.score, Malicious) && later == Shown(a)
  {
    TwoVerdicts(a, b);
    MirrorsLatest([a, b], before, mirrored, b);
    MirrorsLatest([a], mirrored, later, a);
  }
}
