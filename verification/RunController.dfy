/** The MCPEvaluationRun reconciler: one reconcile is one step over the run's status, its Job, the
    pod it finds and the answers of the API server; the environment moves between steps. */
module RunController {
  import opened Options

  // ---- what the controller reads ------------------------------------------------------------

  datatype Phase = Unset | Pending | Cloning | Running | Evaluating | Completed | Failed

  predicate IsTerminal(p: Phase) { p.Completed? || p.Failed? }

  function Rank(p: Phase): nat {
    match p
    case Unset => 0
    case Pending => 1
    case Cloning => 2
    case Running => 3
    case Evaluating => 4
    case Completed => 5
    case Failed => 5
  }

  datatype Risk = NoRisk | Safe | Caution | Untrusted | Malicious | Unknown

  datatype Scoring = Scoring(risk: Risk, safety: int)

  /** The evaluator's termination message. */
  datatype TermMsg = TermMsg(saysFailed: bool, score: int, risk: Risk)

  datatype CState = Waiting | Started | Terminated(exit: int, oom: bool, msg: Option<TermMsg>) | NoState

  datatype Container = Container(evaluator: bool, state: CState)

  datatype PodPhase = PodPending | PodRunning | PodSucceeded | PodFailed | PodUnknown

  /** `sidecars` has one entry per init container of the spec: is it a native sidecar. */
  datatype Pod = Pod(uid: nat, phase: PodPhase, evicted: bool, created: Option<int>, sidecars: seq<bool>,
                     inits: seq<Container>, mains: seq<Container>)

  datatype Job = NoJob | Job(deleting: bool, failed: bool, complete: bool)

  datatype Status = Status(phase: Phase, retries: nat, agent: bool, finalScore: int, scoring: Option<Scoring>,
                           results: bool)

  /** `created` counts the Jobs ever created for the run; `narrowed` are the pods labelled for the
      evaluation network. */
  datatype World = World(status: Status, job: Job, created: nat, deletion: bool, finalizer: bool, narrowed: set<nat>)

  datatype Lookup = Found | Missing | ApiError

  datatype Creation = Created | AlreadyExists | TransientError | PermanentError

  /** The answer to the label patch of a pod. */
  datatype Labelling = Labelled | PodGone | LabelError

  /** What the API server answers during one reconcile, and the clock. */
  datatype Answers = Answers(server: Lookup, agents: Lookup, policyOk: bool, creation: Creation, deleteOk: bool,
                             listOk: bool, pod: Option<Pod>, labelling: Labelling, now: int)

  const MAX_JOB_RETRIES: nat := 2
  const STUCK_PENDING_AFTER: int := 300

  // ---- reading a pod ----------------------------------------------------------------------------

  function AllContainers(pod: Pod): seq<Container> { pod.inits + pod.mains }

  /** Old enough, and no container has started. */
  ghost predicate Stuck(pod: Pod, now: int) {
    && pod.created.Some? && now - pod.created.value >= STUCK_PENDING_AFTER
    && forall i :: 0 <= i < |AllContainers(pod)| ==>
         !AllContainers(pod)[i].state.Started? && !AllContainers(pod)[i].state.Terminated?
  }

  method StuckPending(pod: Pod, now: int) returns (r: bool)
    ensures r == Stuck(pod, now)
  {
    if pod.created.None? || now - pod.created.value < STUCK_PENDING_AFTER {
      return false;
    }
    var all := AllContainers(pod);
    for i := 0 to |all|
      invariant forall j :: 0 <= j < i ==> !all[j].state.Started? && !all[j].state.Terminated?
    {
      if all[i].state.Started? || all[i].state.Terminated? {
        return false;
      }
    }
    return true;
  }

  /** Every init container has terminated, or is a native sidecar that runs. */
  ghost predicate InitDone(pod: Pod) {
    || pod.sidecars == []
    || (&& |pod.inits| >= |pod.sidecars|
        && forall i :: 0 <= i < |pod.inits| ==>
             pod.inits[i].state.Terminated? || (pod.inits[i].state.Started? && i < |pod.sidecars| && pod.sidecars[i]))
  }

  method InitContainersDone(pod: Pod) returns (r: bool)
    ensures r == InitDone(pod)
  {
    if |pod.sidecars| == 0 {
      return true;
    }
    if |pod.inits| < |pod.sidecars| {
      return false;
    }
    for i := 0 to |pod.inits|
      invariant forall j :: 0 <= j < i ==>
        pod.inits[j].state.Terminated? || (pod.inits[j].state.Started? && j < |pod.sidecars| && pod.sidecars[j])
    {
      if pod.inits[i].state.Terminated? {
        continue;
      }
      if pod.inits[i].state.Started? && i < |pod.sidecars| && pod.sidecars[i] {
        continue;
      }
      return false;
    }
    return true;
  }

  ghost function DerivePhase(pod: Pod): Phase {
    match pod.phase
    case PodPending => if pod.inits != [] then (if InitDone(pod) then Running else Cloning) else Pending
    case PodRunning => if InitDone(pod) then Running else Cloning
    case PodSucceeded => Running
    case PodFailed => Running
    case PodUnknown => Pending
  }

  method DerivePhaseFromPod(pod: Pod) returns (p: Phase)
    ensures p == DerivePhase(pod)
  {
    var done := InitContainersDone(pod);
    match pod.phase {
      case PodPending =>
        if |pod.inits| > 0 && done { return Running; }
        if |pod.inits| > 0 { return Cloning; }
        return Pending;
      case PodRunning => return if !done then Cloning else Running;
      case PodSucceeded => return Running;
      case PodFailed => return Running;
      case PodUnknown => return Pending;
    }
  }

  /** Eviction, node loss, a pod that never started, an OOM kill. */
  ghost predicate Transient(pod: Option<Pod>) {
    pod.Some? && (pod.value.evicted || pod.value.phase.PodPending? ||
                  exists c :: c in AllContainers(pod.value) && c.state.Terminated? && c.state.oom)
  }

  method InfraTransientFailure(pod: Option<Pod>) returns (r: bool)
    ensures r == Transient(pod)
  {
    if pod.None? {
      return false;
    }
    if pod.value.evicted || pod.value.phase.PodPending? {
      return true;
    }
    var all := AllContainers(pod.value);
    for i := 0 to |all|
      invariant forall j :: 0 <= j < i ==> !(all[j].state.Terminated? && all[j].state.oom)
    {
      if all[i].state.Terminated? && all[i].state.oom {
        assert all[i] in all;
        return true;
      }
    }
    return false;
  }

  /** The state of the first container named "evaluator", main containers first. */
  function FindEvaluator(cs: seq<Container>): Option<CState> {
    if cs == [] then None else if cs[0].evaluator then Some(cs[0].state) else FindEvaluator(cs[1..])
  }

  function EvaluatorState(pod: Option<Pod>): Option<CState> {
    if pod.None? then None else FindEvaluator(pod.value.mains + pod.value.inits)
  }

  function TerminationOf(pod: Option<Pod>): Option<TermMsg> {
    match EvaluatorState(pod)
    case Some(Terminated(_, _, msg)) => msg
    case _ => None
  }

  // ---- endings --------------------------------------------------------------------------------------

  function FailStatus(st: Status): Status { st.(phase := Failed, agent := false) }

  function CompleteStatus(st: Status, tm: Option<TermMsg>): Status {
    if tm.Some? && tm.value.saysFailed then FailStatus(st)
    else if tm.None? && st.finalScore == 0 && st.scoring.None? && !st.results then FailStatus(st)
    else
      var done := st.(phase := Completed, agent := false);
      if tm.None? then done
      else
        var scored := if tm.value.score != 0 || done.finalScore == 0 then done.(finalScore := tm.value.score) else done;
        if tm.value.risk.NoRisk? then scored
        else
          var s := if scored.scoring.None? then Scoring(NoRisk, 0) else scored.scoring.value;
          var r := if s.risk.NoRisk? then s.(risk := tm.value.risk) else s;
          scored.(scoring := Some(if r.safety == 0 then r.(safety := tm.value.score) else r))
  }

  function DeleteJob(j: Job): Job { if j.NoJob? then j else j.(deleting := true) }

  /** retryJob: bounded recovery from an infrastructure failure. */
  function RetryWorld(w: World, st: Status, a: Answers): World {
    if st.retries >= MAX_JOB_RETRIES then w.(status := FailStatus(st))
    else if !a.deleteOk then w
    else w.(status := st.(retries := st.retries + 1), job := DeleteJob(w.job))
  }

  // ---- one reconcile ------------------------------------------------------------------------------------

  /** The part of Reconcile below "Locate the pod", for a live Job; st is the status read, with an
      unset phase replaced by Pending. */
  ghost function WithJob(w: World, st: Status, a: Answers): World
    requires w.job.Job?
  {
    if a.pod.Some? && a.pod.value.phase.PodPending? && Stuck(a.pod.value, a.now) then RetryWorld(w, st, a)
    else if w.job.failed then
      if Transient(a.pod) then RetryWorld(w, st, a) else w.(status := FailStatus(st))
    else if w.job.complete then w.(status := CompleteStatus(st, TerminationOf(a.pod)))
    else InFlight(w, st, a)
  }

  /** ensureEvaluateNetPhase: a pod that is past its init containers is labelled once; a pod that is
      gone meanwhile is no error. None if the patch failed. */
  ghost function Narrow(w: World, a: Answers): Option<World> {
    if a.pod.None? || Rank(DerivePhase(a.pod.value)) < Rank(Running) || a.pod.value.uid in w.narrowed then Some(w)
    else match a.labelling
      case Labelled => Some(w.(narrowed := w.narrowed + {a.pod.value.uid}))
      case PodGone => Some(w)
      case LabelError => None
  }

  /** No Job condition yet: the phase is derived from the pod. */
  ghost function InFlight(w: World, st: Status, a: Answers): World {
    var n := Narrow(w, a);
    if n.None? then w else Derived(n.value, st, a)
  }

  ghost function Derived(w: World, st: Status, a: Answers): World {
    var derived := if a.pod.None? then Pending else DerivePhase(a.pod.value);
    var evaluator := EvaluatorState(a.pod);
    if evaluator.Some? && evaluator.value.Terminated? then
      if evaluator.value.exit == 0 then w.(status := CompleteStatus(st, TerminationOf(a.pod)))
      else if evaluator.value.oom then RetryWorld(w, st, a)
      else w.(status := FailStatus(st))
    else
      var lifted := if st.agent && Rank(derived) < Rank(Evaluating) then Evaluating else derived;
      w.(status := if Rank(lifted) > Rank(st.phase) then st.(phase := lifted) else st)
  }

  ghost function ReconcileWorld(w0: World, a: Answers): World {
    if w0.deletion then
      if w0.finalizer && a.deleteOk then w0.(job := DeleteJob(w0.job), finalizer := false) else w0
    else
      var w := w0.(finalizer := true);
      if IsTerminal(w.status.phase) then w
      else
        var st := if w.status.phase.Unset? then w.status.(phase := Pending) else w.status;
        if a.server.ApiError? then w
        else if a.server.Missing? then w.(status := FailStatus(st))
        else if a.agents.ApiError? then w
        else if a.agents.Missing? then w.(status := FailStatus(st))
        else if w.job.NoJob? then
          if !a.policyOk then w
          else match a.creation
            case Created => w.(job := Job(false, false, false), created := w.created + 1, status := st)
            case AlreadyExists => w
            case TransientError => w
            case PermanentError => w.(status := FailStatus(st))
        else if w.job.deleting then w
        else if !a.policyOk || !a.listOk then w
        else WithJob(w, st, a)
  }

  /** The reconciler: run status and cluster objects are updated in place. */
  class Reconciler {
    var status: Status
    var job: Job
    var created: nat
    var deletion: bool
    var finalizer: bool
    var narrowed: set<nat>

    function Now(): World
      reads this
    {
      World(status, job, created, deletion, finalizer, narrowed)
    }

    method FailRun(st: Status)
      modifies this
      ensures Now() == old(Now()).(status := FailStatus(st))
    {
      status := st;
      status := status.(phase := Failed, agent := false);
    }

    method CompleteRun(st: Status, pod: Option<Pod>)
      modifies this
      ensures Now() == old(Now()).(status := CompleteStatus(st, TerminationOf(pod)))
    {
      var tm := TerminationOf(pod);
      if tm.Some? && tm.value.saysFailed {
        FailRun(st);
        return;
      }
      if tm.None? && st.finalScore == 0 && st.scoring.None? && !st.results {
        FailRun(st);
        return;
      }
      var next := st.(phase := Completed, agent := false);
      if tm.Some? {
        if tm.value.score != 0 || next.finalScore == 0 {
          next := next.(finalScore := tm.value.score);
        }
        if !tm.value.risk.NoRisk? {
          var s := if next.scoring.None? then Scoring(NoRisk, 0) else next.scoring.value;
          if s.risk.NoRisk? {
            s := s.(risk := tm.value.risk);
          }
          if s.safety == 0 {
            s := s.(safety := tm.value.score);
          }
          next := next.(scoring := Some(s));
        }
      }
      status := next;
    }

    method RetryJob(st: Status, deleteOk: bool, ghost a: Answers)
      requires a.deleteOk == deleteOk
      modifies this
      ensures Now() == RetryWorld(old(Now()), st, a)
    {
      if st.retries >= MAX_JOB_RETRIES {
        FailRun(st);
        return;
      }
      if !deleteOk {
        return;
      }
      job := DeleteJob(job);
      status := st.(retries := st.retries + 1);
    }

    method Reconcile(a: Answers)
      modifies this
      ensures Now() == ReconcileWorld(old(Now()), a)
    {
      if deletion {
        if finalizer && a.deleteOk {
          job := DeleteJob(job);
          finalizer := false;
        }
        return;
      }
      finalizer := true;
      if IsTerminal(status.phase) {
        return;
      }
      var st := status;
      if st.phase == Unset {
        st := st.(phase := Pending);
      }
      if a.server == ApiError { return; }
      if a.server == Missing { FailRun(st); return; }
      if a.agents == ApiError { return; }
      if a.agents == Missing { FailRun(st); return; }
      if job.NoJob? {
        if !a.policyOk { return; }
        match a.creation {
          case Created =>
            job := Job(false, false, false);
            created := created + 1;
            status := st;
          case AlreadyExists =>
          case TransientError =>
          case PermanentError => FailRun(st);
        }
        return;
      }
      if job.deleting { return; }
      if !a.policyOk || !a.listOk { return; }
      ReconcileJob(st, a);
    }

    method ReconcileJob(st: Status, a: Answers)
      requires job.Job?
      modifies this
      ensures Now() == WithJob(old(Now()), st, a)
    {
      if a.pod.Some? && a.pod.value.phase.PodPending? {
        var stuck := StuckPending(a.pod.value, a.now);
        if stuck {
          RetryJob(st, a.deleteOk, a);
          return;
        }
      }
      if job.failed {
        var transient := InfraTransientFailure(a.pod);
        if transient {
          RetryJob(st, a.deleteOk, a);
        } else {
          FailRun(st);
        }
        return;
      }
      if job.complete {
        CompleteRun(st, a.pod);
        return;
      }
      ReconcileInFlight(st, a);
    }

    /** ensureEvaluateNetPhase for the pod of the run. */
    method EnsureEvaluateNetPhase(pod: Pod, a: Answers) returns (ok: bool)
      requires a.pod == Some(pod) && Rank(DerivePhase(pod)) >= Rank(Running)
      modifies this`narrowed
      ensures ok == Narrow(old(Now()), a).Some?
      ensures Now() == if ok then Narrow(old(Now()), a).value else old(Now())
    {
      if pod.uid in narrowed {
        return true;
      }
      match a.labelling {
        case Labelled =>
          narrowed := narrowed + {pod.uid};
          return true;
        case PodGone => return true;
        case LabelError => return false;
      }
    }

    method ReconcileInFlight(st: Status, a: Answers)
      modifies this
      ensures Now() == InFlight(old(Now()), st, a)
    {
      var derived := Pending;
      if a.pod.Some? {
        derived := DerivePhaseFromPod(a.pod.value);
        if Rank(derived) >= Rank(Running) {
          var ok := EnsureEvaluateNetPhase(a.pod.value, a);
          if !ok {
            return;
          }
        }
        var cs := EvaluatorState(a.pod);
        if cs.Some? && cs.value.Terminated? {
          if cs.value.exit == 0 {
            CompleteRun(st, a.pod);
          } else if cs.value.oom {
            RetryJob(st, a.deleteOk, a);
          } else {
            FailRun(st);
          }
          return;
        }
      }
      if st.agent && Rank(derived) < Rank(Evaluating) {
        derived := Evaluating;
      }
      status := if Rank(derived) > Rank(st.phase) then st.(phase := derived) else st;
    }
  }

  // ---- whole runs ----------------------------------------------------------------------------------------

  /** Between reconciles the Job controller sets conditions, a deleted Job goes away, the runner
      merges its patches into the status (never the retry count) whatever it holds, and a user may
      delete the run. */
  datatype Event =
    | Reconciled(answers: Answers)
    | JobReports(failed: bool, complete: bool) | JobGone
    | RunnerPatch(status: Status) | DeletionRequested

  predicate Enabled(w: World, e: Event) {
    match e
    case JobReports(_, _) => w.job.Job?
    case JobGone => w.job.Job? && w.job.deleting
    case RunnerPatch(st) =>
      st.retries == w.status.retries
    case _ => true
  }

  ghost function Step(w: World, e: Event): World
    requires Enabled(w, e)
  {
    match e
    case Reconciled(a) => ReconcileWorld(w, a)
    case JobReports(f, c) => w.(job := w.job.(failed := f, complete := c))
    case JobGone => w.(job := NoJob)
    case RunnerPatch(st) => w.(status := st)
    case DeletionRequested => w.(deletion := true)
  }

  ghost predicate ValidRun(w: World, es: seq<Event>)
    decreases |es|
  {
    es == [] || (Enabled(w, es[0]) && ValidRun(Step(w, es[0]), es[1..]))
  }

  ghost function After(w: World, es: seq<Event>): World
    requires ValidRun(w, es)
    decreases |es|
  {
    if es == [] then w else After(Step(w, es[0]), es[1..])
  }

  const FRESH := World(Status(Unset, 0, false, 0, None, false), NoJob, 0, false, false, {})

  predicate Live(j: Job) { j.Job? && !j.deleting }

  function LiveJobs(j: Job): nat { if Live(j) then 1 else 0 }

  /** The Jobs created are the retries spent plus the one that is live, until the run itself is
      being deleted. */
  predicate JobsAccounted(w: World) {
    && w.status.retries <= MAX_JOB_RETRIES
    && w.created <= w.status.retries + 1
    && (!w.deletion ==> w.created == w.status.retries + LiveJobs(w.job))
  }

  lemma RetryAccounted(w: World, st: Status, a: Answers)
    requires JobsAccounted(w) && !w.deletion && Live(w.job) && st.retries == w.status.retries
    ensures JobsAccounted(RetryWorld(w, st, a))
  {
  }

  lemma WithJobAccounted(w: World, st: Status, a: Answers)
    requires JobsAccounted(w) && !w.deletion && Live(w.job) && st.retries == w.status.retries
    ensures JobsAccounted(WithJob(w, st, a))
  {
    RetryAccounted(w, st, a);
    var n := Narrow(w, a);
    if n.Some? {
      RetryAccounted(n.value, st, a);
    }
  }

  lemma ReconcileAccounted(w: World, a: Answers)
    requires JobsAccounted(w)
    ensures JobsAccounted(ReconcileWorld(w, a))
  {
    if !w.deletion && Live(w.job) {
      var st := if w.status.phase.Unset? then w.status.(phase := Pending) else w.status;
      WithJobAccounted(w.(finalizer := true), st, a);
    }
  }

  lemma {:induction false} RunAccounted(w: World, es: seq<Event>)
    requires JobsAccounted(w) && ValidRun(w, es)
    ensures JobsAccounted(After(w, es))
    decreases |es|
  {
    if es != [] {
      if es[0].Reconciled? {
        ReconcileAccounted(w, es[0].answers);
      }
      RunAccounted(Step(w, es[0]), es[1..]);
    }
  }

  /** Over every sequence of reconciles and environment steps at most three Jobs are created. */
  lemma AtMostThreeJobs(es: seq<Event>)
    requires ValidRun(FRESH, es)
    ensures JobsAccounted(After(FRESH, es)) && After(FRESH, es).created <= 3
  {
    RunAccounted(FRESH, es);
  }

  // ---- phases -------------------------------------------------------------------------------------------------

  /** Every state along the run has the phase. */
  ghost predicate PhaseAlong(w: World, es: seq<Event>, phase: Phase)
    requires ValidRun(w, es)
    decreases |es|
  {
    w.status.phase == phase && (es != [] ==> PhaseAlong(Step(w, es[0]), es[1..], phase))
  }

  predicate KeepsPhase(e: Event, phase: Phase) { e.RunnerPatch? ==> e.status.phase == phase }

  /** A finished run stays as it finished if and only if no later patch of the runner carries another
      phase: reconciles, Job and deletion events never reopen it. */
  lemma {:induction false} FinishedStaysIff(w: World, es: seq<Event>)
    requires IsTerminal(w.status.phase) && ValidRun(w, es)
    ensures PhaseAlong(w, es, w.status.phase) <==> forall i :: 0 <= i < |es| ==> KeepsPhase(es[i], w.status.phase)
    ensures PhaseAlong(w, es, w.status.phase) ==>
      After(w, es).status.retries == w.status.retries && After(w, es).created == w.created
    decreases |es|
  {
    if es != [] {
      var v := Step(w, es[0]);
      assert v.status.phase == w.status.phase <==> KeepsPhase(es[0], w.status.phase);
      if KeepsPhase(es[0], w.status.phase) {
        FinishedStaysIff(v, es[1..]);
        assert forall i :: 1 <= i < |es| ==> es[i] == es[1..][i - 1];
      }
    }
  }

  lemma {:induction false} PhaseAtEnd(w: World, es: seq<Event>, phase: Phase)
    requires ValidRun(w, es) && PhaseAlong(w, es, phase)
    ensures After(w, es).status.phase == phase
    decreases |es|
  {
    if es != [] {
      PhaseAtEnd(Step(w, es[0]), es[1..], phase);
    }
  }

  /** Such a patch is possible: an agent is deleted while the Job runs, the controller fails the run and
      leaves the Job alone, and the evaluator's next patch reopens the run. */
  lemma RunIsRevived(a: Answers, late: Answers)
    requires a.server.Found? && a.agents.Found? && a.policyOk && a.creation.Created?
    requires late.server.Found? && late.agents.Missing?
    ensures var w := Step(Step(FRESH, Reconciled(a)), Reconciled(late));
      var e := RunnerPatch(w.status.(phase := Evaluating, agent := true));
      w.status.phase == Failed && Live(w.job) && Enabled(w, e) && Step(w, e).status.phase == Evaluating
  {
    var u := Step(FRESH, Reconciled(a));
    assert u.job == Job(false, false, false) && u.status.phase == Pending;
  }

  /** From one status to the next: a higher phase, one more retry, or neither. */
  predicate Advances(st: Status, next: Status) {
    || (next.retries == st.retries && (next.phase == st.phase || Rank(next.phase) > Rank(st.phase)))
    || (next.retries == st.retries + 1 <= MAX_JOB_RETRIES && next.phase == st.phase)
  }

  lemma EndingsAdvance(w: World, st: Status, a: Answers)
    requires !IsTerminal(st.phase)
    ensures Advances(st, FailStatus(st)) && Advances(st, CompleteStatus(st, TerminationOf(a.pod)))
    ensures RetryWorld(w, st, a).status == w.status || Advances(st, RetryWorld(w, st, a).status)
  {
  }

  lemma WithJobAdvances(w: World, st: Status, a: Answers)
    requires w.job.Job? && !IsTerminal(st.phase)
    ensures WithJob(w, st, a).status == w.status || Advances(st, WithJob(w, st, a).status)
  {
    EndingsAdvance(w, st, a);
  }

  /** Every reconcile leaves the status as it was, or marks an unset phase Pending and advances. */
  lemma ReconcileAdvances(w: World, a: Answers)
    ensures var st := if w.status.phase.Unset? then w.status.(phase := Pending) else w.status;
      ReconcileWorld(w, a).status == w.status || Advances(st, ReconcileWorld(w, a).status)
  {
    var st := if w.status.phase.Unset? then w.status.(phase := Pending) else w.status;
    var v := w.(finalizer := true);
    if !IsTerminal(st.phase) {
      EndingsAdvance(v, st, a);
      if Live(v.job) {
        WithJobAdvances(v, st, a);
      }
    }
  }

  /** No reconcile lowers the rank of the phase it read. */
  lemma RankNeverLowered(w: World, a: Answers)
    ensures Rank(ReconcileWorld(w, a).status.phase) >= Rank(w.status.phase)
  {
    ReconcileAdvances(w, a);
  }

  /** What is left to spend: retries, then phases. */
  function Measure(st: Status): int { 6 * (MAX_JOB_RETRIES - st.retries) + (5 - Rank(st.phase)) }

  /** Every reconcile that changes phase or retries uses up part of a budget of 17. */
  lemma ChangesAreBounded(w: World, a: Answers)
    requires w.status.retries <= MAX_JOB_RETRIES
    ensures var st := ReconcileWorld(w, a).status;
      && 0 <= Measure(st) <= Measure(w.status) <= 17
      && (st.phase != w.status.phase || st.retries != w.status.retries ==> Measure(st) < Measure(w.status))
  {
    ReconcileAdvances(w, a);
  }

  // ---- the network of the pod -----------------------------------------------------------------------------------

  /** Past its init containers, or finished. */
  ghost predicate Ready(pod: Pod) {
    || pod.phase.PodSucceeded? || pod.phase.PodFailed?
    || (pod.phase.PodRunning? && InitDone(pod))
    || (pod.phase.PodPending? && pod.inits != [] && InitDone(pod))
  }

  ghost predicate SawReady(e: Event, uid: nat) {
    e.Reconciled? && e.answers.pod.Some? && e.answers.pod.value.uid == uid && Ready(e.answers.pod.value)
  }

  /** One step labels at most the pod it saw ready, and never takes a label away. */
  lemma StepNarrows(w: World, e: Event)
    requires Enabled(w, e)
    ensures w.narrowed <= Step(w, e).narrowed
    ensures forall uid :: uid in Step(w, e).narrowed && uid !in w.narrowed ==> SawReady(e, uid)
  {
  }

  /** Over every run a label is never taken back, and a pod is labelled only after a reconcile saw it
      past its init containers, or finished. */
  lemma {:induction false} NarrowedOnlyWhenReady(w: World, es: seq<Event>, uid: nat)
    requires ValidRun(w, es)
    ensures w.narrowed <= After(w, es).narrowed
    ensures uid in After(w, es).narrowed && uid !in w.narrowed ==> exists i :: 0 <= i < |es| && SawReady(es[i], uid)
    decreases |es|
  {
    if es != [] {
      StepNarrows(w, es[0]);
      NarrowedOnlyWhenReady(Step(w, es[0]), es[1..], uid);
      if uid in After(w, es).narrowed && uid !in w.narrowed {
        if uid in Step(w, es[0]).narrowed {
          assert SawReady(es[0], uid);
        } else {
          var i :| 0 <= i < |es[1..]| && SawReady(es[1..][i], uid);
          assert SawReady(es[i + 1], uid);
        }
      }
    }
  }

  lemma InFlightNarrows(w: World, st: Status, a: Answers)
    requires InFlight(w, st, a).status.phase == Running && st.phase != Running && w.status.phase != Running
    ensures a.pod.Some? && Ready(a.pod.value)
    ensures a.pod.value.uid in InFlight(w, st, a).narrowed <==> a.pod.value.uid in w.narrowed || !a.labelling.PodGone?
  {
    var n := Narrow(w, a);
    if n.Some? {
      DerivedRunning(n.value, st, a);
      ReadyIff(a.pod.value);
    }
  }

  lemma ReadyIff(pod: Pod)
    ensures Rank(DerivePhase(pod)) >= Rank(Running) <==> Ready(pod)
  {
  }

  lemma DerivedRunning(w: World, st: Status, a: Answers)
    requires Derived(w, st, a).status.phase == Running && st.phase != Running && w.status.phase != Running
    ensures a.pod.Some? && Ready(a.pod.value) && Derived(w, st, a).narrowed == w.narrowed
  {
    EndingsNotRunning(w, st, a);
    if a.pod.Some? {
      ReadyIff(a.pod.value);
    }
  }

  lemma EndingsNotRunning(w: World, st: Status, a: Answers)
    requires st.phase != Running && w.status.phase != Running
    ensures FailStatus(st).phase != Running && CompleteStatus(st, TerminationOf(a.pod)).phase != Running
    ensures RetryWorld(w, st, a).status.phase != Running
  {
  }

  /** A reconcile raises the phase to Running only for a pod that is ready and, unless it is gone,
      carries the label already. */
  lemma RunningOnlyNarrowed(w: World, a: Answers)
    requires var v := ReconcileWorld(w, a); v.status.phase == Running && w.status.phase != Running
    ensures a.pod.Some? && Ready(a.pod.value)
    ensures a.pod.value.uid in ReconcileWorld(w, a).narrowed <==> a.pod.value.uid in w.narrowed || !a.labelling.PodGone?
  {
    var v, st := w.(finalizer := true), if w.status.phase.Unset? then w.status.(phase := Pending) else w.status;
    EndingsNotRunning(v, st, a);
    assert ReconcileWorld(w, a) == InFlight(v, st, a);
    InFlightNarrows(v, st, a);
  }

  /** The phase Evaluating comes from the runner's own report and says nothing of the label: with the
      current agent set, it is reached even if no pod is found. */
  lemma EvaluatingWithoutPod(w: World, a: Answers)
    requires !w.deletion && !IsTerminal(w.status.phase) && Rank(w.status.phase) < Rank(Evaluating) && w.status.agent
    requires a.server.Found? && a.agents.Found? && a.policyOk && a.listOk && a.pod.None?
    requires Live(w.job) && !w.job.failed && !w.job.complete
    ensures ReconcileWorld(w, a).status.phase == Evaluating && ReconcileWorld(w, a).narrowed == w.narrowed
  {
  }

  // ---- verdicts ---------------------------------------------------------------------------------------------------

  /** Completing never replaces a verdict the runner recorded, and never reports success without one. */
  lemma CompletionKeepsVerdict(st: Status, tm: Option<TermMsg>)
    ensures var done := CompleteStatus(st, tm);
      && (done.phase.Completed? || done.phase.Failed?)
      && (st.scoring.Some? && !st.scoring.value.risk.NoRisk? ==>
            done.scoring.Some? && done.scoring.value.risk == st.scoring.value.risk)
      && (done.phase.Completed? ==> tm.Some? || st.finalScore != 0 || st.scoring.Some? || st.results)
      && (tm.Some? && tm.value.saysFailed ==> done.phase.Failed?)
  {
  }

  predicate HasRisk(st: Status, risk: Risk) { st.scoring.Some? && st.scoring.value.risk == risk }

  /** A risk the runner recorded survives every run in which the runner writes no other. */
  lemma {:induction false} RiskSurvives(w: World, es: seq<Event>, risk: Risk)
    requires ValidRun(w, es) && !risk.NoRisk? && HasRisk(w.status, risk)
    requires forall i :: 0 <= i < |es| && es[i].RunnerPatch? ==> HasRisk(es[i].status, risk)
    ensures HasRisk(After(w, es).status, risk)
    decreases |es|
  {
    if es != [] {
      if es[0].Reconciled? {
        ReconcileKeepsRisk(w, es[0].answers, risk);
      }
      assert forall i :: 0 <= i < |es[1..]| ==> es[1..][i] == es[i + 1];
      RiskSurvives(Step(w, es[0]), es[1..], risk);
    }
  }

  lemma ReconcileKeepsRisk(w: World, a: Answers, risk: Risk)
    requires !risk.NoRisk? && HasRisk(w.status, risk)
    ensures HasRisk(ReconcileWorld(w, a).status, risk)
  {
    var v, st := w.(finalizer := true), if w.status.phase.Unset? then w.status.(phase := Pending) else w.status;
    CompletionKeepsVerdict(st, TerminationOf(a.pod));
    if Live(v.job) {
      WithJobKeepsRisk(v, st, a, risk);
    }
  }

  lemma WithJobKeepsRisk(w: World, st: Status, a: Answers, risk: Risk)
    requires w.job.Job? && !risk.NoRisk? && HasRisk(st, risk) && HasRisk(w.status, risk)
    ensures HasRisk(WithJob(w, st, a).status, risk)
  {
    CompletionKeepsVerdict(st, TerminationOf(a.pod));
    RetryKeepsRisk(w, st, a, risk);
    var n := Narrow(w, a);
    if n.Some? {
      RetryKeepsRisk(n.value, st, a, risk);
    }
  }

  lemma RetryKeepsRisk(w: World, st: Status, a: Answers, risk: Risk)
    requires HasRisk(st, risk) && HasRisk(w.status, risk)
    ensures HasRisk(RetryWorld(w, st, a).status, risk)
  {
  }

  // ---- how a run ends ---------------------------------------------------------------------------------------------

  /** The first evaluator container decides, main containers before init containers. */
  lemma {:induction false} FirstEvaluator(cs: seq<Container>)
    ensures FindEvaluator(cs).None? <==> forall i :: 0 <= i < |cs| ==> !cs[i].evaluator
    ensures forall i :: 0 <= i < |cs| && cs[i].evaluator && (forall j :: 0 <= j < i ==> !cs[j].evaluator) ==>
      FindEvaluator(cs) == Some(cs[i].state)
  {
    if cs != [] && !cs[0].evaluator {
      FirstEvaluator(cs[1..]);
      forall i | 0 <= i < |cs| && cs[i].evaluator && (forall j :: 0 <= j < i ==> !cs[j].evaluator)
        ensures FindEvaluator(cs) == Some(cs[i].state)
      {
        assert cs[1..][i - 1] == cs[i] && forall j :: 0 <= j < i - 1 ==> cs[1..][j] == cs[j + 1];
      }
      assert forall i :: 0 < i < |cs| ==> cs[i] == cs[1..][i - 1];
    }
  }

  /** The phase a pod stands for: past its init containers or finished, at its init containers, or not yet. */
  lemma DerivedPhase(pod: Pod)
    ensures var begun := pod.phase.PodRunning? || (pod.phase.PodPending? && pod.inits != []);
      && (DerivePhase(pod) == Running <==>
            (begun && InitDone(pod)) || pod.phase.PodSucceeded? || pod.phase.PodFailed?)
      && (DerivePhase(pod) == Cloning <==> begun && !InitDone(pod))
      && (DerivePhase(pod) == Pending <==> pod.phase.PodUnknown? || (pod.phase.PodPending? && pod.inits == []))
  {
  }

  /** The run is open, its objects were found and its Job and pods were read. */
  ghost predicate Examined(w: World, a: Answers) {
    && !w.deletion && !IsTerminal(w.status.phase) && a.server.Found? && a.agents.Found?
    && w.job.Job? && !w.job.deleting && a.policyOk && a.listOk
  }

  ghost predicate StuckPod(a: Answers) {
    a.pod.Some? && a.pod.value.phase.PodPending? && Stuck(a.pod.value, a.now)
  }

  /** The pod needs no label, has it, gets it, or is gone. */
  ghost predicate LabelSettled(w: World, a: Answers) {
    || a.pod.None? || Rank(DerivePhase(a.pod.value)) < Rank(Running) || a.pod.value.uid in w.narrowed
    || !a.labelling.LabelError?
  }

  /** The evaluator has terminated, before the Job has a condition. */
  ghost predicate Exited(w: World, a: Answers) {
    && w.job.Job? && !StuckPod(a) && !w.job.failed && !w.job.complete && LabelSettled(w, a)
    && EvaluatorState(a.pod).Some? && EvaluatorState(a.pod).value.Terminated?
  }

  /** The cause lies in the infrastructure: a pod that never starts, a failed Job whose pod was evicted,
      never started or ran out of memory, an evaluator that ran out of memory. */
  ghost predicate InfraFault(w: World, a: Answers) {
    || StuckPod(a)
    || (w.job.Job? && w.job.failed && Transient(a.pod))
    || (Exited(w, a) && EvaluatorState(a.pod).value.exit != 0 && EvaluatorState(a.pod).value.oom)
  }

  /** The evaluator is done: the Job says so, or the evaluator has exited with 0. */
  ghost predicate EvaluatorDone(w: World, a: Answers) {
    || (w.job.Job? && !StuckPod(a) && !w.job.failed && w.job.complete)
    || (Exited(w, a) && EvaluatorState(a.pod).value.exit == 0)
  }

  /** There is a result: a message that does not say Failed, or without a message something recorded. */
  ghost predicate HasResult(st: Status, a: Answers) {
    var tm := TerminationOf(a.pod);
    if tm.Some? then !tm.value.saysFailed else st.finalScore != 0 || st.scoring.Some? || st.results
  }

  /** The evaluation failed: the Job for no infrastructure reason, or the evaluator with its own exit code. */
  ghost predicate EvaluatorFailed(w: World, a: Answers) {
    || (w.job.Job? && !StuckPod(a) && w.job.failed && !Transient(a.pod))
    || (Exited(w, a) && EvaluatorState(a.pod).value.exit != 0 && !EvaluatorState(a.pod).value.oom)
  }

  /** How an examined run goes on: it completes, fails, is retried or stays open, each exactly for its
      reasons. */
  lemma RunEnds(w: World, a: Answers)
    requires Examined(w, a)
    ensures var st := ReconcileWorld(w, a).status;
      && (st.phase.Completed? <==> EvaluatorDone(w, a) && HasResult(w.status, a))
      && (st.phase.Failed? <==>
            || (EvaluatorDone(w, a) && !HasResult(w.status, a)) || EvaluatorFailed(w, a)
            || (InfraFault(w, a) && w.status.retries >= MAX_JOB_RETRIES))
      && (st.retries == w.status.retries + 1 <==>
            InfraFault(w, a) && w.status.retries < MAX_JOB_RETRIES && a.deleteOk)
      && (st.retries != w.status.retries + 1 ==> st.retries == w.status.retries)
  {
    var v, st := w.(finalizer := true), if w.status.phase.Unset? then w.status.(phase := Pending) else w.status;
    assert ReconcileWorld(w, a) == WithJob(v, st, a);
    CompletionEnds(st, a);
    if w.job.failed || w.job.complete || StuckPod(a) {
      ConditionEnds(v, st, a);
    } else {
      ExitEnds(v, st, a);
    }
  }

  lemma CompletionEnds(st: Status, a: Answers)
    ensures var done := CompleteStatus(st, TerminationOf(a.pod));
      && (done.phase.Completed? <==> HasResult(st, a)) && (done.phase.Failed? <==> !HasResult(st, a))
      && done.retries == st.retries
  {
  }

  lemma ConditionEnds(w: World, st: Status, a: Answers)
    requires w.job.Job? && !IsTerminal(st.phase) && !IsTerminal(w.status.phase) && st.retries == w.status.retries
    requires w.job.failed || w.job.complete || StuckPod(a)
    ensures var v := WithJob(w, st, a);
      v == if InfraFault(w, a) then RetryWorld(w, st, a)
           else if EvaluatorFailed(w, a) then w.(status := FailStatus(st))
           else w.(status := CompleteStatus(st, TerminationOf(a.pod)))
    ensures !InfraFault(w, a) && !EvaluatorFailed(w, a) ==> EvaluatorDone(w, a)
    ensures InfraFault(w, a) || EvaluatorFailed(w, a) ==> !EvaluatorDone(w, a)
    ensures !(InfraFault(w, a) && EvaluatorFailed(w, a))
  {
  }

  lemma ExitEnds(w: World, st: Status, a: Answers)
    requires w.job.Job? && !IsTerminal(st.phase) && !IsTerminal(w.status.phase) && st.retries == w.status.retries
    requires !w.job.failed && !w.job.complete && !StuckPod(a)
    ensures var v := WithJob(w, st, a).status;
      && (v.phase.Completed? <==> EvaluatorDone(w, a) && HasResult(st, a))
      && (v.phase.Failed? <==> (EvaluatorDone(w, a) && !HasResult(st, a)) || EvaluatorFailed(w, a)
                               || (InfraFault(w, a) && st.retries >= MAX_JOB_RETRIES))
      && (v.retries == st.retries + 1 <==> InfraFault(w, a) && st.retries < MAX_JOB_RETRIES && a.deleteOk)
      && (v.retries != st.retries + 1 ==> v.retries == st.retries)
  {
    CompletionEnds(st, a);
  }

  /** A retry deletes the Job; nothing else in an examined run touches it. */
  lemma RetryDeletesJob(w: World, a: Answers)
    requires Examined(w, a)
    ensures var v := ReconcileWorld(w, a);
      v.job.Job? && (v.job.deleting <==> v.status.retries == w.status.retries + 1)
      && v.job.(deleting := false) == w.job && v.created == w.created
  {
    RunEnds(w, a);
  }

  /** A run being deleted only has its Job deleted, and gives up its finalizer exactly when that was done;
      a finished run is left alone. */
  lemma DeletionFirst(w: World, a: Answers)
    requires w.deletion || IsTerminal(w.status.phase)
    ensures var v := ReconcileWorld(w, a);
      && v.status == w.status && v.created == w.created && v.narrowed == w.narrowed
      && (!w.deletion ==> v.finalizer && v.job == w.job)
      && (w.deletion ==> (v.finalizer <==> w.finalizer && !a.deleteOk))
      && (w.deletion && w.finalizer && !v.finalizer ==> v.job.NoJob? || v.job.deleting)
  {
  }

  /** A run that is not examined fails exactly if its server or an agent is missing, or its Job cannot be
      created, and never completes. */
  lemma NotExamined(w: World, a: Answers)
    requires !w.deletion && !IsTerminal(w.status.phase) && !Examined(w, a)
    ensures var v := ReconcileWorld(w, a);
      && !v.status.phase.Completed? && v.status.retries == w.status.retries
      && (v.status.phase.Failed? <==>
            || a.server.Missing? || (a.server.Found? && a.agents.Missing?)
            || (a.server.Found? && a.agents.Found? && w.job.NoJob? && a.policyOk && a.creation.PermanentError?))
      && (v.created == w.created + 1 <==>
            a.server.Found? && a.agents.Found? && w.job.NoJob? && a.policyOk && a.creation.Created?)
  {
  }

  /** A run that goes on shows the highest of: the phase it had, the phase of its pod, and Evaluating once
      an agent is at work. */
  lemma OpenPhase(w: World, a: Answers)
    requires Examined(w, a) && !StuckPod(a) && !w.job.failed && !w.job.complete && LabelSettled(w, a) && !Exited(w, a)
    ensures var p := ReconcileWorld(w, a).status.phase;
      var pod := if a.pod.None? then Pending else DerivePhase(a.pod.value);
      && Rank(p) >= Rank(w.status.phase) && Rank(p) >= Rank(pod) && (w.status.agent ==> Rank(p) >= Rank(Evaluating))
      && (p == w.status.phase || p == pod || (w.status.agent && p == Evaluating) || p == Pending)
  {
  }

  /** After completion the score is that of the message, unless that is 0; risk and safety score are the
      recorded ones, and come from the message where there are none. */
  lemma CompletedScores(st: Status, tm: TermMsg)
    requires CompleteStatus(st, Some(tm)).phase.Completed?
    ensures var done := CompleteStatus(st, Some(tm));
      var was := if st.scoring.Some? then st.scoring.value else Scoring(NoRisk, 0);
      && done.finalScore == (if tm.score == 0 then st.finalScore else tm.score)
      && (tm.risk.NoRisk? ==> done.scoring == st.scoring)
      && (!tm.risk.NoRisk? ==>
            done.scoring == Some(Scoring(if was.risk.NoRisk? then tm.risk else was.risk,
                                         if was.safety == 0 then tm.score else was.safety)))
      && !done.agent && done.results == st.results
  {
  }

  /** Without a message everything recorded stays. */
  lemma CompletedFromRecord(st: Status)
    requires CompleteStatus(st, None).phase.Completed?
    ensures CompleteStatus(st, None) == st.(phase := Completed, agent := false)
  {
  }

  /** The status of a completed run is what completion makes of the message and of what was recorded. */
  lemma CompletedStatus(w: World, a: Answers)
    requires Examined(w, a) && ReconcileWorld(w, a).status.phase.Completed?
    ensures var st := if w.status.phase.Unset? then w.status.(phase := Pending) else w.status;
      ReconcileWorld(w, a).status == CompleteStatus(st, TerminationOf(a.pod))
  {
    RunEnds(w, a);
  }
}
