/** The way of a Malicious verdict from the evaluator's abort, over the run object and the run
    controller, to the server object. */
module VerdictPath {
  import opened Options
  import opened RunController
  import opened EvaluatorTrace

  import S = ServerController

  /** The run object's status as the controller reads it. */
  function AsStatus(st: RunStatus, retries: nat, safety: int): Status {
    Status(st.phase, retries, false, st.score, if st.risk.NoRisk? then None else Some(Scoring(st.risk, safety)), false)
  }

  /** The run as the server controller lists it. */
  function AsRun(name: nat, created: int, st: Status): S.Run {
    S.Run(name, created, st.phase, st.finalScore, st.scoring, false, None)
  }

  /** After an abort the controller fails the run (the evaluator exits with an error and its termination
      message says Failed), and the server counts the run as a verdict exactly if the abort's own status
      patch was written. The message carries the verdict too, but of a failed one only the phase is read. */
  lemma AbortReachesServer(trace: Trace, findings: seq<Finding>, fate: nat -> Delivery,
                           name: nat, created: int, retries: nat, safety: int)
    requires AbortEnding(trace, findings) && GoneForGood(fate)
    requires Replay(trace[..|trace| - 2], fate).status.risk != Malicious
    ensures var delivered := fate(Replay(trace[..|trace| - 2], fate).sent).Delivered?;
      var written := AsStatus(Flush(Replay(trace, fate), fate).status, retries, safety);
      var run := AsRun(name, created, FailStatus(written));
      && CompleteStatus(written, Some(TermMsg(true, 0, Malicious))) == FailStatus(written)
      && (S.HasVerdict(run) <==> delivered)
      && (delivered ==> S.Shown(run) == S.Verdict(0, Malicious))
  {
    AbortVerdictDelivered(trace, findings, fate);
  }

  /** Once it is there the verdict stays: whatever reconciles, Job and deletion events follow, the server
      counts the run as a Malicious verdict. */
  lemma AbortStaysVisible(w: World, es: seq<RunController.Event>, name: nat, created: int)
    requires w.status.phase == Failed && HasRisk(w.status, Malicious) && ValidRun(w, es)
    requires forall i :: 0 <= i < |es| ==> !es[i].RunnerPatch?
    ensures S.HasVerdict(AsRun(name, created, After(w, es).status))
    ensures S.Shown(AsRun(name, created, After(w, es).status)).risk == Malicious
  {
    FinishedStaysIff(w, es);
    PhaseAtEnd(w, es, Failed);
    RiskSurvives(w, es, Malicious);
  }
}
