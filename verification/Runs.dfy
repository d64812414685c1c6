/** Run statuses and their allowed transitions. */
module Runs {
  import opened Outcomes

  datatype RunStatus =
    | WaitingForData | Queued | Admitted | Starting
    | RunningAnalysts | ResearchDebate | TraderPlan | RiskDebate | PortfolioDecision | Finalizing
    | Succeeded | Failed | CancelRequested | Cancelling | Cancelled | NeedsAttention

  const TERMINAL: set<RunStatus> := {Succeeded, Failed, Cancelled, NeedsAttention}

  function AllowedTransitions(s: RunStatus): set<RunStatus> {
    match s
    case WaitingForData => {Queued, Failed, Cancelled, NeedsAttention}
    case Queued => {Admitted, Cancelled}
    case Admitted => {Starting, CancelRequested, Queued}
    case Starting => {RunningAnalysts, Failed, CancelRequested}
    case RunningAnalysts => {ResearchDebate, Failed, CancelRequested}
    case ResearchDebate => {TraderPlan, Failed, CancelRequested}
    case TraderPlan => {RiskDebate, Failed, CancelRequested}
    case RiskDebate => {PortfolioDecision, Failed, CancelRequested}
    case PortfolioDecision => {Finalizing, Failed, CancelRequested}
    case Finalizing => {Succeeded, Failed, CancelRequested}
    case CancelRequested => {Cancelling, Cancelled}
    case Cancelling => {Cancelled, NeedsAttention}
    case _ => {}
  }

  predicate CanMove(current: RunStatus, target: RunStatus) {
    target in AllowedTransitions(current)
  }

  /** Statuses without a way out are exactly the terminal ones, and nothing leads back to waiting. */
  lemma TransitionTable(s: RunStatus, t: RunStatus)
    ensures AllowedTransitions(s) == {} <==> s in TERMINAL
    ensures CanMove(s, t) ==> t != WaitingForData && t != s
  {
  }

  /** What `cancel` does to a status: the target it asserts, or none where it leaves the run alone. */
  function CancelTarget(s: RunStatus): Option<RunStatus> {
    if s == Queued || s == WaitingForData then Some(Cancelled)
    else if s !in TERMINAL && s != CancelRequested && s != Cancelling then Some(CancelRequested)
    else None
  }

  /** The transition that a cancel asserts is always allowed, so a cancel never raises there. */
  lemma CancelIsAllowed(s: RunStatus)
    ensures CancelTarget(s).Some? ==> CanMove(s, CancelTarget(s).value)
    ensures CancelTarget(s).None? <==> s in TERMINAL || s == CancelRequested || s == Cancelling
  {
  }

  /** A chain of allowed moves. */
  ghost predicate IsHistory(h: seq<RunStatus>) {
    forall i :: 0 <= i < |h| - 1 ==> CanMove(h[i], h[i + 1])
  }

  /** A run waits for data at most as its first status, and never moves after a terminal one. */
  lemma HistoryShape(h: seq<RunStatus>, i: nat)
    requires IsHistory(h) && i < |h|
    ensures h[i] == WaitingForData ==> i == 0
    ensures h[i] in TERMINAL ==> i == |h| - 1
  {
    if i > 0 { TransitionTable(h[i - 1], h[i]); }
    if i < |h| - 1 { assert CanMove(h[i], h[i + 1]); }
  }
}
