/** The docking states and the reducer that guards protected transitions. */
module StateMachine {
  import opened Basics

  datatype DockingState = Hold | Approach | FinalApproach | SoftCapture | HardDock | Aborted

  datatype DockingEvent = BeginApproach | EnterFinalApproach | EngageSoftCapture | EngageHardDock | Abort

  datatype AuthorizationContext = AuthorizationContext(
    identityVerified: bool, sessionAuthorized: bool, dockingAuthorized: bool)

  const NO_AUTHORIZATION := AuthorizationContext(false, false, false)

  datatype TransitionError =
    | InvalidTransition
    | IdentityRequired
    | SessionRequired
    | DockingAuthorizationRequired

  function Reduce(state: DockingState, event: DockingEvent, authorization: AuthorizationContext)
    : Result<DockingState, TransitionError>
  {
    if event == Abort then Ok(Aborted)
    else
      match (state, event)
      case (Hold, BeginApproach) => Ok(Approach)
      case (Approach, EnterFinalApproach) =>
        if authorization.identityVerified then Ok(FinalApproach) else Err(IdentityRequired)
      case (FinalApproach, EngageSoftCapture) =>
        if authorization.sessionAuthorized then Ok(SoftCapture) else Err(SessionRequired)
      case (SoftCapture, EngageHardDock) =>
        if authorization.dockingAuthorized then Ok(HardDock) else Err(DockingAuthorizationRequired)
      case _ => Err(InvalidTransition)
  }

  function StateNumber(state: DockingState): (n: nat)
    ensures n <= 5
  {
    match state
    case Hold => 0
    case Approach => 1
    case FinalApproach => 2
    case SoftCapture => 3
    case HardDock => 4
    case Aborted => 5
  }

  /** A sequence of reductions from hold; a refused event leaves the state. */
  function ReduceAll(calls: seq<(DockingEvent, AuthorizationContext)>): DockingState
    decreases |calls|
  {
    if calls == [] then Hold
    else
      var before := ReduceAll(calls[..|calls| - 1]);
      var (event, authorization) := calls[|calls| - 1];
      match Reduce(before, event, authorization)
      case Ok(after) => after
      case Err(_) => before
  }

  /** The call that entered the present state. */
  lemma {:induction false} Entered(calls: seq<(DockingEvent, AuthorizationContext)>) returns (n: nat)
    requires ReduceAll(calls) != Hold
    ensures n < |calls| && ReduceAll(calls[..n]) != ReduceAll(calls)
    ensures Reduce(ReduceAll(calls[..n]), calls[n].0, calls[n].1) == Ok(ReduceAll(calls))
    decreases |calls|
  {
    n := |calls| - 1;
    if ReduceAll(calls[..n]) == ReduceAll(calls) {
      var m := Entered(calls[..n]);
      assert calls[..n][..m] == calls[..m];
      n := m;
    }
  }

  /** Hard dock is only reached through four events in order: the approach, then the final approach
      with a verified identity, soft capture with an authorized session, and hard dock itself with
      docking authorized. */
  lemma HardDockWasGuarded(calls: seq<(DockingEvent, AuthorizationContext)>) returns (a: nat, f: nat, c: nat, d: nat)
    requires ReduceAll(calls) == HardDock
    ensures a < f < c < d < |calls|
    ensures calls[a].0 == BeginApproach
    ensures calls[f].0 == EnterFinalApproach && calls[f].1.identityVerified
    ensures calls[c].0 == EngageSoftCapture && calls[c].1.sessionAuthorized
    ensures calls[d].0 == EngageHardDock && calls[d].1.dockingAuthorized
  {
    d := Entered(calls);
    c := Entered(calls[..d]);
    assert calls[..d][..c] == calls[..c];
    f := Entered(calls[..c]);
    assert calls[..c][..f] == calls[..f];
    a := Entered(calls[..f]);
  }

  /** An abort is final: no event takes the machine out of it. */
  lemma {:induction false} AbortIsFinal(calls: seq<(DockingEvent, AuthorizationContext)>, n: nat)
    requires n < |calls| && calls[n].0 == Abort
    ensures ReduceAll(calls) == Aborted
    decreases |calls|
  {
    if n < |calls| - 1 {
      assert calls[..|calls| - 1][n] == calls[n];
      AbortIsFinal(calls[..|calls| - 1], n);
    }
  }
}
