/** The station and chaser nodes: what each message does to their fields, and what they send. */
module Nodes {
  import opened Basics
  import opened Profile
  import opened Protocol
  import opened Engine

  datatype ToStation =
    | AccessRequestMsg(scenario: Option<Scenario>)
    | TransitionRequestMsg(requested: int, sessionId: Option<Bytes>, sequence: nat)
    | PresentationMsg(requested: int, sessionId: Option<Bytes>, grantId: Bytes, grant: Wire)

  datatype ToChaser =
    | SessionAuthorizedMsg(newSession: Bytes)
    | SessionDeniedMsg(reason: Denial)
    | GrantMsg(approved: bool, requested: int, sessionId: Option<Bytes>, grant: Wire)
    | OutcomeMsg(approved: bool, resulting: int, grantId: Option<Bytes>)

  /** The station's decision to the controller. */
  datatype DecisionMsg = DecisionMsg(approved: bool, previous: int, resulting: int, grantId: Option<Bytes>)

  datatype Denial = CredentialExpiredDenial | SessionUnavailable | AuthorityError

  /** Why the authority process gave no value: it answered with an error, or it is gone. */
  datatype Failure = Rejected(error: SessionError) | Gone

  datatype Entitlement = Entitlement(id: Option<Bytes>, requested: int, ttl: Option<u64>, consumed: bool)

  datatype StationState = StationState(
    state: int, scenario: Scenario, sessionId: Option<Bytes>, sessionReady: bool, denial: Option<Denial>,
    readiness: Option<Readiness>, entitlements: seq<Entitlement>)

  const STATION_START := StationState(0, Nominal, None, false, None, None, [])

  function ClearRuntime(st: StationState): StationState {
    STATION_START.(scenario := st.scenario)
  }

  function HandleAccessRequest(st: StationState, scenario: Option<Scenario>, answer: Result<SessionOutcome, Failure>)
    : (StationState, ToChaser)
  {
    var st1 := if scenario.Some? then st.(scenario := scenario.value) else st;
    match answer
    case Ok(session) =>
      (st1.(sessionId := Some(session.sessionId), sessionReady := true, denial := None),
       SessionAuthorizedMsg(session.sessionId))
    case Err(f) =>
      var reason := if f == Rejected(ProtocolFailed(CredentialExpired)) then CredentialExpiredDenial else SessionUnavailable;
      (st1.(sessionReady := false, denial := Some(reason)), SessionDeniedMsg(reason))
  }

  /** Whether a transition request reaches the authority at all. */
  predicate AsksToIssue(st: StationState) {
    st.sessionReady && st.readiness.Some?
  }

  predicate AsksToRedeem(st: StationState) {
    st.readiness.Some?
  }

  function FailClosed(st: StationState): StationState {
    if st.denial.None? then st.(sessionReady := false, denial := Some(AuthorityError)) else st
  }

  /** The answer counts only when the station asked. An approval is passed to the chaser and says
      nothing to the controller; anything else is a refusal told to both. */
  function HandleTransitionRequest(st: StationState, requested: int, answer: Result<TransitionOutcome, Failure>)
    : (StationState, Option<DecisionMsg>, ToChaser)
  {
    if AsksToIssue(st) && answer.Ok? && answer.value.approved && answer.value.signedGrant.Some? && 1 <= requested <= 4 then
      (st.(entitlements := st.entitlements + [Entitlement(answer.value.grantId, requested, answer.value.entitlementTtl, false)]),
       None, GrantMsg(true, requested, st.sessionId, answer.value.signedGrant.value))
    else
      var refused := AsksToIssue(st) && answer.Ok? && !answer.value.approved;
      var gid := if AsksToIssue(st) && answer.Ok? then answer.value.grantId else None;
      (if refused then st else FailClosed(st),
       Some(DecisionMsg(false, st.state, st.state, gid)), OutcomeMsg(false, st.state, gid))
  }

  /** The first entitlement of that identifier becomes consumed. */
  function MarkConsumed(entitlements: seq<Entitlement>, id: Option<Bytes>): seq<Entitlement> {
    if entitlements == [] then []
    else if entitlements[0].id == id then [entitlements[0].(consumed := true)] + entitlements[1..]
    else [entitlements[0]] + MarkConsumed(entitlements[1..], id)
  }

  function HandlePresentation(st: StationState, gid: Bytes, answer: Result<TransitionOutcome, Failure>)
    : (StationState, DecisionMsg, ToChaser)
  {
    if AsksToRedeem(st) && answer.Ok? then
      var outcome := answer.value;
      var st' := st.(state := outcome.resultingState, entitlements := MarkConsumed(st.entitlements, outcome.grantId));
      var told := if outcome.grantId.Some? then outcome.grantId else Some(gid);
      (st', DecisionMsg(outcome.approved, st.state, st'.state, told), OutcomeMsg(outcome.approved, st'.state, told))
    else
      (st, DecisionMsg(false, st.state, st.state, Some(gid)), OutcomeMsg(false, st.state, Some(gid)))
  }

  datatype ChaserState = ChaserState(sessionId: Option<Bytes>, sequence: nat, presented: set<Bytes>)

  function ForgetSession(): ChaserState {
    ChaserState(None, 0, {})
  }

  function OnTransitionRequest(c: ChaserState, requested: int): (ChaserState, ToStation) {
    (c.(sequence := c.sequence + 1), TransitionRequestMsg(requested, c.sessionId, c.sequence + 1))
  }

  const STAGE_NAME: map<int, string> := map[1 := "approach", 2 := "final_approach", 3 := "soft_capture", 4 := "hard_dock"]

  /** Whether a message makes the chaser ask its entitlement verifier. */
  predicate AsksToVerify(m: ToChaser) {
    m.GrantMsg? && m.approved && m.requested in STAGE_NAME
  }

  /** `verified` is the grant identifier the verifier returned, if it was asked and accepted. */
  function OnStationMessage(c: ChaserState, m: ToChaser, verified: Option<Bytes>): (ChaserState, Option<ToStation>) {
    match m
    case SessionAuthorizedMsg(sid) => (c.(sessionId := Some(sid)), None)
    case SessionDeniedMsg(_) => (c.(sessionId := None), None)
    case GrantMsg(_, requested, _, grant) =>
      if AsksToVerify(m) && verified.Some? then
        (c.(presented := c.presented + {verified.value}),
         Some(PresentationMsg(requested, c.sessionId, verified.value, grant)))
      else (c, None)
    case OutcomeMsg(_, _, gid) =>
      (if gid.Some? then c.(presented := c.presented - {gid.value}) else c, None)
  }

  /** What a chaser has heard from the station, each message with the grant its verifier accepted, if any. */
  function ChaserRun(c: ChaserState, heard: seq<(ToChaser, Option<Bytes>)>): ChaserState
    decreases |heard|
  {
    if heard == [] then c
    else
      var (m, verified) := heard[|heard| - 1];
      OnStationMessage(ChaserRun(c, heard[..|heard| - 1]), m, verified).0
  }

  predicate PresentsAt(heard: seq<(ToChaser, Option<Bytes>)>, i: int, g: Bytes) {
    0 <= i < |heard| && AsksToVerify(heard[i].0) && heard[i].1 == Some(g)
  }

  predicate ResolvesAt(heard: seq<(ToChaser, Option<Bytes>)>, i: int, g: Bytes) {
    0 <= i < |heard| && heard[i].0.OutcomeMsg? && heard[i].0.grantId == Some(g)
  }

  ghost predicate UnresolvedAfter(heard: seq<(ToChaser, Option<Bytes>)>, i: int, g: Bytes) {
    forall j | i < j < |heard| :: !ResolvesAt(heard, j, g)
  }

  /** The grants a chaser holds as presented are exactly those it presented, or held before, and has heard no
      outcome of since. */
  lemma {:induction false} PresentedAreUnresolved(c: ChaserState, heard: seq<(ToChaser, Option<Bytes>)>, g: Bytes)
    ensures g in ChaserRun(c, heard).presented
       <==> || (g in c.presented && UnresolvedAfter(heard, -1, g))
            || exists i :: PresentsAt(heard, i, g) && UnresolvedAfter(heard, i, g)
    decreases |heard|
  {
    if heard != [] {
      var n := |heard| - 1;
      var front := heard[..n];
      PresentedAreUnresolved(c, front, g);
      assert forall i | 0 <= i < n :: front[i] == heard[i];
      assert forall i | 0 <= i < n :: PresentsAt(front, i, g) <==> PresentsAt(heard, i, g);
      assert forall i | 0 <= i < n :: ResolvesAt(front, i, g) <==> ResolvesAt(heard, i, g);
      forall i | -1 <= i < n
        ensures UnresolvedAfter(heard, i, g) <==> UnresolvedAfter(front, i, g) && !ResolvesAt(heard, n, g)
      {
      }
      assert UnresolvedAfter(heard, n, g);
      assert PresentsAt(heard, n, g) ==> g in ChaserRun(c, heard).presented;
    }
  }

  lemma {:induction false} MarkConsumedAt(entitlements: seq<Entitlement>, id: Option<Bytes>, i: nat)
    requires i < |entitlements| && entitlements[i].id == id
    requires forall k | 0 <= k < i :: entitlements[k].id != id
    ensures MarkConsumed(entitlements, id) == entitlements[i := entitlements[i].(consumed := true)]
  {
    if i > 0 {
      MarkConsumedAt(entitlements[1..], id, i - 1);
    }
  }

  lemma {:induction false} MarkConsumedAbsent(entitlements: seq<Entitlement>, id: Option<Bytes>)
    requires forall k | 0 <= k < |entitlements| :: entitlements[k].id != id
    ensures MarkConsumed(entitlements, id) == entitlements
  {
    if entitlements != [] {
      MarkConsumedAbsent(entitlements[1..], id);
    }
  }

  /** What can happen at the station between two access requests. */
  datatype StationOp =
    | GotReadiness(evidence: Readiness)
    | GotRequest(wanted: int, issued: Result<TransitionOutcome, Failure>)
    | GotPresentation(gid: Bytes, redeemed: Result<TransitionOutcome, Failure>)

  function StationStep(st: StationState, op: StationOp): StationState {
    match op
    case GotReadiness(evidence) => st.(readiness := Some(evidence))
    case GotRequest(wanted, issued) => HandleTransitionRequest(st, wanted, issued).0
    case GotPresentation(gid, redeemed) => HandlePresentation(st, gid, redeemed).0
  }

  function StationRun(st: StationState, ops: seq<StationOp>): StationState
    decreases |ops|
  {
    if ops == [] then st else StationRun(StationStep(st, ops[0]), ops[1..])
  }

  /** The station has failed closed. */
  predicate Closed(st: StationState) {
    !st.sessionReady && st.denial.Some?
  }

  /** An open station holds no denial. */
  predicate Settled(st: StationState) {
    st.sessionReady ==> st.denial.None?
  }

  /** Every station state is settled: at the start, after a clearing, after any access request, and
      across every other message. */
  lemma StationsAreSettled(st: StationState, scenario: Option<Scenario>, answer: Result<SessionOutcome, Failure>, op: StationOp)
    ensures Settled(STATION_START) && Settled(ClearRuntime(st))
    ensures Settled(HandleAccessRequest(st, scenario, answer).0)
    ensures Settled(st) ==> Settled(StationStep(st, op))
  {
  }

  /** A cleared station asks the authority for nothing: for no grant before an access request has opened a
      session, and for no redemption before evidence has come in. It is at hold and holds no entitlement. */
  lemma {:induction false} ClearedAsksNothing(st: StationState, ops: seq<StationOp>)
    requires forall k | 0 <= k < |ops| :: !ops[k].GotReadiness?
    ensures var end := StationRun(ClearRuntime(st), ops);
            !AsksToIssue(end) && !AsksToRedeem(end) && end.state == 0 && end.entitlements == [] && end.sessionId.None?
  {
    QuietStation(ClearRuntime(st), ops);
  }

  lemma {:induction false} QuietStation(st: StationState, ops: seq<StationOp>)
    requires !st.sessionReady && st.readiness.None?
    requires forall k | 0 <= k < |ops| :: !ops[k].GotReadiness?
    ensures var end := StationRun(st, ops);
            && !end.sessionReady && end.readiness.None? && end.state == st.state && end.entitlements == st.entitlements
            && end.sessionId == st.sessionId
    decreases |ops|
  {
    if ops != [] {
      assert !ops[0].GotReadiness?;
      assert forall k | 0 <= k < |ops[1..]| :: ops[1..][k] == ops[k + 1];
      QuietStation(StationStep(st, ops[0]), ops[1..]);
    }
  }

  /** When the authority fails a transition request, or there is no session, or no readiness to send,
      the station fails closed and tells both sides no; a policy refusal leaves it open. */
  lemma FailuresClose(st: StationState, requested: int, answer: Result<TransitionOutcome, Failure>)
    requires Settled(st)
    ensures var (st', decision, reply) := HandleTransitionRequest(st, requested, answer);
            && (!AsksToIssue(st) || answer.Err? ==> !st'.sessionReady && st'.denial.Some? && decision.Some? && reply.OutcomeMsg?)
            && (decision.Some? ==> !decision.value.approved && decision.value.resulting == st.state && !reply.approved)
            && (decision.None? ==> reply.GrantMsg?)
            && (AsksToIssue(st) && answer.Ok? && !answer.value.approved ==> st' == st)
            && st'.state == st.state
  {
  }

  /** Once closed, the station asks the authority for no grant, refuses every request with the same
      reason and records no entitlement, until the next access request. */
  lemma {:induction false} ClosedStaysClosed(st: StationState, ops: seq<StationOp>, requested: int,
                                             answer: Result<TransitionOutcome, Failure>)
    requires Closed(st)
    ensures var end := StationRun(st, ops);
            && Closed(end) && end.denial == st.denial && |end.entitlements| == |st.entitlements|
            && !AsksToIssue(end) && HandleTransitionRequest(end, requested, answer).0 == end
            && HandleTransitionRequest(end, requested, answer).2 == OutcomeMsg(false, end.state, None)
    decreases |ops|
  {
    if ops != [] {
      if ops[0].GotPresentation? && ops[0].redeemed.Ok? {
        MarkConsumedLength(st.entitlements, ops[0].redeemed.value.grantId);
      }
      ClosedStaysClosed(StationStep(st, ops[0]), ops[1..], requested, answer);
    }
  }

  lemma {:induction false} MarkConsumedLength(entitlements: seq<Entitlement>, id: Option<Bytes>)
    ensures |MarkConsumed(entitlements, id)| == |entitlements|
  {
    if entitlements != [] {
      MarkConsumedLength(entitlements[1..], id);
    }
  }

  class StationAccess {
    var state: int
    var scenario: Scenario
    var sessionId: Option<Bytes>
    var sessionReady: bool
    var denial: Option<Denial>
    var readiness: Option<Readiness>
    var entitlements: seq<Entitlement>

    ghost function View(): StationState
      reads this
    {
      StationState(state, scenario, sessionId, sessionReady, denial, readiness, entitlements)
    }

    constructor ()
      ensures View() == STATION_START
    {
      state, scenario, sessionId, sessionReady := 0, Nominal, None, false;
      denial, readiness, entitlements := None, None, [];
    }

    method Clear()
      modifies this
      ensures View() == ClearRuntime(old(View()))
    {
      state, sessionId, sessionReady := 0, None, false;
      denial, readiness, entitlements := None, None, [];
    }

    method ReceiveReadiness(evidence: Readiness)
      modifies this`readiness
      ensures View() == old(View()).(readiness := Some(evidence))
    {
      readiness := Some(evidence);
    }

    method AccessRequest(requested: Option<Scenario>, answer: Result<SessionOutcome, Failure>) returns (reply: ToChaser)
      modifies this
      ensures (View(), reply) == HandleAccessRequest(old(View()), requested, answer)
    {
      if requested.Some? {
        scenario := requested.value;
      }
      match answer {
        case Ok(session) =>
          sessionId := Some(session.sessionId);
          sessionReady := true;
          denial := None;
          reply := SessionAuthorizedMsg(session.sessionId);
        case Err(f) =>
          sessionReady := false;
          var reason := if f == Rejected(ProtocolFailed(CredentialExpired)) then CredentialExpiredDenial else SessionUnavailable;
          denial := Some(reason);
          reply := SessionDeniedMsg(reason);
      }
    }

    method TransitionRequest(requested: int, answer: Result<TransitionOutcome, Failure>)
      returns (decision: Option<DecisionMsg>, reply: ToChaser)
      modifies this`sessionReady, this`denial, this`entitlements
      ensures (View(), decision, reply) == HandleTransitionRequest(old(View()), requested, answer)
    {
      var failed := true;
      var gid := None;
      if sessionReady && readiness.Some? && answer.Ok? {
        var outcome := answer.value;
        gid := outcome.grantId;
        if outcome.approved && outcome.signedGrant.Some? && 1 <= requested <= 4 {
          entitlements := entitlements + [Entitlement(gid, requested, outcome.entitlementTtl, false)];
          return None, GrantMsg(true, requested, sessionId, outcome.signedGrant.value);
        }
        failed := outcome.approved;
      }
      if failed && denial.None? {
        sessionReady := false;
        denial := Some(AuthorityError);
      }
      decision := Some(DecisionMsg(false, state, state, gid));
      reply := OutcomeMsg(false, state, gid);
    }

    method EntitlementPresentation(gid: Bytes, answer: Result<TransitionOutcome, Failure>)
      returns (decision: DecisionMsg, reply: ToChaser)
      modifies this`state, this`entitlements
      ensures (View(), decision, reply) == HandlePresentation(old(View()), gid, answer)
    {
      var previous := state;
      var approved := false;
      var told := Some(gid);
      if readiness.Some? && answer.Ok? {
        approved := answer.value.approved;
        state := answer.value.resultingState;
        Consume(answer.value.grantId);
        if answer.value.grantId.Some? {
          told := answer.value.grantId;
        }
      }
      decision := DecisionMsg(approved, previous, state, told);
      reply := OutcomeMsg(approved, state, told);
    }

    /** The loop over `_entitlements` that stops at the first match. */
    method Consume(id: Option<Bytes>)
      modifies this`entitlements
      ensures entitlements == MarkConsumed(old(entitlements), id)
    {
      for i := 0 to |entitlements|
        invariant entitlements == old(entitlements)
        invariant forall k | 0 <= k < i :: entitlements[k].id != id
      {
        if entitlements[i].id == id {
          MarkConsumedAt(entitlements, id, i);
          entitlements := entitlements[i := entitlements[i].(consumed := true)];
          return;
        }
      }
      MarkConsumedAbsent(entitlements, id);
    }
  }

  class ChaserAccess {
    var sessionId: Option<Bytes>
    var sequence: nat
    var presentedGrants: set<Bytes>

    ghost function View(): ChaserState
      reads this
    {
      ChaserState(sessionId, sequence, presentedGrants)
    }

    constructor ()
      ensures View() == ForgetSession()
    {
      sessionId, sequence, presentedGrants := None, 0, {};
    }

    method Forget()
      modifies this
      ensures View() == ForgetSession()
    {
      sessionId, sequence, presentedGrants := None, 0, {};
    }

    method TransitionRequest(requested: int) returns (m: ToStation)
      modifies this`sequence
      ensures (View(), m) == OnTransitionRequest(old(View()), requested)
    {
      sequence := sequence + 1;
      m := TransitionRequestMsg(requested, sessionId, sequence);
    }

    method StationProtocol(m: ToChaser, verified: Option<Bytes>) returns (out: Option<ToStation>)
      modifies this`sessionId, this`presentedGrants
      ensures (View(), out) == OnStationMessage(old(View()), m, verified)
    {
      out := None;
      match m {
        case SessionAuthorizedMsg(sid) =>
          sessionId := Some(sid);
        case SessionDeniedMsg(_) =>
          sessionId := None;
        case GrantMsg(approved, requested, _, grant) =>
          if !approved || requested !in STAGE_NAME || verified.None? {
            return;
          }
          presentedGrants := presentedGrants + {verified.value};
          out := Some(PresentationMsg(requested, sessionId, verified.value, grant));
        case OutcomeMsg(_, _, gid) =>
          if gid.Some? {
            presentedGrants := presentedGrants - {gid.value};
          }
      }
    }
  }
}
