/** The gateway's pool of simulation backends, leased to browser sessions. */
module SessionPool {
  import opened Basics

  type Backend = string

  type SessionId = string

  datatype Lease = Lease(backend: Backend, touched: real)

  type Leases = map<SessionId, Lease>

  function Live(leases: Leases, now: real, idleTimeout: real): Leases {
    map id | id in leases && now - leases[id].touched < idleTimeout :: leases[id]
  }

  function Taken(leases: Leases): set<Backend> {
    set id | id in leases :: leases[id].backend
  }

  /** The first backend of the list that no lease holds. */
  function FirstFree(backends: seq<Backend>, taken: set<Backend>): (r: Option<Backend>)
    ensures r.Some? ==> r.value in backends && r.value !in taken
    ensures r.None? <==> forall b | b in backends :: b in taken
  {
    if backends == [] then None
    else if backends[0] !in taken then Some(backends[0])
    else FirstFree(backends[1..], taken)
  }

  /** Backends are lent in the order of the list. */
  lemma {:induction false} LendsInOrder(backends: seq<Backend>, taken: set<Backend>, n: nat)
    requires n < |backends| && backends[n] !in taken && forall k | 0 <= k < n :: backends[k] in taken
    ensures FirstFree(backends, taken) == Some(backends[n])
  {
    if n > 0 {
      LendsInOrder(backends[1..], taken, n - 1);
    }
  }

  /** The pool never lends one backend twice, and lends only its own. */
  ghost predicate Exclusive(backends: seq<Backend>, leases: Leases) {
    && (forall a, b | a in leases && b in leases && leases[a].backend == leases[b].backend :: a == b)
    && (forall a | a in leases :: leases[a].backend in backends)
  }

  /** What `acquire` answers: the session and backend it settled on, and whether the lease is new. */
  datatype Acquired = Acquired(sessionId: Option<SessionId>, backend: Option<Backend>, created: bool)

  /** `session_id or token`: a missing or empty identifier is replaced by the drawn token. */
  function NameOf(session: Option<SessionId>, token: SessionId): SessionId {
    if session.Some? && session.value != "" then session.value else token
  }

  function Acquire(backends: seq<Backend>, timeout: real, leases: Leases, session: Option<SessionId>, token: SessionId, now: real)
    : (Leases, Acquired)
  {
    var live := Live(leases, now, timeout);
    if session.Some? && session.value in live then
      var lease := live[session.value];
      (live[session.value := lease.(touched := now)], Acquired(session, Some(lease.backend), false))
    else
      match FirstFree(backends, Taken(live))
      case None => (live, Acquired(None, None, false))
      case Some(b) =>
        var id := NameOf(session, token);
        (live[id := Lease(b, now)], Acquired(Some(id), Some(b), true))
  }

  datatype Op =
    | DoAcquire(session: Option<SessionId>, token: SessionId, now: real)
    | DoStatus(now: real)
    | DoRelease(released: Option<SessionId>)

  function Apply(backends: seq<Backend>, timeout: real, leases: Leases, op: Op): Leases {
    match op
    case DoAcquire(session, token, now) => Acquire(backends, timeout, leases, session, token, now).0
    case DoStatus(now) => Live(leases, now, timeout)
    case DoRelease(id) => if id.Some? then leases - {id.value} else leases
  }

  function Run(backends: seq<Backend>, timeout: real, leases: Leases, ops: seq<Op>): Leases
    decreases |ops|
  {
    if ops == [] then leases else Run(backends, timeout, Apply(backends, timeout, leases, ops[0]), ops[1..])
  }

  /** `acquire` refuses exactly when the session holds no live lease and every backend is under one. */
  lemma RefusesExactlyWhenFull(backends: seq<Backend>, timeout: real, leases: Leases, session: Option<SessionId>,
                               token: SessionId, now: real)
    ensures var answer := Acquire(backends, timeout, leases, session, token, now).1;
            answer.backend.None?
            <==> && (session.None? || session.value !in leases || now - leases[session.value].touched >= timeout)
                 && forall b | b in backends ::
                      exists id | id in leases :: leases[id].backend == b && now - leases[id].touched < timeout
  {
    var live := Live(leases, now, timeout);
    forall b | b in backends
      ensures b in Taken(live) <==> exists id | id in leases :: leases[id].backend == b && now - leases[id].touched < timeout
    {
      if id :| id in leases && leases[id].backend == b && now - leases[id].touched < timeout {
        assert live[id].backend == b;
      }
    }
  }

  lemma {:induction false} LeasesStayExclusive(backends: seq<Backend>, timeout: real, leases: Leases, ops: seq<Op>)
    requires Exclusive(backends, leases)
    ensures Exclusive(backends, Run(backends, timeout, leases, ops))
    decreases |ops|
  {
    if ops != [] {
      StepStaysExclusive(backends, timeout, leases, ops[0]);
      LeasesStayExclusive(backends, timeout, Apply(backends, timeout, leases, ops[0]), ops[1..]);
    }
  }

  lemma StepStaysExclusive(backends: seq<Backend>, timeout: real, leases: Leases, op: Op)
    requires Exclusive(backends, leases)
    ensures Exclusive(backends, Apply(backends, timeout, leases, op))
  {
    if op.DoAcquire? {
      var live := Live(leases, op.now, timeout);
      assert forall id | id in live :: live[id].backend in Taken(live);
    }
  }

  /** An operation of somebody else, no later than the lease's last moment: it releases another
      session, or names another session, and a token it may draw is not this session's. */
  predicate Elsewhere(op: Op, id: SessionId, before: real) {
    match op
    case DoAcquire(session, token, now) => now < before && session != Some(id) && NameOf(session, token) != id
    case DoStatus(now) => now < before
    case DoRelease(released) => released != Some(id)
  }

  /** A session keeps its backend while it is touched within the idle timeout, whatever others do in
      between: its next `acquire` returns the same backend and renews the lease. */
  lemma {:induction false} SessionsAreSticky(backends: seq<Backend>, timeout: real, leases: Leases, id: SessionId, ops: seq<Op>,
                                             token: SessionId, now: real)
    requires id in leases && now < leases[id].touched + timeout
    requires forall k | 0 <= k < |ops| :: Elsewhere(ops[k], id, leases[id].touched + timeout)
    ensures var (after, answer) := Acquire(backends, timeout, Run(backends, timeout, leases, ops), Some(id), token, now);
            && answer == Acquired(Some(id), Some(leases[id].backend), false)
            && id in after && after[id] == Lease(leases[id].backend, now)
    decreases |ops|
  {
    if ops != [] {
      assert Elsewhere(ops[0], id, leases[id].touched + timeout);
      var next := Apply(backends, timeout, leases, ops[0]);
      assert id in next && next[id] == leases[id];
      assert forall k | 0 <= k < |ops[1..]| :: ops[1..][k] == ops[k + 1];
      SessionsAreSticky(backends, timeout, next, id, ops[1..], token, now);
    }
  }

  /** Whether the session holds a lease that has not expired. */
  predicate HoldsLive(leases: Leases, timeout: real, session: Option<SessionId>, now: real) {
    session.Some? && session.value in leases && now - leases[session.value].touched < timeout
  }

  /** Whenever a backend is answered it is under a lease of the answered session, renewed now; no other
      session's lease is touched, and no other holds that backend. A refusal leases nothing. */
  lemma AnswersAreLeased(backends: seq<Backend>, timeout: real, leases: Leases, session: Option<SessionId>, token: SessionId,
                         now: real)
    requires Exclusive(backends, leases)
    ensures var (after, answer) := Acquire(backends, timeout, leases, session, token, now);
            var live := Live(leases, now, timeout);
            && (answer.backend.Some? <==> answer.sessionId.Some?)
            && (answer.backend.None? ==> after == live && !answer.created)
            && (answer.backend.Some? ==>
                  && var id := answer.sessionId.value;
                  && id in after && after[id] == Lease(answer.backend.value, now) && answer.backend.value in backends
                  && after.Keys == live.Keys + {id}
                  && (forall other | other in live && other != id :: after[other] == live[other])
                  && (forall other | other in after && other != id :: after[other].backend != answer.backend.value)
                  && (session.Some? && session.value != "" ==> id == session.value)
                  && (answer.created <==> !HoldsLive(leases, timeout, session, now))
                  && (!answer.created ==> answer.sessionId == session && answer.backend.value == leases[id].backend))
  {
    var live := Live(leases, now, timeout);
    assert forall id | id in live :: live[id].backend in Taken(live);
  }

  /** What may happen between two answers: anything of somebody else before the lease can expire, and the
      session's own renewals. */
  predicate Between(op: Op, id: SessionId, from: real, before: real) {
    || Elsewhere(op, id, before)
    || (op.DoAcquire? && op.session == Some(id) && from <= op.now < before)
  }

  lemma LeaseOutlives(backends: seq<Backend>, timeout: real, leases: Leases, op: Op, id: SessionId, b: Backend, from: real)
    requires id in leases && leases[id].backend == b && leases[id].touched >= from
    requires Between(op, id, from, from + timeout)
    ensures var after := Apply(backends, timeout, leases, op);
            id in after && after[id].backend == b && after[id].touched >= from
  {
  }

  lemma {:induction false} LeaseOutlivesAll(backends: seq<Backend>, timeout: real, leases: Leases, ops: seq<Op>, id: SessionId,
                                            b: Backend, from: real)
    requires id in leases && leases[id].backend == b && leases[id].touched >= from
    requires forall k | 0 <= k < |ops| :: Between(ops[k], id, from, from + timeout)
    ensures var after := Run(backends, timeout, leases, ops);
            id in after && after[id].backend == b && after[id].touched >= from
    decreases |ops|
  {
    hide Apply, Between;
    if ops != [] {
      assert Between(ops[0], id, from, from + timeout);
      LeaseOutlives(backends, timeout, leases, ops[0], id, b, from);
      assert forall k | 0 <= k < |ops[1..]| :: ops[1..][k] == ops[k + 1];
      LeaseOutlivesAll(backends, timeout, Apply(backends, timeout, leases, ops[0]), ops[1..], id, b, from);
    }
  }

  /** Two sessions answered within the idle timeout are answered different backends, whatever happens in
      between, unless the first is released. */
  lemma TwoSessionsTwoBackends(backends: seq<Backend>, timeout: real, leases: Leases,
                               first: Option<SessionId>, token: SessionId, now: real, ops: seq<Op>,
                               second: Option<SessionId>, token': SessionId, later: real)
    requires Exclusive(backends, leases) && later < now + timeout
    requires var one := Acquire(backends, timeout, leases, first, token, now).1;
             one.sessionId.Some? && forall k | 0 <= k < |ops| :: Between(ops[k], one.sessionId.value, now, now + timeout)
    ensures var (after, one) := Acquire(backends, timeout, leases, first, token, now);
            var two := Acquire(backends, timeout, Run(backends, timeout, after, ops), second, token', later).1;
            two.sessionId.Some? && two.sessionId != one.sessionId ==> two.backend != one.backend
  {
    var (after, one) := Acquire(backends, timeout, leases, first, token, now);
    AnswersAreLeased(backends, timeout, leases, first, token, now);
    StepStaysExclusive(backends, timeout, leases, DoAcquire(first, token, now));
    LeasesStayExclusive(backends, timeout, after, ops);
    LeaseOutlivesAll(backends, timeout, after, ops, one.sessionId.value, one.backend.value, now);
    var before := Run(backends, timeout, after, ops);
    AnswersAreLeased(backends, timeout, before, second, token', later);
    var (end, two) := Acquire(backends, timeout, before, second, token', later);
    hide Acquire, Run, Between;
    if two.sessionId.Some? && two.sessionId != one.sessionId {
      assert one.sessionId.value in Live(before, later, timeout);
      assert one.sessionId.value in end;
    }
  }

  /** A released backend is under no lease any more, and nothing else changes. */
  lemma ReleasedIsFree(backends: seq<Backend>, timeout: real, leases: Leases, id: SessionId)
    requires Exclusive(backends, leases) && id in leases
    ensures var after := Apply(backends, timeout, leases, DoRelease(Some(id)));
            && leases[id].backend !in Taken(after) && after.Keys == leases.Keys - {id}
            && (forall other | other in after :: after[other] == leases[other])
  {
  }

  class Pool {
    const backends: seq<Backend>
    const idleTimeout: real
    var leases: Leases

    constructor (backends: seq<Backend>, idleTimeout: real)
      ensures this.backends == backends && this.idleTimeout == idleTimeout && leases == map[]
      ensures Exclusive(backends, leases)
    {
      this.backends, this.idleTimeout, leases := backends, idleTimeout, map[];
    }

    method Expire(now: real)
      modifies this`leases
      ensures leases == Live(old(leases), now, idleTimeout)
    {
      leases := map id | id in leases && now - leases[id].touched < idleTimeout :: leases[id];
    }

    method AcquireLease(session: Option<SessionId>, token: SessionId, now: real) returns (r: Acquired)
      modifies this`leases
      ensures (leases, r) == Acquire(backends, idleTimeout, old(leases), session, token, now)
    {
      Expire(now);
      if session.Some? && session.value in leases {
        var backend := leases[session.value].backend;
        leases := leases[session.value := Lease(backend, now)];
        return Acquired(session, Some(backend), false);
      }
      var backend := FirstFree(backends, Taken(leases));
      if backend.None? {
        return Acquired(None, None, false);
      }
      var id := NameOf(session, token);
      leases := leases[id := Lease(backend.value, now)];
      return Acquired(Some(id), backend, true);
    }

    method Status(now: real) returns (capacity: nat, active: nat)
      modifies this`leases
      ensures leases == Live(old(leases), now, idleTimeout)
      ensures capacity == |backends| && active == |leases|
    {
      Expire(now);
      capacity, active := |backends|, |leases|;
    }

    method Release(session: Option<SessionId>)
      modifies this`leases
      ensures leases == if session.Some? then old(leases) - {session.value} else old(leases)
    {
      if session.Some? {
        leases := leases - {session.value};
      }
    }
  }
}
