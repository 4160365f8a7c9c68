/** The controller over whole runs: resets, approvals, halts. */
module ControllerRuns {
  import opened Basics
  import opened Controller
  import Cedar

  // ------------------------------------------------------------------ resets

  /** The tick finds the reset pose acknowledged. */
  predicate CompletesReset(c: ControllerState, op: Op) {
    op.Tick? && op.ready && op.reply == Replied(true) && c.poseCall && c.resetPosePending
  }

  /** In every reachable state: while a reset is in hand nothing is pending, and the controller is halted
      exactly when it was a preparation. */
  predicate Tidy(c: ControllerState) {
    && InRange(c)
    && (c.resetRequested || c.resetPosePending ==> !c.pending && c.halted == !c.startAfterReset)
    && (c.resetPosePending ==> c.poseCall)
    && (!c.pending ==> c.requestTime.None?)
  }

  lemma TidyStep(p: Params, c: ControllerState, op: Op)
    requires p.rate > 0.0 && p.speed >= 0.0 && Tidy(c)
    ensures Tidy(Apply(p, c, op))
  {
    StepInRange(p, c, op);
    WiredInRange(c);
    if op.Tick? {
      hide AdvancePose, Goal, InRange, Magnitude;
      AdvanceTidies(p, TimeOut(p, c, op.now), op.ready, op.reply, op.now);
    } else {
      hide Goal, InRange;
      WiredInRange(Apply(p, c, op));
    }
  }

  /** What an advance of the pose does to the bookkeeping of resets. */
  lemma AdvanceTidies(p: Params, c: ControllerState, ready: bool, reply: PoseReply, now: real)
    requires p.rate > 0.0 && Wired(c) && (c.resetPosePending ==> c.poseCall)
    ensures var end := AdvancePose(p, c, ready, reply, now);
            && end.pending == c.pending && end.requestTime == c.requestTime
            && end.halted == c.halted && end.startAfterReset == c.startAfterReset
            && (end.resetRequested || end.resetPosePending ==> c.resetRequested || c.resetPosePending)
            && (end.resetPosePending ==> end.poseCall)
  {
    hide NextX, StepOf, Goal;
  }

  lemma {:induction false} RunsAreTidy(p: Params, c: ControllerState, ops: seq<Op>)
    requires p.rate > 0.0 && p.speed >= 0.0 && Tidy(c)
    ensures Tidy(Run(p, c, ops))
    decreases |ops|
  {
    if ops != [] {
      TidyStep(p, c, ops[0]);
      StepInRange(p, c, ops[0]);
      hide Apply;
      RunsAreTidy(p, Apply(p, c, ops[0]), ops[1..]);
    }
  }

  lemma WiredInRange(c: ControllerState)
    requires InRange(c)
    ensures Wired(c)
  {
  }

  /** A finished reset: the controller is back at hold, the vehicle is at the hold point and is being sent
      nowhere else, nothing of the old run is pending, and it resumes after the delay exactly when the reset
      was to start a run; a preparation leaves it halted. */
  lemma ResetsReturnToHold(p: Params, c: ControllerState, op: Op)
    requires p.rate > 0.0 && p.speed >= 0.0 && Tidy(c) && CompletesReset(c, op)
    ensures var end := AdvancePose(p, c, op.ready, op.reply, op.now);
            && end.state == 0 && end.x == Goal(0) && end.pendingX == Some(Goal(0))
            && !end.pending && end.requestTime.None? && !end.resetRequested
            && end.resumeTime == (if c.startAfterReset then Some(op.now + p.restartDelay) else None)
            && end.resetPosePending == c.resetRequested && end.halted == c.halted
    ensures Wired(c)
    ensures var end := Apply(p, c, op);
            && end.state == 0 && end.x == Goal(0) && end.pendingX == Some(Goal(0))
            && (!c.resetRequested && p.restartDelay > 0.0 ==>
                  !end.pending
                  && end.resumeTime == (if c.startAfterReset then Some(op.now + p.restartDelay) else None))
  {
    WiredInRange(c);
    hide SettlePose, SendPose, MaybeRequest, Goal, InRange;
    ResetAdvances(p, c, op.now);
    MaybeNotYet(AdvancePose(p, c, op.ready, op.reply, op.now), Goal(c.state), op.now);
  }

  lemma ResetAdvances(p: Params, c: ControllerState, now: real)
    requires p.rate > 0.0 && p.speed >= 0.0 && InRange(c) && c.poseCall && c.resetPosePending
    ensures AdvancePose(p, c, true, Replied(true), now)
         == c.(x := Goal(0), state := 0, resumeTime := if c.startAfterReset then Some(now + p.restartDelay) else None,
               pendingX := Some(Goal(0)), resetRequested := false, resetPosePending := c.resetRequested)
  {
    hide SettlePose, SendPose, Goal;
    SettlesReset(p, c, now);
    SendsFromHold(p, SettlePose(p, c, Replied(true), now));
  }

  /** What the end of a tick leaves alone, and that it waits for the resume time. */
  lemma MaybeNotYet(c: ControllerState, goal: real, now: real)
    ensures var (end, requested) := MaybeRequest(c, goal, now);
            && end == c.(pending := end.pending, requestTime := end.requestTime, resumeTime := end.resumeTime)
            && (c.resetRequested || c.resetPosePending ==> end == c)
            && (c.resumeTime.Some? && now < c.resumeTime.value ==> end == c)
            && (c.halted || c.pending ==> end.pending == c.pending && end.requestTime == c.requestTime)
            && (c.resumeTime.None? ==> end.resumeTime.None?)
  {
    hide Magnitude;
  }

  lemma SettlesReset(p: Params, c: ControllerState, now: real)
    requires InRange(c) && c.poseCall && c.resetPosePending
    ensures SettlePose(p, c, Replied(true), now)
         == c.(x := Goal(0), state := 0, resumeTime := if c.startAfterReset then Some(now + p.restartDelay) else None,
               resetPosePending := false, poseCall := false, pendingX := None)
  {
    hide Goal;
  }

  lemma SendsFromHold(p: Params, c: ControllerState)
    requires p.rate > 0.0 && p.speed >= 0.0 && c.state == 0 && c.x == Goal(0) && !c.resetPosePending
    ensures SendPose(p, c)
         == c.(pendingX := Some(Goal(0)), poseCall := true, resetRequested := false, resetPosePending := c.resetRequested)
  {
    hide NextX, StepOf, Goal;
    if !c.resetRequested {
      HoldHasNoStep(p);
      assert SendPose(p, c) == c.(pendingX := Some(Goal(0)), poseCall := true);
    }
  }

  lemma HoldHasNoStep(p: Params)
    requires p.rate > 0.0 && p.speed >= 0.0
    ensures StepOf(p, 0) == 0.0 && NextX(Goal(0), Goal(0), StepOf(p, 0)) == Goal(0)
  {
  }

  /** A reset pose that is rejected is sent again in the same tick; one whose call fails is given up, and the
      controller stays at the stage it was in. */
  lemma FailedResets(p: Params, c: ControllerState, now: real)
    requires p.rate > 0.0 && p.speed >= 0.0 && Tidy(c) && c.resetPosePending
    ensures var rejected := AdvancePose(p, c, true, Replied(false), now);
            && rejected.resetPosePending && rejected.poseCall && rejected.pendingX == Some(Goal(0))
            && rejected.state == c.state && rejected.x == c.x
    ensures var failed := AdvancePose(p, c, true, CallFailed, now);
            && failed.state == c.state && failed.x == c.x && !failed.resetRequested
            && failed.resetPosePending == c.resetRequested
  {
    hide NextX, StepOf, Goal;
  }

  /** A reset asked for is carried out: once the call in flight has ended, two ticks with the service ready
      and the reset pose acknowledged take the controller to hold from any stage, discarding what was
      pending; a start then leaves it running after the delay, a preparation halted. */
  lemma ResetsAreCarriedOut(p: Params, c: ControllerState, start: bool, reply: PoseReply, now: real, later: real)
    requires p.rate > 0.0 && p.speed >= 0.0 && p.restartDelay > 0.0 && Tidy(c) && !reply.InFlight?
    ensures InRange(RequestReset(c, start)) && InRange(Apply(p, RequestReset(c, start), Tick(true, reply, now)))
    ensures var end := Apply(p, Apply(p, RequestReset(c, start), Tick(true, reply, now)), Tick(true, Replied(true), later));
            && end.state == 0 && end.x == Goal(0) && !end.pending && !end.resetRequested && !end.resetPosePending
            && end.halted == !start && end.resumeTime == (if start then Some(later + p.restartDelay) else None)
  {
    var asked := RequestReset(c, start);
    RequestKeepsTidy(c, start);
    TidyStep(p, asked, Tick(true, reply, now));
    ResetIsSent(p, asked, reply, now);
    hide AdvancePose, Goal, Apply, Tidy;
    ResetsReturnToHold(p, Apply(p, asked, Tick(true, reply, now)), Tick(true, Replied(true), later));
    CompletionKeeps(p, Apply(p, asked, Tick(true, reply, now)), later);
  }

  lemma RequestKeepsTidy(c: ControllerState, start: bool)
    requires Tidy(c)
    ensures var asked := RequestReset(c, start);
            Tidy(asked) && asked.resetRequested && asked.startAfterReset == start && asked.halted == !start && !asked.pending
  {
  }

  lemma ResetIsSent(p: Params, c: ControllerState, reply: PoseReply, now: real)
    requires p.rate > 0.0 && p.speed >= 0.0 && Tidy(c) && c.resetRequested && !reply.InFlight?
    ensures InRange(c)
    ensures var sent := Apply(p, c, Tick(true, reply, now));
            && sent.resetPosePending && sent.poseCall && sent.pendingX == Some(Goal(0)) && !sent.resetRequested
            && sent.startAfterReset == c.startAfterReset && sent.halted == c.halted
  {
    hide NextX, StepOf, Goal, InRange, Magnitude;
    WiredInRange(c);
  }

  lemma CompletionKeeps(p: Params, c: ControllerState, now: real)
    requires p.rate > 0.0 && p.speed >= 0.0 && Tidy(c) && c.poseCall && c.resetPosePending && !c.resetRequested
    ensures InRange(c)
    ensures var end := Apply(p, c, Tick(true, Replied(true), now));
            && !end.resetRequested && !end.resetPosePending && end.halted == c.halted
  {
    WiredInRange(c);
    ResetAdvances(p, c, now);
    hide AdvancePose, Goal, InRange, Magnitude;
  }

  // ------------------------------------------------------------------ stages and approvals

  /** The controller accepts this approval: it is waiting, and it is for its next stage. */
  predicate Accepts(c: ControllerState, op: Op) {
    op.Decision? && op.approved && c.pending && op.resulting == c.state + 1 <= 4
  }

  /** Approvals accepted since the last completed reset, `before` of them before the step. */
  function Approvals(c: ControllerState, op: Op, before: nat): nat {
    if CompletesReset(c, op) then 0 else if Accepts(c, op) then before + 1 else before
  }

  function ApprovalsIn(p: Params, c: ControllerState, ops: seq<Op>, before: nat): nat
    requires p.rate > 0.0 && p.speed >= 0.0 && InRange(c)
    decreases |ops|
  {
    if ops == [] then before
    else
      StepInRange(p, c, ops[0]);
      ApprovalsIn(p, Apply(p, c, ops[0]), ops[1..], Approvals(c, ops[0], before))
  }

  lemma AdvanceStage(p: Params, c: ControllerState, ready: bool, reply: PoseReply, now: real)
    requires p.rate > 0.0 && InRange(c)
    ensures Wired(c)
    ensures AdvancePose(p, c, ready, reply, now).state
         == if CompletesReset(c, Tick(ready, reply, now)) then 0 else c.state
  {
    hide NextX, StepOf, Goal;
  }

  lemma StageCountsApproval(p: Params, c: ControllerState, op: Op)
    requires p.rate > 0.0 && p.speed >= 0.0 && InRange(c)
    ensures Apply(p, c, op).state as int == Approvals(c, op, c.state)
  {
    if op.Tick? {
      AdvanceStage(p, TimeOut(p, c, op.now), op.ready, op.reply, op.now);
      hide AdvancePose, Goal, Magnitude;
    }
  }

  /** Over any run with resets, lost and failed calls, late and repeated decisions: the stage is exactly the
      number of approvals accepted since the last completed reset, and so the vehicle, and the pose it is
      being sent to, lie no further than the goal of what was approved after it. */
  lemma {:induction false} StageIsApprovals(p: Params, c: ControllerState, ops: seq<Op>)
    requires p.rate > 0.0 && p.speed >= 0.0 && InRange(c)
    ensures var end, n := Run(p, c, ops), ApprovalsIn(p, c, ops, c.state);
            && end.state as int == n <= 4
            && Goal(0) <= end.x <= Goal(n)
            && (end.pendingX.Some? ==> Goal(0) <= end.pendingX.value <= Goal(n))
    decreases |ops|
  {
    hide Goal, Apply, Approvals;
    if ops == [] {
      RangeSays(c);
    } else {
      StepInRange(p, c, ops[0]);
      StageCountsApproval(p, c, ops[0]);
      StageIsApprovals(p, Apply(p, c, ops[0]), ops[1..]);
    }
  }

  lemma RangeSays(c: ControllerState)
    requires InRange(c)
    ensures Goal(0) <= c.x <= Goal(c.state)
    ensures c.pendingX.Some? ==> Goal(0) <= c.pendingX.value <= Goal(c.state)
  {
  }

  // ------------------------------------------------------------------ halting

  /** Not asking and not going to. */
  predicate Stopped(c: ControllerState) {
    c.halted && !c.pending
  }

  /** A decision heard while waiting either enters the next stage or stops the controller, and is the end of
      the waiting either way; one heard otherwise does nothing. */
  lemma DecisionsEnterOrStop(c: ControllerState, approved: bool, resulting: int)
    requires !c.halted
    ensures var end := OnDecision(c, approved, resulting);
            && (c.pending ==> !end.pending && end.requestTime.None?)
            && (Accepts(c, Decision(approved, resulting)) <==> end.state as int == c.state + 1)
            && (c.pending && !Accepts(c, Decision(approved, resulting)) <==> Stopped(end))
            && (!c.pending ==> end == c)
            && end.x == c.x && end.pendingX == c.pendingX
  {
  }

  /** An answer overdue stops the controller, at the tick that notices and exactly then. */
  lemma OverdueStops(p: Params, c: ControllerState, ready: bool, reply: PoseReply, now: real)
    requires p.rate > 0.0 && p.speed >= 0.0 && Tidy(c) && c.pending && c.requestTime.Some? && !c.halted
    ensures var (end, requested) := Update(p, c, ready, reply, now);
            && (now - c.requestTime.value > p.decisionTimeout <==> Stopped(end))
            && requested.None? && (end.pending <==> !Stopped(end))
  {
    hide NextX, StepOf, Goal, Magnitude;
    WiredInRange(c);
  }

  /** A request is sent only when it is due: at the goal, running, not waiting already, no reset in hand, not
      before the resume time; and the controller then waits, from now. */
  lemma RequestsAreDue(p: Params, c: ControllerState, ready: bool, reply: PoseReply, now: real)
    requires p.rate > 0.0 && p.speed >= 0.0 && Tidy(c)
    ensures var (end, requested) := Update(p, c, ready, reply, now);
            && (requested.Some? ==>
                  && requested.value == end.state + 1 && end.pending && end.requestTime == Some(now)
                  && !c.halted && !c.pending && Magnitude(Goal(c.state) - end.x) < 0.000001
                  && !end.resetRequested && !end.resetPosePending
                  && (c.resumeTime.Some? && !CompletesReset(c, Tick(ready, reply, now)) ==> c.resumeTime.value <= now))
            && (requested.None? ==> (end.pending ==> c.pending))
  {
    hide NextX, StepOf, Goal, Magnitude;
    WiredInRange(c);
  }

  /** Controller and policy fit together: whenever a stage is requested, the range is inside the bound of that
      stage's permit, and the speed the controller flew at is inside its closing rate. */
  lemma RequestsMeetThePermit(p: Params, c: ControllerState, ready: bool, reply: PoseReply, now: real)
    requires p.rate > 0.0 && p.speed >= 0.0 && Tidy(c)
    ensures var (end, requested) := Update(p, c, ready, reply, now);
            requested.Some? ==>
              && 1 <= requested.value
              && var permit := Cedar.COMMERCIAL_POLICY[requested.value];
              && (permit.maxRangeMm.Some? ==> (Goal(4) - end.x) * 1000.0 <= permit.maxRangeMm.value as real)
              && permit.maxClosingRateMmps.Some?
              && Least(p.speed, MaxSpeed(end.state)) * 1000.0 <= permit.maxClosingRateMmps.value as real
  {
    RequestsAreDue(p, c, ready, reply, now);
    WiredInRange(c);
    TickStage(p, c, ready, reply, now);
    hide Update;
  }

  lemma TickStage(p: Params, c: ControllerState, ready: bool, reply: PoseReply, now: real)
    requires p.rate > 0.0 && p.speed >= 0.0 && InRange(c)
    ensures Wired(c)
    ensures Update(p, c, ready, reply, now).0.state == if CompletesReset(c, Tick(ready, reply, now)) then 0 else c.state
  {
    StageCountsApproval(p, c, Tick(ready, reply, now));
  }

  /** The stages requested over a run. */
  function RequestsIn(p: Params, c: ControllerState, ops: seq<Op>): seq<Stage>
    requires p.rate > 0.0 && p.speed >= 0.0 && InRange(c)
    decreases |ops|
  {
    if ops == [] then []
    else
      StepInRange(p, c, ops[0]);
      var requested := if ops[0].Tick? then Update(p, c, ops[0].ready, ops[0].reply, ops[0].now).1 else None;
      (if requested.Some? then [requested.value] else []) + RequestsIn(p, Apply(p, c, ops[0]), ops[1..])
  }

  lemma StoppedStep(p: Params, c: ControllerState, op: Op)
    requires p.rate > 0.0 && p.speed >= 0.0 && InRange(c) && Stopped(c) && !op.Reset?
    ensures Stopped(Apply(p, c, op))
    ensures op.Tick? ==> Update(p, c, op.ready, op.reply, op.now).1.None?
  {
    hide NextX, StepOf, Goal, Magnitude;
  }

  /** A stopped controller requests nothing, whatever is decided and whatever the poses do, until a reset
      starts a new run. */
  lemma {:induction false} StoppedStaysStopped(p: Params, c: ControllerState, ops: seq<Op>)
    requires p.rate > 0.0 && p.speed >= 0.0 && InRange(c) && Stopped(c)
    requires forall k | 0 <= k < |ops| :: !ops[k].Reset?
    ensures Stopped(Run(p, c, ops)) && RequestsIn(p, c, ops) == []
    decreases |ops|
  {
    hide Apply, Update, Stopped;
    if ops != [] {
      assert !ops[0].Reset?;
      StepInRange(p, c, ops[0]);
      StoppedStep(p, c, ops[0]);
      assert forall k | 0 <= k < |ops[1..]| :: ops[1..][k] == ops[k + 1];
      StoppedStaysStopped(p, Apply(p, c, ops[0]), ops[1..]);
    }
  }

  /** The controller comes up stopped, so the configured initial delay starts nothing: it requests no stage
      before a reset, whatever the delay. */
  lemma InitialDelayStartsNothing(p: Params, resumeTime: Option<real>, ops: seq<Op>)
    requires p.rate > 0.0 && p.speed >= 0.0 && forall k | 0 <= k < |ops| :: !ops[k].Reset?
    ensures InRange(Initial(resumeTime)) && RequestsIn(p, Initial(resumeTime), ops) == []
  {
    StartsInRange(resumeTime);
    StoppedStaysStopped(p, Initial(resumeTime), ops);
  }

  lemma StartsTidy(resumeTime: Option<real>)
    ensures Tidy(Initial(resumeTime))
  {
  }
}
