/** The baseline controller: a stage, a position along the docking axis, one pose call in flight. */
module Controller {
  import opened Basics

  /** HOLD, APPROACH, FINAL_APPROACH, SOFT_CAPTURE, HARD_DOCK. */
  type Stage = n: nat | n <= 4

  /** GOAL_X: where each stage ends. */
  function Goal(state: Stage): real {
    match state
    case 0 => -5.0
    case 1 => -2.79
    case 2 => -1.99
    case 3 => -1.71
    case _ => -1.68
  }

  /** MAX_STAGE_SPEED_MPS. */
  function MaxSpeed(state: Stage): real {
    match state
    case 0 => 0.0
    case 1 => 0.18
    case 2 => 0.08
    case 3 => 0.02
    case _ => 0.01
  }

  datatype Params = Params(rate: real, speed: real, restartDelay: real, decisionTimeout: real)

  datatype ControllerState = ControllerState(
    state: Stage, x: real, pending: bool, requestTime: Option<real>,
    poseCall: bool, pendingX: Option<real>, resetRequested: bool, resetPosePending: bool,
    startAfterReset: bool, halted: bool, resumeTime: Option<real>)

  /** How the outstanding pose call stands when it is looked at. */
  datatype PoseReply = InFlight | CallFailed | Replied(success: bool)

  function NextState(state: Stage): Option<Stage> {
    if state < 4 then Some(state + 1) else None
  }

  function Magnitude(x: real): real {
    if x < 0.0 then -x else x
  }

  function Least(a: real, b: real): real {
    if a < b then a else b
  }

  function CopySign(magnitude: real, sign: real): real {
    if sign < 0.0 then -Magnitude(magnitude) else Magnitude(magnitude)
  }

  function NextX(x: real, goal: real, step: real): real {
    x + CopySign(Least(Magnitude(goal - x), step), goal - x)
  }

  function StepOf(p: Params, state: Stage): real
    requires p.rate != 0.0
  {
    Least(p.speed, MaxSpeed(state)) / p.rate
  }

  /** The state `__init__` sets up; a positive delay schedules the first resume. */
  function Initial(resumeTime: Option<real>): ControllerState {
    ControllerState(0, Goal(0), false, None, false, None, false, false, false, true, resumeTime)
  }

  function RequestReset(c: ControllerState, startAfterReset: bool): ControllerState {
    c.(resetRequested := true, startAfterReset := startAfterReset, halted := !startAfterReset,
       pending := false, requestTime := None, resumeTime := None)
  }

  function OnDecision(c: ControllerState, approved: bool, resulting: int): ControllerState {
    if !c.pending then c
    else
      var requested := NextState(c.state);
      var c' := c.(pending := false, requestTime := None);
      if approved && requested.Some? && resulting == requested.value then c'.(state := requested.value)
      else c'.(halted := true)
  }

  /** The first half of `_advance_pose`: take in a finished call. */
  function SettlePose(p: Params, c: ControllerState, reply: PoseReply, now: real): ControllerState
    requires c.pendingX.Some?
  {
    var c1 :=
      match reply
      case Replied(true) =>
        var moved := c.(x := c.pendingX.value);
        if !c.resetPosePending then moved
        else moved.(state := 0, resumeTime := if c.startAfterReset then Some(now + p.restartDelay) else None)
      case Replied(false) => if c.resetPosePending then c.(resetRequested := true) else c
      case _ => c;
    c1.(resetPosePending := false, poseCall := false, pendingX := None)
  }

  /** The second half: send the reset pose, or the next pose of the stage. */
  function SendPose(p: Params, c: ControllerState): ControllerState
    requires p.rate != 0.0
  {
    if c.resetRequested then
      c.(pendingX := Some(Goal(0)), poseCall := true, resetRequested := false, resetPosePending := true)
    else
      c.(pendingX := Some(NextX(c.x, Goal(c.state), StepOf(p, c.state))), poseCall := true)
  }

  function AdvancePose(p: Params, c: ControllerState, ready: bool, reply: PoseReply, now: real): ControllerState
    requires p.rate != 0.0 && Wired(c)
  {
    if !ready || (c.poseCall && reply.InFlight?) then c
    else SendPose(p, if c.poseCall then SettlePose(p, c, reply, now) else c)
  }

  function TimeOut(p: Params, c: ControllerState, now: real): ControllerState {
    if c.pending && c.requestTime.Some? && now - c.requestTime.value > p.decisionTimeout
    then c.(halted := true, pending := false, requestTime := None)
    else c
  }

  function RequestTransition(c: ControllerState, now: real): (ControllerState, Option<Stage>) {
    var requested := NextState(c.state);
    (if requested.Some? then c.(pending := true, requestTime := Some(now)) else c, requested)
  }

  /** The end of `_update`; `goal` was read before the pose advanced. */
  function MaybeRequest(c: ControllerState, goal: real, now: real): (ControllerState, Option<Stage>) {
    if c.resetRequested || c.resetPosePending then (c, None)
    else if c.resumeTime.Some? && now < c.resumeTime.value then (c, None)
    else
      var c1 := c.(resumeTime := None);
      if Magnitude(goal - c.x) < 0.000001 && !c.pending && !c.halted then RequestTransition(c1, now) else (c1, None)
  }

  /** One timer tick: the new state, and the stage requested, if any. */
  function Update(p: Params, c: ControllerState, ready: bool, reply: PoseReply, now: real): (ControllerState, Option<Stage>)
    requires p.rate != 0.0 && Wired(c)
  {
    var c1 := TimeOut(p, c, now);
    MaybeRequest(AdvancePose(p, c1, ready, reply, now), Goal(c1.state), now)
  }

  /** A pose call is outstanding exactly when its position is remembered. */
  predicate Wired(c: ControllerState) {
    c.poseCall <==> c.pendingX.Some?
  }

  /** The vehicle, and the pose it is being sent to, lie between the hold point and the goal of the
      stage it was released into. */
  predicate InRange(c: ControllerState) {
    && Wired(c)
    && Goal(0) <= c.x <= Goal(c.state)
    && (c.pendingX.Some? ==> Goal(0) <= c.pendingX.value <= Goal(c.state))
    && (c.resetPosePending ==> c.pendingX == Some(Goal(0)))
  }

  datatype Op =
    | Reset
    | Prepare
    | Decision(approved: bool, resulting: int)
    | Tick(ready: bool, reply: PoseReply, now: real)

  function Apply(p: Params, c: ControllerState, op: Op): ControllerState
    requires p.rate != 0.0 && Wired(c)
  {
    match op
    case Reset => RequestReset(c, true)
    case Prepare => RequestReset(c, false)
    case Decision(approved, resulting) => OnDecision(c, approved, resulting)
    case Tick(ready, reply, now) => Update(p, c, ready, reply, now).0
  }

  /** A pose step never passes its goal exactly when the step is not negative, or too small a step
      backwards in size to reach past it: `copysign` turns a negative step into one towards the goal. */
  lemma NoOvershoot(x: real, goal: real, step: real)
    requires x <= goal
    ensures NextX(x, goal, step) <= goal <==> step >= 0.0 || -step <= goal - x
    ensures step >= 0.0 ==> NextX(x, goal, step) == Least(goal, x + step)
  {
  }

  lemma StepsForward(p: Params, state: Stage)
    requires p.rate > 0.0 && p.speed >= 0.0
    ensures StepOf(p, state) >= 0.0
  {
  }

  lemma SettleInRange(p: Params, c: ControllerState, reply: PoseReply, now: real)
    requires InRange(c) && c.poseCall
    ensures InRange(SettlePose(p, c, reply, now)) && !SettlePose(p, c, reply, now).poseCall
  {
  }

  lemma SendInRange(p: Params, c: ControllerState)
    requires p.rate > 0.0 && p.speed >= 0.0 && InRange(c) && !c.poseCall && !c.resetPosePending
    ensures InRange(SendPose(p, c))
    ensures !c.resetRequested ==>
              SendPose(p, c) == c.(poseCall := true, pendingX := Some(Least(Goal(c.state), c.x + StepOf(p, c.state))))
  {
    hide NextX, StepOf;
    StepsForward(p, c.state);
    NoOvershoot(c.x, Goal(c.state), StepOf(p, c.state));
  }

  lemma AdvanceInRange(p: Params, c: ControllerState, ready: bool, reply: PoseReply, now: real)
    requires p.rate > 0.0 && p.speed >= 0.0 && InRange(c)
    ensures InRange(AdvancePose(p, c, ready, reply, now))
  {
    hide SendPose, Goal;
    if ready && !(c.poseCall && reply.InFlight?) {
      if c.poseCall {
        SettleInRange(p, c, reply, now);
      }
      SendInRange(p, if c.poseCall then SettlePose(p, c, reply, now) else c);
    }
  }

  lemma StepInRange(p: Params, c: ControllerState, op: Op)
    requires p.rate > 0.0 && p.speed >= 0.0 && InRange(c)
    ensures InRange(Apply(p, c, op))
  {
    hide AdvancePose;
    if op.Tick? {
      AdvanceInRange(p, TimeOut(p, c, op.now), op.ready, op.reply, op.now);
    }
  }

  function Run(p: Params, c: ControllerState, ops: seq<Op>): ControllerState
    requires p.rate > 0.0 && p.speed >= 0.0 && InRange(c)
    decreases |ops|
  {
    if ops == [] then c else
      StepInRange(p, c, ops[0]);
      Run(p, Apply(p, c, ops[0]), ops[1..])
  }

  /** Over any run, with resets, preparations, lost and failed pose calls and any decisions, the
      vehicle never is, and is never sent, past the goal of the stage the controller has entered. */
  lemma {:induction false} RangeSafety(p: Params, c: ControllerState, ops: seq<Op>)
    requires p.rate > 0.0 && p.speed >= 0.0 && InRange(c)
    ensures InRange(Run(p, c, ops))
    decreases |ops|
  {
    if ops != [] {
      StepInRange(p, c, ops[0]);
      RangeSafety(p, Apply(p, c, ops[0]), ops[1..]);
    }
  }

  /** The condition is needed: with a negative speed the very first pose sent from hold is past its
      goal, with any other it is not. */
  lemma RangeNeedsForwardSpeed(p: Params, resumeTime: Option<real>, now: real)
    requires p.rate > 0.0
    ensures InRange(Apply(p, Initial(resumeTime), Tick(true, InFlight, now))) <==> p.speed >= 0.0
  {
    if p.speed >= 0.0 {
      StartsInRange(resumeTime);
      StepInRange(p, Initial(resumeTime), Tick(true, InFlight, now));
    } else {
      var step := StepOf(p, 0);
      assert step == p.speed / p.rate < 0.0;
      assert NextX(Goal(0), Goal(0), step) == Goal(0) - step;
    }
  }

  lemma StartsInRange(resumeTime: Option<real>)
    ensures InRange(Initial(resumeTime))
  {
  }

  /** `n` pose advances in a row, each finding the service ready and the last call a success. */
  function Acknowledged(p: Params, c: ControllerState, now: real, n: nat): ControllerState
    requires p.rate > 0.0 && p.speed >= 0.0 && InRange(c)
    ensures InRange(Acknowledged(p, c, now, n))
  {
    if n == 0 then c else
      var before := Acknowledged(p, c, now, n - 1);
      AdvanceInRange(p, before, true, Replied(true), now);
      AdvancePose(p, before, true, Replied(true), now)
  }

  /** `n` steps from `x`. */
  function Ahead(x: real, step: real, n: nat): real {
    x + n as real * step
  }

  lemma AheadStep(x: real, step: real, n: nat)
    ensures Ahead(x, step, 0) == x && Ahead(x, step, n + 1) == Ahead(x, step, n) + step
  {
    assert (n + 1) as real == n as real + 1.0;
    assert (n as real + 1.0) * step == n as real * step + step;
  }

  /** Where the vehicle is after the call in flight, if there is one. */
  function Target(c: ControllerState): real
    requires Wired(c)
  {
    if c.poseCall then c.pendingX.value else c.x
  }

  /** One acknowledged pose, when no reset is in hand. */
  lemma AcknowledgedStep(p: Params, c: ControllerState, now: real)
    requires p.rate > 0.0 && p.speed >= 0.0 && InRange(c) && !c.resetRequested && !c.resetPosePending
    ensures AdvancePose(p, c, true, Replied(true), now)
         == c.(x := Target(c), poseCall := true, pendingX := Some(Least(Goal(c.state), Target(c) + StepOf(p, c.state))))
  {
    hide Goal, StepOf, SendPose;
    if c.poseCall {
      SettleInRange(p, c, Replied(true), now);
    }
    SendInRange(p, if c.poseCall then SettlePose(p, c, Replied(true), now) else c);
  }

  /** With no reset and no change of stage, from the position the call in flight is bringing it to, if
      there is one: after n acknowledged poses the vehicle has moved n steps towards the goal and not past
      it; it is at the goal exactly from the first n with n steps enough to cover the distance. */
  lemma {:induction false} ApproachConverges(p: Params, c: ControllerState, now: real, n: nat)
    requires p.rate > 0.0 && p.speed >= 0.0 && InRange(c)
    requires !c.resetRequested && !c.resetPosePending
    ensures var goal, step := Goal(c.state), StepOf(p, c.state);
            var end := Acknowledged(p, c, now, n + 1);
            && end == c.(x := Least(goal, Ahead(Target(c), step, n)), poseCall := true,
                         pendingX := Some(Least(goal, Ahead(Target(c), step, n + 1))))
            && (end.x == goal <==> n as real * step >= goal - Target(c))
  {
    hide Goal, StepOf, AdvancePose;
    var step := StepOf(p, c.state);
    StepsForward(p, c.state);
    AheadStep(Target(c), step, n);
    if n == 0 {
      AcknowledgedStep(p, c, now);
      assert Acknowledged(p, c, now, 0) == c;
    } else {
      ApproachConverges(p, c, now, n - 1);
      AcknowledgedStep(p, Acknowledged(p, c, now, n), now);
    }
  }

  class BaselineController {
    const params: Params
    var state: Stage
    var x: real
    var pending: bool
    var requestTime: Option<real>
    var poseCall: bool
    var pendingX: Option<real>
    var resetRequested: bool
    var resetPosePending: bool
    var startAfterReset: bool
    var halted: bool
    var resumeTime: Option<real>

    ghost function View(): ControllerState
      reads this
    {
      ControllerState(state, x, pending, requestTime, poseCall, pendingX, resetRequested, resetPosePending,
                      startAfterReset, halted, resumeTime)
    }

    constructor (params: Params, initialDelay: real, now: real)
      ensures this.params == params
      ensures View() == Initial(if initialDelay > 0.0 then Some(now + initialDelay) else None)
    {
      this.params := params;
      state, x, pending, requestTime := 0, Goal(0), false, None;
      poseCall, pendingX, resetRequested, resetPosePending := false, None, false, false;
      startAfterReset, halted := false, true;
      resumeTime := if initialDelay > 0.0 then Some(now + initialDelay) else None;
    }

    method HandleReset(start: bool)
      modifies this
      ensures View() == RequestReset(old(View()), start)
    {
      resetRequested := true;
      startAfterReset := start;
      halted := !start;
      pending := false;
      requestTime := None;
      resumeTime := None;
    }

    method HandleDecision(approved: bool, resulting: int)
      modifies this
      ensures View() == OnDecision(old(View()), approved, resulting)
    {
      if !pending {
        return;
      }
      var requested := NextState(state);
      if approved && requested.Some? && resulting == requested.value {
        state := requested.value;
      } else {
        halted := true;
      }
      pending := false;
      requestTime := None;
    }

    method Advance(ready: bool, reply: PoseReply, now: real)
      requires params.rate != 0.0 && Wired(View())
      modifies this
      ensures View() == AdvancePose(params, old(View()), ready, reply, now)
    {
      hide NextX, StepOf, Goal;
      if !ready {
        return;
      }
      if poseCall {
        if reply.InFlight? {
          return;
        }
        if reply == Replied(true) {
          x := pendingX.value;
          if resetPosePending {
            state := 0;
            resumeTime := if startAfterReset then Some(now + params.restartDelay) else None;
          }
        } else if reply == Replied(false) && resetPosePending {
          resetRequested := true;
        }
        resetPosePending := false;
        poseCall := false;
        pendingX := None;
      }
      ghost var settled := if old(poseCall) then SettlePose(params, old(View()), reply, now) else old(View());
      assert View() == settled;
      hide SettlePose;
      if resetRequested {
        pendingX := Some(Goal(0));
        poseCall := true;
        resetRequested := false;
        resetPosePending := true;
        return;
      }
      pendingX := Some(NextX(x, Goal(state), StepOf(params, state)));
      poseCall := true;
    }

    method SendRequest(now: real) returns (requested: Option<Stage>)
      modifies this`pending, this`requestTime
      ensures (View(), requested) == RequestTransition(old(View()), now)
    {
      requested := NextState(state);
      if requested.Some? {
        pending := true;
        requestTime := Some(now);
      }
    }

    method CheckTimeout(now: real)
      modifies this`halted, this`pending, this`requestTime
      ensures View() == TimeOut(params, old(View()), now)
    {
      if pending && requestTime.Some? && now - requestTime.value > params.decisionTimeout {
        halted := true;
        pending := false;
        requestTime := None;
      }
    }

    method TimerUpdate(ready: bool, reply: PoseReply, now: real) returns (requested: Option<Stage>)
      requires params.rate != 0.0 && Wired(View())
      modifies this
      ensures (View(), requested) == Update(params, old(View()), ready, reply, now)
    {
      hide AdvancePose, RequestTransition, Goal, Magnitude;
      CheckTimeout(now);
      var goal := Goal(state);
      Advance(ready, reply, now);
      if resetRequested || resetPosePending {
        return None;
      }
      if resumeTime.Some? {
        if now < resumeTime.value {
          return None;
        }
        resumeTime := None;
      }
      if Magnitude(goal - x) < 0.000001 && !pending && !halted {
        requested := SendRequest(now);
        return;
      }
      return None;
    }
  }
}
