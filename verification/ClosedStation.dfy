/** What a station that has failed closed still lets through, over the whole network. */
module ClosedStation {
  import opened Basics
  import opened StateMachine
  import opened Protocol
  import opened Engine
  import opened EngineSteps
  import opened EngineRuns
  import opened EngineGuarantees
  import opened EngineLiveness
  import opened Nodes
  import opened Distributed
  import opened DistributedHistory
  import opened Delivery

  /** A presentation heard while the authority answers and readiness is there releases a stage exactly
      when the engine may release one, whether the station is closed or open: the station then follows the
      engine and stays as closed as it was. */
  lemma PresentationReleasesExactly(setting: Setting, s: System, step: Step)
    requires Lockstep(setting, s) && Historic(setting, s) && GateTrustsStation(setting.cfg)
    requires step.HearPresentation? && Possible(s, step)
    requires s.alive && step.authority.Answers? && s.station.readiness.Some?
    ensures var end := HearP(setting, s, step);
            && (StateNumber(end.engine.state) == StateNumber(s.engine.state) + 1
                <==> && Decodes(step.m.requested)
                     && MayRelease(setting.cfg, s.engine, step.m.grant, step.m.requested, step.now,
                                   s.station.readiness.value, step.redeemIo))
            && (end.engine.state != s.engine.state ==>
                  end.station.state == StateNumber(end.engine.state) == StateNumber(s.engine.state) + 1)
            && end.station.sessionReady == s.station.sessionReady && end.station.denial == s.station.denial
  {
    var m := step.m;
    assert Genuine(setting, s.engine.signed, PresentedWire(m));
    assert Core(setting.cfg, s.engine);
    hide Redeem, MayRelease, Lockstep, AllGenuine, Trace, Paced, GateTrustsStation;
    if Decodes(m.requested) {
      var readiness := s.station.readiness.value;
      ProvenanceNeverRejects(setting.cfg, s.engine, m.grant, m.requested, step.now, readiness, step.redeemIo);
      RedeemEffect(setting.cfg, s.engine, m.grant, m.requested, step.now, readiness, step.redeemIo);
    }
  }

  // ------------------------------------------------------------------ at most one more stage

  /** The station is closed, and nothing pending is for more than stage `n`. */
  ghost predicate Sealed(setting: Setting, s: System, n: nat) {
    && Lockstep(setting, s) && Closed(s.station)
    && StateNumber(s.engine.state) <= n
    && (forall g | g in s.engine.pending :: s.engine.pending[g].requestedState as int <= n)
  }

  lemma SealedPresentation(setting: Setting, s: System, step: Step, n: nat)
    requires Sealed(setting, s, n) && step.HearPresentation? && Possible(s, step)
    ensures Sealed(setting, HearP(setting, s, step), n)
    ensures StateNumber(s.engine.state) <= StateNumber(HearP(setting, s, step).engine.state)
  {
    PresentationKeepsLockstep(setting, s, step);
    assert Authorized(s.engine) by {
      CoreAuthorized(setting, s);
    }
    hide Redeem, Lockstep, Core, CheckEnvelope, EvaluateStage;
    var requested := step.m.requested;
    if AsksToRedeem(s.station) && s.alive && !step.authority.Dies? && Decodes(requested) {
      RedeemEffect(setting.cfg, s.engine, step.m.grant, requested, step.now, s.station.readiness.value, step.redeemIo);
    }
  }

  lemma SealedStep(setting: Setting, s: System, step: Step, n: nat)
    requires setting.params.rate > 0.0 && Sealed(setting, s, n) && Possible(s, step) && !step.HearAccessRequest?
    ensures Sealed(setting, Next(setting, s, step), n)
    ensures StateNumber(s.engine.state) <= StateNumber(Next(setting, s, step).engine.state)
  {
    LockstepStep(setting, s, step);
    if step.HearPresentation? {
      SealedPresentation(setting, s, step, n);
    } else if step.HearTransition? {
      hide Lockstep, Issue;
    } else {
      KeepsEngineAndStation(setting, s, step);
      hide Lockstep, Next;
    }
  }

  lemma {:induction false} SealedRun(setting: Setting, s: System, steps: seq<Step>, n: nat)
    requires setting.params.rate > 0.0 && IsRun(setting, s, steps) && Sealed(setting, s, n)
    requires forall k | 0 <= k < |steps| :: !steps[k].HearAccessRequest?
    ensures Sealed(setting, After(setting, s, steps), n)
    ensures StateNumber(s.engine.state) <= StateNumber(After(setting, s, steps).engine.state)
    decreases |steps|
  {
    hide Sealed;
    if steps != [] {
      assert !steps[0].HearAccessRequest?;
      SealedKnows(setting, s, n);
      SealedStep(setting, s, steps[0], n);
      assert forall k | 0 <= k < |steps[1..]| :: steps[1..][k] == steps[k + 1];
      SealedRun(setting, Next(setting, s, steps[0]), steps[1..], n);
    }
  }

  lemma SealedKnows(setting: Setting, s: System, n: nat)
    requires Sealed(setting, s, n)
    ensures Lockstep(setting, s)
  {
  }

  /** Whether a grant is pending for the stage after the engine's. */
  ghost predicate NextIsPending(s: System) {
    exists g :: g in s.engine.pending && s.engine.pending[g].requestedState as int == StateNumber(s.engine.state) + 1
  }

  /** Until the next access request a closed station lets through at most one more stage over any run, and
      none at all when no grant was pending for the next stage as it closed. It stays closed. */
  lemma ClosedReleasesAtMostOne(setting: Setting, s: System, steps: seq<Step>)
    requires setting.params.rate > 0.0 && IsRun(setting, s, steps) && Lockstep(setting, s) && Closed(s.station)
    requires forall k | 0 <= k < |steps| :: !steps[k].HearAccessRequest?
    ensures var from, end := StateNumber(s.engine.state), After(setting, s, steps);
            && Closed(end.station)
            && from <= StateNumber(end.engine.state) <= from + 1
            && (!NextIsPending(s) ==> end.engine.state == s.engine.state)
  {
    var n := StateNumber(s.engine.state) + if NextIsPending(s) then 1 else 0;
    PendingBound(setting, s, n);
    SealedRun(setting, s, steps, n);
    var end := After(setting, s, steps);
    hide IsRun, After, Lockstep;
    if StateNumber(end.engine.state) == StateNumber(s.engine.state) {
      NumberIsState(end.engine.state, s.engine.state);
    }
  }

  lemma NumberIsState(a: DockingState, b: DockingState)
    requires StateNumber(a) == StateNumber(b)
    ensures a == b
  {
  }

  lemma PendingBound(setting: Setting, s: System, n: nat)
    requires Lockstep(setting, s) && n == StateNumber(s.engine.state) + if NextIsPending(s) then 1 else 0
    ensures forall g | g in s.engine.pending :: s.engine.pending[g].requestedState as int <= n
  {
  }

  // ------------------------------------------------------------------ and that one it does

  /** A request for any stage but the next makes an open station fail closed and leaves the engine as it
      was. A duplicate of an earlier request is one. */
  lemma StaleRequestCloses(setting: Setting, s: System, step: Step)
    requires step.HearTransition? && step.m.TransitionRequestMsg? && step.m.requested != StateNumber(s.engine.state) + 1
    requires Settled(s.station)
    ensures var end := HearT(setting, s, step);
            && end.engine == s.engine && end.station == s.station.(sessionReady := false, denial := end.station.denial)
            && (s.station.sessionReady ==> Closed(end.station))
            && s.toStation <= end.toStation && end.controller == s.controller && end.chaser == s.chaser
            && (step.authority.Answers? ==> end.alive == s.alive)
  {
    if Decodes(step.m.requested) {
      SameStages(s.engine.state, step.m.requested);
    }
    hide ProveHolder, Decide;
  }

  /** A run on which the one stage is released by a closed station: the round's grant has been verified and
      presented, a copy of a request for another stage is delivered and closes the station, and the
      presentation then moves engine, station and controller. */
  lemma ClosedStationReleases(setting: Setting, s: System, established: i64, k: nat, round: Round, looked: i64,
                              stale: ToStation, io: IssueIo) returns (before: seq<Step>, steps: seq<Step>)
    requires setting.params.rate > 0.0
    requires Waiting(setting, s, established, k) && RoundIsGood(setting, s, established, k, round, looked)
    requires s.station.denial.None? && stale in s.toStation && stale.TransitionRequestMsg? && stale.requested != k + 1
    ensures before <= steps && IsRun(setting, s, before) && IsRun(setting, s, steps)
    ensures var mid := After(setting, s, before);
            Closed(mid.station) && mid.station.state == k && mid.engine.state == StateAt(k)
    ensures var end := After(setting, s, steps);
            && Closed(end.station) && end.station.state == k + 1 && end.engine.state == StateAt(k + 1)
            && end.controller.state == k + 1
  {
    hide After, IsRun, Admissible, Granted, Unused;
    var first, outcome, m := RoundIsPresented(setting, s, established, k, round, looked);
    var mid := After(setting, s, first);
    SessionCarried(setting, s.engine, mid.engine, k, round, outcome);
    StateNumbers(k);
    var close := HearTransition(stale, Answers, round.asked, io);
    StaleRequestCloses(setting, mid, close);
    var closed := Next(setting, mid, close);
    var last := RoundIsReleased(setting, closed, s.engine, established, k, round, outcome, m);
    ConsRun(setting, mid, close, last);
    RunsJoin(setting, s, first, [close] + last);
    NothingMore(setting, closed);
    ConsRun(setting, mid, close, []);
    assert [close] + [] == [close];
    RunsJoin(setting, s, first, [close]);
    before := first + [close];
    steps := first + ([close] + last);
    assert steps == before + last;
  }

  lemma StateNumbers(k: nat)
    requires k < 4
    ensures StateNumber(StateAt(k)) == k
  {
  }

  /** The intake of a transition request does not look at the session it names: whatever it names, the
      engine, the station and their answers are the same. */
  lemma IntakeIgnoresSession(setting: Setting, s: System, requested: int, named: Option<Bytes>, sequence: nat,
                             named': Option<Bytes>, sequence': nat, authority: Authority, now: i64, io: IssueIo)
    ensures HearT(setting, s, HearTransition(TransitionRequestMsg(requested, named, sequence), authority, now, io))
         == HearT(setting, s, HearTransition(TransitionRequestMsg(requested, named', sequence'), authority, now, io))
  {
    hide Issue;
  }
}
