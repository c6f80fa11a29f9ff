/**
 * Graceful shutdown of the server: HTTP handlers, the adapters they call, the detached clean-ups of
 * those adapters, and `Server.Shutdown`, all under one clock in milliseconds.
 *
 * Adapters that have no clean-ups (and so no Drain) are registered but carry no protocol state.
 */
module Shutdown {
  import opened Collections
  import R = Rotation

  const SHUTDOWN_TIMEOUT: int := 15000
  const DELETE_OLD_TIMEOUT: int := 10000

  type HandlerId = nat

  /** Progress of `Server.Shutdown`; `Draining(i, z)` is inside the loop at the i-th name, and `z`
      says that the goroutine inside Drain has seen the wait group at zero. */
  datatype Progress = Serving | HttpDraining | Draining(i: nat, seenZero: bool) | ReturnedNil | ReturnedErr

  datatype State = State(
    clock: int, adapters: map<string, R.State>, registered: set<string>,
    handlers: set<HandlerId>,
    pc: Progress, names: seq<string>,
    startedAt: int, deadline: int, drainedAt: int, warned: set<string>)

  datatype Action =
    | Tick(to: int)
    | StartHandler(h: HandlerId)
    | EndHandler(h: HandlerId)
    | AdapterStep(name: string, a: R.Action)
    | CallShutdown(names: seq<string>, parentDeadline: Option<int>)
    | HttpQuiesced
    | HttpFailed
    | SkipAdapter
    | ObserveZero
    | DrainOk
    | DrainTimeout
    | FinishShutdown

  function Initial(registered: set<string>, drainers: set<string>): State {
    State(0, map n | n in drainers :: R.Initial(), registered, {}, Serving, [], 0, 0, 0, {})
  }

  predicate AtAdapter(s: State) {
    s.pc.Draining? && s.pc.i < |s.names| && s.names[s.pc.i] in s.adapters
  }

  ghost predicate Enabled(s: State, a: Action) {
    match a
    case Tick(to) => s.clock <= to
    case StartHandler(h) =>
      && !Quiet(s)
      && h !in s.handlers
      && (forall n :: n in s.adapters ==> h !in s.adapters[n].calls)
    case EndHandler(h) =>
      && h in s.handlers
      && (forall n :: n in s.adapters && h in s.adapters[n].calls ==> !R.Open(s.adapters[n].calls[h].phase))
    case AdapterStep(name, b) =>
      && name in s.adapters
      && R.Enabled(s.adapters[name], b)
      && (b.Enter? ==> b.c in s.handlers && forall n :: n in s.adapters ==> b.c !in s.adapters[n].calls)
      && (b.Commit? ==> b.now == s.clock)
    case CallShutdown(names, _) => s.pc == Serving && Enumerates(names, s.registered)
    case HttpQuiesced => s.pc == HttpDraining && s.handlers == {}
    case HttpFailed => s.pc == HttpDraining && (s.handlers == {} || s.deadline <= s.clock)
    case SkipAdapter => s.pc.Draining? && s.pc.i < |s.names| && s.names[s.pc.i] !in s.adapters
    case ObserveZero => AtAdapter(s) && s.adapters[s.names[s.pc.i]].wg == 0
    case DrainOk => AtAdapter(s) && s.pc.seenZero
    case DrainTimeout => AtAdapter(s) && s.deadline <= s.clock
    case FinishShutdown => s.pc.Draining? && s.pc.i == |s.names|
  }

  function Earliest(t: int, parentDeadline: Option<int>): int {
    match parentDeadline
    case None => t
    case Some(p) => if p < t then p else t
  }

  ghost function Apply(s: State, a: Action): State
    requires Enabled(s, a)
  {
    match a
    case Tick(to) => s.(clock := to)
    case StartHandler(h) => s.(handlers := s.handlers + {h})
    case EndHandler(h) => s.(handlers := s.handlers - {h})
    case AdapterStep(name, b) => s.(adapters := s.adapters[name := R.Apply(s.adapters[name], b)])
    case CallShutdown(names, parent) =>
      s.(pc := HttpDraining, names := names, startedAt := s.clock,
         deadline := Earliest(s.clock + SHUTDOWN_TIMEOUT, parent))
    case HttpQuiesced => s.(pc := Draining(0, false), drainedAt := s.clock)
    case HttpFailed => s.(pc := ReturnedErr)
    case SkipAdapter => s.(pc := Draining(s.pc.i + 1, false))
    case ObserveZero => s.(pc := Draining(s.pc.i, true))
    case DrainOk => s.(pc := Draining(s.pc.i + 1, false))
    case DrainTimeout => s.(pc := Draining(s.pc.i + 1, false), warned := s.warned + {s.names[s.pc.i]})
    case FinishShutdown => s.(pc := ReturnedNil)
  }

  ghost predicate IsRun(tr: seq<State>, acts: seq<Action>) {
    && |tr| == |acts| + 1
    && (exists registered, drainers :: drainers <= registered && tr[0] == Initial(registered, drainers))
    && forall i {:trigger acts[i]} :: 0 <= i < |acts| ==> Enabled(tr[i], acts[i]) && tr[i + 1] == Apply(tr[i], acts[i])
  }

  lemma StepAt(tr: seq<State>, acts: seq<Action>, i: nat)
    requires IsRun(tr, acts) && i < |acts|
    ensures Enabled(tr[i], acts[i]) && tr[i + 1] == Apply(tr[i], acts[i])
  {
  }

  // ---- Safety ------------------------------------------------------------------------------

  /** `http.Shutdown` has returned nil. */
  predicate Quiet(s: State) {
    s.pc.Draining? || s.pc == ReturnedNil
  }

  ghost predicate AdaptersExact(s: State) {
    s.adapters.Keys <= s.registered && forall n :: n in s.adapters ==> R.Inv(s.adapters[n])
  }

  ghost predicate CallsInHandlers(s: State) {
    forall n, c :: n in s.adapters && c in s.adapters[n].calls && R.Open(s.adapters[n].calls[c].phase)
      ==> c in s.handlers
  }

  /** The adapter at position k has been drained, or its drain was given up with a warning. */
  ghost predicate Settled(s: State, n: string) {
    n in s.adapters ==> s.adapters[n].wg == 0 || n in s.warned
  }

  ghost predicate LoopProgress(s: State) {
    && (s.pc != Serving ==> Enumerates(s.names, s.registered))
    && (s.pc.Draining? ==>
          && s.pc.i <= |s.names|
          && (forall k :: 0 <= k < s.pc.i ==> Settled(s, s.names[k]))
          && (s.pc.seenZero ==> AtAdapter(s) && s.adapters[s.names[s.pc.i]].wg == 0))
    && (s.pc == ReturnedNil ==> forall n :: n in s.registered ==> Settled(s, n))
  }

  ghost predicate Inv(s: State) {
    && AdaptersExact(s) && CallsInHandlers(s) && LoopProgress(s)
    && (Quiet(s) ==> s.handlers == {})
  }

  /** One adapter between two states of a quiet server: nothing launched, the count only falls. */
  ghost predicate OnlyFinishes(r: R.State, q: R.State) {
    && |q.cleanups| == |r.cleanups|
    && q.wg <= r.wg
    && forall k :: 0 <= k < |r.cleanups| && r.cleanups[k].stage.Finished? ==>
         q.cleanups[k].stage == r.cleanups[k].stage
  }

  ghost predicate OnlyFinishing(s: State, t: State) {
    && s.adapters.Keys == t.adapters.Keys
    && forall n :: n in s.adapters ==> OnlyFinishes(s.adapters[n], t.adapters[n])
  }

  lemma ClosedAdapterOnlyFinishes(r: R.State, b: R.Action)
    requires R.Enabled(r, b) && !b.Enter?
    requires forall c :: c in r.calls ==> !R.Open(r.calls[c].phase)
    ensures OnlyFinishes(r, R.Apply(r, b))
  {
  }

  lemma QuietStep(s: State, a: Action)
    requires Inv(s) && Quiet(s) && Enabled(s, a)
    ensures Quiet(Apply(s, a)) && OnlyFinishing(s, Apply(s, a))
  {
    if a.AdapterStep? {
      var r := s.adapters[a.name];
      forall c | c in r.calls ensures !R.Open(r.calls[c].phase) {
        assert R.Open(s.adapters[a.name].calls[c].phase) ==> c in s.handlers;
      }
      ClosedAdapterOnlyFinishes(r, a.a);
    }
  }

  lemma AdaptersStep(s: State, a: Action)
    requires AdaptersExact(s) && Enabled(s, a)
    ensures AdaptersExact(Apply(s, a))
  {
    if a.AdapterStep? {
      R.InvStep(s.adapters[a.name], a.a);
    }
  }

  lemma CallsStep(s: State, a: Action)
    requires CallsInHandlers(s) && Enabled(s, a)
    ensures CallsInHandlers(Apply(s, a))
  {
    var t := Apply(s, a);
    forall n, c | n in t.adapters && c in t.adapters[n].calls && R.Open(t.adapters[n].calls[c].phase)
      ensures c in t.handlers
    {
      if a.AdapterStep? && a.name == n && !(a.a.Enter? && a.a.c == c) {
        assert c in s.adapters[n].calls && R.Open(s.adapters[n].calls[c].phase);
      }
    }
  }

  lemma LoopStep(s: State, a: Action)
    requires Inv(s) && Enabled(s, a) && AdaptersExact(Apply(s, a))
    ensures LoopProgress(Apply(s, a))
  {
    var t := Apply(s, a);
    if Quiet(s) {
      QuietStep(s, a);
      forall n | Settled(s, n) ensures Settled(t, n) {
        if n in t.adapters {
          assert R.Inv(t.adapters[n]);
        }
      }
    }
  }

  lemma InvStep(s: State, a: Action)
    requires Inv(s) && Enabled(s, a)
    ensures Inv(Apply(s, a))
  {
    AdaptersStep(s, a);
    CallsStep(s, a);
    LoopStep(s, a);
  }

  lemma {:induction false} InvInEveryRun(tr: seq<State>, acts: seq<Action>, n: nat)
    requires IsRun(tr, acts) && n < |tr|
    ensures Inv(tr[n])
  {
    if n == 0 {
      var registered, drainers :| drainers <= registered && tr[0] == Initial(registered, drainers);
      assert R.Holders(R.Initial()) == {} && R.Unfinished(R.Initial()) == {};
    } else {
      InvInEveryRun(tr, acts, n - 1);
      InvStep(tr[n - 1], acts[n - 1]);
    }
  }

  /**
   * Once `http.Shutdown` has returned nil, in every continuation: no clean-up is launched, every
   * adapter's count only falls, and what has finished stays finished.
   */
  lemma {:induction false} NoLaunchAfterHttpDrain(tr: seq<State>, acts: seq<Action>, i: nat, j: nat)
    requires IsRun(tr, acts) && i <= j < |tr| && Quiet(tr[i])
    ensures Quiet(tr[j]) && OnlyFinishing(tr[i], tr[j])
    decreases j
  {
    if i < j {
      NoLaunchAfterHttpDrain(tr, acts, i, j - 1);
      InvInEveryRun(tr, acts, j - 1);
      StepAt(tr, acts, j - 1);
      QuietStep(tr[j - 1], acts[j - 1]);
      FinishingComposes(tr[i], tr[j - 1], tr[j]);
    }
  }

  lemma FinishingComposes(s: State, t: State, u: State)
    requires OnlyFinishing(s, t) && OnlyFinishing(t, u)
    ensures OnlyFinishing(s, u)
  {
    forall n | n in s.adapters ensures OnlyFinishes(s.adapters[n], u.adapters[n]) {
      assert OnlyFinishes(s.adapters[n], t.adapters[n]) && OnlyFinishes(t.adapters[n], u.adapters[n]);
    }
  }

  /**
   * If Shutdown returns nil without a drain warning for an adapter, every clean-up that adapter
   * ever launches in the whole run has finished by then.
   */
  lemma CleanShutdownFinishedEverything(
    tr: seq<State>, acts: seq<Action>, i: nat, j: nat, name: string, k: nat)
    requires IsRun(tr, acts) && i < |tr| && j < |tr|
    requires tr[i].pc == ReturnedNil && name !in tr[i].warned
    requires name in tr[j].adapters && k < |tr[j].adapters[name].cleanups|
    ensures name in tr[i].adapters && k < |tr[i].adapters[name].cleanups|
    ensures tr[i].adapters[name].cleanups[k].stage.Finished?
  {
    InvInEveryRun(tr, acts, i);
    if i <= j {
      NoLaunchAfterHttpDrain(tr, acts, i, j);
    } else {
      CleanupsOnlyGrow(tr, acts, j, i, name);
    }
    var r := tr[i].adapters[name];
    assert Settled(tr[i], name) && R.Inv(r);
    assert R.Unfinished(r) == {};
    assert k !in R.Unfinished(r);
  }

  lemma {:induction false} CleanupsOnlyGrow(tr: seq<State>, acts: seq<Action>, i: nat, j: nat, name: string)
    requires IsRun(tr, acts) && i <= j < |tr| && name in tr[i].adapters
    ensures name in tr[j].adapters
    ensures |tr[i].adapters[name].cleanups| <= |tr[j].adapters[name].cleanups|
    decreases j
  {
    if i < j {
      CleanupsOnlyGrow(tr, acts, i, j - 1, name);
      assert Enabled(tr[j - 1], acts[j - 1]);
    }
  }

  // ---- Credentials after a clean shutdown -------------------------------------------------

  /** On every adapter, chains of rotations are serial and pass the credential they got last. */
  ghost predicate IsDisciplinedRun(tr: seq<State>, acts: seq<Action>) {
    && IsRun(tr, acts)
    && forall i {:trigger acts[i]} :: 0 <= i < |acts| && acts[i].AdapterStep? ==>
         R.Disciplined(tr[i].adapters[acts[i].name], acts[i].a)
  }

  lemma AdapterAccountedStep(s: State, a: Action, name: string)
    requires Enabled(s, a) && name in Apply(s, a).adapters
    requires name in s.adapters ==> R.Accounted(s.adapters[name])
    requires a.AdapterStep? ==> R.Disciplined(s.adapters[a.name], a.a)
    ensures R.Accounted(Apply(s, a).adapters[name])
  {
    if a.AdapterStep? && a.name == name {
      R.AccountedStep(s.adapters[name], a.a);
    }
  }

  lemma {:induction false} AdaptersAccounted(tr: seq<State>, acts: seq<Action>, n: nat, name: string)
    requires IsDisciplinedRun(tr, acts) && n < |tr| && name in tr[n].adapters
    ensures R.Accounted(tr[n].adapters[name])
  {
    if n > 0 {
      var s, a := tr[n - 1], acts[n - 1];
      StepAt(tr, acts, n - 1);
      if name in s.adapters {
        AdaptersAccounted(tr, acts, n - 1, name);
      }
      AdapterAccountedStep(s, a, name);
    }
  }

  /**
   * From the moment Shutdown has returned nil with no warning for an adapter, the credentials live
   * at its provider are the newest of each chain, the old ones whose delete failed, and the ones
   * whose creation was reported as an error: no delete is pending, nothing created is unclaimed.
   */
  lemma CleanShutdownAccounting(tr: seq<State>, acts: seq<Action>, i: nat, j: nat, name: string)
    requires IsDisciplinedRun(tr, acts) && i <= j < |tr| && name in tr[j].adapters
    requires tr[i].pc == ReturnedNil && name !in tr[i].warned
    ensures var r := tr[j].adapters[name];
      && R.PendingCleanups(r) == {} && R.Unclaimed(r) == {}
      && |r.live| == |r.newest| + |R.FailedCleanups(r)| + |R.Orphans(r)|
      && (forall ch :: ch in r.newest ==> r.newest[ch] in r.live)
  {
    var s, r := tr[j], tr[j].adapters[name];
    InvInEveryRun(tr, acts, j);
    NoLaunchAfterHttpDrain(tr, acts, i, j);
    forall k | 0 <= k < |r.cleanups| ensures r.cleanups[k].stage.Finished? {
      CleanShutdownFinishedEverything(tr, acts, i, j, name, k);
    }
    forall c | c in r.calls ensures !R.Open(r.calls[c].phase) {
      assert R.Open(s.adapters[name].calls[c].phase) ==> c in s.handlers;
    }
    AdaptersAccounted(tr, acts, j, name);
    R.AccountedCount(r);
    assert R.PendingCleanups(r) == {} && R.Unclaimed(r) == {};
  }

  // ---- Deadlines ---------------------------------------------------------------------------

  /** A Drain, or the loop around it, could go on at once. */
  predicate DrainReady(s: State) {
    s.pc.Draining? &&
    (|s.names| <= s.pc.i || s.names[s.pc.i] !in s.adapters || s.adapters[s.names[s.pc.i]].wg == 0)
  }

  /**
   * No scheduling delay: time does not pass the 10 s deadline of an unfinished clean-up, nor while
   * a Drain could return.
   */
  ghost predicate Prompt(s: State, a: Action) {
    a.Tick? && s.clock < a.to ==>
      && !DrainReady(s)
      && (forall n :: n in s.adapters ==> CleanupsDueBy(s.adapters[n], a.to))
  }

  ghost predicate CleanupsDueBy(r: R.State, to: int) {
    forall k :: 0 <= k < |r.cleanups| && !r.cleanups[k].stage.Finished? ==>
      to <= r.cleanups[k].launchedAt + DELETE_OLD_TIMEOUT
  }

  ghost predicate IsPromptRun(tr: seq<State>, acts: seq<Action>) {
    IsRun(tr, acts) && forall i {:trigger acts[i]} :: 0 <= i < |acts| ==> Prompt(tr[i], acts[i])
  }

  /** Handlers finished early enough, and the caller's context sets no tighter deadline. */
  predicate DrainedInTime(s: State) {
    && s.drainedAt < s.startedAt + 5_000
    && s.deadline == s.startedAt + 15_000
  }

  ghost predicate LaunchedUntil(r: R.State, time: int) {
    forall k :: 0 <= k < |r.cleanups| ==> r.cleanups[k].launchedAt <= time
  }

  ghost predicate LaunchTimes(s: State) {
    && (forall n :: n in s.adapters ==> LaunchedUntil(s.adapters[n], if Quiet(s) then s.drainedAt else s.clock))
    && (Quiet(s) ==> s.drainedAt <= s.clock)
  }

  ghost predicate OnTime(s: State) {
    Quiet(s) && DrainedInTime(s) ==> s.warned == {} && (s.pc.Draining? ==> s.clock < s.deadline)
  }

  ghost predicate NoEarlyWarning(s: State) {
    !Quiet(s) ==> s.warned == {}
  }

  lemma LaunchTimesStep(s: State, a: Action)
    requires Inv(s) && LaunchTimes(s) && Enabled(s, a)
    ensures LaunchTimes(Apply(s, a))
  {
    var t := Apply(s, a);
    if Quiet(s) {
      QuietStep(s, a);
    }
    forall n | n in t.adapters ensures LaunchedUntil(t.adapters[n], if Quiet(t) then t.drainedAt else t.clock) {
      assert LaunchedUntil(s.adapters[n], if Quiet(s) then s.drainedAt else s.clock);
      if a.AdapterStep? && a.name == n {
        LaunchedStep(s.adapters[n], a.a);
      }
    }
  }

  lemma LaunchedStep(r: R.State, b: R.Action)
    requires R.Enabled(r, b)
    ensures forall k :: 0 <= k < |R.Apply(r, b).cleanups| ==>
              if k < |r.cleanups| then R.Apply(r, b).cleanups[k].launchedAt == r.cleanups[k].launchedAt
              else b.Commit? && R.Apply(r, b).cleanups[k].launchedAt == b.now
  {
  }

  lemma OnTimeStep(s: State, a: Action)
    requires Inv(s) && LaunchTimes(s) && OnTime(s) && NoEarlyWarning(s) && Enabled(s, a) && Prompt(s, a)
    ensures OnTime(Apply(s, a)) && NoEarlyWarning(Apply(s, a))
  {
    if a.Tick? && s.clock < a.to && s.pc.Draining? {
      var r := s.adapters[s.names[s.pc.i]];
      assert R.Inv(r);
      assert R.Unfinished(r) != {};
      var k :| k in R.Unfinished(r);
      assert LaunchedUntil(r, s.drainedAt) && CleanupsDueBy(r, a.to);
      assert r.cleanups[k].launchedAt <= s.drainedAt;
    }
  }

  /**
   * If the HTTP phase takes strictly less than 5 s and clean-ups end by their own deadline, every
   * Drain returns nil, for any number of adapters and clean-ups and any order of names; and from
   * the shutdown deadline on, Shutdown has returned.
   */
  lemma {:induction false} ShutdownMeetsDeadline(tr: seq<State>, acts: seq<Action>, n: nat)
    requires IsPromptRun(tr, acts) && n < |tr|
    ensures LaunchTimes(tr[n]) && OnTime(tr[n]) && NoEarlyWarning(tr[n])
    ensures Quiet(tr[n]) && DrainedInTime(tr[n]) && tr[n].deadline <= tr[n].clock
            ==> tr[n].pc == ReturnedNil && tr[n].warned == {}
  {
    if n > 0 {
      ShutdownMeetsDeadline(tr, acts, n - 1);
      InvInEveryRun(tr, acts, n - 1);
      LaunchTimesStep(tr[n - 1], acts[n - 1]);
      OnTimeStep(tr[n - 1], acts[n - 1]);
    }
  }

  /** Extends a prompt run by one step. */
  lemma Extend(tr: seq<State>, acts: seq<Action>, a: Action) returns (tr': seq<State>, acts': seq<Action>)
    requires IsPromptRun(tr, acts) && Enabled(tr[|acts|], a) && Prompt(tr[|acts|], a)
    ensures IsPromptRun(tr', acts') && tr'[|acts'|] == Apply(tr[|acts|], a)
  {
    tr', acts' := tr + [Apply(tr[|acts|], a)], acts + [a];
  }

  /** The one Rotate call of the example, and its adapter before the clean-up is launched. */
  function OneCall(free: int, phase: R.Phase, request: R.Request): R.State {
    R.State(free, 0, map[0 := R.Call("agent", Some(7), phase, request)], [],
            if request == R.Effected then {0} else {}, map[])
  }

  /** The adapter once the clean-up has been launched. */
  function Launched(free: int, phase: R.Phase): R.State {
    R.State(free, 1, map[0 := R.Call("agent", Some(7), phase, R.Effected)],
            [R.Cleanup(0, 7, 5000, false, R.Deleting)], {0}, map["agent" := 0])
  }

  lemma OneCallSteps()
    ensures R.Apply(R.Initial(), R.Enter(0, "agent", Some(7))) == OneCall(10, R.Waiting, R.NotSent)
    ensures R.Apply(OneCall(10, R.Waiting, R.NotSent), R.Acquire(0)) == OneCall(9, R.Holding, R.NotSent)
    ensures R.Apply(OneCall(9, R.Holding, R.NotSent), R.Send(0)) == OneCall(9, R.Requesting, R.InFlight)
    ensures R.Apply(OneCall(9, R.Requesting, R.InFlight), R.Effect(0)) == OneCall(9, R.Requesting, R.Effected)
    ensures R.Apply(OneCall(9, R.Requesting, R.Effected), R.Accept(0)) == OneCall(9, R.Created, R.Effected)
  {
  }

  lemma LaunchSteps()
    ensures R.Apply(OneCall(9, R.Created, R.Effected), R.Commit(0, 5000)) == Launched(9, R.Leaving(true))
    ensures R.Apply(Launched(9, R.Leaving(true)), R.Release(0)) == Launched(10, R.Returned(true))
  {
  }

  /** Extends a run of the one-adapter server by a step of the adapter. */
  lemma ExtendAdapter(tr: seq<State>, acts: seq<Action>, q: R.State, b: R.Action, r: R.State)
    returns (tr': seq<State>, acts': seq<Action>)
    requires IsPromptRun(tr, acts) && tr[|acts|].adapters == map["splunk" := q]
    requires R.Enabled(q, b) && R.Apply(q, b) == r
    requires b.Enter? ==> b.c in tr[|acts|].handlers && b.c !in q.calls
    requires b.Commit? ==> b.now == tr[|acts|].clock
    ensures IsPromptRun(tr', acts') && tr'[|acts'|] == tr[|acts|].(adapters := map["splunk" := r])
  {
    tr', acts' := Extend(tr, acts, AdapterStep("splunk", b));
    assert map["splunk" := q]["splunk" := r] == map["splunk" := r];
  }

  function Start(): State {
    Initial({"splunk"}, {"splunk"})
  }

  lemma CallReachesCreated() returns (tr: seq<State>, acts: seq<Action>)
    ensures IsPromptRun(tr, acts)
    ensures tr[|acts|] == Start().(handlers := {0}, adapters := map["splunk" := OneCall(9, R.Created, R.Effected)])
  {
    tr, acts := [Start()], [];
    assert {"splunk"} <= {"splunk"} && tr[0] == Initial({"splunk"}, {"splunk"});
    tr, acts := Extend(tr, acts, StartHandler(0));
    assert Start().adapters == map["splunk" := R.Initial()];
    OneCallSteps();
    tr, acts := ExtendAdapter(tr, acts, R.Initial(), R.Enter(0, "agent", Some(7)), OneCall(10, R.Waiting, R.NotSent));
    tr, acts := ExtendAdapter(tr, acts, OneCall(10, R.Waiting, R.NotSent), R.Acquire(0),
                              OneCall(9, R.Holding, R.NotSent));
    tr, acts := ExtendAdapter(tr, acts, OneCall(9, R.Holding, R.NotSent), R.Send(0),
                              OneCall(9, R.Requesting, R.InFlight));
    tr, acts := ExtendAdapter(tr, acts, OneCall(9, R.Requesting, R.InFlight), R.Effect(0),
                              OneCall(9, R.Requesting, R.Effected));
    tr, acts := ExtendAdapter(tr, acts, OneCall(9, R.Requesting, R.Effected), R.Accept(0),
                              OneCall(9, R.Created, R.Effected));
  }

  lemma HttpDrainsLate() returns (tr: seq<State>, acts: seq<Action>)
    ensures IsPromptRun(tr, acts)
    ensures tr[|acts|] == Start().(
      clock := 5000, adapters := map["splunk" := Launched(10, R.Returned(true))],
      pc := Draining(0, false), names := ["splunk"], deadline := SHUTDOWN_TIMEOUT, drainedAt := 5000)
  {
    tr, acts := CallReachesCreated();
    assert ["splunk"][0] == "splunk";
    tr, acts := Extend(tr, acts, CallShutdown(["splunk"], None));
    tr, acts := Extend(tr, acts, Tick(5000));
    LaunchSteps();
    tr, acts := ExtendAdapter(tr, acts, OneCall(9, R.Created, R.Effected), R.Commit(0, 5000),
                              Launched(9, R.Leaving(true)));
    tr, acts := ExtendAdapter(tr, acts, Launched(9, R.Leaving(true)), R.Release(0), Launched(10, R.Returned(true)));
    tr, acts := Extend(tr, acts, EndHandler(0));
    tr, acts := Extend(tr, acts, HttpQuiesced);
  }

  /** An HTTP phase of exactly 5 s is already too long: a Drain can then time out. */
  lemma DeadlineIsTight() returns (tr: seq<State>, acts: seq<Action>)
    ensures IsPromptRun(tr, acts)
    ensures var s := tr[|acts|];
      && Quiet(s) && s.warned == {"splunk"} && s.deadline == s.startedAt + 15_000
      && s.drainedAt == s.startedAt + 5_000
  {
    tr, acts := HttpDrainsLate();
    tr, acts := Extend(tr, acts, Tick(15000));
    tr, acts := Extend(tr, acts, DrainTimeout);
  }
}
