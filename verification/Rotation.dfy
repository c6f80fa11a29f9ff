/**
 * Create-then-delete rotation, as the Splunk, Datadog, PagerDuty and SonarQube adapters run it:
 * a counting semaphore around Rotate, and one detached clean-up goroutine per superseded
 * credential, counted by a wait group.
 *
 * The model is a transition system with one step per atomic action, for any number of concurrent
 * calls. A credential is named by the Rotate call whose create request produced it, which is the
 * assumption that provider ids are fresh. The provider may act on a request at any time after it
 * was sent, even after the caller has given up on the response.
 */
module Rotation {
  import opened Collections

  const SEM_LIMIT: nat := 10

  type CallId = nat

  /** What became of the create request of a call, seen from the provider. */
  datatype Request = NotSent | InFlight | Effected

  /** Where a call stands inside Rotate; `Leaving` is the deferred release of the semaphore. */
  datatype Phase = Waiting | Holding | Requesting | Created | Leaving(ok: bool) | Returned(ok: bool)

  /** `prev` is the non-empty old-credential entry of the request's Meta, if there is one. */
  datatype Call = Call(chain: string, prev: Option<CallId>, phase: Phase, request: Request)

  datatype Outcome = Deleted | FailedAndLogged | PanickedAndRecovered

  datatype Stage = Deleting | Ended(outcome: Outcome) | Finished(outcome: Outcome)

  /** `hit` records whether the provider has carried out this clean-up's delete. */
  datatype Cleanup = Cleanup(launcher: CallId, target: CallId, launchedAt: int, hit: bool, stage: Stage)

  /** `newest` maps each chain to the credential its latest successful Rotate is about to return. */
  datatype State = State(
    free: int, wg: int,
    calls: map<CallId, Call>, cleanups: seq<Cleanup>,
    live: set<CallId>, newest: map<string, CallId>)

  datatype Action =
    | Enter(c: CallId, chain: string, prev: Option<CallId>)
    | Acquire(c: CallId)
    | Refuse(c: CallId)
    | SuffixFail(c: CallId)
    | Send(c: CallId)
    | Effect(c: CallId)
    | Accept(c: CallId)
    | CreateFail(c: CallId)
    | Commit(c: CallId, now: int)
    | Release(c: CallId)
    | Hit(i: nat)
    | End(i: nat, outcome: Outcome)
    | Done(i: nat)

  function Initial(): State {
    State(SEM_LIMIT, 0, map[], [], {}, map[])
  }

  predicate At(s: State, c: CallId, p: Phase) {
    c in s.calls && s.calls[c].phase == p
  }

  predicate Enabled(s: State, a: Action) {
    match a
    case Enter(c, _, _) => c !in s.calls
    case Acquire(c) => At(s, c, Waiting) && s.free > 0
    case Refuse(c) => At(s, c, Waiting)
    case SuffixFail(c) => At(s, c, Holding)
    case Send(c) => At(s, c, Holding)
    case Effect(c) => c in s.calls && s.calls[c].request == InFlight
    case Accept(c) => At(s, c, Requesting) && s.calls[c].request == Effected
    case CreateFail(c) => At(s, c, Requesting)
    case Commit(c, _) => At(s, c, Created)
    case Release(c) => c in s.calls && s.calls[c].phase.Leaving?
    case Hit(i) => i < |s.cleanups| && !s.cleanups[i].hit
                   && (s.cleanups[i].stage.Deleting? || s.cleanups[i].stage.outcome != Deleted)
    case End(i, outcome) => i < |s.cleanups| && s.cleanups[i].stage == Deleting
                            && (outcome == Deleted ==> s.cleanups[i].hit || s.cleanups[i].target !in s.live)
    case Done(i) => i < |s.cleanups| && s.cleanups[i].stage.Ended?
  }

  function SetPhase(s: State, c: CallId, p: Phase): State
    requires c in s.calls
  {
    s.(calls := s.calls[c := s.calls[c].(phase := p)])
  }

  function Apply(s: State, a: Action): State
    requires Enabled(s, a)
  {
    match a
    case Enter(c, chain, prev) => s.(calls := s.calls[c := Call(chain, prev, Waiting, NotSent)])
    case Acquire(c) => SetPhase(s, c, Holding).(free := s.free - 1)
    case Refuse(c) => SetPhase(s, c, Returned(false))
    case SuffixFail(c) => SetPhase(s, c, Leaving(false))
    case Send(c) => s.(calls := s.calls[c := s.calls[c].(phase := Requesting, request := InFlight)])
    case Effect(c) => s.(calls := s.calls[c := s.calls[c].(request := Effected)], live := s.live + {c})
    case Accept(c) => SetPhase(s, c, Created)
    case CreateFail(c) => SetPhase(s, c, Leaving(false))
    case Commit(c, now) =>
      var t := SetPhase(s, c, Leaving(true)).(newest := s.newest[s.calls[c].chain := c]);
      (match s.calls[c].prev
       case None => t
       case Some(o) => t.(wg := s.wg + 1, cleanups := s.cleanups + [Cleanup(c, o, now, false, Deleting)]))
    case Release(c) => SetPhase(s, c, Returned(s.calls[c].phase.ok)).(free := s.free + 1)
    case Hit(i) =>
      s.(cleanups := s.cleanups[i := s.cleanups[i].(hit := true)], live := s.live - {s.cleanups[i].target})
    case End(i, outcome) => s.(cleanups := s.cleanups[i := s.cleanups[i].(stage := Ended(outcome))])
    case Done(i) =>
      s.(cleanups := s.cleanups[i := s.cleanups[i].(stage := Finished(s.cleanups[i].stage.outcome))],
         wg := s.wg - 1)
  }

  ghost predicate IsRun(tr: seq<State>, acts: seq<Action>) {
    && |tr| == |acts| + 1
    && tr[0] == Initial()
    && forall i {:trigger acts[i]} :: 0 <= i < |acts| ==> Enabled(tr[i], acts[i]) && tr[i + 1] == Apply(tr[i], acts[i])
  }

  // ---- Counters ----------------------------------------------------------------------------

  predicate HoldsPermit(p: Phase) {
    p == Holding || p == Requesting || p == Created || p.Leaving?
  }

  /** Still inside Rotate. */
  predicate Open(p: Phase) {
    !p.Returned?
  }

  /** Rotate returns, or is about to return, a credential. */
  predicate Won(p: Phase) {
    (p.Leaving? || p.Returned?) && p.ok
  }

  /** Rotate returns, or is about to return, an error. */
  predicate Lost(p: Phase) {
    (p.Leaving? || p.Returned?) && !p.ok
  }

  function Holders(s: State): set<CallId> {
    set c | c in s.calls && HoldsPermit(s.calls[c].phase)
  }

  /** Calls that wait for the answer to their create request. */
  function Creating(s: State): set<CallId> {
    set c | c in s.calls && s.calls[c].phase == Requesting
  }

  function Unfinished(s: State): set<int> {
    set i | 0 <= i < |s.cleanups| && !s.cleanups[i].stage.Finished?
  }

  ghost predicate CountersExact(s: State) {
    && 0 <= s.free
    && s.free + |Holders(s)| == SEM_LIMIT
    && s.wg == |Unfinished(s)|
  }

  /** Every clean-up was started by its own call, one that returns a credential. */
  ghost predicate LaunchedByWinners(s: State) {
    && (forall i :: 0 <= i < |s.cleanups| ==>
          s.cleanups[i].launcher in s.calls && Won(s.calls[s.cleanups[i].launcher].phase))
    && (forall i, j :: 0 <= i < j < |s.cleanups| ==> s.cleanups[i].launcher != s.cleanups[j].launcher)
  }

  ghost predicate Inv(s: State) {
    CountersExact(s) && LaunchedByWinners(s)
  }

  lemma HolderMoves(s: State, a: Action, c: CallId)
    requires Enabled(s, a)
    ensures c in Holders(Apply(s, a)) <==> a == Acquire(c) || (c in Holders(s) && a != Release(c))
    ensures a == Acquire(c) ==> c !in Holders(s)
    ensures a == Release(c) ==> c in Holders(s)
  {
  }

  lemma FreeMoves(s: State, a: Action)
    requires Enabled(s, a)
    ensures Apply(s, a).free == if a.Acquire? then s.free - 1 else if a.Release? then s.free + 1 else s.free
    ensures a.Acquire? ==> s.free > 0
  {
  }

  lemma HoldersCount(s: State, a: Action, t: State)
    requires forall c :: c in Holders(t) <==> a == Acquire(c) || (c in Holders(s) && a != Release(c))
    requires a.Acquire? ==> a.c !in Holders(s)
    requires a.Release? ==> a.c in Holders(s)
    ensures |Holders(t)| == |Holders(s)| + if a.Acquire? then 1 else if a.Release? then -1 else 0
  {
    if a.Acquire? {
      assert Holders(t) == Holders(s) + {a.c};
    } else if a.Release? {
      assert Holders(t) == Holders(s) - {a.c};
    } else {
      assert Holders(t) == Holders(s);
    }
  }

  lemma HoldersStep(s: State, a: Action)
    requires CountersExact(s) && Enabled(s, a)
    ensures var t := Apply(s, a); 0 <= t.free && t.free + |Holders(t)| == SEM_LIMIT
  {
    forall c
      ensures c in Holders(Apply(s, a)) <==> a == Acquire(c) || (c in Holders(s) && a != Release(c))
      ensures a == Acquire(c) ==> c !in Holders(s)
      ensures a == Release(c) ==> c in Holders(s)
    {
      HolderMoves(s, a, c);
    }
    FreeMoves(s, a);
    HoldersCount(s, a, Apply(s, a));
  }

  lemma UnfinishedMoves(s: State, a: Action, i: int)
    requires Enabled(s, a)
    ensures i in Unfinished(Apply(s, a)) <==>
              (i in Unfinished(s) && !(a.Done? && a.i == i))
              || (a.Commit? && s.calls[a.c].prev.Some? && i == |s.cleanups|)
  {
  }

  lemma WgMoves(s: State, a: Action)
    requires Enabled(s, a)
    ensures Apply(s, a).wg == s.wg + (if a.Commit? && s.calls[a.c].prev.Some? then 1 else if a.Done? then -1 else 0)
    ensures a.Done? ==> a.i in Unfinished(s)
  {
  }

  lemma UnfinishedCount(s: State, t: State, added: set<int>, removed: set<int>)
    requires forall i :: i in Unfinished(t) <==> (i in Unfinished(s) && i !in removed) || i in added
    requires removed <= Unfinished(s) && added !! Unfinished(s)
    ensures |Unfinished(t)| == |Unfinished(s)| - |removed| + |added|
  {
    assert Unfinished(t) == (Unfinished(s) - removed) + added;
    assert |Unfinished(s) - removed| == |Unfinished(s)| - |removed|;
  }

  lemma UnfinishedStep(s: State, a: Action)
    requires CountersExact(s) && Enabled(s, a)
    ensures Apply(s, a).wg == |Unfinished(Apply(s, a))|
  {
    var added: set<int> := if a.Commit? && s.calls[a.c].prev.Some? then {|s.cleanups|} else {};
    var removed: set<int> := if a.Done? then {a.i} else {};
    forall i
      ensures i in Unfinished(Apply(s, a)) <==> (i in Unfinished(s) && i !in removed) || i in added
    {
      UnfinishedMoves(s, a, i);
    }
    WgMoves(s, a);
    UnfinishedCount(s, Apply(s, a), added, removed);
  }

  lemma WinnersStayWinners(s: State, a: Action, c: CallId)
    requires Enabled(s, a) && c in s.calls
    ensures c in Apply(s, a).calls
    ensures Won(s.calls[c].phase) ==> Won(Apply(s, a).calls[c].phase)
    ensures Lost(s.calls[c].phase) ==> Lost(Apply(s, a).calls[c].phase)
    ensures s.calls[c].phase == Returned(false) ==> Apply(s, a).calls[c].phase == Returned(false)
  {
  }

  lemma LaunchersStep(s: State, a: Action)
    requires LaunchedByWinners(s) && Enabled(s, a)
    ensures LaunchedByWinners(Apply(s, a))
  {
    var t := Apply(s, a);
    forall i | 0 <= i < |t.cleanups|
      ensures t.cleanups[i].launcher in t.calls && Won(t.calls[t.cleanups[i].launcher].phase)
    {
      if i < |s.cleanups| {
        WinnersStayWinners(s, a, s.cleanups[i].launcher);
      }
    }
  }

  lemma InvStep(s: State, a: Action)
    requires Inv(s) && Enabled(s, a)
    ensures Inv(Apply(s, a))
  {
    HoldersStep(s, a);
    UnfinishedStep(s, a);
    LaunchersStep(s, a);
  }

  /** On every exit path and under every interleaving the two counters are exact. */
  lemma {:induction false} CountersExactInEveryRun(tr: seq<State>, acts: seq<Action>, n: nat)
    requires IsRun(tr, acts) && n < |tr|
    ensures Inv(tr[n])
  {
    if n == 0 {
      assert Holders(Initial()) == {} && Unfinished(Initial()) == {};
    } else {
      CountersExactInEveryRun(tr, acts, n - 1);
      InvStep(tr[n - 1], acts[n - 1]);
    }
  }

  lemma {:induction false} SubsetSize<T>(a: set<T>, b: set<T>)
    requires a <= b
    ensures |a| <= |b|
    decreases a
  {
    if a != {} {
      var x :| x in a;
      SubsetSize(a - {x}, b - {x});
    }
  }

  /** At most ten calls of Rotate have a create request outstanding at any moment. */
  lemma AtMostTenCreates(tr: seq<State>, acts: seq<Action>, n: nat)
    requires IsRun(tr, acts) && n < |tr|
    ensures |Creating(tr[n])| <= 10
  {
    CountersExactInEveryRun(tr, acts, n);
    SubsetSize(Creating(tr[n]), Holders(tr[n]));
  }

  // ---- Accounting of credentials -----------------------------------------------------------

  /** A chain's client rotates serially, and passes the credential it got last as the old one. */
  ghost predicate Disciplined(s: State, a: Action) {
    a.Enter? ==>
      && a.prev == Lookup(s.newest, a.chain)
      && (forall c :: c in s.calls && s.calls[c].chain == a.chain ==> !Open(s.calls[c].phase))
  }

  ghost predicate IsDisciplinedRun(tr: seq<State>, acts: seq<Action>) {
    && IsRun(tr, acts)
    && forall i {:trigger acts[i]} :: 0 <= i < |acts| ==> Disciplined(tr[i], acts[i])
  }

  /** Created at the provider, but no usable response has been turned into a return value yet. */
  function Unclaimed(s: State): set<CallId> {
    set c | c in s.calls && s.calls[c].request == Effected && !Won(s.calls[c].phase) && !Lost(s.calls[c].phase)
  }

  /** Created at the provider by a Rotate that reports an error. */
  function Orphans(s: State): set<CallId> {
    set c | c in s.calls && s.calls[c].request == Effected && Lost(s.calls[c].phase)
  }

  function PendingCleanups(s: State): set<int> {
    set i | 0 <= i < |s.cleanups| && !s.cleanups[i].hit && s.cleanups[i].stage == Deleting
  }

  function FailedCleanups(s: State): set<int> {
    set i | 0 <= i < |s.cleanups| && !s.cleanups[i].hit && s.cleanups[i].stage != Deleting
  }

  function Superseded(s: State): set<CallId> {
    set i | 0 <= i < |s.cleanups| && !s.cleanups[i].hit :: s.cleanups[i].target
  }

  ghost predicate HasCleanup(s: State, c: CallId) {
    exists i :: 0 <= i < |s.cleanups| && s.cleanups[i].target == c
  }

  ghost predicate WasHit(s: State, c: CallId) {
    exists i :: 0 <= i < |s.cleanups| && s.cleanups[i].target == c && s.cleanups[i].hit
  }

  predicate RequestFits(call: Call) {
    && (call.phase == Waiting || call.phase == Holding ==> call.request == NotSent)
    && (call.phase == Created || Won(call.phase) ==> call.request == Effected)
  }

  ghost predicate RequestsMatchPhases(s: State) {
    forall c :: c in s.calls ==> RequestFits(s.calls[c])
  }

  ghost predicate LiveExact(s: State) {
    forall c :: c in s.live <==> c in s.calls && s.calls[c].request == Effected && !WasHit(s, c)
  }

  ghost predicate NewestWon(s: State) {
    forall ch :: ch in s.newest ==>
      s.newest[ch] in s.calls && s.calls[s.newest[ch]].chain == ch && Won(s.calls[s.newest[ch]].phase)
  }

  /** A clean-up deletes a credential that its chain has replaced. */
  ghost predicate Retired(s: State, t: CallId) {
    t in s.calls && Won(s.calls[t].phase) && Lookup(s.newest, s.calls[t].chain) != Some(t)
  }

  ghost predicate TargetsRetired(s: State) {
    forall i :: 0 <= i < |s.cleanups| ==> Retired(s, s.cleanups[i].target)
  }

  ghost predicate TargetsDistinct(s: State) {
    forall i, j :: 0 <= i < j < |s.cleanups| ==> s.cleanups[i].target != s.cleanups[j].target
  }

  /** A clean-up that reports success has had its delete carried out. */
  ghost predicate DeletedWereHit(s: State) {
    forall i :: 0 <= i < |s.cleanups| ==>
      s.cleanups[i].stage == Ended(Deleted) || s.cleanups[i].stage == Finished(Deleted) ==> s.cleanups[i].hit
  }

  ghost predicate WinnersAccounted(s: State) {
    forall c :: c in s.calls && Won(s.calls[c].phase) ==>
      Lookup(s.newest, s.calls[c].chain) == Some(c) || HasCleanup(s, c)
  }

  ghost predicate OpenCallsCarryNewest(s: State) {
    forall c :: c in s.calls && Open(s.calls[c].phase) && !s.calls[c].phase.Leaving? ==>
      s.calls[c].prev == Lookup(s.newest, s.calls[c].chain)
  }

  ghost predicate ChainsSerial(s: State) {
    forall c, d ::
      (c in s.calls && d in s.calls && s.calls[c].chain == s.calls[d].chain
       && Open(s.calls[c].phase) && Open(s.calls[d].phase)) ==> c == d
  }

  ghost predicate Accounted(s: State) {
    && RequestsMatchPhases(s) && LiveExact(s) && NewestWon(s)
    && TargetsRetired(s) && TargetsDistinct(s) && DeletedWereHit(s)
    && WinnersAccounted(s) && OpenCallsCarryNewest(s) && ChainsSerial(s)
  }

  lemma LiveStep(s: State, a: Action)
    requires Accounted(s) && Enabled(s, a)
    ensures LiveExact(Apply(s, a))
  {
    var t := Apply(s, a);
    forall c
      ensures c in t.live <==> c in t.calls && t.calls[c].request == Effected && !WasHit(t, c)
    {
      assert c in s.live <==> c in s.calls && s.calls[c].request == Effected && !WasHit(s, c);
      HitStep(s, a, c);
    }
  }

  lemma HitStep(s: State, a: Action, c: CallId)
    requires Enabled(s, a)
    ensures WasHit(Apply(s, a), c) <==> WasHit(s, c) || (a.Hit? && s.cleanups[a.i].target == c)
    ensures HasCleanup(s, c) ==> HasCleanup(Apply(s, a), c)
  {
    var t := Apply(s, a);
    forall i | 0 <= i < |s.cleanups|
      ensures s.cleanups[i].target == t.cleanups[i].target && (s.cleanups[i].hit ==> t.cleanups[i].hit)
    {
    }
    if WasHit(s, c) {
      var i :| 0 <= i < |s.cleanups| && s.cleanups[i].target == c && s.cleanups[i].hit;
      assert t.cleanups[i].target == c && t.cleanups[i].hit;
    }
    if a.Hit? && s.cleanups[a.i].target == c {
      assert t.cleanups[a.i].target == c && t.cleanups[a.i].hit;
    }
    if HasCleanup(s, c) {
      var i :| 0 <= i < |s.cleanups| && s.cleanups[i].target == c;
      assert t.cleanups[i].target == c;
    }
  }

  lemma RetiredStep(s: State, a: Action, t: CallId)
    requires Accounted(s) && Enabled(s, a) && Retired(s, t)
    ensures Retired(Apply(s, a), t)
  {
  }

  lemma CommitRetiresPrevious(s: State, a: Action)
    requires Accounted(s) && a.Commit? && Enabled(s, a) && s.calls[a.c].prev.Some?
    ensures Retired(Apply(s, a), s.calls[a.c].prev.value)
    ensures !Retired(s, s.calls[a.c].prev.value)
  {
  }

  lemma TargetsStep(s: State, a: Action)
    requires Accounted(s) && Enabled(s, a)
    ensures TargetsRetired(Apply(s, a)) && TargetsDistinct(Apply(s, a))
  {
    var t := Apply(s, a);
    forall i | 0 <= i < |t.cleanups|
      ensures Retired(t, t.cleanups[i].target)
      ensures i < |s.cleanups| ==> t.cleanups[i].target == s.cleanups[i].target
      ensures i >= |s.cleanups| ==> a.Commit? && i == |s.cleanups| && !Retired(s, t.cleanups[i].target)
    {
      if i < |s.cleanups| {
        RetiredStep(s, a, s.cleanups[i].target);
      } else {
        CommitRetiresPrevious(s, a);
      }
    }
  }

  lemma DeletedStep(s: State, a: Action)
    requires Accounted(s) && Enabled(s, a)
    ensures DeletedWereHit(Apply(s, a))
  {
  }

  lemma WinnersStep(s: State, a: Action)
    requires Accounted(s) && Enabled(s, a) && Disciplined(s, a)
    ensures WinnersAccounted(Apply(s, a))
  {
    var t := Apply(s, a);
    forall c | c in t.calls && Won(t.calls[c].phase)
      ensures Lookup(t.newest, t.calls[c].chain) == Some(c) || HasCleanup(t, c)
    {
      HitStep(s, a, c);
      if a.Commit? && s.calls[a.c].prev == Some(c) {
        assert t.cleanups[|s.cleanups|].target == c;
      }
    }
  }

  lemma RequestsStep(s: State, a: Action)
    requires RequestsMatchPhases(s) && Enabled(s, a)
    ensures RequestsMatchPhases(Apply(s, a))
  {
    var t := Apply(s, a);
    forall c | c in t.calls ensures RequestFits(t.calls[c]) {
      assert c in s.calls ==> RequestFits(s.calls[c]);
    }
  }

  lemma NewestStep(s: State, a: Action)
    requires NewestWon(s) && Enabled(s, a)
    ensures NewestWon(Apply(s, a))
  {
    var t := Apply(s, a);
    forall ch | ch in t.newest
      ensures t.newest[ch] in t.calls && t.calls[t.newest[ch]].chain == ch && Won(t.calls[t.newest[ch]].phase)
    {
      if ch in s.newest && t.newest[ch] == s.newest[ch] {
        WinnersStayWinners(s, a, s.newest[ch]);
      }
    }
  }

  lemma StaysClosed(s: State, a: Action, c: CallId)
    requires Enabled(s, a) && !(a.Enter? && a.c == c)
    ensures c in Apply(s, a).calls && Open(Apply(s, a).calls[c].phase) ==> c in s.calls && Open(s.calls[c].phase)
    ensures c in Apply(s, a).calls ==>
              c in s.calls && Apply(s, a).calls[c].chain == s.calls[c].chain
              && Apply(s, a).calls[c].prev == s.calls[c].prev
  {
  }

  lemma OpenCallsStep(s: State, a: Action)
    requires ChainsSerial(s) && Enabled(s, a) && Disciplined(s, a)
    ensures ChainsSerial(Apply(s, a))
  {
    var t := Apply(s, a);
    forall c, d | c in t.calls && d in t.calls && t.calls[c].chain == t.calls[d].chain
                  && Open(t.calls[c].phase) && Open(t.calls[d].phase)
      ensures c == d
    {
      if !(a.Enter? && a.c == c) {
        StaysClosed(s, a, c);
      }
      if !(a.Enter? && a.c == d) {
        StaysClosed(s, a, d);
      }
    }
  }

  lemma CarryStep(s: State, a: Action)
    requires ChainsSerial(s) && OpenCallsCarryNewest(s) && Enabled(s, a) && Disciplined(s, a)
    ensures OpenCallsCarryNewest(Apply(s, a))
  {
    var t := Apply(s, a);
    forall c | c in t.calls && Open(t.calls[c].phase) && !t.calls[c].phase.Leaving?
      ensures t.calls[c].prev == Lookup(t.newest, t.calls[c].chain)
    {
      if !(a.Enter? && a.c == c) {
        StaysClosed(s, a, c);
        assert !s.calls[c].phase.Leaving?;
        if a.Commit? {
          assert c != a.c && s.calls[c].chain != s.calls[a.c].chain;
        }
      }
    }
  }

  lemma AccountedStep(s: State, a: Action)
    requires Accounted(s) && Enabled(s, a) && Disciplined(s, a)
    ensures Accounted(Apply(s, a))
  {
    RequestsStep(s, a);
    NewestStep(s, a);
    OpenCallsStep(s, a);
    CarryStep(s, a);
    LiveStep(s, a);
    TargetsStep(s, a);
    DeletedStep(s, a);
    WinnersStep(s, a);
  }

  lemma {:induction false} AccountedInEveryRun(tr: seq<State>, acts: seq<Action>, n: nat)
    requires IsDisciplinedRun(tr, acts) && n < |tr|
    ensures Accounted(tr[n])
  {
    if n > 0 {
      AccountedInEveryRun(tr, acts, n - 1);
      AccountedStep(tr[n - 1], acts[n - 1]);
    }
  }

  lemma LivePartition(s: State)
    requires Accounted(s)
    ensures s.live == s.newest.Values + Superseded(s) + Orphans(s) + Unclaimed(s)
    ensures s.newest.Values !! Superseded(s) !! Orphans(s) !! Unclaimed(s)
  {
  }

  lemma NewestCount(s: State)
    requires Accounted(s)
    ensures |s.newest.Values| == |s.newest|
  {
    ImageSize(s.newest.Keys, s.newest.Values, ch => if ch in s.newest then s.newest[ch] else 0);
  }

  function TargetAt(s: State, i: int): CallId {
    if 0 <= i < |s.cleanups| then s.cleanups[i].target else 0
  }

  lemma SupersededCount(s: State)
    requires TargetsDistinct(s)
    ensures |Superseded(s)| == |PendingCleanups(s)| + |FailedCleanups(s)|
  {
    var unhit := PendingCleanups(s) + FailedCleanups(s);
    assert |unhit| == |PendingCleanups(s)| + |FailedCleanups(s)|;
    forall i, j | i in unhit && j in unhit && TargetAt(s, i) == TargetAt(s, j) ensures i == j {
      assert i < j || j < i || i == j;
    }
    forall c | c in Superseded(s) ensures exists i :: i in unhit && TargetAt(s, i) == c {
      var i :| 0 <= i < |s.cleanups| && !s.cleanups[i].hit && s.cleanups[i].target == c;
      assert i in unhit && TargetAt(s, i) == c;
    }
    ImageSize(unhit, Superseded(s), i => TargetAt(s, i));
  }

  lemma AccountedCount(s: State)
    requires Accounted(s)
    ensures forall ch :: ch in s.newest ==> s.newest[ch] in s.live
    ensures |s.live| == |s.newest| + |PendingCleanups(s)| + |FailedCleanups(s)| + |Orphans(s)| + |Unclaimed(s)|
  {
    LivePartition(s);
    NewestCount(s);
    SupersededCount(s);
    forall ch | ch in s.newest ensures s.newest[ch] in s.live {
      assert s.newest[ch] in s.newest.Values;
    }
  }

  /**
   * In every reachable state the newest credential of every chain is live, and the number of live
   * credentials is exactly accounted for, whatever order calls and clean-ups run in.
   */
  lemma CredentialAccounting(tr: seq<State>, acts: seq<Action>, n: nat)
    requires IsDisciplinedRun(tr, acts) && n < |tr|
    ensures var s := tr[n];
      && (forall ch :: ch in s.newest ==> s.newest[ch] in s.live)
      && |s.live| == |s.newest| + |PendingCleanups(s)| + |FailedCleanups(s)| + |Orphans(s)| + |Unclaimed(s)|
  {
    AccountedInEveryRun(tr, acts, n);
    AccountedCount(tr[n]);
  }

  lemma {:induction false} VerdictsAreFinal(tr: seq<State>, acts: seq<Action>, i: nat, j: nat, c: CallId)
    requires IsRun(tr, acts) && i <= j < |tr| && c in tr[i].calls
    ensures c in tr[j].calls
    ensures Won(tr[i].calls[c].phase) ==> Won(tr[j].calls[c].phase)
    ensures Lost(tr[i].calls[c].phase) ==> Lost(tr[j].calls[c].phase)
    ensures tr[i].calls[c].phase == Returned(false) ==> tr[j].calls[c].phase == Returned(false)
    decreases j
  {
    if i < j {
      VerdictsAreFinal(tr, acts, i, j - 1, c);
      WinnersStayWinners(tr[j - 1], acts[j - 1], c);
    }
  }

  /** A Rotate that returns an error starts no delete, neither before nor after it returns. */
  lemma FailedRotateDeletesNothing(tr: seq<State>, acts: seq<Action>, j: nat, k: nat, c: CallId, i: nat)
    requires IsRun(tr, acts) && j < |tr| && k < |tr|
    requires c in tr[j].calls && tr[j].calls[c].phase == Returned(false)
    requires i < |tr[k].cleanups|
    ensures tr[k].cleanups[i].launcher != c
  {
    CountersExactInEveryRun(tr, acts, k);
    if tr[k].cleanups[i].launcher == c {
      if k <= j {
        VerdictsAreFinal(tr, acts, k, j, c);
      } else {
        VerdictsAreFinal(tr, acts, j, k, c);
      }
    }
  }
}
