/**
 * The Auth0 management-token cache: a double-checked lookup under a readers-writer lock, with the
 * fetch made while holding the write lock. Times are integers in milliseconds.
 *
 * The model is a transition system for any number of concurrent callers, one step per atomic action.
 */
module TokenCache {
  import opened Collections

  const REFRESH_BUF: int := 300_000
  const FETCH_TIMEOUT: int := 15_000
  const HANDLER_TIMEOUT: int := 25_000

  type CallerId = nat

  /** One successful fetch. Auth0 counts `expiresIn` from `issuedAt`, some moment during the fetch. */
  datatype Fetch = Fetch(token: string, startedAt: int, issuedAt: int, storedAt: int, expiresIn: int) {
    /** The expiry the cache computes when it stores the token. */
    function CachedExpiry(): int { storedAt + expiresIn }

    function TrueExpiry(): int { issuedAt + expiresIn }
  }

  /** `token` and `expiry` were read together at time `at`; `own` if this caller fetched them. */
  datatype Grant = Grant(token: string, expiry: int, at: int, own: bool)

  datatype Phase =
    | Entered
    | Reading
    | Missed
    | Writing
    | Fetching(startedAt: int)
    | Holding(g: Grant)
    | Sent(g: Grant, sentAt: int)
    | Failed

  /** `enteredAt` is no earlier than the start of the request handler the call runs in. */
  datatype Caller = Caller(enteredAt: int, phase: Phase)

  datatype State = State(
    clock: int, mgmtToken: string, tokenExpiry: int,
    readers: set<CallerId>, writer: Option<CallerId>,
    callers: map<CallerId, Caller>, fetches: seq<Fetch>)

  datatype Action =
    | Tick(to: int)
    | Enter(c: CallerId)
    | RLock(c: CallerId)
    | FastHit(c: CallerId)
    | FastMiss(c: CallerId)
    | Lock(c: CallerId)
    | SlowHit(c: CallerId)
    | StartFetch(c: CallerId)
    | FetchOk(c: CallerId, token: string, expiresIn: int, issuedAt: int)
    | FetchFail(c: CallerId)
    | Send(c: CallerId)

  function Initial(): State {
    State(0, "", 0, {}, None, map[], [])
  }

  predicate At(s: State, c: CallerId, p: Phase) {
    c in s.callers && s.callers[c].phase == p
  }

  /** The check made on both paths: a token is stored and has more than the buffer left. */
  predicate Usable(s: State) {
    s.mgmtToken != "" && s.tokenExpiry - s.clock > REFRESH_BUF
  }

  predicate Enabled(s: State, a: Action) {
    match a
    case Tick(to) => s.clock <= to
    case Enter(c) => c !in s.callers
    case RLock(c) => At(s, c, Entered) && s.writer == None
    case FastHit(c) => At(s, c, Reading) && Usable(s)
    case FastMiss(c) => At(s, c, Reading) && !Usable(s)
    case Lock(c) => At(s, c, Missed) && s.writer == None && s.readers == {}
    case SlowHit(c) => At(s, c, Writing) && Usable(s)
    case StartFetch(c) => At(s, c, Writing) && !Usable(s)
    case FetchOk(c, token, expiresIn, issuedAt) =>
      && c in s.callers && s.callers[c].phase.Fetching?
      && token != ""
      && s.callers[c].phase.startedAt <= issuedAt <= s.clock
      && s.clock <= s.callers[c].phase.startedAt + FETCH_TIMEOUT
      && s.clock <= s.callers[c].enteredAt + HANDLER_TIMEOUT
    case FetchFail(c) => c in s.callers && s.callers[c].phase.Fetching?
    case Send(c) => c in s.callers && s.callers[c].phase.Holding?
                    && s.clock <= s.callers[c].enteredAt + HANDLER_TIMEOUT
  }

  function SetPhase(s: State, c: CallerId, p: Phase): State
    requires c in s.callers
  {
    s.(callers := s.callers[c := s.callers[c].(phase := p)])
  }

  function Apply(s: State, a: Action): State
    requires Enabled(s, a)
  {
    match a
    case Tick(to) => s.(clock := to)
    case Enter(c) => s.(callers := s.callers[c := Caller(s.clock, Entered)])
    case RLock(c) => SetPhase(s, c, Reading).(readers := s.readers + {c})
    case FastHit(c) =>
      SetPhase(s, c, Holding(Grant(s.mgmtToken, s.tokenExpiry, s.clock, false))).(readers := s.readers - {c})
    case FastMiss(c) => SetPhase(s, c, Missed).(readers := s.readers - {c})
    case Lock(c) => SetPhase(s, c, Writing).(writer := Some(c))
    case SlowHit(c) =>
      SetPhase(s, c, Holding(Grant(s.mgmtToken, s.tokenExpiry, s.clock, false))).(writer := None)
    case StartFetch(c) => SetPhase(s, c, Fetching(s.clock))
    case FetchOk(c, token, expiresIn, issuedAt) =>
      SetPhase(s, c, Holding(Grant(token, s.clock + expiresIn, s.clock, true))).(
      writer := None, mgmtToken := token, tokenExpiry := s.clock + expiresIn,
      fetches := s.fetches + [Fetch(token, s.callers[c].phase.startedAt, issuedAt, s.clock, expiresIn)])
    case FetchFail(c) => SetPhase(s, c, Failed).(writer := None)
    case Send(c) => SetPhase(s, c, Sent(s.callers[c].phase.g, s.clock))
  }

  ghost predicate IsRun(tr: seq<State>, acts: seq<Action>) {
    && |tr| == |acts| + 1
    && tr[0] == Initial()
    && forall i {:trigger acts[i]} :: 0 <= i < |acts| ==> Enabled(tr[i], acts[i]) && tr[i + 1] == Apply(tr[i], acts[i])
  }

  // ---- Invariants --------------------------------------------------------------------------

  predicate HasWriteLock(p: Phase) {
    p == Writing || p.Fetching?
  }

  ghost predicate LockExact(s: State) {
    && (forall c :: c in s.readers <==> At(s, c, Reading))
    && (forall c :: c in s.callers && HasWriteLock(s.callers[c].phase) <==> s.writer == Some(c))
    && (s.writer != None ==> s.readers == {})
  }

  ghost predicate CacheIsLastFetch(s: State) {
    if s.fetches == [] then s.mgmtToken == ""
    else
      var f := s.fetches[|s.fetches| - 1];
      s.mgmtToken == f.token != "" && s.tokenExpiry == f.CachedExpiry()
  }

  ghost predicate FetchTimes(s: State) {
    forall k :: 0 <= k < |s.fetches| ==>
      var f := s.fetches[k];
      f.startedAt <= f.issuedAt <= f.storedAt <= f.startedAt + FETCH_TIMEOUT && f.storedAt <= s.clock
  }

  ghost predicate Spaced(s: State) {
    forall k :: 0 < k < |s.fetches| ==>
      s.fetches[k].storedAt >= s.fetches[k - 1].storedAt + s.fetches[k - 1].expiresIn - REFRESH_BUF
  }

  /** A fetch in progress began when what is cached was missing or close to its expiry. */
  ghost predicate FetchesNeeded(s: State) {
    forall c :: c in s.callers && s.callers[c].phase.Fetching? ==>
      var start := s.callers[c].phase.startedAt;
      s.callers[c].enteredAt <= start <= s.clock
      && (s.fetches == [] || s.fetches[|s.fetches| - 1].CachedExpiry() - start <= REFRESH_BUF)
  }

  /** Token and expiry of the grant were stored together by one fetch. */
  ghost predicate PairedBy(g: Grant, f: Fetch) {
    && g.token == f.token && g.expiry == f.CachedExpiry()
    && f.storedAt <= g.at
    && (g.own ==> g.at == f.storedAt)
  }

  ghost predicate GoodGrant(s: State, entered: int, g: Grant) {
    && entered <= g.at <= s.clock
    && (!g.own ==> g.expiry - g.at > REFRESH_BUF)
    && (exists k :: 0 <= k < |s.fetches| && PairedBy(g, s.fetches[k])
                    && (g.own ==> entered <= s.fetches[k].startedAt))
  }

  ghost predicate GoodCaller(s: State, c: Caller) {
    && c.enteredAt <= s.clock
    && (c.phase.Holding? ==> GoodGrant(s, c.enteredAt, c.phase.g))
    && (c.phase.Sent? ==>
          GoodGrant(s, c.enteredAt, c.phase.g) && c.phase.g.at <= c.phase.sentAt <= c.enteredAt + HANDLER_TIMEOUT)
  }

  ghost predicate GoodCallers(s: State) {
    forall c :: c in s.callers ==> GoodCaller(s, s.callers[c])
  }

  ghost predicate Inv(s: State) {
    && LockExact(s) && CacheIsLastFetch(s) && FetchTimes(s) && Spaced(s) && FetchesNeeded(s) && GoodCallers(s)
  }

  lemma LockStep(s: State, a: Action)
    requires LockExact(s) && Enabled(s, a)
    ensures LockExact(Apply(s, a))
  {
  }

  lemma FetchesStep(s: State, a: Action)
    requires Inv(s) && Enabled(s, a)
    ensures var t := Apply(s, a); CacheIsLastFetch(t) && FetchTimes(t) && Spaced(t)
  {
  }

  lemma NeededStep(s: State, a: Action)
    requires Inv(s) && Enabled(s, a)
    ensures FetchesNeeded(Apply(s, a))
  {
    var t := Apply(s, a);
    LockStep(s, a);
    forall c | c in t.callers && t.callers[c].phase.Fetching?
      ensures t.callers[c].enteredAt <= t.callers[c].phase.startedAt <= t.clock
      ensures t.fetches == [] ||
              t.fetches[|t.fetches| - 1].CachedExpiry() - t.callers[c].phase.startedAt <= REFRESH_BUF
    {
      assert t.writer == Some(c);
      assert GoodCaller(s, s.callers[c]);
    }
  }

  lemma GrantKept(s: State, a: Action, entered: int, g: Grant)
    requires Enabled(s, a) && GoodGrant(s, entered, g)
    ensures GoodGrant(Apply(s, a), entered, g)
  {
    var t := Apply(s, a);
    var k :| 0 <= k < |s.fetches| && PairedBy(g, s.fetches[k]) && (g.own ==> entered <= s.fetches[k].startedAt);
    assert t.fetches[k] == s.fetches[k];
  }

  lemma CallersStep(s: State, a: Action)
    requires Inv(s) && Enabled(s, a)
    ensures GoodCallers(Apply(s, a))
  {
    var t := Apply(s, a);
    forall c | c in t.callers ensures GoodCaller(t, t.callers[c]) {
      if c in s.callers {
        var phase := s.callers[c].phase;
        assert GoodCaller(s, s.callers[c]);
        if phase.Holding? || phase.Sent? {
          GrantKept(s, a, s.callers[c].enteredAt, phase.g);
        } else if t.callers[c].phase.Holding? {
          var last := t.fetches[|t.fetches| - 1];
          assert PairedBy(t.callers[c].phase.g, last);
        }
      }
    }
  }

  lemma {:induction false} InvInEveryRun(tr: seq<State>, acts: seq<Action>, n: nat)
    requires IsRun(tr, acts) && n < |tr|
    ensures Inv(tr[n])
  {
    if n > 0 {
      InvInEveryRun(tr, acts, n - 1);
      LockStep(tr[n - 1], acts[n - 1]);
      FetchesStep(tr[n - 1], acts[n - 1]);
      NeededStep(tr[n - 1], acts[n - 1]);
      CallersStep(tr[n - 1], acts[n - 1]);
    }
  }

  // ---- Results -----------------------------------------------------------------------------

  /** At most one fetch is in progress, and nobody reads the cache meanwhile. */
  lemma SingleFlight(tr: seq<State>, acts: seq<Action>, n: nat, c: CallerId, d: CallerId)
    requires IsRun(tr, acts) && n < |tr|
    requires c in tr[n].callers && tr[n].callers[c].phase.Fetching?
    requires d in tr[n].callers && (HasWriteLock(tr[n].callers[d].phase) || tr[n].callers[d].phase == Reading)
    ensures c == d
  {
    InvInEveryRun(tr, acts, n);
    assert tr[n].writer == Some(c);
    assert d !in tr[n].readers;
  }

  /** Two consecutive successful fetches complete at least `expires_in` less the buffer apart. */
  lemma FetchSpacing(tr: seq<State>, acts: seq<Action>, n: nat, k: nat)
    requires IsRun(tr, acts) && n < |tr| && 0 < k < |tr[n].fetches|
    ensures tr[n].fetches[k].storedAt - tr[n].fetches[k - 1].storedAt >= tr[n].fetches[k - 1].expiresIn - 300_000
  {
    InvInEveryRun(tr, acts, n);
  }

  /**
   * A token that is handed out is paired with the expiry that was checked, both from one fetch, and
   * unless the caller fetched it itself it had more than the buffer left when checked.
   */
  lemma GrantsArePaired(tr: seq<State>, acts: seq<Action>, n: nat, c: CallerId)
    returns (f: Fetch)
    requires IsRun(tr, acts) && n < |tr| && c in tr[n].callers
    requires tr[n].callers[c].phase.Holding? || tr[n].callers[c].phase.Sent?
    ensures f in tr[n].fetches && PairedBy(tr[n].callers[c].phase.g, f)
    ensures var g := tr[n].callers[c].phase.g;
      if g.own then tr[n].callers[c].enteredAt <= f.startedAt else g.expiry - g.at > 300_000
  {
    InvInEveryRun(tr, acts, n);
    var s := tr[n];
    var g := s.callers[c].phase.g;
    assert GoodCaller(s, s.callers[c]);
    var k :| 0 <= k < |s.fetches| && PairedBy(g, s.fetches[k])
             && (g.own ==> s.callers[c].enteredAt <= s.fetches[k].startedAt);
    f := s.fetches[k];
  }

  /**
   * Every request that carries a cached token is sent more than 300 - 15 - 25 = 260 s before the
   * token's true expiry; one that carries the caller's own token is sent at most 25 s into its life.
   */
  lemma SentTokensAreFresh(tr: seq<State>, acts: seq<Action>, n: nat, c: CallerId)
    returns (f: Fetch)
    requires IsRun(tr, acts) && n < |tr| && c in tr[n].callers && tr[n].callers[c].phase.Sent?
    ensures f in tr[n].fetches && f.token == tr[n].callers[c].phase.g.token
    ensures var p := tr[n].callers[c].phase;
      if p.g.own then f.TrueExpiry() - p.sentAt >= f.expiresIn - 25_000
      else f.TrueExpiry() - p.sentAt > 260_000
  {
    f := GrantsArePaired(tr, acts, n, c);
    InvInEveryRun(tr, acts, n);
    assert GoodCaller(tr[n], tr[n].callers[c]);
  }

  /** Extends a run by one step. */
  lemma Extend(tr: seq<State>, acts: seq<Action>, a: Action) returns (tr': seq<State>, acts': seq<Action>)
    requires IsRun(tr, acts) && Enabled(tr[|acts|], a)
    ensures IsRun(tr', acts') && tr'[|acts'|] == Apply(tr[|acts|], a)
  {
    tr', acts' := tr + [Apply(tr[|acts|], a)], acts + [a];
  }

  lemma FetchStarts() returns (tr: seq<State>, acts: seq<Action>)
    ensures IsRun(tr, acts)
    ensures tr[|acts|] == Initial().(callers := map[0 := Caller(0, Fetching(0))], writer := Some(0))
  {
    tr, acts := [Initial()], [];
    tr, acts := Extend(tr, acts, Enter(0));
    tr, acts := Extend(tr, acts, RLock(0));
    tr, acts := Extend(tr, acts, FastMiss(0));
    assert tr[|acts|] == Initial().(callers := map[0 := Caller(0, Missed)]);
    tr, acts := Extend(tr, acts, Lock(0));
    tr, acts := Extend(tr, acts, StartFetch(0));
  }

  /** A fetch that takes its full 15 s, for a token Auth0 counts from the start of the fetch. */
  lemma SlowFetch() returns (tr: seq<State>, acts: seq<Action>)
    ensures IsRun(tr, acts)
    ensures var s := tr[|acts|];
      && s.clock == 15_000 && s.mgmtToken == "token" && s.tokenExpiry == 615_000 && s.writer == None
      && s.fetches == [Fetch("token", 0, 0, 15_000, 600_000)] && 1 !in s.callers
  {
    tr, acts := FetchStarts();
    tr, acts := Extend(tr, acts, Tick(15_000));
    tr, acts := Extend(tr, acts, FetchOk(0, "token", 600_000, 0));
  }

  /** The bound of 260 s is tight: a cached token can be sent 260 s and 1 ms before its true expiry. */
  lemma FreshnessIsTight() returns (tr: seq<State>, acts: seq<Action>)
    ensures IsRun(tr, acts)
    ensures var s := tr[|acts|];
      && 1 in s.callers && s.callers[1].phase.Sent? && !s.callers[1].phase.g.own
      && |s.fetches| == 1 && s.fetches[0].TrueExpiry() - s.callers[1].phase.sentAt == 260_001
  {
    tr, acts := SlowFetch();
    tr, acts := Extend(tr, acts, Tick(314_999));
    tr, acts := Extend(tr, acts, Enter(1));
    tr, acts := Extend(tr, acts, RLock(1));
    tr, acts := Extend(tr, acts, FastHit(1));
    tr, acts := Extend(tr, acts, Tick(339_999));
    tr, acts := Extend(tr, acts, Send(1));
  }

  // ---- The cache itself --------------------------------------------------------------------

  /** Answer of the token endpoint. */
  datatype Reply =
    | Unreachable
    | Reply(status: int, parsed: bool, accessToken: string, expiresInSeconds: int)
  {
    predicate Accepted() {
      Reply? && status == 200 && parsed && accessToken != ""
    }
  }

  /** The cache, with the run of the protocol so far. */
  class Cache {
    var mgmtToken: string
    var tokenExpiry: int
    ghost var clock: int
    ghost var readers: set<CallerId>
    ghost var writer: Option<CallerId>
    ghost var callers: map<CallerId, Caller>
    ghost var fetches: seq<Fetch>
    ghost var tr: seq<State>
    ghost var acts: seq<Action>

    ghost function View(): State
      reads this
    {
      State(clock, mgmtToken, tokenExpiry, readers, writer, callers, fetches)
    }

    ghost predicate Valid()
      reads this
    {
      IsRun(tr, acts) && tr[|acts|] == View()
    }

    ghost predicate LockFree()
      reads this
    {
      readers == {} && writer == None
    }

    constructor ()
      ensures Valid() && View() == Initial()
    {
      mgmtToken, tokenExpiry := "", 0;
      clock, readers, writer, callers, fetches := 0, {}, None, map[], [];
      tr, acts := [Initial()], [];
    }

    /** Records a step, after the token and its expiry have been set. */
    ghost method Record(s: State, a: Action)
      requires IsRun(tr, acts) && tr[|acts|] == s && Enabled(s, a)
      requires mgmtToken == Apply(s, a).mgmtToken && tokenExpiry == Apply(s, a).tokenExpiry
      modifies this`clock, this`readers, this`writer, this`callers, this`fetches, this`tr, this`acts
      ensures Valid() && View() == Apply(s, a) && old(tr) <= tr
    {
      var t := Apply(s, a);
      clock, readers, writer, callers, fetches := t.clock, t.readers, t.writer, t.callers, t.fetches;
      tr, acts := tr + [t], acts + [a];
    }

    predicate UsableAt(now: int)
      reads this
    {
      mgmtToken != "" && tokenExpiry - now > REFRESH_BUF
    }

    /** The caller arrives and takes the read lock. */
    ghost method Arrive(c: CallerId, now: int)
      requires Valid() && LockFree() && c !in callers && clock <= now
      modifies this`clock, this`readers, this`writer, this`callers, this`fetches, this`tr, this`acts
      ensures Valid() && old(tr) <= tr && clock == now && readers == {c} && writer == None
      ensures fetches == old(fetches) && callers == old(callers)[c := Caller(now, Reading)]
    {
      Record(View(), Tick(now));
      Record(View(), Enter(c));
      Record(View(), RLock(c));
    }

    /** The fast path: the check under the read lock, for a caller that arrives at `now`. */
    method CheckCached(ghost c: CallerId, now: int) returns (hit: bool)
      requires Valid() && LockFree() && c !in callers && clock <= now
      modifies this`clock, this`readers, this`writer, this`callers, this`fetches, this`tr, this`acts
      ensures Valid() && old(tr) <= tr && LockFree() && clock == now && fetches == old(fetches)
      ensures hit <==> mgmtToken != "" && tokenExpiry - now > 300_000
      ensures callers == old(callers)[c := Caller(
                now, if hit then Holding(Grant(mgmtToken, tokenExpiry, now, false)) else Missed)]
    {
      Arrive(c, now);
      hit := UsableAt(now);
      Record(View(), if hit then FastHit(c) else FastMiss(c));
    }

    /** The second check, at `now` under the write lock, which a miss keeps for the fetch. */
    method CheckAgain(ghost c: CallerId, now: int) returns (hit: bool)
      requires Valid() && LockFree() && c in callers && callers[c].phase == Missed && clock <= now
      modifies this`clock, this`readers, this`writer, this`callers, this`fetches, this`tr, this`acts
      ensures Valid() && old(tr) <= tr && readers == {} && clock == now && fetches == old(fetches)
      ensures hit <==> mgmtToken != "" && tokenExpiry - now > 300_000
      ensures writer == if hit then None else Some(c)
      ensures callers == old(callers)[c := old(callers[c]).(
                phase := if hit then Holding(Grant(mgmtToken, tokenExpiry, now, false)) else Fetching(now))]
    {
      Record(View(), Lock(c));
      Record(View(), Tick(now));
      hit := UsableAt(now);
      Record(View(), if hit then SlowHit(c) else StartFetch(c));
    }

    /** The end of the fetch, at `now`: the answer is taken over whole, or not at all. */
    method EndFetch(ghost c: CallerId, reply: Reply, ghost issuedAt: int, now: int) returns (r: Result<string>)
      requires Valid() && readers == {} && writer == Some(c) && clock <= now
      requires c in callers && callers[c].phase.Fetching?
      requires reply.Accepted() ==>
                 && callers[c].phase.startedAt <= issuedAt <= now <= callers[c].phase.startedAt + FETCH_TIMEOUT
                 && now <= callers[c].enteredAt + HANDLER_TIMEOUT
      modifies this
      ensures Valid() && old(tr) <= tr && LockFree() && clock == now
      ensures r.Ok? <==> reply.Reply? && reply.status == 200 && reply.parsed && reply.accessToken != ""
      ensures r.Ok? ==>
                r.value == mgmtToken == reply.accessToken && tokenExpiry == now + reply.expiresInSeconds * 1000
      ensures r.Err? ==> mgmtToken == old(mgmtToken) && tokenExpiry == old(tokenExpiry)
      ensures callers == old(callers)[c := old(callers[c]).(
                phase := if r.Ok? then Holding(Grant(mgmtToken, tokenExpiry, now, true)) else Phase.Failed)]
    {
      Record(View(), Tick(now));
      ghost var s := View();
      if reply.Unreachable? {
        r := Err("token request");
      } else if reply.status != 200 {
        r := Err("token endpoint status");
      } else if !reply.parsed {
        r := Err("parse token response");
      } else if reply.accessToken == "" {
        r := Err("empty access_token in response");
      } else {
        mgmtToken := reply.accessToken;
        tokenExpiry := now + reply.expiresInSeconds * 1000;
        r := Ok(mgmtToken);
      }
      Record(s, if r.Ok? then FetchOk(c, reply.accessToken, reply.expiresInSeconds * 1000, issuedAt) else FetchFail(c));
    }

    /**
     * `managementToken` for a caller that runs alone; `checked`, `rechecked` and `stored` are the
     * three readings of the clock. An accepted answer comes within the timeouts.
     */
    method ManagementToken(
      ghost c: CallerId, checked: int, rechecked: int, reply: Reply, ghost issuedAt: int, stored: int)
      returns (r: Result<string>, fetched: bool)
      requires Valid() && LockFree() && c !in callers && clock <= checked <= rechecked <= stored
      requires reply.Accepted() ==>
                 rechecked <= issuedAt <= stored <= rechecked + FETCH_TIMEOUT && stored <= checked + HANDLER_TIMEOUT
      modifies this
      ensures Valid() && old(tr) <= tr && LockFree()
      ensures fetched <==> old(mgmtToken) == "" || old(tokenExpiry) - checked <= 300_000
      ensures !fetched ==> r == Ok(old(mgmtToken))
      ensures fetched ==>
                (r.Ok? <==> reply.Reply? && reply.status == 200 && reply.parsed && reply.accessToken != "")
      ensures fetched && r.Ok? ==>
                r.value == mgmtToken == reply.accessToken && tokenExpiry == stored + reply.expiresInSeconds * 1000
      ensures !fetched || r.Err? ==> mgmtToken == old(mgmtToken) && tokenExpiry == old(tokenExpiry)
      ensures callers == old(callers)[c := Caller(checked,
                if r.Err? then Phase.Failed
                else Holding(Grant(r.value, tokenExpiry, if fetched then stored else checked, fetched)))]
    {
      fetched := false;
      var hit := CheckCached(c, checked);
      if hit {
        return Ok(mgmtToken), false;
      }
      hit := CheckAgain(c, rechecked);
      if hit {
        return Ok(mgmtToken), false;
      }
      fetched := true;
      r := EndFetch(c, reply, issuedAt, stored);
    }

    /** Whatever calls were made, and however they were interleaved: successive fetches are spaced. */
    lemma Spacing(k: nat)
      requires Valid() && 0 < k < |fetches|
      ensures fetches[k].storedAt - fetches[k - 1].storedAt >= fetches[k - 1].expiresIn - 300_000
    {
      FetchSpacing(tr, acts, |acts|, k);
    }

    /** A cached token that was handed out is good for 260 s more at any time its caller may use it. */
    lemma CachedIsFresh(c: CallerId, t: int) returns (f: Fetch)
      requires Valid() && c in callers && callers[c].phase.Holding? && !callers[c].phase.g.own
      requires t <= callers[c].enteredAt + 25_000
      ensures f in fetches && f.token == callers[c].phase.g.token && f.TrueExpiry() - t > 260_000
    {
      f := GrantsArePaired(tr, acts, |acts|, c);
      InvInEveryRun(tr, acts, |acts|);
      assert GoodCaller(View(), callers[c]);
    }
  }
}
