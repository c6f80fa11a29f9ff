/**
 * The fault-injecting mock provider: a channel that requests block on, replaced and closed under a
 * mutex, and counters of what became of each request.
 *
 * The model is a transition system for any number of concurrent requests, one step per atomic
 * action; the mutex makes each of Block, Unblock, Reset and the snapshot of a request one action.
 */
module FaultInjector {
  import opened Collections

  type RequestId = nat
  type Channel = nat

  datatype Verdict = TooMany | ServerError | Success | GatewayTimeout

  /** `Waiting(ch)` is inside the select on a blocking channel. */
  datatype Phase = Counted | Waiting(ch: Channel) | Rolling | Answered(verdict: Verdict)

  /** Channels are numbered in the order they are made; `made` is how many there are. */
  datatype State = State(
    blockCh: Option<Channel>, made: nat, closed: set<Channel>,
    total: int, rejected429: int, serverErrors: int, successes: int,
    requests: map<RequestId, Phase>)

  /** `Unblock` also stands for what Reset does to the channel. */
  datatype Action =
    | Block
    | Unblock
    | Count(r: RequestId)
    | Snapshot(r: RequestId)
    | Wake(r: RequestId)
    | Cancel(r: RequestId)
    | Roll(r: RequestId, verdict: Verdict)

  function Initial(): State {
    State(None, 0, {}, 0, 0, 0, 0, map[])
  }

  predicate At(s: State, r: RequestId, p: Phase) {
    r in s.requests && s.requests[r] == p
  }

  predicate Enabled(s: State, a: Action) {
    match a
    case Block => true
    case Unblock => true
    case Count(r) => r !in s.requests
    case Snapshot(r) => At(s, r, Counted)
    case Wake(r) => r in s.requests && s.requests[r].Waiting? && s.requests[r].ch in s.closed
    case Cancel(r) => r in s.requests && s.requests[r].Waiting?
    case Roll(r, v) => At(s, r, Rolling) && v != GatewayTimeout
  }

  function SetPhase(s: State, r: RequestId, p: Phase): State {
    s.(requests := s.requests[r := p])
  }

  function Apply(s: State, a: Action): State
    requires Enabled(s, a)
  {
    match a
    case Block => s.(blockCh := Some(s.made), made := s.made + 1)
    case Unblock => if s.blockCh == None then s else s.(closed := s.closed + {s.blockCh.value}, blockCh := None)
    case Count(r) => SetPhase(s, r, Counted).(total := s.total + 1)
    case Snapshot(r) => SetPhase(s, r, if s.blockCh.Some? then Waiting(s.blockCh.value) else Rolling)
    case Wake(r) => SetPhase(s, r, Rolling)
    case Cancel(r) => SetPhase(s, r, Answered(GatewayTimeout))
    case Roll(r, v) =>
      var t := SetPhase(s, r, Answered(v));
      (match v
       case TooMany => t.(rejected429 := s.rejected429 + 1)
       case ServerError => t.(serverErrors := s.serverErrors + 1)
       case Success => t.(successes := s.successes + 1)
       case GatewayTimeout => t)
  }

  ghost predicate IsRun(tr: seq<State>, acts: seq<Action>) {
    && |tr| == |acts| + 1
    && tr[0] == Initial()
    && forall i {:trigger acts[i]} :: 0 <= i < |acts| ==> Enabled(tr[i], acts[i]) && tr[i + 1] == Apply(tr[i], acts[i])
  }

  // ---- Accounting --------------------------------------------------------------------------

  function With(s: State, v: Verdict): set<RequestId> {
    set r | r in s.requests && s.requests[r] == Answered(v)
  }

  function Inside(s: State): set<RequestId> {
    set r | r in s.requests && !s.requests[r].Answered?
  }

  ghost predicate CountersExact(s: State) {
    && s.total == |s.requests.Keys|
    && s.rejected429 == |With(s, TooMany)|
    && s.serverErrors == |With(s, ServerError)|
    && s.successes == |With(s, Success)|
  }

  /** The step answers request r with verdict v. */
  predicate Answers(a: Action, r: RequestId, v: Verdict) {
    (a == Roll(r, v)) || (a == Cancel(r) && v == GatewayTimeout)
  }

  lemma AnswerMoves(s: State, a: Action, r: RequestId, v: Verdict)
    requires Enabled(s, a)
    ensures r in With(Apply(s, a), v) <==> r in With(s, v) || Answers(a, r, v)
    ensures Answers(a, r, v) ==> r !in With(s, v)
  {
  }

  lemma VerdictCount(s: State, t: State, r: RequestId, v: Verdict, answered: bool)
    requires forall q :: q in With(t, v) <==> q in With(s, v) || (answered && q == r)
    requires answered ==> r !in With(s, v)
    ensures |With(t, v)| == |With(s, v)| + if answered then 1 else 0
  {
    assert With(t, v) == With(s, v) + if answered then {r} else {};
  }

  lemma VerdictStep(s: State, a: Action, v: Verdict)
    requires Enabled(s, a)
    ensures |With(Apply(s, a), v)| ==
              |With(s, v)| + if (a.Roll? || a.Cancel?) && Answers(a, a.r, v) then 1 else 0
  {
    var r := if a.Roll? || a.Cancel? then a.r else 0;
    forall q
      ensures q in With(Apply(s, a), v) <==> q in With(s, v) || (Answers(a, r, v) && q == r)
      ensures Answers(a, q, v) ==> q !in With(s, v)
    {
      AnswerMoves(s, a, q, v);
    }
    VerdictCount(s, Apply(s, a), r, v, Answers(a, r, v));
  }

  lemma TotalStep(s: State, a: Action)
    requires Enabled(s, a) && s.total == |s.requests.Keys|
    ensures Apply(s, a).total == |Apply(s, a).requests.Keys|
  {
    var t := Apply(s, a);
    if a.Count? {
      assert t.requests.Keys == s.requests.Keys + {a.r};
    } else {
      assert t.requests.Keys == s.requests.Keys;
    }
  }

  lemma {:induction false} CountersInEveryRun(tr: seq<State>, acts: seq<Action>, n: nat)
    requires IsRun(tr, acts) && n < |tr|
    ensures CountersExact(tr[n])
  {
    if n == 0 {
      assert forall v :: With(Initial(), v) == {};
    } else {
      CountersInEveryRun(tr, acts, n - 1);
      TotalStep(tr[n - 1], acts[n - 1]);
      VerdictStep(tr[n - 1], acts[n - 1], TooMany);
      VerdictStep(tr[n - 1], acts[n - 1], ServerError);
      VerdictStep(tr[n - 1], acts[n - 1], Success);
    }
  }

  lemma Partition(s: State)
    ensures |s.requests.Keys| == |With(s, TooMany)| + |With(s, ServerError)| + |With(s, Success)|
                                 + |With(s, GatewayTimeout)| + |Inside(s)|
  {
    var a, b, c, d, e := With(s, TooMany), With(s, ServerError), With(s, Success), With(s, GatewayTimeout), Inside(s);
    assert s.requests.Keys == a + b + c + d + e by {
      forall r | r in s.requests.Keys ensures r in a + b + c + d + e {
        if s.requests[r].Answered? {
          var v := s.requests[r].verdict;
          assert v.TooMany? || v.ServerError? || v.Success? || v.GatewayTimeout?;
        }
      }
    }
    assert |a + b| == |a| + |b|;
    assert |a + b + c| == |a + b| + |c|;
    assert |a + b + c + d| == |a + b + c| + |d|;
  }

  /** Every request counted is a 429, a 500, a success, a cancelled 504, or still inside. */
  lemma RequestsAccounted(tr: seq<State>, acts: seq<Action>, n: nat)
    requires IsRun(tr, acts) && n < |tr|
    ensures var s := tr[n];
      s.total == s.rejected429 + s.serverErrors + s.successes + |With(s, GatewayTimeout)| + |Inside(s)|
  {
    CountersInEveryRun(tr, acts, n);
    Partition(tr[n]);
  }

  // ---- Channels ----------------------------------------------------------------------------

  ghost predicate ChannelsFresh(s: State) {
    && (s.blockCh.Some? ==> s.blockCh.value < s.made && s.blockCh.value !in s.closed)
    && (forall ch :: ch in s.closed ==> ch < s.made)
    && (forall r :: r in s.requests && s.requests[r].Waiting? ==> s.requests[r].ch < s.made)
  }

  /** Made, not closed, and no longer the blocking channel: nothing will ever close it. */
  predicate Leaked(s: State, ch: Channel) {
    ch < s.made && ch !in s.closed && s.blockCh != Some(ch)
  }

  lemma {:induction false} ChannelsInEveryRun(tr: seq<State>, acts: seq<Action>, n: nat)
    requires IsRun(tr, acts) && n < |tr|
    ensures ChannelsFresh(tr[n])
  {
    if n > 0 {
      ChannelsInEveryRun(tr, acts, n - 1);
      assert Enabled(tr[n - 1], acts[n - 1]);
    }
  }

  /** No channel is closed twice: the channel that Unblock closes is open. */
  lemma ClosedOnce(tr: seq<State>, acts: seq<Action>, n: nat)
    requires IsRun(tr, acts) && n < |tr| && tr[n].blockCh.Some?
    ensures tr[n].blockCh.value !in tr[n].closed
  {
    ChannelsInEveryRun(tr, acts, n);
  }

  /** A step leaks a channel exactly when it is a Block while already blocked. */
  lemma BlockLeaksExactly(s: State, a: Action, ch: Channel)
    requires ChannelsFresh(s) && Enabled(s, a)
    ensures Leaked(Apply(s, a), ch) <==> Leaked(s, ch) || (a == Block && s.blockCh == Some(ch))
  {
  }

  /** A leaked channel stays leaked, and a request waiting on it can only be cancelled. */
  lemma {:induction false} LeakedWaiterOnlyCancelled(tr: seq<State>, acts: seq<Action>, i: nat, j: nat, r: RequestId)
    requires IsRun(tr, acts) && i <= j < |tr|
    requires r in tr[i].requests && tr[i].requests[r].Waiting? && Leaked(tr[i], tr[i].requests[r].ch)
    ensures r in tr[j].requests
    ensures (tr[j].requests[r] == tr[i].requests[r] && Leaked(tr[j], tr[i].requests[r].ch))
            || tr[j].requests[r] == Answered(GatewayTimeout)
    decreases j
  {
    if i < j {
      LeakedWaiterOnlyCancelled(tr, acts, i, j - 1, r);
      ChannelsInEveryRun(tr, acts, j - 1);
      BlockLeaksExactly(tr[j - 1], acts[j - 1], tr[i].requests[r].ch);
    }
  }

  /** Some Block before step n found the provider already blocked on this channel. */
  predicate Overwritten(tr: seq<State>, acts: seq<Action>, n: nat, ch: Channel)
    requires n <= |acts| < |tr|
  {
    n > 0 && (Overwritten(tr, acts, n - 1, ch) || (acts[n - 1] == Block && tr[n - 1].blockCh == Some(ch)))
  }

  lemma {:induction false} OverwrittenMeans(tr: seq<State>, acts: seq<Action>, n: nat, ch: Channel)
    requires n <= |acts| < |tr|
    ensures Overwritten(tr, acts, n, ch) <==>
              exists i :: 0 <= i < n && acts[i] == Block && tr[i].blockCh == Some(ch)
  {
    if n > 0 {
      OverwrittenMeans(tr, acts, n - 1, ch);
    }
  }

  lemma {:induction false} LeaksInEveryRun(tr: seq<State>, acts: seq<Action>, n: nat, ch: Channel)
    requires IsRun(tr, acts) && n < |tr|
    ensures Leaked(tr[n], ch) <==> Overwritten(tr, acts, n, ch)
  {
    if n > 0 {
      LeaksInEveryRun(tr, acts, n - 1, ch);
      ChannelsInEveryRun(tr, acts, n - 1);
      BlockLeaksExactly(tr[n - 1], acts[n - 1], ch);
    }
  }

  /**
   * After Unblock or Reset a waiting request can go on exactly if Block was never called while the
   * provider was already blocked on the channel the request waits for.
   */
  lemma UnblockReleasesExactly(tr: seq<State>, acts: seq<Action>, n: nat, r: RequestId)
    requires IsRun(tr, acts) && n < |acts| && acts[n] == Unblock
    requires r in tr[n + 1].requests && tr[n + 1].requests[r].Waiting?
    ensures Enabled(tr[n + 1], Wake(r)) <==> !Overwritten(tr, acts, n, tr[n + 1].requests[r].ch)
  {
    var ch := tr[n + 1].requests[r].ch;
    ChannelsInEveryRun(tr, acts, n + 1);
    LeaksInEveryRun(tr, acts, n + 1, ch);
    assert tr[n + 1].blockCh == None;
  }

  /** If Block is never called while already blocked, Unblock leaves no request waiting. */
  lemma {:induction false} UnblockReleasesAll(tr: seq<State>, acts: seq<Action>, n: nat, r: RequestId)
    requires IsRun(tr, acts) && n < |acts| && acts[n] == Unblock
    requires forall i {:trigger acts[i]} :: 0 <= i < n && acts[i] == Block ==> tr[i].blockCh == None
    requires r in tr[n + 1].requests && tr[n + 1].requests[r].Waiting?
    ensures Enabled(tr[n + 1], Wake(r))
  {
    UnblockReleasesExactly(tr, acts, n, r);
    OverwrittenMeans(tr, acts, n, tr[n + 1].requests[r].ch);
  }

  /** A second Block strands a waiting request: Unblock, which should release it, does not. */
  lemma SecondBlockStrandsRequest() returns (tr: seq<State>, acts: seq<Action>)
    ensures IsRun(tr, acts) && |acts| > 0 && acts[|acts| - 1] == Unblock
    ensures var s := tr[|acts|];
      0 in s.requests && s.requests[0].Waiting? && s.blockCh == None && Leaked(s, s.requests[0].ch)
  {
    var s0 := Initial();
    var s1 := s0.(blockCh := Some(0), made := 1);
    var s2 := s1.(total := 1, requests := map[0 := Counted]);
    var s3 := s2.(requests := map[0 := Waiting(0)]);
    var s4 := s3.(blockCh := Some(1), made := 2);
    var s5 := s4.(blockCh := None, closed := {1});
    tr, acts := [s0, s1, s2, s3, s4, s5], [Block, Count(0), Snapshot(0), Block, Unblock];
    assert Apply(s1, Count(0)) == s2;
    assert Apply(s2, Snapshot(0)) == s3;
    assert Apply(s4, Unblock) == s5;
  }

  // ---- The object --------------------------------------------------------------------------

  /** The step is one of request r. */
  predicate Mine(a: Action, r: RequestId) {
    !a.Block? && !a.Unblock? && a.r == r
  }

  /** After the rest of the program has taken those of the steps that it can, while request r takes none. */
  function After(s: State, steps: seq<Action>, r: RequestId): (t: State)
    ensures r in s.requests ==> At(t, r, s.requests[r])
    decreases |steps|
  {
    if steps == [] then s
    else After(if Enabled(s, steps[0]) && !Mine(steps[0], r) then Apply(s, steps[0]) else s, steps[1..], r)
  }

  /** The state in which a request r that comes in state s takes its snapshot. */
  function AtSnapshot(s: State, r: RequestId, before: seq<Action>): State
    requires r !in s.requests
  {
    After(Apply(s, Count(r)), before, r)
  }

  /** The state in which it has to pass the select. */
  function AtSelect(s: State, r: RequestId, before: seq<Action>, during: seq<Action>): State
    requires r !in s.requests
  {
    After(Apply(AtSnapshot(s, r, before), Snapshot(r)), during, r)
  }

  /** The provider, with the run so far. */
  class MockProvider {
    var latency: int
    var errRate: real
    var rate429: real
    var blockCh: Option<Channel>
    var totalRequests: int
    var rejected429: int
    var serverErrors: int
    var successResponses: int
    var made: nat
    var closed: set<Channel>

    /** Where the goroutine of each request is. */
    var requests: map<RequestId, Phase>
    ghost var tr: seq<State>
    ghost var acts: seq<Action>

    function View(): State
      reads this
    {
      State(blockCh, made, closed, totalRequests, rejected429, serverErrors, successResponses, requests)
    }

    ghost predicate Valid()
      reads this
    {
      IsRun(tr, acts) && tr[|acts|] == View()
    }

    constructor ()
      ensures Valid() && View() == Initial() && latency == 0 && errRate == 0.0 && rate429 == 0.0
    {
      latency, errRate, rate429 := 0, 0.0, 0.0;
      blockCh, made, closed, requests := None, 0, {}, map[];
      totalRequests, rejected429, serverErrors, successResponses := 0, 0, 0, 0;
      tr, acts := [Initial()], [];
    }

    /** Records a step after the fields have been set. */
    ghost method Record(s: State, a: Action)
      requires IsRun(tr, acts) && tr[|acts|] == s && Enabled(s, a) && View() == Apply(s, a)
      modifies this`tr, this`acts
      ensures Valid() && acts == old(acts) + [a] && old(tr) <= tr
    {
      tr, acts := tr + [View()], acts + [a];
    }

    /** In every state of every run of calls, in any interleaving: the counters add up. */
    lemma Accounting()
      requires Valid()
      ensures CountersExact(View()) && ChannelsFresh(View())
      ensures totalRequests ==
                rejected429 + serverErrors + successResponses + |With(View(), GatewayTimeout)| + |Inside(View())|
    {
      CountersInEveryRun(tr, acts, |acts|);
      ChannelsInEveryRun(tr, acts, |acts|);
      RequestsAccounted(tr, acts, |acts|);
    }

    method Block()
      requires Valid()
      modifies this`blockCh, this`made, this`tr, this`acts
      ensures Valid() && old(tr) <= tr && View() == Apply(old(View()), Action.Block)
    {
      ghost var s := View();
      blockCh, made := Some(made), made + 1;
      Record(s, Action.Block);
    }

    method Unblock()
      requires Valid()
      modifies this`blockCh, this`closed, this`tr, this`acts
      ensures Valid() && old(tr) <= tr && View() == Apply(old(View()), Action.Unblock)
    {
      ghost var s := View();
      if blockCh != None {
        closed := closed + {blockCh.value};
        blockCh := None;
      }
      Record(s, Action.Unblock);
    }

    method Reset()
      requires Valid()
      modifies this
      ensures latency == 0 && errRate == 0.0 && rate429 == 0.0
      ensures Valid() && old(tr) <= tr && View() == Apply(old(View()), Action.Unblock)
    {
      ghost var s := View();
      latency, errRate, rate429 := 0, 0.0, 0.0;
      if blockCh != None {
        closed := closed + {blockCh.value};
        blockCh := None;
      }
      Record(s, Action.Unblock);
    }

    /** The verdict of a dice roll in [0, 1) against the two rates. */
    function Verdict(roll: real, rate: real, err: real): (v: Verdict)
      ensures v == TooMany <==> roll < rate
      ensures v == ServerError <==> rate <= roll && roll - rate < err
      ensures v == Success <==> rate <= roll && err <= roll - rate
    {
      if roll < rate then TooMany else if roll < rate + err then ServerError else Success
    }

    /** First action of `wrap`: the request is counted. */
    method CountRequest(r: RequestId)
      requires Valid() && r !in requests
      modifies this`totalRequests, this`requests, this`tr, this`acts
      ensures Valid() && old(tr) <= tr && View() == Apply(old(View()), Count(r))
    {
      ghost var s := View();
      totalRequests, requests := totalRequests + 1, requests[r := Counted];
      Record(s, Count(r));
    }

    /** Second action: the settings are copied under the mutex. */
    method TakeSnapshot(r: RequestId) returns (rate: real, err: real, ch: Option<Channel>)
      requires Valid() && At(View(), r, Counted)
      modifies this`requests, this`tr, this`acts
      ensures Valid() && old(tr) <= tr && View() == Apply(old(View()), Snapshot(r))
      ensures rate == rate429 && err == errRate && ch == blockCh
      ensures requests[r] == if ch.Some? then Waiting(ch.value) else Rolling
    {
      ghost var s := View();
      rate, err, ch := rate429, errRate, blockCh;
      requests := requests[r := if ch.Some? then Waiting(ch.value) else Rolling];
      Record(s, Snapshot(r));
    }

    /** The select: the channel was closed, or the request's context ended first. */
    method Await(r: RequestId, ch: Channel, cancelled: bool)
      requires Valid() && At(View(), r, Waiting(ch)) && (cancelled || ch in closed)
      modifies this`requests, this`tr, this`acts
      ensures Valid() && old(tr) <= tr && View() == Apply(old(View()), if cancelled then Cancel(r) else Wake(r))
    {
      ghost var s := View();
      requests := requests[r := if cancelled then Answered(GatewayTimeout) else Rolling];
      Record(s, if cancelled then Cancel(r) else Wake(r));
    }

    /** Last action: a roll of the dice against the copied rates picks the counter. */
    method Finish(r: RequestId, roll: real, rate: real, err: real) returns (v: Verdict)
      requires Valid() && At(View(), r, Rolling)
      modifies this`rejected429, this`serverErrors, this`successResponses, this`requests, this`tr, this`acts
      ensures v == Verdict(roll, rate, err)
      ensures Valid() && old(tr) <= tr && View() == Apply(old(View()), Roll(r, v))
    {
      ghost var s := View();
      if roll < rate {
        rejected429 := rejected429 + 1;
        v := TooMany;
      } else if roll < rate + err {
        serverErrors := serverErrors + 1;
        v := ServerError;
      } else {
        successResponses := successResponses + 1;
        v := Success;
      }
      requests := requests[r := Answered(v)];
      Record(s, Roll(r, v));
    }

    /** Any one step of the rest of the program. */
    method Perform(a: Action)
      requires Valid() && Enabled(View(), a)
      modifies this
      ensures Valid() && old(tr) <= tr && View() == Apply(old(View()), a)
      ensures rate429 == old(rate429) && errRate == old(errRate)
    {
      match a
      case Block => Block();
      case Unblock => Unblock();
      case Count(q) => CountRequest(q);
      case Snapshot(q) => var _, _, _ := TakeSnapshot(q);
      case Wake(q) => Await(q, requests[q].ch, false);
      case Cancel(q) => Await(q, requests[q].ch, true);
      case Roll(q, v) =>
        var rate, err := if v == TooMany then 1.0 else 0.0, if v == ServerError then 1.0 else 0.0;
        var got := Finish(q, 0.0, rate, err);
    }

    /** The rest of the program runs while request r is between two of its steps. */
    method Others(r: RequestId, steps: seq<Action>)
      requires Valid() && r in requests
      modifies this
      ensures Valid() && old(tr) <= tr && View() == After(old(View()), steps, r)
      ensures r in requests && requests[r] == old(requests[r])
      ensures rate429 == old(rate429) && errRate == old(errRate)
    {
      for i := 0 to |steps|
        invariant Valid() && old(tr) <= tr
        invariant After(View(), steps[i..], r) == After(old(View()), steps, r)
        invariant r in requests && requests[r] == old(requests[r])
        invariant rate429 == old(rate429) && errRate == old(errRate)
      {
        assert steps[i..][0] == steps[i] && steps[i..][1..] == steps[i + 1..];
        if Enabled(View(), steps[i]) && !Mine(steps[i], r) {
          Perform(steps[i]);
        }
      }
    }

    /** The select of request r and what follows it, while the rest of the program takes these steps. */
    method Resume(r: RequestId, ch: Option<Channel>, cancelled: bool, roll: real, rate: real, err: real,
                  later: seq<Action>)
      returns (v: Option<Verdict>)
      requires Valid() && At(View(), r, if ch.Some? then Waiting(ch.value) else Rolling)
      modifies this
      ensures Valid() && old(tr) <= tr && r in requests
      ensures v == if ch == None || (!cancelled && ch.value in old(closed)) then Some(Verdict(roll, rate, err))
                   else if cancelled then Some(GatewayTimeout)
                   else None
      ensures requests[r] == if v.Some? then Answered(v.value) else Waiting(ch.value)
    {
      if ch.Some? {
        if !cancelled && ch.value !in closed {
          return None;
        }
        Await(r, ch.value, cancelled);
        if cancelled {
          return Some(GatewayTimeout);
        }
      }
      Others(r, later);
      var verdict := Finish(r, roll, rate, err);
      v := Some(verdict);
    }

    /**
     * The whole of `wrap` for request r, while the rest of the program takes the steps `before` its
     * snapshot, `during` its wait and `later`. None: it is still waiting.
     */
    method Wrap(r: RequestId, cancelled: bool, roll: real, before: seq<Action>, during: seq<Action>, later: seq<Action>)
      returns (v: Option<Verdict>)
      requires Valid() && r !in requests
      modifies this
      ensures Valid() && old(tr) <= tr && r in requests
      ensures var ch := AtSnapshot(old(View()), r, before).blockCh;
        && v == (if ch == None || (!cancelled && ch.value in AtSelect(old(View()), r, before, during).closed)
                 then Some(Verdict(roll, old(rate429), old(errRate)))
                 else if cancelled then Some(GatewayTimeout)
                 else None)
        && requests[r] == if v.Some? then Answered(v.value) else Waiting(ch.value)
      ensures totalRequests ==
                rejected429 + serverErrors + successResponses + |With(View(), GatewayTimeout)| + |Inside(View())|
    {
      CountRequest(r);
      Others(r, before);
      var rate, err, ch := TakeSnapshot(r);
      Others(r, during);
      v := Resume(r, ch, cancelled, roll, rate, err, later);
      Accounting();
    }
  }
}
