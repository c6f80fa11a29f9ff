/**
 * The server-wide concurrency limiter: an atomic counter that every request adds to, compares with
 * the limit, and subtracts from again, in three separate atomic actions.
 *
 * The model is a transition system for any number of concurrent requests, one step per action.
 */
module Limiter {
  type RequestId = nat

  /** `Counted(n)`: `Add(1)` returned n and the comparison is still to come. */
  datatype Phase = Counted(n: int) | Running | Rejecting | Served | Rejected

  datatype State = State(inFlight: int, phase: map<RequestId, Phase>)

  datatype Action = Add(r: RequestId) | Decide(r: RequestId) | Subtract(r: RequestId)

  function Initial(): State {
    State(0, map[])
  }

  predicate Enabled(s: State, a: Action) {
    match a
    case Add(r) => r !in s.phase
    case Decide(r) => r in s.phase && s.phase[r].Counted?
    case Subtract(r) => r in s.phase && (s.phase[r] == Running || s.phase[r] == Rejecting)
  }

  function Apply(limit: int, s: State, a: Action): State
    requires Enabled(s, a)
  {
    match a
    case Add(r) => State(s.inFlight + 1, s.phase[r := Counted(s.inFlight + 1)])
    case Decide(r) => s.(phase := s.phase[r := if s.phase[r].n > limit then Rejecting else Running])
    case Subtract(r) => State(s.inFlight - 1, s.phase[r := if s.phase[r] == Rejecting then Rejected else Served])
  }

  ghost predicate IsRun(limit: int, tr: seq<State>, acts: seq<Action>) {
    && |tr| == |acts| + 1
    && tr[0] == Initial()
    && forall i {:trigger acts[i]} :: 0 <= i < |acts| ==>
         Enabled(tr[i], acts[i]) && tr[i + 1] == Apply(limit, tr[i], acts[i])
  }

  /** The request has been, or is certain to be, admitted and has not finished. */
  predicate Admitted(limit: int, p: Phase) {
    p == Running || (p.Counted? && p.n <= limit)
  }

  /** The request has been, or is certain to be, rejected and has not subtracted yet. */
  predicate PendingRejection(limit: int, p: Phase) {
    p == Rejecting || (p.Counted? && p.n > limit)
  }

  function Handlers(limit: int, s: State): set<RequestId> {
    set r | r in s.phase && Admitted(limit, s.phase[r])
  }

  function Rejecters(limit: int, s: State): set<RequestId> {
    set r | r in s.phase && PendingRejection(limit, s.phase[r])
  }

  /** A limit below zero admits as many handlers as a limit of zero: none. */
  function Capacity(limit: int): nat {
    if limit < 0 then 0 else limit
  }

  ghost predicate Inv(limit: int, s: State) {
    && s.inFlight == |Handlers(limit, s)| + |Rejecters(limit, s)|
    && |Handlers(limit, s)| <= Capacity(limit)
  }

  lemma AddStep(limit: int, s: State, r: RequestId)
    requires Inv(limit, s) && Enabled(s, Add(r))
    ensures Inv(limit, Apply(limit, s, Add(r)))
  {
    var t := Apply(limit, s, Add(r));
    var h, j := Handlers(limit, s), Rejecters(limit, s);
    if s.inFlight + 1 > limit {
      assert Handlers(limit, t) == h && Rejecters(limit, t) == j + {r};
    } else {
      assert Handlers(limit, t) == h + {r} && Rejecters(limit, t) == j;
    }
  }

  lemma DecideStep(limit: int, s: State, r: RequestId)
    requires Inv(limit, s) && Enabled(s, Decide(r))
    ensures Inv(limit, Apply(limit, s, Decide(r)))
  {
    var t := Apply(limit, s, Decide(r));
    assert Handlers(limit, t) == Handlers(limit, s) && Rejecters(limit, t) == Rejecters(limit, s);
  }

  lemma SubtractStep(limit: int, s: State, r: RequestId)
    requires Inv(limit, s) && Enabled(s, Subtract(r))
    ensures Inv(limit, Apply(limit, s, Subtract(r)))
  {
    var t := Apply(limit, s, Subtract(r));
    var h, j := Handlers(limit, s), Rejecters(limit, s);
    if s.phase[r] == Running {
      assert r in h && Handlers(limit, t) == h - {r} && Rejecters(limit, t) == j;
    } else {
      assert r in j && Handlers(limit, t) == h && Rejecters(limit, t) == j - {r};
    }
  }

  lemma InvStep(limit: int, s: State, a: Action)
    requires Inv(limit, s) && Enabled(s, a)
    ensures Inv(limit, Apply(limit, s, a))
  {
    match a
    case Add(r) => AddStep(limit, s, r);
    case Decide(r) => DecideStep(limit, s, r);
    case Subtract(r) => SubtractStep(limit, s, r);
  }

  /**
   * In every reachable state the counter equals the admitted handlers plus the rejecters that have
   * not yet subtracted, and the handlers alone never exceed the limit.
   */
  lemma {:induction false} ConservationAndBound(limit: int, tr: seq<State>, acts: seq<Action>, n: nat)
    requires IsRun(limit, tr, acts) && n < |tr|
    ensures tr[n].inFlight == |Handlers(limit, tr[n])| + |Rejecters(limit, tr[n])|
    ensures |Handlers(limit, tr[n])| <= Capacity(limit)
  {
    if n == 0 {
      assert Handlers(limit, tr[0]) == {} && Rejecters(limit, tr[0]) == {};
    } else {
      ConservationAndBound(limit, tr, acts, n - 1);
      InvStep(limit, tr[n - 1], acts[n - 1]);
    }
  }

  ghost predicate Saturated(limit: int, s: State) {
    |Handlers(limit, s)| == Capacity(limit)
  }

  ghost predicate RejectersBetween(limit: int, tr: seq<State>, m: nat, n: nat)
    requires n < |tr|
  {
    forall k :: m < k <= n ==> Rejecters(limit, tr[k]) != {}
  }

  /** If a rejecter is pending, full saturation held when its overlapping group began. */
  lemma {:induction false} GroupBeganSaturated(limit: int, tr: seq<State>, acts: seq<Action>, n: nat) returns (m: nat)
    requires IsRun(limit, tr, acts) && n < |tr| && Rejecters(limit, tr[n]) != {}
    ensures m < n && Rejecters(limit, tr[m]) == {} && Saturated(limit, tr[m])
    ensures RejectersBetween(limit, tr, m, n)
  {
    assert n > 0 by {
      assert Rejecters(limit, Initial()) == {};
    }
    var s, a := tr[n - 1], acts[n - 1];
    ConservationAndBound(limit, tr, acts, n - 1);
    if Rejecters(limit, s) != {} {
      m := GroupBeganSaturated(limit, tr, acts, n - 1);
    } else {
      m := n - 1;
      var r :| r in Rejecters(limit, tr[n]);
      assert r !in Rejecters(limit, s);
      assert a == Add(r);
    }
  }

  /**
   * Every 503 is justified: a request is counted over the limit only if, at some moment since the
   * last state without a pending rejecter, exactly `limit` handlers were running.
   */
  lemma RejectionJustified(limit: int, tr: seq<State>, acts: seq<Action>, n: nat) returns (m: nat)
    requires IsRun(limit, tr, acts) && n < |acts| && acts[n].Add?
    requires tr[n].inFlight + 1 > limit
    ensures m <= n && Saturated(limit, tr[m]) && Rejecters(limit, tr[m]) == {}
    ensures RejectersBetween(limit, tr, m, n)
  {
    ConservationAndBound(limit, tr, acts, n);
    if Rejecters(limit, tr[n]) == {} {
      m := n;
    } else {
      m := GroupBeganSaturated(limit, tr, acts, n);
    }
  }

  /** When no rejecter is pending, a request is turned away exactly at full saturation. */
  lemma VerdictWithoutRejecters(limit: int, tr: seq<State>, acts: seq<Action>, n: nat)
    requires IsRun(limit, tr, acts) && n < |tr| && Rejecters(limit, tr[n]) == {}
    ensures tr[n].inFlight + 1 > limit <==> Saturated(limit, tr[n])
  {
    ConservationAndBound(limit, tr, acts, n);
  }

  /**
   * A request is turned away short of saturation exactly if fewer than `limit` handlers are running
   * and the pending rejecters make up the difference.
   */
  lemma TurnedAwayShortOfSaturation(limit: int, tr: seq<State>, acts: seq<Action>, n: nat)
    requires IsRun(limit, tr, acts) && n < |tr|
    ensures (tr[n].inFlight + 1 > limit && !Saturated(limit, tr[n])) <==>
              |Handlers(limit, tr[n])| < limit <= |Handlers(limit, tr[n])| + |Rejecters(limit, tr[n])|
  {
    ConservationAndBound(limit, tr, acts, n);
  }

  // ---- Rejections without a handler --------------------------------------------------------

  /** Extends a run by one step. */
  lemma Extend(limit: int, tr: seq<State>, acts: seq<Action>, a: Action)
    returns (tr': seq<State>, acts': seq<Action>)
    requires IsRun(limit, tr, acts) && Enabled(tr[|acts|], a)
    ensures IsRun(limit, tr', acts') && acts' == acts + [a]
    ensures tr' == tr + [Apply(limit, tr[|acts|], a)]
  {
    tr', acts' := tr + [Apply(limit, tr[|acts|], a)], acts + [a];
  }

  /**
   * Requests 0 .. h, of which the first `served` are done and the others running; then p that have
   * been counted over the limit; then d that have been rejected.
   */
  function Crowd(h: nat, p: nat, served: nat, d: nat): State
    requires served <= h
  {
    State(h - served + p, map r: nat | r < h + p + d :: CrowdPhase(h, p, served, r))
  }

  function CrowdPhase(h: nat, p: nat, served: nat, r: nat): Phase {
    if r < served then Served else if r < h then Running else if r < h + p then Counted(r + 1) else Rejected
  }

  lemma {:induction false} FillWithHandlers(limit: nat, h: nat) returns (tr: seq<State>, acts: seq<Action>)
    requires h <= limit
    ensures IsRun(limit, tr, acts) && tr[|acts|] == Crowd(h, 0, 0, 0)
  {
    if h == 0 {
      tr, acts := [Initial()], [];
    } else {
      tr, acts := FillWithHandlers(limit, h - 1);
      tr, acts := Extend(limit, tr, acts, Add(h - 1));
      tr, acts := Extend(limit, tr, acts, Decide(h - 1));
    }
  }

  lemma {:induction false} CountRejecters(limit: nat, p: nat) returns (tr: seq<State>, acts: seq<Action>)
    ensures IsRun(limit, tr, acts) && tr[|acts|] == Crowd(limit, p, 0, 0)
  {
    if p == 0 {
      tr, acts := FillWithHandlers(limit, limit);
    } else {
      tr, acts := CountRejecters(limit, p - 1);
      tr, acts := Extend(limit, tr, acts, Add(limit + p - 1));
    }
  }

  lemma {:induction false} FinishHandlers(limit: nat, served: nat) returns (tr: seq<State>, acts: seq<Action>)
    requires served <= limit
    ensures IsRun(limit, tr, acts) && tr[|acts|] == Crowd(limit, limit, served, 0)
  {
    if served == 0 {
      tr, acts := CountRejecters(limit, limit);
    } else {
      tr, acts := FinishHandlers(limit, served - 1);
      tr, acts := Extend(limit, tr, acts, Subtract(served - 1));
    }
  }

  /** Request r comes and is turned away, although no handler is running from beginning to end. */
  lemma RejectOne(limit: nat, tr: seq<State>, acts: seq<Action>, d: nat)
    returns (tr': seq<State>, acts': seq<Action>)
    requires IsRun(limit, tr, acts) && tr[|acts|] == Crowd(limit, limit, limit, d)
    ensures IsRun(limit, tr', acts') && tr <= tr' && acts <= acts' && |acts'| == |acts| + 3
    ensures tr'[|acts'|] == Crowd(limit, limit, limit, d + 1)
    ensures acts'[|acts|] == Add(2 * limit + d) && tr'[|acts|].inFlight + 1 > limit
    ensures forall j :: |acts| <= j <= |acts'| ==> Handlers(limit, tr'[j]) == {}
  {
    var r := 2 * limit + d;
    tr', acts' := Extend(limit, tr, acts, Add(r));
    tr', acts' := Extend(limit, tr', acts', Decide(r));
    tr', acts' := Extend(limit, tr', acts', Subtract(r));
    assert tr'[|acts'|].phase == Crowd(limit, limit, limit, d + 1).phase;
  }

  /**
   * For every positive limit and every N, N requests in succession can be turned away while no
   * handler is running at all.
   */
  lemma {:induction false} RejectedWhileIdle(limit: nat, N: nat)
    returns (tr: seq<State>, acts: seq<Action>, m: nat)
    requires limit > 0
    ensures IsRun(limit, tr, acts) && |acts| == m + 3 * N
    ensures tr[|acts|] == Crowd(limit, limit, limit, N)
    ensures forall k :: 0 <= k < N ==> acts[m + 3 * k] == Add(2 * limit + k) && tr[m + 3 * k].inFlight + 1 > limit
    ensures forall j :: m <= j <= |acts| ==> Handlers(limit, tr[j]) == {}
  {
    if N == 0 {
      tr, acts := FinishHandlers(limit, limit);
      m := |acts|;
    } else {
      var before, done;
      before, done, m := RejectedWhileIdle(limit, N - 1);
      tr, acts := RejectOne(limit, before, done, N - 1);
      forall k | 0 <= k < N
        ensures acts[m + 3 * k] == Add(2 * limit + k) && tr[m + 3 * k].inFlight + 1 > limit
      {
        assert k < N - 1 ==> acts[m + 3 * k] == done[m + 3 * k] && tr[m + 3 * k] == before[m + 3 * k];
      }
      forall j | m <= j <= |acts| ensures Handlers(limit, tr[j]) == {} {
        assert j < |done| ==> tr[j] == before[j];
      }
    }
  }

  /** The limiter's shared counter, with the run so far. Each method is one atomic action of a request. */
  class ConcurrencyLimiter {
    const limit: int
    var inFlight: int
    ghost var phase: map<RequestId, Phase>
    ghost var tr: seq<State>
    ghost var acts: seq<Action>

    ghost function View(): State
      reads this
    {
      State(inFlight, phase)
    }

    ghost predicate Valid()
      reads this
    {
      IsRun(limit, tr, acts) && tr[|acts|] == View()
    }

    constructor (limit: int)
      ensures this.limit == limit && View() == Initial() && Valid()
    {
      this.limit := limit;
      inFlight, phase := 0, map[];
      tr, acts := [Initial()], [];
    }

    /** Records the step, after the counter has been set. */
    ghost method Record(s: State, a: Action)
      requires IsRun(limit, tr, acts) && tr[|acts|] == s && Enabled(s, a)
      requires inFlight == Apply(limit, s, a).inFlight
      modifies this`phase, this`tr, this`acts
      ensures Valid() && View() == Apply(limit, s, a) && acts == old(acts) + [a] && old(tr) <= tr
    {
      tr, acts := Extend(limit, tr, acts, a);
      phase := Apply(limit, s, a).phase;
    }

    method Enter(ghost r: RequestId) returns (n: int)
      requires Valid() && r !in phase
      modifies this
      ensures Valid() && View() == Apply(limit, old(View()), Add(r)) && acts == old(acts) + [Add(r)] && old(tr) <= tr
      ensures phase[r] == Counted(n)
    {
      ghost var s := View();
      inFlight := inFlight + 1;
      n := inFlight;
      Record(s, Add(r));
    }

    method Compare(ghost r: RequestId, n: int) returns (reject: bool)
      requires Valid() && r in phase && phase[r] == Counted(n)
      modifies this
      ensures Valid() && View() == Apply(limit, old(View()), Decide(r))
      ensures acts == old(acts) + [Decide(r)] && old(tr) <= tr
      ensures reject <==> phase[r] == Rejecting
    {
      reject := n > limit;
      Record(View(), Decide(r));
    }

    method Leave(ghost r: RequestId)
      requires Valid() && r in phase && (phase[r] == Running || phase[r] == Rejecting)
      modifies this
      ensures Valid() && View() == Apply(limit, old(View()), Subtract(r))
      ensures acts == old(acts) + [Subtract(r)] && old(tr) <= tr
    {
      ghost var s := View();
      inFlight := inFlight - 1;
      Record(s, Subtract(r));
    }

    /** Whatever calls were made, and however they were interleaved: the counter is exact. */
    lemma CounterExact()
      requires Valid()
      ensures inFlight == |Handlers(limit, View())| + |Rejecters(limit, View())|
      ensures |Handlers(limit, View())| <= Capacity(limit)
    {
      ConservationAndBound(limit, tr, acts, |acts|);
    }

    /** The whole middleware for a request that no other request overlaps. */
    method ServeHTTP(ghost r: RequestId, handlerStatus: int) returns (status: int)
      requires Valid() && r !in phase
      modifies this
      ensures Valid() && inFlight == old(inFlight) && old(tr) <= tr
      ensures phase == old(phase)[r := if old(inFlight) >= limit then Rejected else Served]
      ensures status == if old(inFlight) >= limit then 503 else handlerStatus
    {
      var n := Enter(r);
      var reject := Compare(r, n);
      status := if reject then 503 else handlerStatus;
      Leave(r);
    }
  }
}
