/**
 * The SPIFFE renewer: a loop that logs in to Vault again at 70% of the reported lifetime of the
 * token it holds, or after four minutes when no lifetime is reported. Times are integers in
 * nanoseconds.
 */
module Renewer {
  import opened Collections

  const SECOND: int := 1_000_000_000
  const FALLBACK_INTERVAL: int := 240 * SECOND

  // ---- Token lookup ------------------------------------------------------------------------

  /** The `ttl` entry of a lookup-self response; a JSON number may fail to be an integer. */
  datatype TtlField = Missing | JsonNumber(seconds: Option<int>) | Float(whole: int) | OtherType

  datatype LookupReply = Failed | Empty | Self(ttl: TtlField)

  /** The reported lifetime, or None for the error returns. */
  function TokenTTL(l: LookupReply): Option<int> {
    match l
    case Failed => None
    case Empty => None
    case Self(Missing) => None
    case Self(OtherType) => None
    case Self(JsonNumber(None)) => Some(0)
    case Self(JsonNumber(Some(v))) => Some(v * SECOND)
    case Self(Float(v)) => Some(v * SECOND)
  }

  predicate Reported(l: LookupReply) {
    TokenTTL(l).Some? && TokenTTL(l).value > 0
  }

  /**
   * The wait of one round; `rounding` is the error of the truncated float product. The float64
   * constant 0.7 is below 7/10 and 70% of a whole number of seconds is a float64 itself, so the
   * product is never above the exact value.
   */
  function Interval(l: LookupReply, rounding: int): int {
    if Reported(l) then TokenTTL(l).value * 7 / 10 + rounding else FALLBACK_INTERVAL
  }

  // ---- One run of the loop -----------------------------------------------------------------

  /** A successful login: from `at` on the client holds a token that Vault honours until `expiry`. */
  datatype Login = Login(at: int, expiry: int)

  /**
   * What the environment does in one round. Vault handles the lookup at `processedAt`; `cancelledAt`
   * is set if the context ends during the wait; a failed SVID fetch or login is None.
   */
  datatype Round = Round(
    lookup: LookupReply, processedAt: int, answeredAt: int, rounding: int,
    cancelledAt: Option<int>, svidAt: int, svidOk: bool, loginAt: int, login: Option<Login>)
  {
    /** The round ends with a login, so that another one follows. */
    predicate Continues() {
      cancelledAt == None && svidOk && login.Some?
    }

    function WakesAt(): int {
      answeredAt + Interval(lookup, rounding)
    }
  }

  datatype Exit = StillRunning | Cancelled | Errored

  /** The tokens held one after the other, and how and when the run ended. */
  datatype Outcome = Outcome(logins: seq<Login>, exit: Exit, at: int)

  function Renew(held: Login, rounds: seq<Round>): (o: Outcome)
    ensures |o.logins| > 0 && o.logins[0] == held
    decreases |rounds|
  {
    if rounds == [] then Outcome([held], StillRunning, held.at)
    else
      var r := rounds[0];
      if r.cancelledAt.Some? then Outcome([held], Cancelled, r.cancelledAt.value)
      else if !r.svidOk then Outcome([held], Errored, r.svidAt)
      else
        match r.login
        case None => Outcome([held], Errored, r.loginAt)
        case Some(next) =>
          var rest := Renew(next, rounds[1..]);
          Outcome([held] + rest.logins, rest.exit, rest.at)
  }

  /** The environment respects the order of events, and Vault never reports more than what remains. */
  predicate Possible(held: Login, r: Round) {
    && held.at <= r.processedAt <= r.answeredAt
    && -1 <= r.rounding <= 0
    && (Reported(r.lookup) ==> r.processedAt + TokenTTL(r.lookup).value <= held.expiry)
    && (r.cancelledAt.Some? ==> r.answeredAt <= r.cancelledAt.value <= r.WakesAt())
    && r.WakesAt() <= r.svidAt <= r.loginAt
    && (r.login.Some? ==> r.login.value.at == r.loginAt <= r.login.value.expiry)
  }

  /** Lookup, SVID fetch and login of the round, together. */
  function Latency(held: Login, r: Round): int {
    (r.answeredAt - held.at) + (r.svidAt - r.WakesAt())
    + (if r.svidOk then r.loginAt - r.svidAt else 0)
  }

  /** Within 30% of the reported lifetime, or within what the four minutes leave over. */
  predicate Timely(held: Login, r: Round) {
    if Reported(r.lookup) then 10 * Latency(held, r) <= 3 * TokenTTL(r.lookup).value
    else Latency(held, r) + FALLBACK_INTERVAL <= held.expiry - held.at
  }

  ghost predicate PossibleRun(held: Login, rounds: seq<Round>)
    decreases |rounds|
  {
    rounds != [] ==>
      && Possible(held, rounds[0])
      && (rounds[0].Continues() ==> PossibleRun(rounds[0].login.value, rounds[1..]))
  }

  ghost predicate TimelyRun(held: Login, rounds: seq<Round>)
    decreases |rounds|
  {
    rounds != [] ==>
      && Timely(held, rounds[0])
      && (rounds[0].Continues() ==> TimelyRun(rounds[0].login.value, rounds[1..]))
  }

  /** The wait and the latencies of the round fit into what is left of the token at its start. */
  predicate Fits(held: Login, r: Round) {
    if r.cancelledAt.Some? then r.cancelledAt.value <= held.expiry
    else Latency(held, r) + Interval(r.lookup, r.rounding) <= held.expiry - held.at
  }

  ghost predicate FittingRun(held: Login, rounds: seq<Round>)
    decreases |rounds|
  {
    rounds != [] ==>
      && Fits(held, rounds[0])
      && (rounds[0].Continues() ==> FittingRun(rounds[0].login.value, rounds[1..]))
  }

  /** Each token is replaced before it expires, and the last one outlives the run. */
  ghost predicate Gapless(o: Outcome) {
    && (forall k :: 0 <= k < |o.logins| - 1 ==> o.logins[k + 1].at <= o.logins[k].expiry)
    && |o.logins| > 0 && o.at <= o.logins[|o.logins| - 1].expiry
  }

  lemma GaplessCons(held: Login, o: Outcome)
    requires |o.logins| > 0
    ensures Gapless(o.(logins := [held] + o.logins)) <==> o.logins[0].at <= held.expiry && Gapless(o)
  {
    var p := o.(logins := [held] + o.logins);
    if Gapless(p) {
      forall k | 0 <= k < |o.logins| - 1 ensures o.logins[k + 1].at <= o.logins[k].expiry {
        assert p.logins[k + 2].at <= p.logins[k + 1].expiry;
      }
      assert p.logins[0 + 1].at <= p.logins[0].expiry;
    }
  }

  /** The tokens held leave no gap exactly when every round fits into the token it started with. */
  lemma {:induction false} GaplessExactly(held: Login, rounds: seq<Round>)
    requires held.at <= held.expiry && PossibleRun(held, rounds)
    ensures Gapless(Renew(held, rounds)) <==> FittingRun(held, rounds)
    decreases |rounds|
  {
    if rounds != [] && rounds[0].Continues() {
      GaplessExactly(rounds[0].login.value, rounds[1..]);
      GaplessCons(held, Renew(rounds[0].login.value, rounds[1..]));
    }
  }

  /** A reported lifetime is in whole seconds, so 70% of it is a whole number of nanoseconds. */
  lemma IntervalIsSeventyPercent(l: LookupReply, rounding: int)
    requires Reported(l) && -1 <= rounding <= 0
    ensures 10 * Interval(l, rounding) == 7 * TokenTTL(l).value + 10 * rounding
    ensures 7 * TokenTTL(l).value - 10 <= 10 * Interval(l, rounding) <= 7 * TokenTTL(l).value
  {
    var seconds := if l.ttl.Float? then l.ttl.whole else l.ttl.seconds.value;
    assert seconds * SECOND * 7 / 10 == seconds * 700_000_000;
  }

  /** The wait in nanoseconds: 70% of a positive lifetime in seconds, else four minutes. */
  lemma IntervalInSeconds(l: LookupReply, v: int, rounding: int)
    ensures (l == Self(JsonNumber(Some(v))) || l == Self(Float(v))) && v > 0 ==>
              Interval(l, rounding) == 700_000_000 * v + rounding
    ensures (l == Self(JsonNumber(Some(v))) || l == Self(Float(v))) && v <= 0 ==>
              Interval(l, rounding) == 240_000_000_000
    ensures !l.Self? || l.ttl == Missing || l.ttl == OtherType || l.ttl == JsonNumber(None) ==>
              Interval(l, rounding) == 240_000_000_000
  {
    assert v * SECOND * 7 / 10 == v * 700_000_000;
  }

  /**
   * Why the rounding is never positive: a constant of at most 7/10, and any monotone rounding of
   * reals that keeps the exact 70%, a whole number, as it is.
   */
  lemma RoundedProductNeverAbove(seconds: nat, fraction: real, round: real -> real)
    requires fraction <= 0.7
    requires forall x, y :: x <= y ==> round(x) <= round(y)
    requires round((seconds * 700_000_000) as real) == (seconds * 700_000_000) as real
    ensures round((seconds * SECOND) as real * fraction).Floor <= seconds * 700_000_000
  {
    var ttl, exact := (seconds * SECOND) as real, (seconds * 700_000_000) as real;
    assert exact == ttl * 0.7;
    assert ttl * fraction <= exact;
    assert round(ttl * fraction) <= round(exact);
  }

  lemma TimelyFits(held: Login, r: Round)
    requires Possible(held, r) && Timely(held, r)
    ensures Fits(held, r)
  {
    if Reported(r.lookup) {
      IntervalIsSeventyPercent(r.lookup, r.rounding);
    }
  }

  lemma {:induction false} TimelyRunFits(held: Login, rounds: seq<Round>)
    requires PossibleRun(held, rounds) && TimelyRun(held, rounds)
    ensures FittingRun(held, rounds)
    decreases |rounds|
  {
    if rounds != [] {
      TimelyFits(held, rounds[0]);
      if rounds[0].Continues() {
        TimelyRunFits(rounds[0].login.value, rounds[1..]);
      }
    }
  }

  /**
   * For any number of rounds: at every moment until the loop exits, the token then held has not
   * expired, if each round is timely.
   */
  lemma ContinuousCoverage(held: Login, rounds: seq<Round>, t: int, k: nat)
    requires held.at <= held.expiry && PossibleRun(held, rounds) && TimelyRun(held, rounds)
    requires var o := Renew(held, rounds);
      k < |o.logins| && o.logins[k].at <= t <= o.at && (k + 1 < |o.logins| ==> t < o.logins[k + 1].at)
    ensures t <= Renew(held, rounds).logins[k].expiry
  {
    TimelyRunFits(held, rounds);
    GaplessExactly(held, rounds);
  }

  // ---- How the loop ends -------------------------------------------------------------------

  /** The first k rounds end with a login each. */
  ghost predicate AllLogIn(rounds: seq<Round>, k: nat)
    requires k <= |rounds|
  {
    forall j :: 0 <= j < k ==> rounds[j].cancelledAt == None && rounds[j].svidOk && rounds[j].login.Some?
  }

  lemma AllLogInTail(rounds: seq<Round>, k: nat)
    requires 0 < k <= |rounds|
    ensures AllLogIn(rounds, k) <==>
              rounds[0].cancelledAt == None && rounds[0].svidOk && rounds[0].login.Some? && AllLogIn(rounds[1..], k - 1)
  {
    if AllLogIn(rounds[1..], k - 1) && rounds[0].cancelledAt == None && rounds[0].svidOk && rounds[0].login.Some? {
      forall j | 0 <= j < k ensures rounds[j].cancelledAt == None && rounds[j].svidOk && rounds[j].login.Some? {
        assert j > 0 ==> rounds[j] == rounds[1..][j - 1];
      }
    }
  }

  /**
   * After k rounds with a login, the next one ends the run: with the context's end, or with an error
   * if the SVID fetch or the login fails. If there is none the loop is still running.
   */
  lemma {:induction false} OutcomeExactly(held: Login, rounds: seq<Round>, k: nat)
    requires k <= |rounds| && AllLogIn(rounds, k)
    requires k < |rounds| ==>
               rounds[k].cancelledAt.Some? || !rounds[k].svidOk || rounds[k].login == None
    ensures var o := Renew(held, rounds);
      && |o.logins| == k + 1
      && (forall j :: 0 <= j < k ==> Some(o.logins[j + 1]) == rounds[j].login)
      && o.exit == (if k == |rounds| then StillRunning else if rounds[k].cancelledAt.Some? then Cancelled else Errored)
      && o.at == (if k == |rounds| then o.logins[k].at
                  else if rounds[k].cancelledAt.Some? then rounds[k].cancelledAt.value
                  else if rounds[k].svidOk then rounds[k].loginAt else rounds[k].svidAt)
    decreases k
  {
    if k > 0 {
      var next := rounds[0].login.value;
      AllLogInTail(rounds, k);
      OutcomeExactly(next, rounds[1..], k - 1);
      var o, rest := Renew(held, rounds), Renew(next, rounds[1..]);
      assert o.logins == [held] + rest.logins;
      forall j | 0 <= j < k ensures Some(o.logins[j + 1]) == rounds[j].login {
        assert j > 0 ==> Some(rest.logins[j]) == rounds[1..][j - 1].login;
      }
    }
  }

  /** The number of rounds at the start that end with a login. */
  lemma {:induction false} FirstStop(rounds: seq<Round>) returns (k: nat)
    ensures k <= |rounds| && AllLogIn(rounds, k)
    ensures k < |rounds| ==> rounds[k].cancelledAt.Some? || !rounds[k].svidOk || rounds[k].login == None
  {
    if rounds == [] || rounds[0].cancelledAt.Some? || !rounds[0].svidOk || rounds[0].login == None {
      k := 0;
    } else {
      var n := FirstStop(rounds[1..]);
      k := n + 1;
      AllLogInTail(rounds, k);
    }
  }

  /** The loop ends with an error exactly if the first round without a login is not a cancelled one. */
  lemma ErroredExactly(held: Login, rounds: seq<Round>)
    ensures Renew(held, rounds).exit == Errored <==>
              exists k :: 0 <= k < |rounds| && AllLogIn(rounds, k)
                          && rounds[k].cancelledAt == None && (!rounds[k].svidOk || rounds[k].login == None)
  {
    var k := FirstStop(rounds);
    OutcomeExactly(held, rounds, k);
    if j :| 0 <= j < |rounds| && AllLogIn(rounds, j)
            && rounds[j].cancelledAt == None && (!rounds[j].svidOk || rounds[j].login == None)
    {
      OutcomeExactly(held, rounds, j);
    }
  }

  lemma CancelledExactly(held: Login, rounds: seq<Round>)
    ensures Renew(held, rounds).exit == Cancelled <==>
              exists k :: 0 <= k < |rounds| && AllLogIn(rounds, k) && rounds[k].cancelledAt.Some?
  {
    var k := FirstStop(rounds);
    OutcomeExactly(held, rounds, k);
    if j :| 0 <= j < |rounds| && AllLogIn(rounds, j) && rounds[j].cancelledAt.Some? {
      OutcomeExactly(held, rounds, j);
    }
  }

  /** Once the loop has exited, whatever the environment goes on to do causes no further login. */
  lemma {:induction false} ExitIsFinal(held: Login, rounds: seq<Round>, more: seq<Round>)
    requires Renew(held, rounds).exit != StillRunning
    ensures Renew(held, rounds + more) == Renew(held, rounds)
    decreases |rounds|
  {
    var r := rounds[0];
    assert (rounds + more)[1..] == rounds[1..] + more;
    if r.Continues() {
      ExitIsFinal(r.login.value, rounds[1..], more);
    }
  }

  /** For every lifetime, one nanosecond over 30% is too much: the login can come after the expiry. */
  lemma ThirtyPercentIsTight(seconds: int) returns (held: Login, r: Round)
    requires seconds > 0
    ensures Possible(held, r) && held.at <= held.expiry && TokenTTL(r.lookup) == Some(seconds * SECOND)
    ensures 10 * Latency(held, r) == 3 * TokenTTL(r.lookup).value + 10
    ensures r.login.Some? && !Gapless(Renew(held, [r]))
  {
    held := Login(0, seconds * SECOND);
    var wakes := seconds * 700_000_000;
    var done := seconds * SECOND + 1;
    r := Round(Self(Float(seconds)), 0, 0, 0, None, wakes, true, done, Some(Login(done, done)));
    IntervalIsSeventyPercent(r.lookup, 0);
    var o := Renew(held, [r]);
    assert [r][1..] == [] && Renew(Login(done, done), []).logins == [Login(done, done)];
    assert o.logins == [held, Login(done, done)];
    assert o.logins[1].at > o.logins[0].expiry;
  }

  // ---- The loop ----------------------------------------------------------------------------

  class Client {
    var held: Login
    var errorCalls: nat

    constructor (first: Login)
      ensures held == first && errorCalls == 0
    {
      held, errorCalls := first, 0;
    }

    /** `loginJWT`: installs the new token, or leaves the old one in place. */
    method LoginJWT(login: Option<Login>) returns (ok: bool)
      modifies this`held
      ensures ok <==> login.Some?
      ensures held == if ok then login.value else old(held)
    {
      ok := login.Some?;
      if ok {
        held := login.value;
      }
    }

    /** `spiffeRenewer`, observed for as many rounds as the environment provides. */
    method SpiffeRenewer(rounds: seq<Round>) returns (exit: Exit, at: int)
      modifies this
      ensures var o := Renew(old(held), rounds);
        && exit == o.exit && at == o.at
        && held == o.logins[|o.logins| - 1]
        && errorCalls == old(errorCalls) + if o.exit == Errored then 1 else 0
      ensures errorCalls > old(errorCalls) <==>
                exists k :: 0 <= k < |rounds| && AllLogIn(rounds, k)
                            && rounds[k].cancelledAt == None && (!rounds[k].svidOk || rounds[k].login == None)
    {
      ErroredExactly(held, rounds);
      ghost var o := Renew(held, rounds);
      at := held.at;
      for i := 0 to |rounds|
        invariant errorCalls == old(errorCalls) && at == held.at
        invariant var rest := Renew(held, rounds[i..]);
          rest.exit == o.exit && rest.at == o.at
          && rest.logins[|rest.logins| - 1] == o.logins[|o.logins| - 1]
      {
        var r := rounds[i];
        assert rounds[i..][0] == r && rounds[i..][1..] == rounds[i + 1..];
        if r.cancelledAt.Some? {
          return Cancelled, r.cancelledAt.value;
        }
        if !r.svidOk {
          errorCalls := errorCalls + 1;
          return Errored, r.svidAt;
        }
        ghost var before := Renew(held, rounds[i..]);
        var ok := LoginJWT(r.login);
        if !ok {
          errorCalls := errorCalls + 1;
          return Errored, r.loginAt;
        }
        assert before.logins == [before.logins[0]] + Renew(held, rounds[i + 1..]).logins;
        at := held.at;
      }
      assert rounds[|rounds|..] == [];
      exit := StillRunning;
    }
  }
}
