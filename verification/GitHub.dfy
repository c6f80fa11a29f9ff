/**
 * GitHub's adapter rotates synchronously: create the new token, then delete the old one in the same
 * call, ignoring a failure of the delete. One chain of rotations, each passing the previous token.
 */
module GitHub {
  import opened Collections

  type Token = nat

  /** The fate of a delete request: whether it takes effect, and the status that comes back, if any. */
  datatype Delete = Delete(effect: bool, status: Option<int>)

  /**
   * One rotation as the provider sees it: whether a token is created (with an id never used before),
   * whether the answer has status 201, parses and carries the token, and what becomes of the delete
   * of the old token.
   */
  datatype Env = Env(token: Token, created: bool, usable: bool, delete: Delete)

  /** GitHub answers 204 only after deleting the token, and 404 only when there is none. */
  predicate Honest(live: set<Token>, token: Token, d: Delete) {
    && (d.status == Some(204) ==> d.effect)
    && (d.status == Some(404) ==> token !in live || d.effect)
  }

  datatype Chain = Chain(
    live: set<Token>, newest: Option<Token>, undeleted: set<Token>, orphans: set<Token>, issued: set<Token>)

  function NewChain(): Chain {
    Chain({}, None, {}, {}, {})
  }

  predicate Possible(s: Chain, e: Env) {
    (e.usable ==> e.created) && e.token !in s.issued
  }

  /** The chain after one rotation; `undeleted` and `orphans` say why a token is still live. */
  function Rotated(s: Chain, e: Env): Chain {
    if !e.created then s
    else
      var t := s.(live := s.live + {e.token}, issued := s.issued + {e.token});
      if !e.usable then t.(orphans := s.orphans + {e.token})
      else
        match s.newest
        case None => t.(newest := Some(e.token))
        case Some(o) =>
          if e.delete.effect then t.(newest := Some(e.token), live := t.live - {o})
          else t.(newest := Some(e.token), undeleted := s.undeleted + {o})
  }

  function AfterAll(envs: seq<Env>): Chain {
    if envs == [] then NewChain() else Rotated(AfterAll(envs[..|envs| - 1]), envs[|envs| - 1])
  }

  ghost predicate AllPossible(envs: seq<Env>) {
    envs != [] ==> AllPossible(envs[..|envs| - 1]) && Possible(AfterAll(envs[..|envs| - 1]), envs[|envs| - 1])
  }

  function Newest(s: Chain): set<Token> {
    if s.newest.Some? then {s.newest.value} else {}
  }

  ghost predicate Accounted(s: Chain) {
    && s.live == Newest(s) + s.undeleted + s.orphans
    && Newest(s) !! s.undeleted !! s.orphans
    && s.live <= s.issued
  }

  lemma AccountedStep(s: Chain, e: Env)
    requires Accounted(s) && Possible(s, e)
    ensures Accounted(Rotated(s, e))
  {
    var t := Rotated(s, e);
    assert t.live == Newest(t) + t.undeleted + t.orphans;
  }

  /**
   * After any number of rotations the newest token is live, and the live tokens are exactly the
   * newest, the old ones whose delete failed, and the ones whose creation was reported as an error.
   */
  lemma {:induction false} ChainAccounting(envs: seq<Env>)
    requires AllPossible(envs)
    ensures var s := AfterAll(envs);
      && Accounted(s)
      && |s.live| == (if s.newest.Some? then 1 else 0) + |s.undeleted| + |s.orphans|
  {
    if envs != [] {
      ChainAccounting(envs[..|envs| - 1]);
      AccountedStep(AfterAll(envs[..|envs| - 1]), envs[|envs| - 1]);
    }
    var s := AfterAll(envs);
    assert |Newest(s) + s.undeleted| == |Newest(s)| + |s.undeleted|;
  }

  // ---- What the account means, in terms of the rotations -----------------------------------

  /** Rotation i created this token. */
  predicate Creates(envs: seq<Env>, i: int, x: Token)
    requires 0 <= i < |envs|
  {
    envs[i].created && envs[i].token == x
  }

  /** Rotation j is the first successful one after the successful rotation i. */
  ghost predicate Replaces(envs: seq<Env>, i: int, j: int)
    requires 0 <= i < j < |envs|
  {
    envs[i].usable && envs[j].usable && NoneUsable(envs, i, j)
  }

  ghost predicate NoneUsable(envs: seq<Env>, i: int, j: int)
    requires 0 <= i && j <= |envs|
  {
    forall k :: i < k < j ==> !envs[k].usable
  }

  /** The newest token is that of the last successful rotation. */
  lemma {:induction false} NewestExactly(envs: seq<Env>, x: Token)
    requires AllPossible(envs)
    ensures AfterAll(envs).newest == Some(x) <==>
              exists i :: 0 <= i < |envs| && Creates(envs, i, x) && envs[i].usable && NoneUsable(envs, i, |envs|)
  {
    if envs != [] {
      var n := |envs| - 1;
      var front := envs[..n];
      NewestExactly(front, x);
      if i :| 0 <= i < n && Creates(front, i, x) && front[i].usable && NoneUsable(front, i, n) && !envs[n].usable {
        assert Creates(envs, i, x) && NoneUsable(envs, i, n + 1);
      }
      if i :| 0 <= i <= n && Creates(envs, i, x) && envs[i].usable && NoneUsable(envs, i, n + 1) {
        assert i < n ==> Creates(front, i, x) && front[i].usable && NoneUsable(front, i, n);
      }
      assert envs[n].usable && envs[n].token == x ==> Creates(envs, n, x) && NoneUsable(envs, n, n + 1);
    }
  }

  /** A token is an orphan exactly if it was created by a rotation whose answer was not usable. */
  lemma {:induction false} OrphanExactly(envs: seq<Env>, x: Token)
    ensures x in AfterAll(envs).orphans <==> exists i :: 0 <= i < |envs| && Creates(envs, i, x) && !envs[i].usable
  {
    if envs != [] {
      var n := |envs| - 1;
      var front := envs[..n];
      OrphanExactly(front, x);
      if i :| 0 <= i < n && Creates(front, i, x) && !front[i].usable {
        assert Creates(envs, i, x);
      }
      if i :| 0 <= i <= n && Creates(envs, i, x) && !envs[i].usable {
        assert i < n ==> Creates(front, i, x) && !front[i].usable;
      }
      assert envs[n].created && !envs[n].usable && envs[n].token == x ==> Creates(envs, n, x);
    }
  }

  /** Rotation j replaced token x, created by rotation i, and its delete had no effect. */
  ghost predicate LeavesBehind(envs: seq<Env>, i: int, j: int, x: Token)
    requires 0 <= i < j < |envs|
  {
    Creates(envs, i, x) && Replaces(envs, i, j) && !envs[j].delete.effect
  }

  /** A token is left undeleted exactly if the rotation that replaced it had its delete fail. */
  lemma {:induction false} UndeletedExactly(envs: seq<Env>, x: Token)
    requires AllPossible(envs)
    ensures x in AfterAll(envs).undeleted <==> exists i, j :: 0 <= i < j < |envs| && LeavesBehind(envs, i, j, x)
  {
    if envs != [] {
      var n := |envs| - 1;
      var front := envs[..n];
      UndeletedExactly(front, x);
      NewestExactly(front, x);
      if i, j :| 0 <= i < j < n && LeavesBehind(front, i, j, x) {
        assert LeavesBehind(envs, i, j, x);
      }
      if i, j :| 0 <= i < j <= n && LeavesBehind(envs, i, j, x) {
        if j < n {
          assert LeavesBehind(front, i, j, x);
        } else {
          assert Creates(front, i, x) && front[i].usable && NoneUsable(front, i, n);
        }
      }
      if i :| 0 <= i < n && Creates(front, i, x) && front[i].usable && NoneUsable(front, i, n)
              && envs[n].usable && !envs[n].delete.effect
      {
        assert LeavesBehind(envs, i, n, x);
      }
    }
  }

  /**
   * After any number of rotations a token is live exactly if it was created, and either its own
   * rotation failed, or none has succeeded since, or the one that replaced it failed to delete it.
   */
  lemma LiveExactly(envs: seq<Env>, x: Token)
    requires AllPossible(envs)
    ensures x in AfterAll(envs).live <==>
              || (exists i :: 0 <= i < |envs| && Creates(envs, i, x) && !envs[i].usable)
              || (exists i :: 0 <= i < |envs| && Creates(envs, i, x) && envs[i].usable && NoneUsable(envs, i, |envs|))
              || (exists i, j :: 0 <= i < j < |envs| && LeavesBehind(envs, i, j, x))
  {
    ChainAccounting(envs);
    OrphanExactly(envs, x);
    NewestExactly(envs, x);
    UndeletedExactly(envs, x);
  }

  /** What one rotation does to the live tokens. */
  lemma LiveAfter(envs: seq<Env>, e: Env)
    requires AllPossible(envs) && Possible(AfterAll(envs), e)
    ensures var s := AfterAll(envs);
      && Rotated(s, e).live ==
           s.live + (if e.created then {e.token} else {})
           - (if e.usable && s.newest.Some? && e.delete.effect then {s.newest.value} else {})
      && e.token !in s.live && (s.newest.Some? ==> s.newest.value in s.live)
  {
    ChainAccounting(envs);
  }

  // ---- The object --------------------------------------------------------------------------

  /** The adapter with the provider's tokens, and the rotations of the chain so far. */
  class Adapter {
    ghost var live: set<Token>
    ghost var envs: seq<Env>

    ghost predicate Valid()
      reads this
    {
      AllPossible(envs) && live == AfterAll(envs).live
    }

    constructor ()
      ensures Valid() && envs == []
    {
      live, envs := {}, [];
    }

    /** The create request: does the provider make a token, and is its answer usable? */
    method Create(env: Env) returns (created: Option<Token>)
      modifies this`live
      ensures live == if env.created then old(live) + {env.token} else old(live)
      ensures created == if env.usable then Some(env.token) else None
    {
      if env.created {
        live := live + {env.token};
      }
      created := if env.usable then Some(env.token) else None;
    }

    /** `Revoke`: an empty id is refused, and 404 counts as deleted. */
    method Revoke(token: Option<Token>, d: Delete) returns (ok: bool)
      requires token.Some? ==> Honest(live, token.value, d)
      modifies this`live
      ensures ok <==> token.Some? && (d.status == Some(204) || d.status == Some(404))
      ensures ok ==> token.value !in live
      ensures live == if token.Some? && d.effect then old(live) - {token.value} else old(live)
    {
      if token == None {
        return false;
      }
      if d.effect {
        live := live - {token.value};
      }
      if d.status == None {
        return false;
      }
      if d.status == Some(404) {
        return true;
      }
      ok := d.status == Some(204);
    }

    /** Records the rotation. */
    ghost method Record(env: Env)
      requires AllPossible(envs) && Possible(AfterAll(envs), env) && live == Rotated(AfterAll(envs), env).live
      modifies this`envs
      ensures Valid() && envs == old(envs) + [env]
    {
      assert (envs + [env])[..|envs|] == envs;
      envs := envs + [env];
    }

    /**
     * `Rotate` of a chain, given the old token's id from the request's Meta. On success the old
     * token is gone exactly if the delete took effect; on an error no token is.
     */
    method Rotate(previous: Option<Token>, env: Env) returns (res: Result<Token>)
      requires Valid() && previous == AfterAll(envs).newest && Possible(AfterAll(envs), env)
      requires previous.Some? ==> Honest(live, previous.value, env.delete)
      modifies this
      ensures Valid() && envs == old(envs) + [env]
      ensures res.Ok? <==> env.usable
      ensures res.Ok? ==> res.value == env.token && env.token in live
      ensures res.Ok? && previous.Some? ==> (previous.value in live <==> !env.delete.effect)
      ensures live == old(live) + (if env.created then {env.token} else {})
                      - (if env.usable && previous.Some? && env.delete.effect then {previous.value} else {})
    {
      LiveAfter(envs, env);
      var created := Create(env);
      if created == None {
        Record(env);
        return Err("github rotate");
      }
      if previous.Some? {
        var ok := Revoke(previous, env.delete);
      }
      Record(env);
      res := Ok(created.value);
    }

    /** Whatever rotations were made: which tokens are live, and how many. */
    lemma Accounting(x: Token)
      requires Valid()
      ensures x in live <==>
                || (exists i :: 0 <= i < |envs| && Creates(envs, i, x) && !envs[i].usable)
                || (exists i :: 0 <= i < |envs| && Creates(envs, i, x) && envs[i].usable && NoneUsable(envs, i, |envs|))
                || (exists i, j :: 0 <= i < j < |envs| && LeavesBehind(envs, i, j, x))
      ensures var s := AfterAll(envs);
        |live| == (if s.newest.Some? then 1 else 0) + |s.undeleted| + |s.orphans|
    {
      LiveExactly(envs, x);
      ChainAccounting(envs);
    }
  }
}
