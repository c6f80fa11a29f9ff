/**
 * The create-then-delete adapters as objects: a semaphore, a wait group, and Rotate. Each small
 * method is one atomic action of the protocol in module Rotation; Rotate strings them together for
 * a call that nothing overlaps.
 */
module Adapter {
  import opened Collections
  import opened Names
  import CredentialId
  import R = Rotation

  datatype Provider = Splunk | Datadog | PagerDuty | SonarQube {
    /** The entry of the request's Meta that names the credential to delete. */
    function OldEntry(): string {
      if this == Splunk || this == SonarQube then "old_token_name" else "old_key_id"
    }

    function TimeResolution(): Resolution {
      if this == Splunk || this == Datadog then Millis else Seconds
    }
  }

  /** The provider's answer to the create request. */
  datatype Reply = NoResponse | Reply(status: int, parsed: bool, id: string, value: bytes)

  /** The answers from which a provider's adapter takes a credential. */
  predicate Accepted(p: Provider, reply: Reply) {
    && reply.Reply? && reply.parsed && reply.value != []
    && match p
       case Splunk => reply.status == 201 || reply.status == 200
       case Datadog => reply.status == 201 && reply.id != ""
       case PagerDuty => reply.status == 201 && reply.id != ""
       case SonarQube => reply.status == 200
  }

  /** What the environment contributes to one call of Rotate. */
  datatype Env = Env(slot: bool, now: Civil, random: Option<(byte, byte)>, created: bool, reply: Reply)

  datatype Issued = Issued(providerId: string, credentialId: string, credential: bytes)

  /** The name Rotate gives to the new credential. */
  function NewName(p: Provider, providerId: string, now: Civil, random: (byte, byte)): string {
    Name(Parts(providerId, now, random.0, random.1), p.TimeResolution())
  }

  /** The old credential that the request's Meta names, if the entry is there and not empty. */
  function OldOf(p: Provider, meta: map<string, string>): (o: Option<string>)
    ensures p == Splunk || p == SonarQube ==>
              (o == None <==> Lookup(meta, "old_token_name") == None || Lookup(meta, "old_token_name") == Some(""))
              && (o.Some? ==> o == Lookup(meta, "old_token_name"))
    ensures p == Datadog || p == PagerDuty ==>
              (o == None <==> Lookup(meta, "old_key_id") == None || Lookup(meta, "old_key_id") == Some(""))
              && (o.Some? ==> o == Lookup(meta, "old_key_id"))
  {
    if p.OldEntry() in meta && meta[p.OldEntry()] != "" then Some(meta[p.OldEntry()]) else None
  }

  /** The name determines what it was made of, and has one of two fixed shapes. */
  lemma NameSent(p: Provider, providerId: string, now: Civil, random: (byte, byte))
    ensures var millis := p == Splunk || p == Datadog; var name := NewName(p, providerId, now, random);
      && |name| == |providerId| + (if millis then 26 else 22)
      && (now.Valid() ==>
            Read(name, if millis then Millis else Seconds)
            == Some(Parts(providerId, if millis then now else now.(milli := 0), random.0, random.1)))
  {
    if now.Valid() {
      NameRoundTrip(Parts(providerId, now, random.0, random.1), p.TimeResolution());
    }
  }

  class CountedAdapter {
    const provider: Provider
    var free: int
    var cleanupWg: int

    /** The old credentials that clean-up goroutines have been started for. */
    var targets: seq<string>
    ghost var calls: map<R.CallId, R.Call>
    ghost var cleanups: seq<R.Cleanup>
    ghost var live: set<R.CallId>
    ghost var newest: map<string, R.CallId>

    /** The run of the protocol so far. */
    ghost var tr: seq<R.State>
    ghost var acts: seq<R.Action>

    ghost function View(): R.State
      reads this
    {
      R.State(free, cleanupWg, calls, cleanups, live, newest)
    }

    ghost predicate Valid()
      reads this
    {
      R.IsRun(tr, acts) && tr[|acts|] == View()
    }

    /** So far every chain has been rotated serially, each call passing the credential got last. */
    ghost predicate Serial()
      reads this
    {
      R.IsDisciplinedRun(tr, acts)
    }

    constructor (provider: Provider)
      ensures this.provider == provider && View() == R.Initial() && targets == [] && Valid() && Serial()
    {
      this.provider := provider;
      free, cleanupWg, targets := R.SEM_LIMIT, 0, [];
      calls, cleanups, live, newest := map[], [], {}, map[];
      tr, acts := [R.Initial()], [];
    }

    /** The part of a step that only the protocol state sees. */
    ghost method Note(s: R.State, a: R.Action)
      requires R.IsRun(tr, acts) && tr[|acts|] == s && R.Enabled(s, a)
      requires free == R.Apply(s, a).free && cleanupWg == R.Apply(s, a).wg
      modifies this`calls, this`cleanups, this`live, this`newest, this`tr, this`acts
      ensures View() == R.Apply(s, a) && Valid() && old(tr) <= tr
      ensures old(Serial()) && R.Disciplined(s, a) ==> Serial()
    {
      var t := R.Apply(s, a);
      calls, cleanups, live, newest := t.calls, t.cleanups, t.live, t.newest;
      tr, acts := tr + [t], acts + [a];
    }

    /** Whatever calls were made, and however they were interleaved: permits and wait group are exact. */
    lemma Counters()
      requires Valid()
      ensures 0 <= free && free + |R.Holders(View())| == R.SEM_LIMIT && cleanupWg == |R.Unfinished(View())|
      ensures |R.Creating(View())| <= R.SEM_LIMIT
    {
      R.CountersExactInEveryRun(tr, acts, |acts|);
      R.AtMostTenCreates(tr, acts, |acts|);
    }

    /** The account of the live credentials, for serial clients. */
    lemma Accounting()
      requires Valid() && Serial()
      ensures forall ch :: ch in newest ==> newest[ch] in live
      ensures var s := View();
        |live| == |newest| + |R.PendingCleanups(s)| + |R.FailedCleanups(s)| + |R.Orphans(s)| + |R.Unclaimed(s)|
    {
      R.CredentialAccounting(tr, acts, |acts|);
    }

    /** `sem.Acquire`: takes a permit, or gives up when the context ends first. */
    method Acquire(ghost c: R.CallId, slot: bool) returns (ok: bool)
      requires Valid() && R.At(View(), c, R.Waiting)
      modifies this`free, this`calls, this`cleanups, this`live, this`newest, this`tr, this`acts
      ensures Valid() && old(tr) <= tr && (old(Serial()) ==> Serial())
      ensures ok == (slot && old(free) > 0)
      ensures free == old(free) - if ok then 1 else 0
      ensures cleanups == old(cleanups) && live == old(live) && newest == old(newest)
      ensures calls == old(calls)[c := old(calls[c]).(phase := if ok then R.Holding else R.Returned(false))]
    {
      ghost var s := View();
      ok := slot && free > 0;
      if ok {
        free := free - 1;
      }
      Note(s, if ok then R.Action.Acquire(c) else R.Refuse(c));
    }

    /** The deferred `sem.Release`. */
    method Release(ghost c: R.CallId)
      requires Valid() && c in calls && calls[c].phase.Leaving?
      modifies this`free, this`calls, this`cleanups, this`live, this`newest, this`tr, this`acts
      ensures Valid() && old(tr) <= tr && (old(Serial()) ==> Serial())
      ensures free == old(free) + 1
      ensures cleanups == old(cleanups) && live == old(live) && newest == old(newest)
      ensures calls == old(calls)[c := old(calls[c]).(phase := R.Returned(old(calls[c]).phase.ok))]
    {
      ghost var s := View();
      free := free + 1;
      Note(s, R.Action.Release(c));
    }

    /** `cleanupWg.Add(1)` and the start of the clean-up goroutine, if there is an old credential. */
    method Commit(ghost c: R.CallId, oldId: Option<string>, ghost now: int)
      requires Valid() && R.At(View(), c, R.Created) && oldId.Some? == calls[c].prev.Some?
      modifies this`cleanupWg, this`targets, this`calls, this`cleanups, this`live, this`newest, this`tr, this`acts
      ensures Valid() && old(tr) <= tr && (old(Serial()) ==> Serial())
      ensures cleanupWg == old(cleanupWg) + if oldId.Some? then 1 else 0
      ensures cleanups == old(cleanups) + if oldId.Some?
                                          then [R.Cleanup(c, old(calls[c]).prev.value, now, false, R.Deleting)] else []
      ensures targets == old(targets) + if oldId.Some? then [oldId.value] else []
      ensures live == old(live) && newest == old(newest)[old(calls[c]).chain := c]
      ensures calls == old(calls)[c := old(calls[c]).(phase := R.Leaving(true))]
    {
      ghost var s := View();
      if oldId.Some? {
        cleanupWg, targets := cleanupWg + 1, targets + [oldId.value];
      }
      Note(s, R.Action.Commit(c, now));
    }

    /** The clean-up goroutine: whatever its delete does, even panic, it leaves the wait group once. */
    method RunCleanup(ghost i: nat, ghost hit: bool, ghost outcome: R.Outcome)
      requires Valid() && i < |cleanups| && cleanups[i].stage == R.Deleting && !cleanups[i].hit
      requires outcome == R.Deleted ==> hit || cleanups[i].target !in live
      modifies this`cleanupWg, this`calls, this`cleanups, this`live, this`newest, this`tr, this`acts
      ensures Valid() && old(tr) <= tr && (old(Serial()) ==> Serial())
      ensures cleanupWg == old(cleanupWg) - 1
      ensures cleanups == old(cleanups)[i := old(cleanups[i]).(hit := hit, stage := R.Finished(outcome))]
      ensures live == if hit then old(live) - {old(cleanups[i]).target} else old(live)
    {
      if hit {
        Note(View(), R.Hit(i));
      }
      Note(View(), R.End(i, outcome));
      ghost var s := View();
      cleanupWg := cleanupWg - 1;
      Note(s, R.Done(i));
    }

    /** The create request leaves, and the provider may act on it. */
    ghost method Send(c: R.CallId, created: bool)
      requires Valid() && R.At(View(), c, R.Holding) && calls[c].request == R.NotSent
      modifies this`calls, this`cleanups, this`live, this`newest, this`tr, this`acts
      ensures Valid() && old(tr) <= tr && (old(Serial()) ==> Serial())
      ensures cleanups == old(cleanups) && newest == old(newest)
      ensures live == if created then old(live) + {c} else old(live)
      ensures calls == old(calls)[c := old(calls[c]).(
                phase := R.Requesting, request := if created then R.Effected else R.InFlight)]
    {
      Note(View(), R.Action.Send(c));
      if created {
        Note(View(), R.Effect(c));
      }
    }

    /** The create request up to the decision whether its answer is usable. */
    method Create(ghost c: R.CallId, env: Env) returns (ok: bool)
      requires Valid() && R.At(View(), c, R.Holding) && calls[c].request == R.NotSent
      requires Accepted(provider, env.reply) ==> env.created
      modifies this`calls, this`cleanups, this`live, this`newest, this`tr, this`acts
      ensures Valid() && old(tr) <= tr && (old(Serial()) ==> Serial())
      ensures ok == (env.random.Some? && Accepted(provider, env.reply))
      ensures cleanups == old(cleanups) && newest == old(newest)
      ensures live == if env.random.Some? && env.created then old(live) + {c} else old(live)
      ensures c in calls && calls == old(calls)[c := calls[c]]
      ensures calls[c].prev == old(calls[c]).prev && calls[c].chain == old(calls[c]).chain
      ensures calls[c].phase == if ok then R.Created else R.Leaving(false)
    {
      if env.random == None {
        Note(View(), R.SuffixFail(c));
        return false;
      }
      Send(c, env.created);
      ok := Accepted(provider, env.reply);
      Note(View(), if ok then R.Accept(c) else R.CreateFail(c));
    }

    /** The end of Rotate: the clean-up is launched if there is a credential, and the permit returned. */
    method Conclude(ghost c: R.CallId, ok: bool, oldId: Option<string>, ghost now: int)
      requires Valid() && c in calls && calls[c].phase == if ok then R.Created else R.Leaving(false)
      requires oldId.Some? == calls[c].prev.Some?
      modifies this
      ensures Valid() && old(tr) <= tr && (old(Serial()) ==> Serial())
      ensures free == old(free) + 1 && live == old(live)
      ensures cleanupWg == old(cleanupWg) + if ok && oldId.Some? then 1 else 0
      ensures cleanups == old(cleanups) + if ok && oldId.Some?
                                          then [R.Cleanup(c, old(calls[c]).prev.value, now, false, R.Deleting)] else []
      ensures targets == old(targets) + if ok && oldId.Some? then [oldId.value] else []
      ensures newest == if ok then old(newest)[old(calls[c]).chain := c] else old(newest)
      ensures calls == old(calls)[c := old(calls[c]).(phase := R.Returned(ok))]
    {
      if ok {
        Commit(c, oldId, now);
      }
      Release(c);
    }

    /** Everything between taking a permit and giving it back. */
    method WithPermit(ghost c: R.CallId, oldId: Option<string>, ghost now: int, env: Env) returns (ok: bool)
      requires Valid() && R.At(View(), c, R.Holding) && calls[c].request == R.NotSent
      requires Accepted(provider, env.reply) ==> env.created
      requires oldId.Some? == calls[c].prev.Some?
      modifies this
      ensures Valid() && old(tr) <= tr && (old(Serial()) ==> Serial())
      ensures free == old(free) + 1
      ensures ok == (env.random.Some? && Accepted(provider, env.reply))
      ensures cleanupWg == old(cleanupWg) + if ok && oldId.Some? then 1 else 0
      ensures cleanups == old(cleanups) + if ok && oldId.Some?
                                          then [R.Cleanup(c, old(calls[c]).prev.value, now, false, R.Deleting)] else []
      ensures targets == old(targets) + if ok && oldId.Some? then [oldId.value] else []
      ensures live == if env.random.Some? && env.created then old(live) + {c} else old(live)
      ensures newest == if ok then old(newest)[old(calls[c]).chain := c] else old(newest)
      ensures c in calls && calls == old(calls)[c := calls[c]] && calls[c].phase == R.Returned(ok)
    {
      ok := Create(c, env);
      Conclude(c, ok, oldId, now);
    }

    /** No call of this chain is under way. */
    ghost predicate Idle(chain: string)
      reads this
    {
      forall d :: d in calls && calls[d].chain == chain ==> !R.Open(calls[d].phase)
    }

    ghost method Enter(c: R.CallId, chain: string, prev: Option<R.CallId>)
      requires Valid() && c !in calls
      modifies this`calls, this`cleanups, this`live, this`newest, this`tr, this`acts
      ensures Valid() && old(tr) <= tr
      ensures cleanups == old(cleanups) && live == old(live) && newest == old(newest)
      ensures calls == old(calls)[c := R.Call(chain, prev, R.Waiting, R.NotSent)]
      ensures old(Serial()) && prev == Lookup(old(newest), chain) && old(Idle(chain)) ==> Serial()
    {
      Note(View(), R.Action.Enter(c, chain, prev));
    }

    /** Rotate from the semaphore on: the state it leaves behind, and whether it has a credential. */
    method Attempt(
      ghost c: R.CallId, ghost chain: string, ghost prev: Option<R.CallId>, oldId: Option<string>,
      ghost now: int, env: Env)
      returns (ok: bool)
      requires Valid() && c !in calls && oldId.Some? == prev.Some?
      requires Accepted(provider, env.reply) ==> env.created
      modifies this
      ensures Valid() && old(tr) <= tr && free == old(free)
      ensures old(Serial()) && prev == Lookup(old(newest), chain) && old(Idle(chain)) ==> Serial()
      ensures ok == (env.slot && old(free) > 0 && env.random.Some? && Accepted(provider, env.reply))
      ensures cleanupWg == old(cleanupWg) + if ok && oldId.Some? then 1 else 0
      ensures cleanups == old(cleanups) + if ok && oldId.Some?
                                          then [R.Cleanup(c, prev.value, now, false, R.Deleting)] else []
      ensures targets == old(targets) + if ok && oldId.Some? then [oldId.value] else []
      ensures newest == if ok then old(newest)[chain := c] else old(newest)
      ensures live == old(live) || live == old(live) + {c}
      ensures ok ==> c in live
      ensures c in calls && calls == old(calls)[c := calls[c]] && calls[c].phase == R.Returned(ok)
    {
      Enter(c, chain, prev);
      ok := Acquire(c, env.slot);
      if ok {
        ok := WithPermit(c, oldId, now, env);
      }
    }

    /** The credential id each provider's Rotate reports. */
    function CredentialIdOf(providerId: string, name: string, replyId: string): string {
      match provider
      case Splunk => name
      case SonarQube => CredentialId.Join(providerId, name)
      case Datadog => replyId
      case PagerDuty => replyId
    }

    /**
     * Rotate, for a fresh call c of a chain whose old credential the protocol knows as `prev`.
     * `sent` is the name in the create request, if one was sent.
     */
    method Rotate(
      ghost c: R.CallId, ghost chain: string, ghost prev: Option<R.CallId>, ghost now: int,
      providerId: string, meta: map<string, string>, env: Env)
      returns (res: Result<Issued>, sent: Option<string>)
      requires Valid() && c !in calls
      requires prev.Some? == OldOf(provider, meta).Some?
      requires Accepted(provider, env.reply) ==> env.created
      modifies this
      ensures Valid() && old(tr) <= tr
      ensures old(Serial()) && prev == Lookup(old(newest), chain) && old(Idle(chain)) ==> Serial()
      ensures free == old(free)
      // When it succeeds, and what is sent.
      ensures sent.Some? <==>
                (provider == SonarQube ==> providerId != "") && env.slot && old(free) > 0 && env.random.Some?
      ensures res.Ok? <==>
                && sent.Some? && env.reply.Reply? && env.reply.parsed && env.reply.value != []
                && ((env.reply.status == 201 && provider != SonarQube)
                    || (env.reply.status == 200 && (provider == Splunk || provider == SonarQube)))
                && (provider == Datadog || provider == PagerDuty ==> env.reply.id != "")
      ensures sent.Some? && env.now.Valid() ==>
                && |sent.value| == |providerId| + (if provider == Splunk || provider == Datadog then 26 else 22)
                && Read(sent.value, if provider == Splunk || provider == Datadog then Millis else Seconds)
                   == Some(Parts(providerId, if provider == Splunk || provider == Datadog then env.now
                                             else env.now.(milli := 0), env.random.value.0, env.random.value.1))
      // What it returns.
      ensures res.Ok? ==> res.value.providerId == providerId && res.value.credential == env.reply.value
      ensures res.Ok? && provider == Splunk ==> Some(res.value.credentialId) == sent
      ensures res.Ok? && provider == SonarQube ==> res.value.credentialId == providerId + ":" + sent.value
      ensures res.Ok? && provider == SonarQube && ':' !in providerId ==>
                CredentialId.Parse(res.value.credentialId) == Ok((providerId, sent.value))
      ensures res.Ok? && (provider == Datadog || provider == PagerDuty) ==> res.value.credentialId == env.reply.id
      // What it leaves behind.
      ensures cleanupWg == old(cleanupWg) + if res.Ok? && prev.Some? then 1 else 0
      ensures targets == old(targets) + if res.Ok? && prev.Some? then [OldOf(provider, meta).value] else []
      ensures cleanups == old(cleanups) + if res.Ok? && prev.Some?
                                          then [R.Cleanup(c, prev.value, now, false, R.Deleting)] else []
      ensures newest == if res.Ok? then old(newest)[chain := c] else old(newest)
      ensures live == old(live) || live == old(live) + {c}
      ensures res.Ok? ==> c in live
      ensures forall d :: d in old(calls) ==> d in calls && calls[d] == old(calls)[d]
      ensures forall d :: d in calls && d !in old(calls) ==> d == c && calls[c].phase == R.Returned(res.Ok?)
      ensures res.Ok? ==> c in calls
    {
      sent := None;
      if provider == SonarQube && providerId == "" {
        return Err("provider_id (login) is required"), sent;
      }
      if env.slot && free > 0 && env.random.Some? {
        sent := Some(NewName(provider, providerId, env.now, env.random.value));
        NameSent(provider, providerId, env.now, env.random.value);
      }
      var ok := Attempt(c, chain, prev, OldOf(provider, meta), now, env);
      if !ok {
        return Err("rotate"), sent;
      }
      if provider == SonarQube {
        CredentialId.RoundTrip(providerId, sent.value);
      }
      res := Ok(Issued(providerId, CredentialIdOf(providerId, sent.value, env.reply.id), env.reply.value));
    }
  }
}
