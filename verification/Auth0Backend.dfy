/**
 * The Auth0 engine's request handlers, run one at a time over storage and an Auth0 tenant. The
 * object carries the run of the protocol in module Auth0Engine that its calls so far amount to, so
 * the theorems about runs apply to it; what each call returns and changes is stated in its inputs.
 */
module Auth0Backend {
  import opened Collections
  import opened Auth0Engine

  /**
   * What the network and Auth0 do for one rotation: whether the token request gets through, whether
   * Auth0 carries the rotation out (with the secret `issued`), and whether a usable response to it
   * comes back.
   */
  datatype Net = Net(tokenReached: bool, rotated: bool, issued: Secret, received: bool)

  /** Answer of a creds read: the credential in plaintext, or its Transit ciphertext. */
  datatype Credential = Plain(secret: Secret) | Encrypted(ciphertext: string, transitKey: string)

  /** Answer of a config read; there is no field for the client secret. */
  datatype PublicConfig = PublicConfig(domain: string, clientId: App, audience: string, transitKey: string)

  /** Given this storage read and network, Auth0 carries out a rotation of app for a new request. */
  predicate Carried(s: State, readOk: bool, net: Net, app: App) {
    && readOk && s.storage.Some? && net.tokenReached
    && Valid(s, s.storage.value.clientId, s.storage.value.clientSecret)
    && net.rotated && app in s.current
  }

  function Replaced(current: map<App, Secret>, app: App, issued: Secret, rotated: bool): map<App, Secret> {
    if rotated then current[app := issued] else current
  }

  ghost predicate NoLeaseValid(s: State, app: App) {
    forall l :: l in s.leases && l.app == app ==> !Valid(s, app, l.secret)
  }

  /** Once Auth0 accepts a secret issued after a run, no lease that the run made is valid. */
  lemma ReplacedLeasesDie(tr: seq<State>, acts: seq<Action>, t: State, app: App, issued: Secret)
    requires IsRun(tr, acts) && issued !in tr[|acts|].known
    requires t.leases == tr[|acts|].leases && Valid(t, app, issued)
    ensures NoLeaseValid(t, app)
  {
    InvInEveryRun(tr, acts, |acts|);
    LeaseSecretsKnown(tr[|acts|]);
  }

  class Backend {
    var storage: Option<Config>
    var current: map<App, Secret>
    ghost var known: set<Secret>
    ghost var reqs: map<nat, Request>
    var leases: seq<Lease>

    /** The run so far. */
    ghost var tr: seq<State>
    ghost var acts: seq<Action>

    ghost function View(): State
      reads this
    {
      State(storage, current, known, reqs, leases)
    }

    ghost predicate Valid()
      reads this
    {
      IsRun(tr, acts) && tr[|acts|] == View()
    }

    /** A newly mounted engine; `current` are the applications of the Auth0 tenant. */
    constructor (current: map<App, Secret>)
      ensures Valid() && storage == None && this.current == current && leases == [] && acts == []
    {
      storage, leases, reqs, acts := None, [], map[], [];
      this.current, known := current, current.Values;
      tr := [State(None, current, current.Values, map[], [])];
    }

    /** Records that request r has taken step a, after the fields have been set. */
    ghost method Record(s: State, a: Action)
      requires IsRun(tr, acts) && tr[|acts|] == s && Enabled(s, a) && known == s.known && reqs == s.reqs
      requires var t := Apply(s, a); storage == t.storage && current == t.current && leases == t.leases
      modifies this`known, this`reqs, this`tr, this`acts
      ensures Valid() && View() == Apply(s, a)
      ensures old(tr) <= tr && old(acts) <= acts
    {
      var t := Apply(s, a);
      known, reqs, tr, acts := t.known, t.reqs, tr + [t], acts + [a];
    }

    /** `writeConfig`: all fields but the Transit key are required. `putOk`: storage takes the write. */
    method WriteConfig(cfg: Config, putOk: bool) returns (ok: bool)
      requires Valid()
      modifies this
      ensures Valid() && old(tr) <= tr && old(acts) <= acts && current == old(current) && leases == old(leases)
      ensures ok <==> cfg.domain != "" && cfg.clientId != "" && cfg.clientSecret != "" && cfg.audience != "" && putOk
      ensures storage == if ok then Some(cfg) else old(storage)
    {
      if cfg.domain == "" || cfg.clientId == "" || cfg.clientSecret == "" || cfg.audience == "" {
        return false;
      }
      if !putOk {
        return false;
      }
      ghost var s := View();
      storage := Some(cfg);
      Record(s, Action.WriteConfig(cfg));
      ok := true;
    }

    method ReadConfig(readOk: bool) returns (r: Result<PublicConfig>)
      ensures r.Ok? <==> readOk && storage.Some?
      ensures r.Ok? ==>
                var cfg := storage.value;
                r.value == PublicConfig(cfg.domain, cfg.clientId, cfg.audience, cfg.transitKey)
    {
      if !readOk {
        return Err("read config");
      }
      match storage
      case None => r := Err("not configured");
      case Some(cfg) => r := Ok(PublicConfig(cfg.domain, cfg.clientId, cfg.audience, cfg.transitKey));
    }

    /** The token request of a client built from cfg. */
    method ManagementToken(r: nat, cfg: Config, reached: bool) returns (ok: bool)
      requires Valid() && r in reqs && reqs[r].phase == Loaded(cfg)
      modifies this`known, this`reqs, this`tr, this`acts
      ensures Valid() && old(tr) <= tr && old(acts) <= acts && known == old(known)
      ensures ok <==> reached && Auth0Engine.Valid(View(), cfg.clientId, cfg.clientSecret)
      ensures reqs == old(reqs)[r := old(reqs[r]).(phase := if ok then Authorized(cfg) else Failed(None))]
    {
      ok := reached && cfg.clientId in current && current[cfg.clientId] == cfg.clientSecret;
      Record(View(), if ok then Authorize(r) else AuthorizeFail(r));
    }

    /** The rotate request of a client that holds a token. */
    method CallRotate(r: nat, ghost cfg: Config, app: App, net: Net) returns (ok: bool)
      requires Valid() && r in reqs && reqs[r].phase == Authorized(cfg) && app == Target(reqs[r].kind, cfg)
      requires net.issued !in known
      modifies this`current, this`known, this`reqs, this`tr, this`acts
      ensures Valid() && old(tr) <= tr && old(acts) <= acts && old(known) <= known
      ensures current == Replaced(old(current), app, net.issued, net.rotated && app in old(current))
      ensures ok <==> net.rotated && app in old(current) && net.received
      ensures r in reqs && reqs[r].kind == old(reqs[r].kind)
      ensures ok ==> reqs[r].phase == Received(cfg, net.issued)
    {
      ghost var s := View();
      ok := net.rotated && app in current;
      if !ok {
        Record(s, RotateFail(r, false));
        return;
      }
      current := current[app := net.issued];
      Record(s, Rotate(r, net.issued));
      ok := net.received;
      Record(View(), if ok then Receive(r) else Lose(r));
    }

    /** `rotateSecret` with a client built from cfg, for request r. */
    method RotateSecret(r: nat, cfg: Config, app: App, net: Net) returns (res: Result<Secret>)
      requires Valid() && r in reqs && reqs[r].phase == Loaded(cfg) && app == Target(reqs[r].kind, cfg)
      requires net.issued !in known
      modifies this`current, this`known, this`reqs, this`tr, this`acts
      ensures Valid() && old(tr) <= tr && old(acts) <= acts && old(known) <= known
      ensures r in reqs && reqs[r].kind == old(reqs[r].kind)
      ensures var rotated := net.tokenReached && Auth0Engine.Valid(old(View()), cfg.clientId, cfg.clientSecret)
                             && net.rotated && app in old(current);
        && current == Replaced(old(current), app, net.issued, rotated)
        && (res.Ok? <==> rotated && net.received)
      ensures res.Ok? ==> res.value == net.issued && reqs[r].phase == Received(cfg, res.value)
    {
      var ok := ManagementToken(r, cfg, net.tokenReached);
      if !ok {
        return Err("get management token");
      }
      ok := CallRotate(r, cfg, app, net);
      res := if ok then Ok(net.issued) else Err("rotate");
    }

    /** `getConfig` for a new request r. */
    method GetConfig(r: nat, ghost kind: Kind, readOk: bool) returns (res: Result<Option<Config>>)
      requires Valid() && r !in reqs
      modifies this`known, this`reqs, this`tr, this`acts
      ensures Valid() && old(tr) <= tr && old(acts) <= acts && known == old(known)
      ensures res.Ok? <==> readOk
      ensures res.Ok? ==> res.value == storage
      ensures r in reqs && reqs[r].kind == kind
      ensures reqs[r].phase == if readOk && storage.Some? then Loaded(storage.value) else Failed(None)
    {
      Record(View(), Begin(r, kind));
      Record(View(), if readOk then Load(r) else LoadFail(r));
      res := if readOk then Ok(storage) else Err("read config");
    }

    /** The write of the configuration with the new root secret. */
    method PutSecret(r: nat, cfg: Config, issued: Secret, putOk: bool)
      requires Valid() && r in reqs && reqs[r] == Request(Kind.RotateRoot, Received(cfg, issued))
      modifies this`storage, this`known, this`reqs, this`tr, this`acts
      ensures Valid() && old(tr) <= tr && old(acts) <= acts
      ensures storage == if putOk then Some(cfg.(clientSecret := issued)) else old(storage)
    {
      ghost var s := View();
      if putOk {
        storage := Some(cfg.(clientSecret := issued));
      }
      Record(s, if putOk then Store(r) else StoreFail(r));
    }

    /** The response to a creds read, Transit-encrypted if so configured, and its lease. */
    method Respond(r: nat, app: App, cfg: Config, issued: Secret, transit: Option<string>)
      returns (res: Result<Credential>)
      requires Valid() && r in reqs && reqs[r] == Request(Creds(app), Received(cfg, issued))
      modifies this`leases, this`known, this`reqs, this`tr, this`acts
      ensures Valid() && old(tr) <= tr && old(acts) <= acts
      ensures res.Ok? <==> cfg.transitKey == "" || transit.Some?
      ensures res.Ok? ==>
                res.value == if cfg.transitKey == "" then Plain(issued) else Encrypted(transit.value, cfg.transitKey)
      ensures leases == old(leases) + if res.Ok? then [Lease(app, issued, r)] else []
    {
      ghost var s := View();
      if cfg.transitKey != "" && transit == None {
        Record(s, DeliverFail(r));
        return Err("transit encrypt");
      }
      leases := leases + [Lease(app, issued, r)];
      Record(s, Deliver(r));
      res := Ok(if cfg.transitKey == "" then Plain(issued) else Encrypted(transit.value, cfg.transitKey));
    }

    /** A request that has only loaded the configuration gives up. */
    ghost method GiveUp(r: nat)
      requires Valid() && r in reqs && reqs[r].phase.Loaded?
      modifies this`known, this`reqs, this`tr, this`acts
      ensures Valid() && old(tr) <= tr && old(acts) <= acts
    {
      Record(View(), AuthorizeFail(r));
    }

    /** A revocation has nothing to do with the new secret. */
    ghost method DropSecret(r: nat)
      requires Valid() && r in reqs && reqs[r].kind.Revoke? && reqs[r].phase.Received?
      modifies this`known, this`reqs, this`tr, this`acts
      ensures Valid() && old(tr) <= tr && old(acts) <= acts
    {
      Record(View(), Discard(r));
    }

    /** `rotateRoot`; `putOk` is whether storage accepts the write. */
    method RotateRoot(r: nat, readOk: bool, net: Net, putOk: bool) returns (res: Result<App>)
      requires Valid() && r !in reqs && net.issued !in known
      modifies this
      ensures Valid() && old(tr) <= tr && old(acts) <= acts && leases == old(leases)
      ensures old(storage) == None ==> res.Err? && storage == None && current == old(current)
      ensures old(storage).Some? ==>
                var cfg := old(storage).value;
                var carried := Carried(old(View()), readOk, net, cfg.clientId);
                && (res.Ok? <==> carried && net.received && putOk)
                && (res.Ok? ==> res.value == cfg.clientId)
                && storage == Some(if res.Ok? then cfg.(clientSecret := net.issued) else cfg)
                && current == Replaced(old(current), cfg.clientId, net.issued, carried)
      ensures old(Agreed(View())) ==>
                (Agreed(View()) <==> !(readOk && net.tokenReached && net.rotated) || (net.received && putOk))
    {
      InvInEveryRun(tr, acts, |acts|);
      var stored := GetConfig(r, Kind.RotateRoot, readOk);
      if stored.Err? {
        return Err(stored.message);
      }
      if stored.value == None {
        return Err("not configured");
      }
      var cfg := stored.value.value;
      var issued := RotateSecret(r, cfg, cfg.clientId, net);
      if issued.Err? {
        return Err("rotate-root: Auth0 rotation failed");
      }
      PutSecret(r, cfg, issued.value, putOk);
      if !putOk {
        return Err("rotate-root: store updated config");
      }
      res := Ok(cfg.clientId);
    }

    /** `rotateCreds`; `transit` is what the Transit engine answers, None on failure. */
    method RotateCreds(r: nat, app: App, readOk: bool, net: Net, transit: Option<string>)
      returns (res: Result<Credential>)
      requires Valid() && r !in reqs && net.issued !in known
      modifies this
      ensures Valid() && old(tr) <= tr && old(acts) <= acts && storage == old(storage)
      ensures var carried := app != "" && Carried(old(View()), readOk, net, app);
        && current == Replaced(old(current), app, net.issued, carried)
        && (res.Ok? <==> carried && net.received && (storage.value.transitKey != "" ==> transit.Some?))
      ensures leases == old(leases) + if res.Ok? then [Lease(app, net.issued, r)] else []
      ensures res.Ok? ==>
                res.value == if storage.value.transitKey == "" then Plain(net.issued)
                             else Encrypted(transit.value, storage.value.transitKey)
    {
      var stored := GetConfig(r, Creds(app), readOk);
      if stored.Err? {
        return Err(stored.message);
      }
      if stored.value == None {
        return Err("not configured");
      }
      var cfg := stored.value.value;
      if app == "" {
        GiveUp(r);
        return Err("application_client_id is required");
      }
      var issued := RotateSecret(r, cfg, app, net);
      if issued.Err? {
        return Err("rotation failed");
      }
      res := Respond(r, app, cfg, issued.value, transit);
    }

    /** The part of `revokeCreds` after the application id has been found. */
    method RotateToRevoke(r: nat, app: App, readOk: bool, net: Net) returns (res: Result<()>)
      requires Valid() && r !in reqs && net.issued !in known
      modifies this`current, this`known, this`reqs, this`tr, this`acts
      ensures Valid() && old(tr) <= tr && old(acts) <= acts
      ensures var carried := Carried(old(View()), readOk, net, app);
        && current == Replaced(old(current), app, net.issued, carried)
        && (res.Ok? <==> carried && net.received)
    {
      var stored := GetConfig(r, Revoke(app), readOk);
      if stored.Err? {
        return Err(stored.message);
      }
      if stored.value == None {
        return Err("revoke: plugin not configured");
      }
      var issued := RotateSecret(r, stored.value.value, app, net);
      if issued.Err? {
        return Err("revoke: Auth0 rotation to invalidate credential failed");
      }
      DropSecret(r);
      res := Ok(());
    }

    /** `revokeCreds` for a lease whose internal data holds this application id, if any. */
    method RevokeCreds(r: nat, internal: Option<App>, readOk: bool, net: Net) returns (res: Result<()>)
      requires Valid() && r !in reqs && net.issued !in known
      modifies this
      ensures Valid() && old(tr) <= tr && old(acts) <= acts && storage == old(storage) && leases == old(leases)
      ensures internal == None || internal.value == "" ==> res.Err? && View() == old(View())
      ensures internal.Some? && internal.value != "" ==>
                var carried := Carried(old(View()), readOk, net, internal.value);
                && current == Replaced(old(current), internal.value, net.issued, carried)
                && (res.Ok? <==> carried && net.received)
      ensures res.Ok? ==> NoLeaseValid(View(), internal.value)
    {
      if internal == None || internal.value == "" {
        return Err("revoke: missing application_client_id in internal data");
      }
      res := RotateToRevoke(r, internal.value, readOk, net);
      if res.Ok? {
        ReplacedLeasesDie(old(tr), old(acts), View(), internal.value, net.issued);
      }
    }

    /** Whatever calls were made: what is stored agrees with Auth0 exactly if it has not been overtaken. */
    lemma {:induction false} StorageAgreement()
      requires Valid() && storage.Some?
      ensures var i := StoredSince(acts, |acts|);
        Agreed(View()) <==>
          && (Operated(acts, |acts|) ==> Agreed(tr[i]))
          && forall k :: i <= k < |acts| ==> !Rotates(tr[k], acts[k], storage.value.clientId)
    {
      StorageAgreesExactly(tr, acts, |acts|);
    }

    /** A lease that was dead at some point is dead now, whatever calls came in between. */
    lemma LeaseStaysDead(i: nat, n: nat)
      requires Valid() && i < |tr| && n < |tr[i].leases|
      requires !Auth0Engine.Valid(tr[i], tr[i].leases[n].app, tr[i].leases[n].secret)
      ensures n < |leases| && leases[n] == tr[i].leases[n]
      ensures !Auth0Engine.Valid(View(), leases[n].app, leases[n].secret)
    {
      InvInEveryRun(tr, acts, i);
      LeaseSecretsKnown(tr[i]);
      LeasesOnlyGrow(tr, acts, i, |acts|);
      DeadStaysDead(tr, acts, i, |acts|, tr[i].leases[n].app, tr[i].leases[n].secret);
    }
  }
}
