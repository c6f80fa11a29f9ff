/**
 * The Auth0 secrets engine: requests that read the stored configuration, obtain a management token
 * with it, and rotate a client secret at Auth0, either the engine's own (root rotation) or that of
 * an application (issuing and revoking leases).
 *
 * The model is a transition system for any number of concurrent requests, one step per external
 * effect. Auth0 holds one current secret per application and never reissues one. Responses can be
 * lost, and Auth0 may carry out a rotation after its caller has given up.
 */
module Auth0Engine {
  import opened Collections

  type App = string
  type Secret = string

  datatype Config = Config(domain: string, clientId: App, clientSecret: Secret, audience: string, transitKey: string)

  datatype Kind = RotateRoot | Creds(app: App) | Revoke(app: App)

  /** `Failed(Some(app))`: the request gave up while its rotation of app may still be carried out. */
  datatype Phase =
    | Begun
    | Loaded(cfg: Config)
    | Authorized(cfg: Config)
    | Effected(cfg: Config, secret: Secret)
    | Received(cfg: Config, secret: Secret)
    | Succeeded(secret: Secret)
    | Failed(pending: Option<App>)

  datatype Request = Request(kind: Kind, phase: Phase)

  datatype Lease = Lease(app: App, secret: Secret, request: nat)

  /** `known` holds every secret that Auth0 has issued or that has been configured. */
  datatype State = State(
    storage: Option<Config>, current: map<App, Secret>, known: set<Secret>,
    reqs: map<nat, Request>, leases: seq<Lease>)

  datatype Action =
    | Begin(r: nat, kind: Kind)
    | Load(r: nat)
    | LoadFail(r: nat)
    | Authorize(r: nat)
    | AuthorizeFail(r: nat)
    | Rotate(r: nat, issued: Secret)
    | RotateFail(r: nat, inFlight: bool)
    | LateRotate(r: nat, issued: Secret)
    | Receive(r: nat)
    | Lose(r: nat)
    | Store(r: nat)
    | StoreFail(r: nat)
    | Deliver(r: nat)
    | DeliverFail(r: nat)
    | Discard(r: nat)
    | WriteConfig(cfg: Config)

  function Target(kind: Kind, cfg: Config): App {
    match kind
    case RotateRoot => cfg.clientId
    case Creds(app) => app
    case Revoke(app) => app
  }

  /** Auth0 accepts this secret for this application. */
  predicate Valid(s: State, app: App, secret: Secret) {
    app in s.current && s.current[app] == secret
  }

  predicate Has(s: State, r: nat) {
    r in s.reqs
  }

  function PhaseOf(s: State, r: nat): Phase
    requires Has(s, r)
  {
    s.reqs[r].phase
  }

  predicate Enabled(s: State, a: Action) {
    match a
    case Begin(r, _) => !Has(s, r)
    case Load(r) => Has(s, r) && PhaseOf(s, r) == Begun
    case LoadFail(r) => Has(s, r) && PhaseOf(s, r) == Begun
    case Authorize(r) => Has(s, r) && PhaseOf(s, r).Loaded?
                         && Valid(s, PhaseOf(s, r).cfg.clientId, PhaseOf(s, r).cfg.clientSecret)
    case AuthorizeFail(r) => Has(s, r) && PhaseOf(s, r).Loaded?
    case Rotate(r, issued) => Has(s, r) && PhaseOf(s, r).Authorized?
                             && Target(s.reqs[r].kind, PhaseOf(s, r).cfg) in s.current && issued !in s.known
    case RotateFail(r, _) => Has(s, r) && PhaseOf(s, r).Authorized?
    case LateRotate(r, issued) => Has(s, r) && PhaseOf(s, r).Failed? && PhaseOf(s, r).pending.Some?
                                 && PhaseOf(s, r).pending.value in s.current && issued !in s.known
    case Receive(r) => Has(s, r) && PhaseOf(s, r).Effected?
    case Lose(r) => Has(s, r) && PhaseOf(s, r).Effected?
    case Store(r) => Has(s, r) && PhaseOf(s, r).Received? && s.reqs[r].kind.RotateRoot?
    case StoreFail(r) => Has(s, r) && PhaseOf(s, r).Received? && s.reqs[r].kind.RotateRoot?
    case Deliver(r) => Has(s, r) && PhaseOf(s, r).Received? && s.reqs[r].kind.Creds?
    case DeliverFail(r) => Has(s, r) && PhaseOf(s, r).Received? && s.reqs[r].kind.Creds?
                           && PhaseOf(s, r).cfg.transitKey != ""
    case Discard(r) => Has(s, r) && PhaseOf(s, r).Received? && s.reqs[r].kind.Revoke?
    case WriteConfig(cfg) => cfg.domain != "" && cfg.clientId != "" && cfg.clientSecret != "" && cfg.audience != ""
  }

  function SetPhase(s: State, r: nat, p: Phase): State
    requires Has(s, r)
  {
    s.(reqs := s.reqs[r := s.reqs[r].(phase := p)])
  }

  /** Auth0 replaces the secret of an application. */
  function Issue(s: State, app: App, issued: Secret): State {
    s.(current := s.current[app := issued], known := s.known + {issued})
  }

  function Apply(s: State, a: Action): State
    requires Enabled(s, a)
  {
    match a
    case Begin(r, kind) => s.(reqs := s.reqs[r := Request(kind, Begun)])
    case Load(r) => SetPhase(s, r, if s.storage.Some? then Loaded(s.storage.value) else Failed(None))
    case LoadFail(r) => SetPhase(s, r, Failed(None))
    case Authorize(r) => SetPhase(s, r, Authorized(PhaseOf(s, r).cfg))
    case AuthorizeFail(r) => SetPhase(s, r, Failed(None))
    case Rotate(r, issued) =>
      var cfg := PhaseOf(s, r).cfg;
      Issue(SetPhase(s, r, Effected(cfg, issued)), Target(s.reqs[r].kind, cfg), issued)
    case RotateFail(r, inFlight) =>
      SetPhase(s, r, Failed(if inFlight then Some(Target(s.reqs[r].kind, PhaseOf(s, r).cfg)) else None))
    case LateRotate(r, issued) => Issue(SetPhase(s, r, Failed(None)), PhaseOf(s, r).pending.value, issued)
    case Receive(r) => SetPhase(s, r, Received(PhaseOf(s, r).cfg, PhaseOf(s, r).secret))
    case Lose(r) => SetPhase(s, r, Failed(None))
    case Store(r) =>
      SetPhase(s, r, Succeeded(PhaseOf(s, r).secret)).(
      storage := Some(PhaseOf(s, r).cfg.(clientSecret := PhaseOf(s, r).secret)))
    case StoreFail(r) => SetPhase(s, r, Failed(None))
    case Deliver(r) =>
      SetPhase(s, r, Succeeded(PhaseOf(s, r).secret)).(
      leases := s.leases + [Lease(s.reqs[r].kind.app, PhaseOf(s, r).secret, r)])
    case DeliverFail(r) => SetPhase(s, r, Failed(None))
    case Discard(r) => SetPhase(s, r, Succeeded(PhaseOf(s, r).secret))
    case WriteConfig(cfg) => s.(storage := Some(cfg), known := s.known + {cfg.clientSecret})
  }

  ghost predicate Start(s: State) {
    && s.reqs == map[] && s.leases == []
    && (forall app :: app in s.current ==> s.current[app] in s.known)
    && (s.storage.Some? ==> s.storage.value.clientSecret in s.known)
  }

  ghost predicate IsRun(tr: seq<State>, acts: seq<Action>) {
    && |tr| == |acts| + 1
    && Start(tr[0])
    && forall i {:trigger acts[i]} :: 0 <= i < |acts| ==> Enabled(tr[i], acts[i]) && tr[i + 1] == Apply(tr[i], acts[i])
  }

  // ---- Secrets -----------------------------------------------------------------------------

  predicate HasSecret(p: Phase) {
    p.Effected? || p.Received? || p.Succeeded?
  }

  predicate HasConfig(p: Phase) {
    p.Loaded? || p.Authorized? || p.Effected? || p.Received?
  }

  /** Every secret in play is known, so a newly issued one differs from all of them. */
  predicate PhaseKnown(p: Phase, known: set<Secret>) {
    && (HasSecret(p) ==> p.secret in known)
    && (HasConfig(p) ==> p.cfg.clientSecret in known)
    && (HasSecret(p) && HasConfig(p) ==> p.secret != p.cfg.clientSecret)
  }

  ghost predicate AllKnown(s: State) {
    && (forall app :: app in s.current ==> s.current[app] in s.known)
    && (s.storage.Some? ==> s.storage.value.clientSecret in s.known)
    && (forall r :: r in s.reqs ==> PhaseKnown(s.reqs[r].phase, s.known))
  }

  ghost predicate SecretsDistinct(s: State) {
    forall r, q ::
      (r in s.reqs && q in s.reqs && HasSecret(s.reqs[r].phase) && HasSecret(s.reqs[q].phase)
       && s.reqs[r].phase.secret == s.reqs[q].phase.secret) ==> r == q
  }

  ghost predicate LeasesBacked(s: State) {
    && (forall n :: 0 <= n < |s.leases| ==>
          var l := s.leases[n];
          l.request in s.reqs && s.reqs[l.request] == Request(Creds(l.app), Succeeded(l.secret)))
    && (forall m, n :: 0 <= m < n < |s.leases| ==> s.leases[m].request != s.leases[n].request)
  }

  ghost predicate Inv(s: State) {
    AllKnown(s) && SecretsDistinct(s) && LeasesBacked(s)
  }

  lemma KnownStep(s: State, a: Action)
    requires AllKnown(s) && Enabled(s, a)
    ensures AllKnown(Apply(s, a))
  {
    var t := Apply(s, a);
    forall r | r in t.reqs ensures PhaseKnown(t.reqs[r].phase, t.known) {
      assert r in s.reqs ==> PhaseKnown(s.reqs[r].phase, s.known);
    }
  }

  /** A request gets its secret from the step in which Auth0 issues it, and keeps it. */
  lemma SecretMoves(s: State, a: Action, r: nat)
    requires Enabled(s, a) && r in Apply(s, a).reqs && HasSecret(Apply(s, a).reqs[r].phase)
    ensures var secret := Apply(s, a).reqs[r].phase.secret;
      if a.Rotate? && a.r == r then secret == a.issued && a.issued !in s.known
      else r in s.reqs && HasSecret(s.reqs[r].phase) && s.reqs[r].phase.secret == secret
  {
  }

  lemma DistinctStep(s: State, a: Action)
    requires AllKnown(s) && SecretsDistinct(s) && Enabled(s, a)
    ensures SecretsDistinct(Apply(s, a))
  {
    var t := Apply(s, a);
    forall r, q | r in t.reqs && q in t.reqs && HasSecret(t.reqs[r].phase) && HasSecret(t.reqs[q].phase)
                  && t.reqs[r].phase.secret == t.reqs[q].phase.secret
      ensures r == q
    {
      SecretMoves(s, a, r);
      SecretMoves(s, a, q);
      assert r in s.reqs ==> PhaseKnown(s.reqs[r].phase, s.known);
      assert q in s.reqs ==> PhaseKnown(s.reqs[q].phase, s.known);
    }
  }

  lemma LeasesStep(s: State, a: Action)
    requires LeasesBacked(s) && Enabled(s, a)
    ensures LeasesBacked(Apply(s, a))
  {
  }

  lemma LeaseSecretsKnown(s: State)
    requires Inv(s)
    ensures forall n :: 0 <= n < |s.leases| ==> s.leases[n].secret in s.known
  {
    forall n | 0 <= n < |s.leases| ensures s.leases[n].secret in s.known {
      assert PhaseKnown(s.reqs[s.leases[n].request].phase, s.known);
    }
  }

  lemma {:induction false} InvInEveryRun(tr: seq<State>, acts: seq<Action>, n: nat)
    requires IsRun(tr, acts) && n < |tr|
    ensures Inv(tr[n])
  {
    if n > 0 {
      InvInEveryRun(tr, acts, n - 1);
      KnownStep(tr[n - 1], acts[n - 1]);
      DistinctStep(tr[n - 1], acts[n - 1]);
      LeasesStep(tr[n - 1], acts[n - 1]);
    }
  }

  /** The step in which Auth0 rotates the secret of this application. */
  predicate Rotates(s: State, a: Action, app: App) {
    || (a.Rotate? && Has(s, a.r) && PhaseOf(s, a.r).Authorized?
        && Target(s.reqs[a.r].kind, PhaseOf(s, a.r).cfg) == app)
    || (a.LateRotate? && Has(s, a.r) && PhaseOf(s, a.r) == Failed(Some(app)))
  }

  /** No step from i up to j rotates the secret of this application. */
  predicate Untouched(tr: seq<State>, acts: seq<Action>, i: nat, j: nat, app: App)
    requires j < |tr| && |tr| == |acts| + 1
    decreases j
  {
    j <= i || (Untouched(tr, acts, i, j - 1, app) && !Rotates(tr[j - 1], acts[j - 1], app))
  }

  lemma {:induction false} UntouchedMeans(tr: seq<State>, acts: seq<Action>, i: nat, j: nat, app: App)
    requires j < |tr| && |tr| == |acts| + 1
    ensures Untouched(tr, acts, i, j, app) <==> forall k :: i <= k < j ==> !Rotates(tr[k], acts[k], app)
    decreases j
  {
    if i < j {
      UntouchedMeans(tr, acts, i, j - 1, app);
    }
  }

  /** A known secret that is not valid never becomes valid. */
  lemma {:induction false} DeadStaysDead(tr: seq<State>, acts: seq<Action>, i: nat, j: nat, app: App, secret: Secret)
    requires IsRun(tr, acts) && i <= j < |tr|
    requires secret in tr[i].known && !Valid(tr[i], app, secret)
    ensures secret in tr[j].known && !Valid(tr[j], app, secret)
    decreases j
  {
    if i < j {
      DeadStaysDead(tr, acts, i, j - 1, app, secret);
      assert Enabled(tr[j - 1], acts[j - 1]);
    }
  }

  lemma ValidStep(s: State, a: Action, app: App, secret: Secret)
    requires Enabled(s, a) && Valid(s, app, secret) && secret in s.known
    ensures Valid(Apply(s, a), app, secret) <==> !Rotates(s, a, app)
  {
  }

  lemma KnownGrows(s: State, a: Action)
    requires Enabled(s, a)
    ensures s.known <= Apply(s, a).known
  {
  }

  lemma StepAt(tr: seq<State>, acts: seq<Action>, i: nat)
    requires IsRun(tr, acts) && i < |acts|
    ensures Enabled(tr[i], acts[i]) && tr[i + 1] == Apply(tr[i], acts[i])
  {
  }

  lemma StillValidNext(tr: seq<State>, acts: seq<Action>, i: nat, j: nat, app: App, secret: Secret)
    requires IsRun(tr, acts) && i < j < |tr| && Untouched(tr, acts, i, j - 1, app)
    requires Valid(tr[j - 1], app, secret) && secret in tr[j - 1].known
    ensures Valid(tr[j], app, secret) <==> Untouched(tr, acts, i, j, app)
    ensures secret in tr[j].known
  {
    StepAt(tr, acts, j - 1);
    ValidStep(tr[j - 1], acts[j - 1], app, secret);
    KnownGrows(tr[j - 1], acts[j - 1]);
  }

  /** A valid secret stays valid exactly until the next rotation of its application. */
  lemma {:induction false} ValidUntilRotated(
    tr: seq<State>, acts: seq<Action>, i: nat, j: nat, app: App, secret: Secret)
    requires IsRun(tr, acts) && i <= j < |tr| && Valid(tr[i], app, secret)
    ensures Valid(tr[j], app, secret) <==> Untouched(tr, acts, i, j, app)
    ensures secret in tr[j].known
    decreases j
  {
    if i == j {
      InvInEveryRun(tr, acts, j);
    } else {
      ValidUntilRotated(tr, acts, i, j - 1, app, secret);
      if Valid(tr[j - 1], app, secret) {
        StillValidNext(tr, acts, i, j, app, secret);
      } else {
        DeadStaysDead(tr, acts, j - 1, j, app, secret);
      }
    }
  }

  /** At most one lease of an application has a valid secret. */
  lemma AtMostOneValidLease(tr: seq<State>, acts: seq<Action>, i: nat, m: nat, n: nat)
    requires IsRun(tr, acts) && i < |tr| && m < |tr[i].leases| && n < |tr[i].leases|
    requires tr[i].leases[m].app == tr[i].leases[n].app
    requires Valid(tr[i], tr[i].leases[m].app, tr[i].leases[m].secret)
    requires Valid(tr[i], tr[i].leases[n].app, tr[i].leases[n].secret)
    ensures m == n
  {
    InvInEveryRun(tr, acts, i);
    var l, k := tr[i].leases[m], tr[i].leases[n];
    assert tr[i].reqs[l.request].phase.secret == tr[i].reqs[k.request].phase.secret;
  }

  lemma {:induction false} LeasesOnlyGrow(tr: seq<State>, acts: seq<Action>, i: nat, j: nat)
    requires IsRun(tr, acts) && i <= j < |tr|
    ensures tr[i].leases <= tr[j].leases
    decreases j
  {
    if i < j {
      LeasesOnlyGrow(tr, acts, i, j - 1);
      assert Enabled(tr[j - 1], acts[j - 1]);
    }
  }

  /** Request r revokes leases of app, and once it has a new secret the given one is dead. */
  predicate Replaces(s: State, r: nat, app: App, secret: Secret) {
    && secret in s.known && r in s.reqs && s.reqs[r].kind == Revoke(app)
    && (HasSecret(s.reqs[r].phase) ==> !Valid(s, app, secret))
  }

  lemma ReplacesStep(s: State, a: Action, r: nat, app: App, secret: Secret)
    requires Enabled(s, a) && Replaces(s, r, app, secret)
    ensures Replaces(Apply(s, a), r, app, secret)
  {
  }

  /** A revocation that began at step i has replaced whatever was known then, or has not rotated yet. */
  lemma {:induction false} RevocationProgress(
    tr: seq<State>, acts: seq<Action>, i: nat, j: nat, r: nat, app: App, secret: Secret)
    requires IsRun(tr, acts) && i < j < |tr|
    requires acts[i] == Begin(r, Revoke(app)) && secret in tr[i].known
    ensures Replaces(tr[j], r, app, secret)
    decreases j
  {
    StepAt(tr, acts, j - 1);
    if j > i + 1 {
      RevocationProgress(tr, acts, i, j - 1, r, app, secret);
      ReplacesStep(tr[j - 1], acts[j - 1], r, app, secret);
    }
  }

  /**
   * Once a revocation returns without error, every lease of the application issued before it began
   * is dead for the rest of the run, whatever responses were lost and whoever rotates meanwhile.
   */
  lemma RevokedLeaseStaysDead(
    tr: seq<State>, acts: seq<Action>, i: nat, j: nat, k: nat, r: nat, n: nat)
    requires IsRun(tr, acts) && i < j <= k < |tr| && n < |tr[i].leases|
    requires acts[i] == Begin(r, Revoke(tr[i].leases[n].app))
    requires r in tr[j].reqs && tr[j].reqs[r].phase.Succeeded?
    ensures n < |tr[k].leases| && tr[k].leases[n] == tr[i].leases[n]
    ensures !Valid(tr[k], tr[i].leases[n].app, tr[i].leases[n].secret)
  {
    var l := tr[i].leases[n];
    InvInEveryRun(tr, acts, i);
    LeaseSecretsKnown(tr[i]);
    RevocationProgress(tr, acts, i, j, r, l.app, l.secret);
    DeadStaysDead(tr, acts, j, k, l.app, l.secret);
    LeasesOnlyGrow(tr, acts, i, k);
  }

  // ---- Root rotation -----------------------------------------------------------------------

  /** Auth0 accepts the stored secret for the stored management application. */
  predicate Agreed(s: State) {
    s.storage.Some? && Valid(s, s.storage.value.clientId, s.storage.value.clientSecret)
  }

  /** The position just after the latest step before n in which Auth0 issued a secret to request r. */
  function IssuedAt(acts: seq<Action>, n: nat, r: nat): (i: nat)
    requires n <= |acts|
    ensures i <= n
  {
    if n == 0 then 0
    else if acts[n - 1].Rotate? && acts[n - 1].r == r then n
    else IssuedAt(acts, n - 1, r)
  }

  /**
   * The position since which the configuration stored at n has existed: where Auth0 issued its
   * secret if a root rotation stored it, else where an operator wrote it, or the start.
   */
  function StoredSince(acts: seq<Action>, n: nat): (i: nat)
    requires n <= |acts|
    ensures i <= n
  {
    if n == 0 || acts[n - 1].WriteConfig? then n
    else if acts[n - 1].Store? then IssuedAt(acts, n - 1, acts[n - 1].r)
    else StoredSince(acts, n - 1)
  }

  /** The configuration stored at n is an operator's, or the one at the start. */
  predicate Operated(acts: seq<Action>, n: nat)
    requires n <= |acts|
  {
    n == 0 || acts[n - 1].WriteConfig? || (!acts[n - 1].Store? && Operated(acts, n - 1))
  }

  /** The secret a root rotation is about to store was valid when Auth0 issued it. */
  lemma {:induction false} IssuedValid(tr: seq<State>, acts: seq<Action>, n: nat, r: nat)
    requires IsRun(tr, acts) && n < |tr| && r in tr[n].reqs && tr[n].reqs[r].kind.RotateRoot?
    requires tr[n].reqs[r].phase.Effected? || tr[n].reqs[r].phase.Received?
    ensures var p := tr[n].reqs[r].phase; Valid(tr[IssuedAt(acts, n, r)], p.cfg.clientId, p.secret)
  {
    if n > 0 {
      StepAt(tr, acts, n - 1);
      SecretMoves(tr[n - 1], acts[n - 1], r);
      if !(acts[n - 1].Rotate? && acts[n - 1].r == r) {
        IssuedValid(tr, acts, n - 1, r);
      }
    }
  }

  lemma {:induction false} StoredOrigin(tr: seq<State>, acts: seq<Action>, n: nat)
    requires IsRun(tr, acts) && n < |tr| && tr[n].storage.Some?
    ensures var i, cfg := StoredSince(acts, n), tr[n].storage.value;
      if Operated(acts, n) then tr[i].storage == Some(cfg) else Valid(tr[i], cfg.clientId, cfg.clientSecret)
  {
    if n > 0 {
      StepAt(tr, acts, n - 1);
      if acts[n - 1].Store? {
        IssuedValid(tr, acts, n - 1, acts[n - 1].r);
      } else if !acts[n - 1].WriteConfig? {
        StoredOrigin(tr, acts, n - 1);
      }
    }
  }

  /** Valid at j is exactly: valid at i and not rotated in between. */
  lemma ValidExactly(tr: seq<State>, acts: seq<Action>, i: nat, j: nat, app: App, secret: Secret)
    requires IsRun(tr, acts) && i <= j < |tr| && (Valid(tr[i], app, secret) || secret in tr[i].known)
    ensures Valid(tr[j], app, secret) <==> Valid(tr[i], app, secret) && Untouched(tr, acts, i, j, app)
  {
    if Valid(tr[i], app, secret) {
      ValidUntilRotated(tr, acts, i, j, app, secret);
    } else {
      DeadStaysDead(tr, acts, i, j, app, secret);
    }
  }

  lemma {:induction false} AgreedWhileUntouched(tr: seq<State>, acts: seq<Action>, n: nat)
    requires IsRun(tr, acts) && n < |tr| && tr[n].storage.Some?
    ensures Agreed(tr[n]) <==>
              (Operated(acts, n) ==> Agreed(tr[StoredSince(acts, n)]))
              && Untouched(tr, acts, StoredSince(acts, n), n, tr[n].storage.value.clientId)
  {
    var i, cfg := StoredSince(acts, n), tr[n].storage.value;
    StoredOrigin(tr, acts, n);
    InvInEveryRun(tr, acts, i);
    ValidExactly(tr, acts, i, n, cfg.clientId, cfg.clientSecret);
  }

  /**
   * In every run, whatever overlaps, is lost, fails to be written, is leased, or is written by
   * operators: storage agrees with Auth0 exactly if Auth0 has not rotated the management
   * application's secret since the stored one was issued to a root rotation, or was written (or
   * there at the start) and in agreement.
   */
  lemma {:induction false} StorageAgreesExactly(tr: seq<State>, acts: seq<Action>, n: nat)
    requires IsRun(tr, acts) && n < |tr| && tr[n].storage.Some?
    ensures Agreed(tr[n]) <==>
              && (Operated(acts, n) ==> Agreed(tr[StoredSince(acts, n)]))
              && forall k {:trigger acts[k]} :: StoredSince(acts, n) <= k < n ==>
                   !Rotates(tr[k], acts[k], tr[n].storage.value.clientId)
  {
    AgreedWhileUntouched(tr, acts, n);
    UntouchedMeans(tr, acts, StoredSince(acts, n), n, tr[n].storage.value.clientId);
  }

  /** A root rotation that stores its secret restores agreement exactly if no rotation overtook it. */
  lemma {:induction false} StoreAgreesUnlessOvertaken(tr: seq<State>, acts: seq<Action>, n: nat, r: nat)
    requires IsRun(tr, acts) && n < |acts| && acts[n] == Store(r)
    ensures tr[n + 1].storage.Some?
    ensures Agreed(tr[n + 1]) <==>
              forall k :: IssuedAt(acts, n, r) <= k < n ==> !Rotates(tr[k], acts[k], tr[n + 1].storage.value.clientId)
  {
    StepAt(tr, acts, n);
    AgreedWhileUntouched(tr, acts, n + 1);
    UntouchedMeans(tr, acts, IssuedAt(acts, n, r), n, tr[n + 1].storage.value.clientId);
  }

  predicate OpenRoot(q: Request) {
    q.kind.RotateRoot? && !q.phase.Succeeded? && !q.phase.Failed?
  }

  /**
   * Root rotations are serialised and lose nothing after Auth0 has acted, no operator writes the
   * configuration, and no lease is issued or revoked for the management application itself.
   */
  ghost predicate Tame(s: State, a: Action, mgmt: App)
    requires Enabled(s, a)
  {
    match a
    case Begin(_, RotateRoot) => forall q :: q in s.reqs ==> !OpenRoot(s.reqs[q])
    case Begin(_, Creds(app)) => app != mgmt
    case Begin(_, Revoke(app)) => app != mgmt
    case RotateFail(r, inFlight) => s.reqs[r].kind.RotateRoot? ==> !inFlight
    case Lose(r) => !s.reqs[r].kind.RotateRoot?
    case StoreFail(_) => false
    case WriteConfig(_) => false
    case _ => true
  }

  ghost predicate IsTameRun(tr: seq<State>, acts: seq<Action>, mgmt: App) {
    && IsRun(tr, acts)
    && Agreed(tr[0]) && tr[0].storage.value.clientId == mgmt
    && forall i {:trigger acts[i]} :: 0 <= i < |acts| ==> Tame(tr[i], acts[i], mgmt)
  }

  ghost predicate OneOpenRoot(s: State) {
    forall r, q :: r in s.reqs && q in s.reqs && OpenRoot(s.reqs[r]) && OpenRoot(s.reqs[q]) ==> r == q
  }

  /** A root rotation works with the stored configuration; no other request touches `mgmt`. */
  predicate RequestTame(q: Request, stored: Config) {
    && (OpenRoot(q) && HasConfig(q.phase) ==> q.phase.cfg == stored)
    && (!q.kind.RotateRoot? ==> q.kind.app != stored.clientId)
    && (q.phase.Failed? ==> q.phase.pending != Some(stored.clientId))
  }

  ghost predicate RootState(s: State, mgmt: App) {
    && s.storage.Some? && s.storage.value.clientId == mgmt
    && OneOpenRoot(s)
    && (forall r :: r in s.reqs ==> RequestTame(s.reqs[r], s.storage.value))
  }

  lemma RootStaysClosed(s: State, a: Action, r: nat)
    requires Enabled(s, a) && r in Apply(s, a).reqs && OpenRoot(Apply(s, a).reqs[r])
    ensures (r in s.reqs && OpenRoot(s.reqs[r])) || a == Begin(r, RotateRoot)
  {
  }

  lemma OneOpenRootStep(s: State, a: Action, mgmt: App)
    requires OneOpenRoot(s) && Enabled(s, a) && Tame(s, a, mgmt)
    ensures OneOpenRoot(Apply(s, a))
  {
    var t := Apply(s, a);
    forall r, q | r in t.reqs && q in t.reqs && OpenRoot(t.reqs[r]) && OpenRoot(t.reqs[q])
      ensures r == q
    {
      RootStaysClosed(s, a, r);
      RootStaysClosed(s, a, q);
    }
  }

  lemma RequestTameStep(s: State, a: Action, mgmt: App, r: nat)
    requires RootState(s, mgmt) && Enabled(s, a) && Tame(s, a, mgmt)
    requires r in Apply(s, a).reqs && !a.Store?
    ensures RequestTame(Apply(s, a).reqs[r], s.storage.value)
  {
    assert r in s.reqs ==> RequestTame(s.reqs[r], s.storage.value);
  }

  lemma StoreKeepsOthersTame(s: State, a: Action, mgmt: App, r: nat)
    requires RootState(s, mgmt) && a.Store? && Enabled(s, a) && r in Apply(s, a).reqs
    ensures RequestTame(Apply(s, a).reqs[r], Apply(s, a).storage.value)
  {
    assert RequestTame(s.reqs[r], s.storage.value) && RequestTame(s.reqs[a.r], s.storage.value);
    assert OpenRoot(s.reqs[a.r]);
  }

  lemma RootStep(s: State, a: Action, mgmt: App)
    requires RootState(s, mgmt) && Enabled(s, a) && Tame(s, a, mgmt)
    ensures RootState(Apply(s, a), mgmt)
  {
    var t := Apply(s, a);
    OneOpenRootStep(s, a, mgmt);
    assert a.Store? ==> RequestTame(s.reqs[a.r], s.storage.value);
    forall r | r in t.reqs ensures RequestTame(t.reqs[r], t.storage.value) {
      if a.Store? {
        StoreKeepsOthersTame(s, a, mgmt, r);
      } else {
        RequestTameStep(s, a, mgmt, r);
      }
    }
  }

  lemma SecretLeavesByStore(s: State, a: Action, mgmt: App, r: nat)
    requires Enabled(s, a) && Tame(s, a, mgmt)
    requires r in s.reqs && OpenRoot(s.reqs[r]) && HasSecret(s.reqs[r].phase)
    ensures var q := Apply(s, a).reqs[r]; (OpenRoot(q) && HasSecret(q.phase)) || a == Store(r)
  {
  }

  lemma {:induction false} RootInEveryTameRun(tr: seq<State>, acts: seq<Action>, mgmt: App, n: nat)
    requires IsTameRun(tr, acts, mgmt) && n < |tr|
    ensures RootState(tr[n], mgmt)
  {
    if n > 0 {
      RootInEveryTameRun(tr, acts, mgmt, n - 1);
      RootStep(tr[n - 1], acts[n - 1], mgmt);
    }
  }

  lemma OnlyRootsRotate(s: State, a: Action, mgmt: App)
    requires RootState(s, mgmt) && Enabled(s, a) && Rotates(s, a, mgmt)
    ensures a.Rotate? && OpenRoot(s.reqs[a.r])
  {
    assert RequestTame(s.reqs[a.r], s.storage.value);
  }

  /** No rotation overtakes a root rotation in progress. */
  lemma {:induction false} RootNotOvertaken(tr: seq<State>, acts: seq<Action>, mgmt: App, n: nat, r: nat)
    requires IsTameRun(tr, acts, mgmt) && n < |tr|
    requires r in tr[n].reqs && OpenRoot(tr[n].reqs[r]) && HasSecret(tr[n].reqs[r].phase)
    ensures Untouched(tr, acts, IssuedAt(acts, n, r), n, mgmt)
  {
    if n > 0 && IssuedAt(acts, n, r) < n {
      var s, a := tr[n - 1], acts[n - 1];
      StepAt(tr, acts, n - 1);
      SecretMoves(s, a, r);
      RootNotOvertaken(tr, acts, mgmt, n - 1, r);
      RootInEveryTameRun(tr, acts, mgmt, n - 1);
      if Rotates(s, a, mgmt) {
        OnlyRootsRotate(s, a, mgmt);
      }
    }
  }

  lemma {:induction false} StorageNotOvertaken(tr: seq<State>, acts: seq<Action>, mgmt: App, n: nat)
    requires IsTameRun(tr, acts, mgmt) && n < |tr|
    requires forall r :: r in tr[n].reqs && OpenRoot(tr[n].reqs[r]) ==> !HasSecret(tr[n].reqs[r].phase)
    ensures Untouched(tr, acts, StoredSince(acts, n), n, mgmt)
    ensures Operated(acts, n) ==> StoredSince(acts, n) == 0
  {
    if n > 0 {
      var s, a := tr[n - 1], acts[n - 1];
      StepAt(tr, acts, n - 1);
      RootInEveryTameRun(tr, acts, mgmt, n - 1);
      if Rotates(s, a, mgmt) {
        OnlyRootsRotate(s, a, mgmt);
        assert OpenRoot(tr[n].reqs[a.r]);
      }
      if a.Store? {
        RootNotOvertaken(tr, acts, mgmt, n - 1, a.r);
      } else {
        forall r | r in s.reqs && OpenRoot(s.reqs[r]) ensures !HasSecret(s.reqs[r].phase) {
          if HasSecret(s.reqs[r].phase) {
            SecretLeavesByStore(s, a, mgmt, r);
          }
        }
        StorageNotOvertaken(tr, acts, mgmt, n - 1);
      }
    }
  }

  /**
   * In particular: with serialised root rotations that lose nothing, the stored secret is Auth0's
   * whenever none is in progress, for any interleaving with other applications.
   */
  lemma StorageAgreesWithAuth0(tr: seq<State>, acts: seq<Action>, mgmt: App, n: nat)
    requires IsTameRun(tr, acts, mgmt) && n < |tr|
    requires forall r :: r in tr[n].reqs ==> !OpenRoot(tr[n].reqs[r])
    ensures Agreed(tr[n])
  {
    RootInEveryTameRun(tr, acts, mgmt, n);
    StorageNotOvertaken(tr, acts, mgmt, n);
    AgreedWhileUntouched(tr, acts, n);
  }

  lemma StaleStep(s: State, a: Action, r: nat)
    requires Enabled(s, a) && r in s.reqs
    requires s.reqs[r].phase.Loaded? ==> StaleConfig(s, s.reqs[r].phase.cfg)
    ensures var t := Apply(s, a);
      && (s.reqs[r].phase.Loaded? ==> t.reqs[r].phase == s.reqs[r].phase || t.reqs[r].phase == Failed(None))
      && (s.reqs[r].phase == Failed(None) ==> t.reqs[r].phase == Failed(None))
  {
  }

  /** A request that loaded a secret Auth0 no longer accepts, and has no token yet, can only fail. */
  lemma {:induction false} StaleRequestOnlyFails(tr: seq<State>, acts: seq<Action>, i: nat, j: nat, r: nat)
    requires IsRun(tr, acts) && i <= j < |tr| && r in tr[i].reqs && tr[i].reqs[r].phase.Loaded?
    requires var cfg := tr[i].reqs[r].phase.cfg; !Valid(tr[i], cfg.clientId, cfg.clientSecret)
    ensures r in tr[j].reqs
    ensures tr[j].reqs[r].phase == tr[i].reqs[r].phase || tr[j].reqs[r].phase == Failed(None)
    decreases j
  {
    if i < j {
      var cfg := tr[i].reqs[r].phase.cfg;
      StaleRequestOnlyFails(tr, acts, i, j - 1, r);
      InvInEveryRun(tr, acts, i);
      DeadStaysDead(tr, acts, i, j - 1, cfg.clientId, cfg.clientSecret);
      StaleStep(tr[j - 1], acts[j - 1], r);
    }
  }

  /** The configuration holds a secret that Auth0 has replaced. */
  predicate StaleConfig(s: State, cfg: Config) {
    cfg.clientSecret in s.known && !Valid(s, cfg.clientId, cfg.clientSecret)
  }

  // ---- Lock-out ----------------------------------------------------------------------------

  /** The request has not begun to authenticate, will fail to, or is over. */
  predicate ShutOut(s: State, p: Phase) {
    p == Begun || (p.Loaded? && StaleConfig(s, p.cfg)) || p.Succeeded? || p.Failed?
  }

  /** The stored secret is dead, and no request has got past authenticating with it. */
  ghost predicate LockedOut(s: State) {
    && s.storage.Some? && StaleConfig(s, s.storage.value)
    && forall r :: r in s.reqs ==> ShutOut(s, s.reqs[r].phase)
  }

  lemma StaleConfigStep(s: State, a: Action, cfg: Config)
    requires Enabled(s, a) && StaleConfig(s, cfg)
    ensures StaleConfig(Apply(s, a), cfg)
  {
  }

  lemma ShutOutStep(s: State, a: Action, r: nat)
    requires Enabled(s, a) && s.storage.Some? && StaleConfig(s, s.storage.value)
    requires r in s.reqs ==> ShutOut(s, s.reqs[r].phase)
    requires r in Apply(s, a).reqs
    ensures ShutOut(Apply(s, a), Apply(s, a).reqs[r].phase)
    ensures Apply(s, a).reqs[r].phase.Succeeded? ==> r in s.reqs && s.reqs[r].phase.Succeeded?
  {
    if r in s.reqs && s.reqs[r].phase.Loaded? {
      StaleConfigStep(s, a, s.reqs[r].phase.cfg);
    }
    StaleConfigStep(s, a, s.storage.value);
  }

  lemma LockedOutStep(s: State, a: Action)
    requires LockedOut(s) && Enabled(s, a) && !a.WriteConfig?
    ensures var t := Apply(s, a);
      && LockedOut(t) && t.storage == s.storage && t.leases == s.leases
      && forall r :: r in t.reqs && t.reqs[r].phase.Succeeded? ==> r in s.reqs && s.reqs[r].phase.Succeeded?
  {
    var t := Apply(s, a);
    assert (a.Store? || a.Deliver?) ==> ShutOut(s, s.reqs[a.r].phase);
    StaleConfigStep(s, a, s.storage.value);
    forall r | r in t.reqs
      ensures ShutOut(t, t.reqs[r].phase)
      ensures t.reqs[r].phase.Succeeded? ==> r in s.reqs && s.reqs[r].phase.Succeeded?
    {
      ShutOutStep(s, a, r);
    }
  }

  /**
   * A locked-out engine stays locked out, and every request that has not succeeded yet never will,
   * until an operator writes the configuration.
   */
  lemma {:induction false} LockOutIsPermanent(tr: seq<State>, acts: seq<Action>, i: nat, j: nat)
    requires IsRun(tr, acts) && i <= j < |tr| && LockedOut(tr[i])
    requires forall k :: i <= k < j ==> !acts[k].WriteConfig?
    ensures LockedOut(tr[j]) && tr[j].storage == tr[i].storage && tr[j].leases == tr[i].leases
    ensures forall r :: r in tr[j].reqs && tr[j].reqs[r].phase.Succeeded? ==>
              r in tr[i].reqs && tr[i].reqs[r].phase.Succeeded?
    decreases j
  {
    if i < j {
      LockOutIsPermanent(tr, acts, i, j - 1);
      StepAt(tr, acts, j - 1);
      LockedOutStep(tr[j - 1], acts[j - 1]);
    }
  }

  /** No request but r has a token, or has loaded a configuration that could still obtain one. */
  ghost predicate OthersShutOut(s: State, r: nat) {
    forall q :: q in s.reqs && q != r ==> ShutOut(s, s.reqs[q].phase)
  }

  /**
   * Losing the new root secret after Auth0 has rotated it leaves a dead secret in storage, and locks
   * the engine out at once exactly if no other request has got past authenticating.
   */
  lemma LostRootSecretLocksOut(tr: seq<State>, acts: seq<Action>, n: nat)
    requires IsRun(tr, acts) && n < |acts| && (acts[n].Lose? || acts[n].StoreFail?)
    requires var q := tr[n].reqs[acts[n].r];
      && q.kind.RotateRoot? && tr[n].storage == Some(q.phase.cfg)
      && Valid(tr[n], q.phase.cfg.clientId, q.phase.secret)
    ensures !Agreed(tr[n + 1])
    ensures LockedOut(tr[n + 1]) <==> OthersShutOut(tr[n], acts[n].r)
  {
    InvInEveryRun(tr, acts, n);
    StepAt(tr, acts, n);
    var s, t, r := tr[n], tr[n + 1], acts[n].r;
    assert PhaseKnown(s.reqs[r].phase, s.known);
    if LockedOut(t) {
      forall q | q in s.reqs && q != r ensures ShutOut(s, s.reqs[q].phase) {
        assert t.reqs[q] == s.reqs[q] && ShutOut(t, t.reqs[q].phase);
      }
    }
  }

  /** Extends a run by one step. */
  lemma Extend(tr: seq<State>, acts: seq<Action>, a: Action, t: State)
    returns (tr': seq<State>, acts': seq<Action>)
    requires IsRun(tr, acts) && Enabled(tr[|acts|], a) && Apply(tr[|acts|], a) == t
    ensures IsRun(tr', acts') && tr'[0] == tr[0] && tr'[|acts'|] == t
    ensures acts' == acts + [a] && tr'[|acts|] == tr[|acts|]
  {
    tr', acts' := tr + [t], acts + [a];
  }

  /** `start` with this root secret at Auth0, these secrets issued since, and the given requests. */
  function RootRotating(start: State, app: App, secret: Secret, issued: set<Secret>, reqs: map<nat, Request>): State {
    start.(current := start.current[app := secret], known := start.known + issued, reqs := reqs)
  }

  function OneRoot(p: Phase): map<nat, Request> {
    map[0 := Request(RotateRoot, p)]
  }

  function TwoRoots(p0: Phase, p1: Phase): map<nat, Request> {
    map[0 := Request(RotateRoot, p0), 1 := Request(RotateRoot, p1)]
  }

  /** An engine at rest, configured with `cfg`, whose stored secret Auth0 accepts. */
  ghost predicate Healthy(start: State, cfg: Config) {
    Start(start) && start.storage == Some(cfg) && Agreed(start)
  }

  lemma OneRotates(start: State, cfg: Config, s1: Secret) returns (tr: seq<State>, acts: seq<Action>)
    requires Healthy(start, cfg) && s1 !in start.known
    ensures IsRun(tr, acts) && tr[0] == start
    ensures tr[|acts|] == RootRotating(start, cfg.clientId, s1, {s1}, OneRoot(Effected(cfg, s1)))
  {
    tr, acts := [start], [];
    tr, acts := Extend(tr, acts, Begin(0, RotateRoot), start.(reqs := OneRoot(Begun)));
    tr, acts := Extend(tr, acts, Load(0), start.(reqs := OneRoot(Loaded(cfg))));
    tr, acts := Extend(tr, acts, Authorize(0), start.(reqs := OneRoot(Authorized(cfg))));
    tr, acts := Extend(tr, acts, Rotate(0, s1),
                       RootRotating(start, cfg.clientId, s1, {s1}, OneRoot(Effected(cfg, s1))));
  }

  /**
   * One lost response, or one failed write to storage, is enough: from every healthy engine a single
   * root rotation can leave it locked out.
   */
  lemma OneLossLocksOut(start: State, cfg: Config, s1: Secret, writeFails: bool)
    returns (tr: seq<State>, acts: seq<Action>)
    requires Healthy(start, cfg) && s1 !in start.known
    ensures IsRun(tr, acts) && tr[0] == start && LockedOut(tr[|acts|])
    ensures tr[|acts|].reqs.Keys == {0}
    ensures acts[|acts| - 1] == if writeFails then StoreFail(0) else Lose(0)
  {
    tr, acts := OneRotates(start, cfg, s1);
    if writeFails {
      tr, acts := Extend(tr, acts, Receive(0),
                         RootRotating(start, cfg.clientId, s1, {s1}, OneRoot(Received(cfg, s1))));
    }
    var n := |acts|;
    var lost := RootRotating(start, cfg.clientId, s1, {s1}, OneRoot(Failed(None)));
    tr, acts := Extend(tr, acts, if writeFails then StoreFail(0) else Lose(0), lost);
    LostRootSecretLocksOut(tr, acts, n);
  }

  lemma BothObtainTokens(start: State, cfg: Config) returns (tr: seq<State>, acts: seq<Action>)
    requires Healthy(start, cfg)
    ensures IsRun(tr, acts) && tr[0] == start
    ensures tr[|acts|] == start.(reqs := TwoRoots(Authorized(cfg), Authorized(cfg)))
  {
    tr, acts := [start], [];
    tr, acts := Extend(tr, acts, Begin(0, RotateRoot), start.(reqs := OneRoot(Begun)));
    tr, acts := Extend(tr, acts, Begin(1, RotateRoot), start.(reqs := TwoRoots(Begun, Begun)));
    tr, acts := Extend(tr, acts, Load(0), start.(reqs := TwoRoots(Loaded(cfg), Begun)));
    tr, acts := Extend(tr, acts, Load(1), start.(reqs := TwoRoots(Loaded(cfg), Loaded(cfg))));
    tr, acts := Extend(tr, acts, Authorize(0), start.(reqs := TwoRoots(Authorized(cfg), Loaded(cfg))));
    tr, acts := Extend(tr, acts, Authorize(1), start.(reqs := TwoRoots(Authorized(cfg), Authorized(cfg))));
  }

  lemma BothRotate(start: State, cfg: Config, s1: Secret, s2: Secret) returns (tr: seq<State>, acts: seq<Action>)
    requires Healthy(start, cfg) && s1 !in start.known && s2 !in start.known && s1 != s2
    ensures IsRun(tr, acts) && tr[0] == start
    ensures var roots := TwoRoots(Effected(cfg, s1), Effected(cfg, s2));
      tr[|acts|] == RootRotating(start, cfg.clientId, s2, {s1, s2}, roots)
  {
    var app := cfg.clientId;
    tr, acts := BothObtainTokens(start, cfg);
    tr, acts := Extend(tr, acts, Rotate(0, s1),
                       RootRotating(start, app, s1, {s1}, TwoRoots(Effected(cfg, s1), Authorized(cfg))));
    var both := RootRotating(start, app, s2, {s1, s2}, TwoRoots(Effected(cfg, s1), Effected(cfg, s2)));
    assert start.known + {s1} + {s2} == start.known + {s1, s2};
    tr, acts := Extend(tr, acts, Rotate(1, s2), both);
  }

  lemma BothReceive(start: State, cfg: Config, s1: Secret, s2: Secret) returns (tr: seq<State>, acts: seq<Action>)
    requires Healthy(start, cfg) && s1 !in start.known && s2 !in start.known && s1 != s2
    ensures IsRun(tr, acts) && tr[0] == start
    ensures var roots := TwoRoots(Received(cfg, s1), Received(cfg, s2));
      tr[|acts|] == RootRotating(start, cfg.clientId, s2, {s1, s2}, roots)
  {
    var s := RootRotating(start, cfg.clientId, s2, {s1, s2}, map[]);
    tr, acts := BothRotate(start, cfg, s1, s2);
    tr, acts := Extend(tr, acts, Receive(0), s.(reqs := TwoRoots(Received(cfg, s1), Effected(cfg, s2))));
    tr, acts := Extend(tr, acts, Receive(1), s.(reqs := TwoRoots(Received(cfg, s1), Received(cfg, s2))));
  }

  /**
   * Serialising is necessary: from every healthy engine, two overlapping root rotations can both
   * report success and leave the engine locked out.
   */
  lemma OverlappingRootsLockOut(start: State, cfg: Config, s1: Secret, s2: Secret)
    returns (tr: seq<State>, acts: seq<Action>)
    requires Healthy(start, cfg) && s1 !in start.known && s2 !in start.known && s1 != s2
    ensures IsRun(tr, acts) && tr[0] == start
    ensures var s := tr[|acts|];
      LockedOut(s) && s.reqs.Keys == {0, 1} && forall r :: r in s.reqs ==> s.reqs[r].phase.Succeeded?
  {
    var s := RootRotating(start, cfg.clientId, s2, {s1, s2}, map[]);
    var stored1 := s.(storage := Some(cfg.(clientSecret := s2)), reqs := TwoRoots(Received(cfg, s1), Succeeded(s2)));
    var stored0 := s.(storage := Some(cfg.(clientSecret := s1)), reqs := TwoRoots(Succeeded(s1), Succeeded(s2)));
    tr, acts := BothReceive(start, cfg, s1, s2);
    tr, acts := Extend(tr, acts, Store(1), stored1);
    tr, acts := Extend(tr, acts, Store(0), stored0);
  }
}
