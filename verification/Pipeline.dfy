/**
 * The encrypted path of a credential: the rotate handler encodes and encrypts what the adapter
 * returned, the REST plugin decrypts and decodes it. Vault's Transit engine is a pair of functions,
 * `None` standing for any failure of the call.
 */
module Pipeline {
  import opened Collections
  import opened Base64
  import Adapter

  type Encryptor = (string, string) -> Option<string>
  type Decryptor = (string, string) -> Option<string>

  const DEFAULT_KEY := "cred-rotation-key"

  /** Authenticated encryption: a ciphertext opens only under its own key, to its own plaintext. */
  ghost predicate Lawful(enc: Encryptor, dec: Decryptor) {
    forall k, p, c, k', q :: enc(k, p) == Some(c) && dec(k', c) == Some(q) ==> k' == k && q == p
  }

  // ---- The encrypting end ------------------------------------------------------------------

  function TransitEncrypt(enc: Encryptor, key: string, plaintext: bytes): Result<string> {
    match enc(key, Encode(plaintext))
    case None => Err("vault transit encrypt")
    case Some(ct) => if ct == "" then Err("missing ciphertext in response") else Ok(ct)
  }

  datatype Request = Request(provider: string, providerId: string)

  /** What the adapter's Rotate returned for the request. */
  type RotateOutcome = Result<bytes>

  datatype HttpResponse = HttpResponse(status: int, encryptedValue: string)

  /** The responses of the rotate handler; `req` is None when the body is not valid JSON. */
  function HandlerResponse(
    req: Option<Request>, registered: set<string>, outcome: RotateOutcome, enc: Encryptor, key: string): HttpResponse
  {
    match req
    case None => HttpResponse(400, "")
    case Some(r) =>
      if r.provider == "" || r.providerId == "" then HttpResponse(400, "")
      else if r.provider !in registered then HttpResponse(404, "")
      else
        match outcome
        case Err(_) => HttpResponse(502, "")
        case Ok(credential) =>
          match TransitEncrypt(enc, key, credential)
          case Err(_) => HttpResponse(500, "")
          case Ok(ct) => HttpResponse(200, ct)
  }

  /** The response writer: a header that is written once, then the body. */
  class ResponseWriter {
    var status: int
    var body: string

    constructor ()
      ensures status == 200 && body == ""
    {
      status, body := 200, "";
    }

    method JsonError(code: int)
      modifies this
      ensures status == code && body == old(body)
    {
      status := code;
    }

    method JsonOK(encryptedValue: string)
      modifies this
      ensures status == old(status) && body == encryptedValue
    {
      body := encryptedValue;
    }
  }

  class Handlers {
    const registered: set<string>
    const transitKeyName: string

    constructor (registered: set<string>, transitKeyName: string)
      ensures this.registered == registered && this.transitKeyName == transitKeyName
    {
      this.registered, this.transitKeyName := registered, transitKeyName;
    }

    /** Handles POST /v1/credentials/rotate. */
    method Rotate(w: ResponseWriter, req: Option<Request>, outcome: RotateOutcome, enc: Encryptor)
      requires w.status == 200 && w.body == ""
      modifies w
      ensures HttpResponse(w.status, w.body) == HandlerResponse(req, registered, outcome, enc, transitKeyName)
      ensures w.status == 400 <==> req == None || req.value.provider == "" || req.value.providerId == ""
      ensures w.status != 400 ==>
                && (w.status == 404 <==> req.value.provider !in registered)
                && (w.status == 502 <==> req.value.provider in registered && outcome.Err?)
      ensures w.status !in {400, 404, 502} ==>
                var ciphertext := enc(transitKeyName, Encode(outcome.value));
                if ciphertext == None || ciphertext == Some("") then w.status == 500
                else w.status == 200 && w.body == ciphertext.value
      ensures w.status != 200 ==> w.body == ""
    {
      if req == None {
        w.JsonError(400);
        return;
      }
      if req.value.provider == "" || req.value.providerId == "" {
        w.JsonError(400);
        return;
      }
      if req.value.provider !in registered {
        w.JsonError(404);
        return;
      }
      if outcome.Err? {
        w.JsonError(502);
        return;
      }
      var ciphertext := TransitEncrypt(enc, transitKeyName, outcome.value);
      if ciphertext.Err? {
        w.JsonError(500);
        return;
      }
      w.JsonOK(ciphertext.value);
    }
  }

  /** Every adapter of the server. */
  datatype AnyAdapter = Counted(p: Adapter.Provider) | GitHub | Auth0

  /** What an adapter's Rotate makes of the provider's answer; each refuses an empty credential. */
  function Outcome(a: AnyAdapter, reply: Adapter.Reply): (o: RotateOutcome)
    ensures o.Ok? <==>
              && reply.Reply? && reply.parsed && reply.value != []
              && ((reply.status == 201 && a != Auth0 && a != Counted(Adapter.SonarQube))
                  || (reply.status == 200
                      && (a == Auth0 || a == Counted(Adapter.SonarQube) || a == Counted(Adapter.Splunk))))
              && (a == Counted(Adapter.Datadog) || a == Counted(Adapter.PagerDuty) ==> reply.id != "")
    ensures o.Ok? ==> o.value == reply.value
  {
    var usable :=
      match a
      case Counted(p) => Adapter.Accepted(p, reply)
      case GitHub => reply.Reply? && reply.status == 201 && reply.parsed && reply.value != []
      case Auth0 => reply.Reply? && reply.status == 200 && reply.parsed && reply.value != [];
    if usable then Ok(reply.value) else Err("rotate")
  }

  // ---- The decrypting end ------------------------------------------------------------------

  function TransitDecrypt(dec: Decryptor, key: string, ciphertext: string): Result<bytes> {
    match dec(key, ciphertext)
    case None => Err("vault transit/decrypt")
    case Some(encoded) =>
      if encoded == "" then Err("missing plaintext in response")
      else
        match Decode(encoded)
        case None => Err("base64 decode")
        case Some(raw) => Ok(raw)
  }

  /** What the plugin makes of the HTTP exchange; `None` is a transport failure. */
  function CallRotateAPI(reply: Option<HttpResponse>): Result<string> {
    match reply
    case None => Err("http")
    case Some(r) =>
      if r.status != 200 then Err("API status")
      else if r.encryptedValue == "" then Err("empty encrypted_value in response")
      else Ok(r.encryptedValue)
  }

  /** The plugin's creds read; `configuredKey` is None when the plugin is not configured. */
  function PluginRead(configuredKey: Option<string>, reply: Option<HttpResponse>, dec: Decryptor): Result<bytes> {
    match configuredKey
    case None => Err("plugin not configured")
    case Some(k) =>
      match CallRotateAPI(reply)
      case Err(m) => Err(m)
      case Ok(ct) => TransitDecrypt(dec, EffectiveKey(k), ct)
  }

  function EffectiveKey(configured: string): string {
    if configured == "" then DEFAULT_KEY else configured
  }

  /** A handler response travels to the plugin unchanged, or not at all. */
  function Deliver(delivered: bool, r: HttpResponse): Option<HttpResponse> {
    if delivered then Some(r) else None
  }

  /**
   * Every stage of one rotation through both programs worked, and both use the same key; the plugin
   * takes an empty key name for the default one.
   */
  ghost predicate EveryStageWorked(
    req: Option<Request>, registered: set<string>, outcome: RotateOutcome, enc: Encryptor, serverKey: string,
    delivered: bool, configuredKey: Option<string>, dec: Decryptor)
  {
    && req.Some? && req.value.provider != "" && req.value.providerId != "" && req.value.provider in registered
    && outcome.Ok? && outcome.value != []
    && delivered
    && ((configuredKey == Some(serverKey) && serverKey != "")
        || (configuredKey == Some("") && serverKey == "cred-rotation-key"))
    && var ciphertext := enc(serverKey, Encode(outcome.value));
       ciphertext.Some? && ciphertext.value != "" && dec(serverKey, ciphertext.value).Some?
  }

  lemma {:induction false} DecryptUndoesEncrypt(
    enc: Encryptor, dec: Decryptor, k: string, k': string, credential: bytes)
    requires Lawful(enc, dec) && TransitEncrypt(enc, k, credential).Ok?
    ensures var ct := TransitEncrypt(enc, k, credential).value;
      && (TransitDecrypt(dec, k', ct).Ok? <==> credential != [] && k' == k && dec(k, ct).Some?)
      && (TransitDecrypt(dec, k', ct).Ok? ==> TransitDecrypt(dec, k', ct).value == credential)
  {
    RoundTrip(credential);
    var ct := TransitEncrypt(enc, k, credential).value;
    assert enc(k, Encode(credential)) == Some(ct);
    if dec(k', ct).Some? {
      assert k' == k && dec(k', ct).value == Encode(credential);
    }
  }

  /**
   * The plugin returns a credential exactly when every stage worked on a non-empty credential, and
   * then it returns, byte for byte, the one the adapter produced.
   */
  lemma EndToEnd(
    req: Option<Request>, registered: set<string>, outcome: RotateOutcome, enc: Encryptor, serverKey: string,
    delivered: bool, configuredKey: Option<string>, dec: Decryptor)
    requires Lawful(enc, dec)
    ensures var reply := Deliver(delivered, HandlerResponse(req, registered, outcome, enc, serverKey));
      var got := PluginRead(configuredKey, reply, dec);
      && (got.Ok? <==>
            EveryStageWorked(req, registered, outcome, enc, serverKey, delivered, configuredKey, dec))
      && (got.Ok? ==> outcome == got)
  {
    var r := HandlerResponse(req, registered, outcome, enc, serverKey);
    if r.status == 200 && configuredKey.Some? {
      DecryptUndoesEncrypt(enc, dec, serverKey, EffectiveKey(configuredKey.value), outcome.value);
    }
  }

  /**
   * For a credential that came from an adapter the decryptor's refusal of an empty plaintext never
   * triggers: under the right key, the only failure left is that of the Transit call itself.
   */
  lemma AdapterCredentialsDecrypt(a: AnyAdapter, reply: Adapter.Reply, enc: Encryptor, dec: Decryptor, key: string)
    requires Lawful(enc, dec) && Outcome(a, reply).Ok?
    requires TransitEncrypt(enc, key, Outcome(a, reply).value).Ok?
    ensures var ct := TransitEncrypt(enc, key, Outcome(a, reply).value).value;
      if dec(key, ct).Some? then TransitDecrypt(dec, key, ct) == Outcome(a, reply)
      else TransitDecrypt(dec, key, ct) == Err("vault transit/decrypt")
  {
    DecryptUndoesEncrypt(enc, dec, key, key, Outcome(a, reply).value);
  }
}
