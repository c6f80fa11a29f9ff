/** SonarQube's composite credential id `<login>:<token name>`. */
module CredentialId {
  import opened Collections
  import Names

  /** Position of the first occurrence of c, or -1. */
  function IndexByte(s: string, c: char): (i: int)
    ensures -1 <= i < |s|
    ensures i >= 0 ==> s[i] == c && c !in s[..i]
    ensures i < 0 ==> c !in s
  {
    if s == "" then -1
    else if s[0] == c then 0
    else
      var k := IndexByte(s[1..], c);
      assert k >= 0 ==> s[..k + 1] == [s[0]] + s[1..][..k];
      assert s == [s[0]] + s[1..];
      if k < 0 then -1 else k + 1
  }

  lemma IndexByteUnique(s: string, c: char, k: nat)
    requires k < |s| && s[k] == c && c !in s[..k]
    ensures IndexByte(s, c) == k
  {
    var i := IndexByte(s, c);
    assert forall j :: 0 <= j < k ==> s[j] != c;
    assert forall j :: 0 <= j < i ==> s[j] != c;
  }

  function Parse(id: string): Result<(string, string)> {
    var i := IndexByte(id, ':');
    if i < 1 || i == |id| - 1 then Err("invalid credential_id")
    else Ok((id[..i], id[i + 1..]))
  }

  function Join(login: string, token: string): string {
    login + ":" + token
  }

  /** What Parse accepts: a colon with something before the first one and something after it. */
  lemma ParseAcceptsExactly(id: string)
    ensures Parse(id).Ok? <==>
              exists login, token :: login != "" && ':' !in login && token != "" && id == Join(login, token)
    ensures Parse(id).Ok? ==>
              var (login, token) := Parse(id).value;
              id == Join(login, token) && login != "" && token != "" && ':' !in login
  {
    if Parse(id).Ok? {
      var (login, token) := Parse(id).value;
      assert id == Join(login, token);
    }
    if login, token :| login != "" && ':' !in login && token != "" && id == Join(login, token) {
      RoundTrip(login, token);
    }
  }

  /** Joining and parsing give back both parts exactly when the login has no colon. */
  lemma RoundTrip(login: string, token: string)
    ensures Parse(Join(login, token)) == Ok((login, token)) <==> login != "" && ':' !in login && token != ""
  {
    var id := Join(login, token);
    assert id[..|login|] == login && id[|login| + 1..] == token;
    if ':' !in login {
      IndexByteUnique(id, ':', |login|);
    }
  }

  /** The id Rotate builds for a login names the token it created exactly when the login has no colon. */
  lemma RotatedIdRoundTrip(p: Names.Parts)
    requires p.providerId != ""
    ensures Parse(Join(p.providerId, Names.Name(p, Names.Seconds))) == Ok((p.providerId, Names.Name(p, Names.Seconds)))
            <==> ':' !in p.providerId
  {
    RoundTrip(p.providerId, Names.Name(p, Names.Seconds));
  }

  /** With a colon in the login, Revoke refuses the id or acts on another user's token name. */
  lemma ColonInLoginMisparses(p: Names.Parts)
    requires ':' in p.providerId
    ensures var i, name := IndexByte(p.providerId, ':'), Names.Name(p, Names.Seconds);
      Parse(Join(p.providerId, name)) ==
        if i == 0 then Err("invalid credential_id")
        else Ok((p.providerId[..i], p.providerId[i + 1..] + ":" + name))
  {
    var login, name := p.providerId, Names.Name(p, Names.Seconds);
    var i, id := IndexByte(login, ':'), Join(login, name);
    assert id[..i] == login[..i] && id[i] == ':';
    IndexByteUnique(id, ':', i);
    assert |name| > 0;
    assert id[i + 1..] == login[i + 1..] + ":" + name;
  }
}
