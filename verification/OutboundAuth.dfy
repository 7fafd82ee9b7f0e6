/** The per-request headers of an MCP call: whose key goes out, to which server, and what it does to configured headers. */
module OutboundAuth {
  import opened Prelude
  import opened OutboundHeaders

  // What the token store has for the caller of an OAuth2 server.
  datatype OAuth = Unavailable | NoToken | Granted(accessToken: string)

  // The caller of a request: the header it came with, its validated claims, and the identity headers made of them.
  datatype Caller = Caller(authHeader: string, email: string, groups: seq<string>, identity: map<string, string>)

  // ---------------------------------------------------------------- the key of a caller

  predicate Matches(rule: KeyRule, subjectType: string, u: Caller) {
    rule.subjectType == subjectType &&
    if subjectType == "user" then u.email != "" && SameName(rule.subject, u.email)
    else exists i | 0 <= i < |u.groups| :: SameName(rule.subject, u.groups[i])
  }

  // The key of the first matching rule of this type.
  function FirstKey(rules: seq<KeyRule>, subjectType: string, u: Caller): Option<string> {
    if rules == [] then None
    else if Matches(rules[0], subjectType, u) then Some(rules[0].apiKey)
    else FirstKey(rules[1..], subjectType, u)
  }

  // A user rule before a group rule before the shared token.
  function ResolvedKey(c: Config, u: Caller): string {
    match FirstKey(c.keyRules, "user", u)
    case Some(key) => key
    case None =>
      match FirstKey(c.keyRules, "group", u)
      case Some(key) => key
      case None => c.bearerToken
  }

  method ResolveAPIKey(c: Config, u: Caller) returns (key: string)
    ensures key == ResolvedKey(c, u)
  {
    for i := 0 to |c.keyRules|
      invariant FirstKey(c.keyRules, "user", u) == FirstKey(c.keyRules[i..], "user", u)
    {
      var rule := c.keyRules[i];
      if rule.subjectType == "user" && u.email != "" && SameName(rule.subject, u.email) {
        return rule.apiKey;
      }
    }
    for i := 0 to |c.keyRules|
      invariant FirstKey(c.keyRules, "group", u) == FirstKey(c.keyRules[i..], "group", u)
    {
      var rule := c.keyRules[i];
      if rule.subjectType != "group" {
        continue;
      }
      for k := 0 to |u.groups|
        invariant forall j | 0 <= j < k :: !SameName(rule.subject, u.groups[j])
      {
        if SameName(rule.subject, u.groups[k]) {
          return rule.apiKey;
        }
      }
    }
    key := c.bearerToken;
  }

  predicate AnyMatches(c: Config, subjectType: string, u: Caller) {
    exists i | 0 <= i < |c.keyRules| :: Matches(c.keyRules[i], subjectType, u)
  }

  // This key is that of the first matching rule of this type.
  predicate KeyOfFirst(rules: seq<KeyRule>, subjectType: string, u: Caller, key: string) {
    exists i | 0 <= i < |rules| ::
      && Matches(rules[i], subjectType, u) && rules[i].apiKey == key
      && forall j | 0 <= j < i :: !Matches(rules[j], subjectType, u)
  }

  lemma {:induction false} FirstKeyIsFirst(rules: seq<KeyRule>, subjectType: string, u: Caller)
    ensures match FirstKey(rules, subjectType, u)
      case Some(key) => KeyOfFirst(rules, subjectType, u, key)
      case None => forall i | 0 <= i < |rules| :: !Matches(rules[i], subjectType, u)
  {
    hide Matches;
    if rules == [] {
    } else {
      FirstKeyIsFirst(rules[1..], subjectType, u);
      if Matches(rules[0], subjectType, u) {
        assert KeyOfFirst(rules, subjectType, u, rules[0].apiKey);
      } else if FirstKey(rules[1..], subjectType, u).Some? {
        var key := FirstKey(rules[1..], subjectType, u).value;
        var i :| 0 <= i < |rules[1..]| && Matches(rules[1..][i], subjectType, u) && rules[1..][i].apiKey == key
          && forall j | 0 <= j < i :: !Matches(rules[1..][j], subjectType, u);
        forall j | 0 <= j < i + 1
          ensures !Matches(rules[j], subjectType, u)
        {
          assert j > 0 ==> rules[j] == rules[1..][j - 1];
        }
        assert rules[i + 1] == rules[1..][i];
      } else {
        assert forall j | 1 <= j < |rules| :: rules[j] == rules[1..][j - 1];
      }
    }
  }

  /** Whose key it is: the first rule of the user, else the first of any of the user's groups, else the shared token. */
  lemma {:induction false} KeyPrecedence(c: Config, u: Caller)
    ensures var key := ResolvedKey(c, u);
      if AnyMatches(c, "user", u) then KeyOfFirst(c.keyRules, "user", u, key)
      else if AnyMatches(c, "group", u) then KeyOfFirst(c.keyRules, "group", u, key)
      else key == c.bearerToken
  {
    hide Matches;
    FirstKeyIsFirst(c.keyRules, "user", u);
    FirstKeyIsFirst(c.keyRules, "group", u);
  }

  // ---------------------------------------------------------------- the headers of a request

  // Consent is still needed, or the headers, nil when there is no credential.
  datatype Resolution = ConsentRequired | Resolved(headers: Option<map<string, string>>)

  // The credential header of a caller on a server.
  function Credential(c: Config, u: Caller, oauth: OAuth): Option<(string, string)> {
    if c.forwardAuth then
      if u.authHeader != "" then Some(("Authorization", u.authHeader)) else None
    else if IsBearerPerUser(c) then
      if ResolvedKey(c, u) != "" then Some((BearerName(c), HeaderValue(c, ResolvedKey(c, u)))) else None
    else if c.authType == "oauth2" && oauth.Granted? then Some(("Authorization", "Bearer " + oauth.accessToken))
    else None
  }

  // A credential with the identity over it; without one there are no headers at all.
  function WithIdentity(credential: Option<(string, string)>, u: Caller): Option<map<string, string>> {
    match credential
    case None => None
    case Some(h) => Some(map[h.0 := h.1] + u.identity)
  }

  function ExtraHeaders(c: Config, u: Caller, oauth: OAuth): Resolution {
    if !c.forwardAuth && !IsBearerPerUser(c) && c.authType == "oauth2" && oauth.NoToken? then ConsentRequired
    else Resolved(WithIdentity(Credential(c, u, oauth), u))
  }

  method ResolveExtraHeaders(c: Config, u: Caller, oauth: OAuth) returns (r: Resolution)
    ensures r == ExtraHeaders(c, u, oauth)
  {
    var headers: map<string, string>;
    if c.forwardAuth {
      if u.authHeader != "" {
        headers := Overlay(map["Authorization" := u.authHeader], u.identity);
        return Resolved(Some(headers));
      }
      return Resolved(None);
    }
    if IsBearerPerUser(c) {
      var key := ResolveAPIKey(c, u);
      if key == "" {
        return Resolved(None);
      }
      headers := Overlay(map[BearerName(c) := HeaderValue(c, key)], u.identity);
      return Resolved(Some(headers));
    }
    if c.authType == "oauth2" && !oauth.Unavailable? {
      if oauth.NoToken? {
        return ConsentRequired;
      }
      headers := Overlay(map["Authorization" := "Bearer " + oauth.accessToken], u.identity);
      return Resolved(Some(headers));
    }
    return Resolved(None);
  }

  function OrNone(headers: Option<map<string, string>>): map<string, string> {
    if headers.Some? then headers.value else map[]
  }

  // A header that is not one of the caller's identity is in the extra headers exactly as the credential.
  lemma {:induction false} ExtraIsCredential(credential: Option<(string, string)>, u: Caller, name: string, value: string)
    requires !Provides(u.identity, name) && !Blocked(name)
    ensures var extra := Filtered(OrNone(WithIdentity(credential, u)));
      match credential
      case None => !Provides(extra, name)
      case Some(h) =>
        && (Provides(extra, name) <==> Canon(h.0) == Canon(name))
        && (Canon(h.0) == Canon(name) ==> (Gives(extra, name, value) <==> h.1 == value))
  {
    hide Canon, Blocked, SameName, Token;
    if credential.Some? {
      var h := credential.value;
      var all := map[h.0 := h.1] + u.identity;
      forall k | k in all && Canon(k) == Canon(name)
        ensures k == h.0 && all[k] == h.1
      {}
      if Canon(h.0) == Canon(name) {
        CanonExact(h.0, name);
        if h.0 != name {
          BlockedInAnySpelling(h.0, name);
        }
        assert h.0 !in u.identity;
        assert h.0 in Filtered(all);
      }
    }
  }

  // What is sent for a configured header of a server, whatever credential the request carries.
  lemma {:induction false} CredentialSentWhen(c: Config, credential: Option<(string, string)>, u: Caller, name: string)
    requires name in Filtered(c.headers)
    ensures var value := c.headers[name];
      AlwaysSent(EffectiveHeaders(c), OrNone(WithIdentity(credential, u)), u.identity, name, value) <==>
        if Provides(u.identity, name) then Gives(u.identity, name, value)
        else if credential.Some? && Canon(credential.value.0) == Canon(name) then credential.value.1 == value
        else Gives(c.headers, name, value) && !Misspelled(c, name)
  {
    hide Canon, Provides, Gives, AlwaysSent, Misspelled, WithIdentity, EffectiveHeaders;
    ConfiguredValueSentWhen(c, OrNone(WithIdentity(credential, u)), u.identity, name);
    if !Provides(u.identity, name) {
      ExtraIsCredential(credential, u, name, c.headers[name]);
    }
  }

  /**
   * What a web request of a caller sends for a header configured on the server: its
   * configured value in every walk exactly when the caller's identity gives it
   * that value, or the caller's credential on that header is that value, or
   * neither has the header and the row alone decides for it.
   */
  lemma {:induction false} ResolvedValueSentWhen(c: Config, u: Caller, oauth: OAuth, name: string)
    requires name in Filtered(c.headers) && ExtraHeaders(c, u, oauth).Resolved?
    ensures var value, credential := c.headers[name], Credential(c, u, oauth);
      AlwaysSent(EffectiveHeaders(c), OrNone(ExtraHeaders(c, u, oauth).headers), u.identity, name, value) <==>
        if Provides(u.identity, name) then Gives(u.identity, name, value)
        else if credential.Some? && Canon(credential.value.0) == Canon(name) then credential.value.1 == value
        else Gives(c.headers, name, value) && !Misspelled(c, name)
  {
    hide Canon, Provides, Gives, AlwaysSent, Misspelled, Credential, WithIdentity, EffectiveHeaders;
    CredentialSentWhen(c, Credential(c, u, oauth), u, name);
  }

  // ---------------------------------------------------------------- the stale fallback

  /**
   * On a bearer server with key rules, a web caller without a rule of its own
   * sends the shared token in every walk, whatever the row configures there.
   */
  lemma {:induction false} FallbackReplacesConfigured(c: Config, u: Caller, oauth: OAuth, name: string)
    requires !c.forwardAuth && IsBearerPerUser(c) && c.bearerToken != ""
    requires !AnyMatches(c, "user", u) && !AnyMatches(c, "group", u)
    requires Canon(name) == Canon(BearerName(c)) && !Blocked(name) && !Provides(u.identity, name)
    ensures ExtraHeaders(c, u, oauth).Resolved?
    ensures AlwaysSent(EffectiveHeaders(c), OrNone(ExtraHeaders(c, u, oauth).headers), u.identity, name, BearerValue(c))
  {
    hide Canon, Provides, Gives, AlwaysSent, Blocked, Matches, EffectiveHeaders, BearerName, HeaderValue;
    KeyPrecedence(c, u);
    var extra := OrNone(ExtraHeaders(c, u, oauth).headers);
    ExtraIsCredential(Credential(c, u, oauth), u, name, BearerValue(c));
    SentWhen(EffectiveHeaders(c), extra, u.identity, name, BearerValue(c));
  }

  const ROTATED := Config(
    "s", "https://s", "http", map["Authorization" := "Bearer new"], false, "bearer", "old", "",
    [KeyRule("user", "other@example.com", "k")])

  const SOMEBODY := Caller("", "u@example.com", [], map[])

  lemma {:induction false} NoRuleForSomebody()
    ensures !AnyMatches(ROTATED, "user", SOMEBODY) && !AnyMatches(ROTATED, "group", SOMEBODY)
    ensures ResolvedKey(ROTATED, SOMEBODY) == "old"
  {
    var rule := ROTATED.keyRules[0];
    assert rule.subject[0] == 'o' && SOMEBODY.email[0] == 'u';
    assert !SameName(rule.subject, SOMEBODY.email);
    KeyPrecedence(ROTATED, SOMEBODY);
  }

  /** A row whose configured Authorization was renewed, its token not: a user without a rule still sends the old token. */
  lemma {:induction false} RenewedHeaderIsReplaced()
    ensures ExtraHeaders(ROTATED, SOMEBODY, Unavailable) == Resolved(Some(map["Authorization" := "Bearer old"]))
    ensures ROTATED.headers["Authorization"] == "Bearer new"
    ensures AlwaysSent(
      EffectiveHeaders(ROTATED), map["Authorization" := "Bearer old"], map[], "Authorization", "Bearer old")
  {
    hide Canon, AlwaysSent, EffectiveHeaders;
    NoRuleForSomebody();
    assert BearerValue(ROTATED) == "Bearer old";
    assert map["Authorization" := "Bearer old"] + map[] == map["Authorization" := "Bearer old"];
    assert LowerName("Authorization")[0] == 'a';
    FallbackReplacesConfigured(ROTATED, SOMEBODY, Unavailable, "Authorization");
  }

  // ---------------------------------------------------------------- chats over several servers

  // One server of a chat, with what the token store has for it.
  datatype Member = Member(c: Config, oauth: OAuth)

  // The headers of the first server that resolves some go to all of them.
  function ChatHeaders(servers: seq<Member>, u: Caller): Resolution {
    if servers == [] then Resolved(None)
    else
      var n := |servers| - 1;
      var before := ChatHeaders(servers[..n], u);
      if before.ConsentRequired? || !PerUser(servers[n].c) then before
      else match ExtraHeaders(servers[n].c, u, servers[n].oauth)
        case ConsentRequired => ConsentRequired
        case Resolved(headers) => if before.headers.None? then Resolved(headers) else before
  }

  lemma {:induction false} ConsentStays(servers: seq<Member>, n: nat, u: Caller)
    requires n <= |servers| && ChatHeaders(servers[..n], u).ConsentRequired?
    ensures ChatHeaders(servers, u).ConsentRequired?
  {
    hide ExtraHeaders;
    if n == |servers| {
      assert servers[..n] == servers;
    } else {
      var last := |servers| - 1;
      assert servers[..last][..n] == servers[..n];
      ConsentStays(servers[..last], n, u);
    }
  }

  method ResolveForChat(servers: seq<Member>, u: Caller) returns (r: Resolution)
    ensures r == ChatHeaders(servers, u)
  {
    hide ExtraHeaders;
    r := Resolved(None);
    for n := 0 to |servers|
      invariant r.Resolved? && r == ChatHeaders(servers[..n], u)
    {
      assert servers[..n + 1][..n] == servers[..n];
      if PerUser(servers[n].c) {
        var own := ResolveExtraHeaders(servers[n].c, u, servers[n].oauth);
        if own.ConsentRequired? {
          ConsentStays(servers, n + 1, u);
          return ConsentRequired;
        }
        if r.headers.None? {
          r := own;
        }
      }
    }
    assert servers[..|servers|] == servers;
  }

  // Server i is the first of a chat that resolves headers for the caller.
  ghost predicate Lends(servers: seq<Member>, u: Caller, i: nat) {
    && i < |servers| && PerUser(servers[i].c)
    && ExtraHeaders(servers[i].c, u, servers[i].oauth).Resolved?
    && ExtraHeaders(servers[i].c, u, servers[i].oauth).headers.Some?
    && forall j | 0 <= j < i && PerUser(servers[j].c) :: ExtraHeaders(servers[j].c, u, servers[j].oauth) == Resolved(None)
  }

  lemma {:induction false} HeadersAreLent(servers: seq<Member>, u: Caller)
    requires ChatHeaders(servers, u).Resolved?
    ensures match ChatHeaders(servers, u).headers
      case Some(h) => exists i: nat :: Lends(servers, u, i) && ExtraHeaders(servers[i].c, u, servers[i].oauth).headers.value == h
      case None => forall i | 0 <= i < |servers| && PerUser(servers[i].c) :: ExtraHeaders(servers[i].c, u, servers[i].oauth) == Resolved(None)
  {
    hide ExtraHeaders;
    if servers == [] {
    } else {
      var n := |servers| - 1;
      HeadersAreLent(servers[..n], u);
      if ChatHeaders(servers[..n], u).headers.Some? {
        var i: nat :| Lends(servers[..n], u, i)
          && ExtraHeaders(servers[i].c, u, servers[i].oauth).headers.value == ChatHeaders(servers, u).headers.value;
        assert Lends(servers, u, i);
      } else if ChatHeaders(servers, u).headers.Some? {
        assert Lends(servers, u, n);
      }
    }
  }

  lemma {:induction false} OneLender(servers: seq<Member>, u: Caller, i: nat)
    requires ChatHeaders(servers, u).Resolved? && Lends(servers, u, i)
    ensures ChatHeaders(servers, u) == ExtraHeaders(servers[i].c, u, servers[i].oauth)
  {
    hide ExtraHeaders;
    HeadersAreLent(servers, u);
    if ChatHeaders(servers, u).headers.Some? {
      var k: nat :| Lends(servers, u, k) && ExtraHeaders(servers[k].c, u, servers[k].oauth).headers.value == ChatHeaders(servers, u).headers.value;
      assert k == i;
    }
  }

  /**
   * In a chat over several servers every tool call carries the credential of
   * the lending server. A header configured on any of them is sent with its
   * value there in every walk exactly when the identity gives it that value, or
   * the lent credential on that header is that value, or neither has it and
   * that server's row alone decides for it.
   */
  lemma {:induction false} ChatValueSentWhen(servers: seq<Member>, u: Caller, i: nat, c: Config, name: string)
    requires ChatHeaders(servers, u).Resolved? && Lends(servers, u, i) && name in Filtered(c.headers)
    ensures var value, lent := c.headers[name], Credential(servers[i].c, u, servers[i].oauth);
      && lent.Some?
      && (AlwaysSent(EffectiveHeaders(c), OrNone(ChatHeaders(servers, u).headers), u.identity, name, value) <==>
            if Provides(u.identity, name) then Gives(u.identity, name, value)
            else if Canon(lent.value.0) == Canon(name) then lent.value.1 == value
            else Gives(c.headers, name, value) && !Misspelled(c, name))
  {
    hide Canon, Provides, Gives, AlwaysSent, Misspelled, Credential, EffectiveHeaders;
    var lender := servers[i];
    OneLender(servers, u, i);
    CredentialSentWhen(c, Credential(lender.c, u, lender.oauth), u, name);
  }

  // ---------------------------------------------------------------- tool calls over MCP

  // The MCP surface forwards or looks up a token and knows no key rules.
  function McpCredential(c: Config, u: Caller, oauth: OAuth): Option<(string, string)> {
    if c.forwardAuth then
      if u.authHeader != "" then Some(("Authorization", u.authHeader)) else None
    else if c.authType == "oauth2" && oauth.Granted? then Some(("Authorization", "Bearer " + oauth.accessToken))
    else None
  }

  function McpHeaders(c: Config, u: Caller, oauth: OAuth): Resolution {
    if !c.forwardAuth && c.authType == "oauth2" && oauth.NoToken? then ConsentRequired
    else Resolved(WithIdentity(McpCredential(c, u, oauth), u))
  }

  method ResolveForToolCall(c: Config, u: Caller, oauth: OAuth) returns (r: Resolution)
    ensures r == McpHeaders(c, u, oauth)
  {
    var headers: Option<map<string, string>> := None;
    if c.forwardAuth {
      if u.authHeader != "" {
        headers := Some(map["Authorization" := u.authHeader]);
      }
    } else if c.authType == "oauth2" && !oauth.Unavailable? {
      if oauth.NoToken? {
        return ConsentRequired;
      }
      headers := Some(map["Authorization" := "Bearer " + oauth.accessToken]);
    }
    if headers.Some? {
      var merged := Overlay(headers.value, u.identity);
      headers := Some(merged);
    }
    return Resolved(headers);
  }

  /** Both surfaces resolve the same headers exactly when the server forwards, has no key rules, or the caller's key is empty. */
  lemma {:induction false} SurfacesResolveAlikeWhen(c: Config, u: Caller, oauth: OAuth)
    ensures ExtraHeaders(c, u, oauth) == McpHeaders(c, u, oauth) <==>
      c.forwardAuth || !IsBearerPerUser(c) || ResolvedKey(c, u) == ""
  {
    hide ResolvedKey, BearerName, HeaderValue;
  }

  lemma {:induction false} NoKeyOverMcp(c: Config, u: Caller, oauth: OAuth)
    requires !c.forwardAuth && IsBearerPerUser(c)
    ensures McpCredential(c, u, oauth).None?
  {}

  /**
   * What a tool call over MCP sends for a configured header, told from row and
   * caller. With key rules no key is sent at all, so the row alone decides.
   */
  lemma {:induction false} McpValueSentWhen(c: Config, u: Caller, oauth: OAuth, name: string)
    requires name in Filtered(c.headers) && McpHeaders(c, u, oauth).Resolved?
    ensures var value, credential := c.headers[name], McpCredential(c, u, oauth);
      AlwaysSent(EffectiveHeaders(c), OrNone(McpHeaders(c, u, oauth).headers), u.identity, name, value) <==>
        if Provides(u.identity, name) then Gives(u.identity, name, value)
        else if credential.Some? && Canon(credential.value.0) == Canon(name) then credential.value.1 == value
        else Gives(c.headers, name, value) && !Misspelled(c, name)
    ensures !c.forwardAuth && IsBearerPerUser(c) ==> McpCredential(c, u, oauth).None? && !Misspelled(c, name)
  {
    hide Canon, Provides, Gives, AlwaysSent, McpCredential, WithIdentity, EffectiveHeaders;
    CredentialSentWhen(c, McpCredential(c, u, oauth), u, name);
    if !c.forwardAuth && IsBearerPerUser(c) {
      NoKeyOverMcp(c, u, oauth);
    }
  }
}
