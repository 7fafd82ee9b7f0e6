/** Whose key goes out on which header and which headers are dropped, with the tables of the code written out. */
module OutboundLaws {
  import opened Prelude
  import opened OutboundHeaders
  import opened OutboundAuth

  const CAPITALS := "ABCDEFGHIJKLMNOPQRSTUVWXYZ"

  const SMALL := "abcdefghijklmnopqrstuvwxyz"

  lemma {:induction false} LettersPair(k: nat)
    requires k < 26
    ensures CAPITALS[k] as int == 'A' as int + k && SMALL[k] as int == 'a' as int + k
  {}

  /** Each capital letter has its small one and back, and no other character changes. */
  lemma {:induction false} CaseMeans(ch: char)
    ensures forall k | 0 <= k < 26 :: Lower(CAPITALS[k]) == SMALL[k] && Upper(SMALL[k]) == CAPITALS[k]
    ensures ch !in CAPITALS ==> Lower(ch) == ch
    ensures ch !in SMALL ==> Upper(ch) == ch
  {
    forall k: nat | k < 26
      ensures Lower(CAPITALS[k]) == SMALL[k] && Upper(SMALL[k]) == CAPITALS[k]
    {
      LettersPair(k);
    }
    if 'A' <= ch <= 'Z' {
      LettersPair((ch as int) - 'A' as int);
    }
    if 'a' <= ch <= 'z' {
      LettersPair((ch as int) - 'a' as int);
    }
  }

  lemma {:induction false} LettersAre(ch: char)
    ensures ch in CAPITALS <==> 'A' <= ch <= 'Z'
    ensures ch in SMALL <==> 'a' <= ch <= 'z'
  {
    if ch in CAPITALS {
      var k :| 0 <= k < 26 && CAPITALS[k] == ch;
      LettersPair(k);
    }
    if ch in SMALL {
      var k :| 0 <= k < 26 && SMALL[k] == ch;
      LettersPair(k);
    }
    if 'A' <= ch <= 'Z' {
      LettersPair((ch as int) - 'A' as int);
    }
    if 'a' <= ch <= 'z' {
      LettersPair((ch as int) - 'a' as int);
    }
  }

  lemma {:induction false} DigitsAre(ch: char)
    ensures ch in "0123456789" <==> '0' <= ch <= '9'
  {
    assert forall k | 0 <= k < 10 :: "0123456789"[k] as int == '0' as int + k;
    if '0' <= ch <= '9' {
      assert "0123456789"[(ch as int) - '0' as int] == ch;
    }
  }

  /** A header name is made of letters, digits and fifteen marks. */
  lemma {:induction false} TokenMeans(ch: char)
    ensures TokenChar(ch) <==> ch in CAPITALS + SMALL + "0123456789!#$%&'*+-.^_`|~"
  {
    LettersAre(ch);
    DigitsAre(ch);
    assert "0123456789!#$%&'*+-.^_`|~" == "0123456789" + "!#$%&'*+-.^_`|~";
  }

  /** On the wire the first letter and each after a hyphen is a capital and every other one is small. */
  lemma {:induction false} WireNameMeans(name: string, i: nat)
    requires i < |name|
    ensures |Canon(name)| == |name|
    ensures Canon(name)[i] == (
      if exists k | 0 <= k < |name| :: !TokenChar(name[k]) then name[i]
      else if i == 0 || name[i - 1] == '-' then Upper(name[i])
      else Lower(name[i]))
  {
    CanonKeeps(name);
  }

  // A name starts with this text, up to case.
  predicate StartsLike(name: string, start: string) {
    |start| <= |name| && SameName(name[..|start|], start)
  }

  lemma {:induction false} LowerPrefix(name: string, start: string)
    requires forall i | 0 <= i < |start| :: Lower(start[i]) == start[i]
    ensures start <= LowerName(name) <==> StartsLike(name, start)
    ensures LowerName(name) == start <==> SameName(name, start)
  {}

  lemma {:induction false} ListsAreSmall()
    ensures forall s, i | s in BLOCKED && 0 <= i < |s| :: Lower(s[i]) == s[i]
    ensures forall k, i | 0 <= k < |BLOCKED_PREFIXES| && 0 <= i < |BLOCKED_PREFIXES[k]| ::
      Lower(BLOCKED_PREFIXES[k][i]) == BLOCKED_PREFIXES[k][i]
  {}

  /** The headers that are never forwarded: six names and four families, in any spelling. */
  lemma {:induction false} BlockedMeans(name: string)
    ensures Blocked(name) <==>
      || SameName(name, "metadata-flavor") || SameName(name, "x-google-metadata-request")
      || SameName(name, "x-aws-ec2-metadata-token") || SameName(name, "x-forwarded-for")
      || SameName(name, "x-forwarded-host") || SameName(name, "x-real-ip")
      || StartsLike(name, "x-goog-") || StartsLike(name, "x-gfe-") || StartsLike(name, "x-amzn-") || StartsLike(name, "x-azure-")
  {
    hide Lower;
    ListsAreSmall();
    assert BLOCKED_PREFIXES[0] == "x-goog-" && BLOCKED_PREFIXES[1] == "x-gfe-";
    assert BLOCKED_PREFIXES[2] == "x-amzn-" && BLOCKED_PREFIXES[3] == "x-azure-";
    forall s | s in BLOCKED
      ensures LowerName(name) == s <==> SameName(name, s)
    {
      LowerPrefix(name, s);
    }
    forall k | 0 <= k < |BLOCKED_PREFIXES|
      ensures BLOCKED_PREFIXES[k] <= LowerName(name) <==> StartsLike(name, BLOCKED_PREFIXES[k])
    {
      LowerPrefix(name, BLOCKED_PREFIXES[k]);
    }
  }

  // The header and value a key of a bearer server is sent as.
  function Sent(c: Config, key: string): (string, string) {
    if c.authHeaderName == "" || SameName(c.authHeaderName, "authorization") then ("Authorization", "Bearer " + key)
    else (c.authHeaderName, key)
  }

  lemma {:induction false} SentAs(c: Config, key: string)
    ensures Sent(c, key) == (BearerName(c), HeaderValue(c, key))
  {
    var a, b := "Authorization", "authorization";
    assert forall i | 0 <= i < |a| :: Lower(a[i]) == Lower(b[i]);
  }

  /**
   * The headers of a client: those configured, under the shared credential of a
   * bearer server without key rules unless that very name is configured. Only
   * servers that forward, use OAuth2 or have key rules wait for a user.
   */
  lemma {:induction false} ClientHeadersMean(c: Config, name: string)
    ensures var h := EffectiveHeaders(c);
      var shared := c.authType == "bearer" && c.keyRules == [] && c.bearerToken != "";
      && (name in h <==> name in c.headers || (shared && name == Sent(c, c.bearerToken).0))
      && (name in c.headers ==> h[name] == c.headers[name])
      && (name in h && name !in c.headers ==> h[name] == Sent(c, c.bearerToken).1)
    ensures PerUser(c) <==> c.forwardAuth || c.authType == "oauth2" || (c.authType == "bearer" && c.keyRules != [])
  {
    SentAs(c, c.bearerToken);
  }

  /** Which rules are a caller's: a user rule for the same e-mail, never an empty one, a group rule for one of the groups, in any case. */
  lemma {:induction false} RuleMeans(rule: KeyRule, u: Caller)
    ensures Matches(rule, "user", u) <==> rule.subjectType == "user" && u.email != "" && SameName(rule.subject, u.email)
    ensures Matches(rule, "group", u) <==> rule.subjectType == "group" && exists g | g in u.groups :: SameName(rule.subject, g)
  {
    if exists g | g in u.groups :: SameName(rule.subject, g) {
      var g :| g in u.groups && SameName(rule.subject, g);
      var i :| 0 <= i < |u.groups| && u.groups[i] == g;
    }
  }

  // What the resolved headers are: none without a credential, else it and the identity over it.
  predicate Carries(r: Resolution, credential: Option<(string, string)>, u: Caller) {
    match credential
    case None => r == Resolved(None)
    case Some(h) => r == Resolved(Some((map[h.0 := h.1]) + u.identity))
  }

  /**
   * The per-request headers over the web, by kind of server: a forwarding one
   * gets the caller's own header, one with key rules the caller's key, an OAuth2
   * one the caller's token, or no call before consent, and any other nothing.
   * Missing credentials are no error. The tool surface differs in the keys only.
   */
  lemma {:induction false} ResolutionMeans(c: Config, u: Caller, oauth: OAuth)
    ensures var own := if u.authHeader == "" then None else Some(("Authorization", u.authHeader));
      var key := if ResolvedKey(c, u) == "" then None else Some(Sent(c, ResolvedKey(c, u)));
      var rules := c.authType == "bearer" && c.keyRules != [];
      && (c.forwardAuth ==> Carries(ExtraHeaders(c, u, oauth), own, u) && Carries(McpHeaders(c, u, oauth), own, u))
      && (!c.forwardAuth && rules ==> Carries(ExtraHeaders(c, u, oauth), key, u) && McpHeaders(c, u, oauth) == Resolved(None))
      && (!c.forwardAuth && !rules && c.authType != "oauth2" ==>
            ExtraHeaders(c, u, oauth) == Resolved(None) == McpHeaders(c, u, oauth))
      && (!c.forwardAuth && c.authType == "oauth2" ==>
            && ExtraHeaders(c, u, oauth) == McpHeaders(c, u, oauth)
            && match oauth
               case NoToken => ExtraHeaders(c, u, oauth) == ConsentRequired
               case Unavailable => ExtraHeaders(c, u, oauth) == Resolved(None)
               case Granted(token) => Carries(ExtraHeaders(c, u, oauth), Some(("Authorization", "Bearer " + token)), u))
  {
    hide ResolvedKey;
    SentAs(c, ResolvedKey(c, u));
  }

  /** A chat asks for consent exactly when a server that waits for a user needs it. */
  lemma {:induction false} ChatConsentWhen(servers: seq<Member>, u: Caller)
    ensures ChatHeaders(servers, u).ConsentRequired? <==>
      exists i | 0 <= i < |servers| ::
        && !servers[i].c.forwardAuth && servers[i].c.authType == "oauth2" && servers[i].oauth.NoToken?
  {
    if servers == [] {
    } else {
      var n := |servers| - 1;
      ChatConsentWhen(servers[..n], u);
      ResolutionMeans(servers[n].c, u, servers[n].oauth);
      hide ExtraHeaders;
      assert forall i | 0 <= i < n :: servers[..n][i] == servers[i];
    }
  }
}
