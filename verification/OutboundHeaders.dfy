/** The headers an MCP request goes out with: configured ones with the shared credential, per-request ones, identity. */
module OutboundHeaders {
  import opened Prelude

  // The API key of one user or group.
  datatype KeyRule = KeyRule(subjectType: string, subject: string, apiKey: string)

  // One row of the server table; a server's configuration is its row.
  datatype Config = Config(
    id: string, url: string, transport: string, headers: map<string, string>,
    forwardAuth: bool, authType: string, bearerToken: string, authHeaderName: string, keyRules: seq<KeyRule>)

  predicate IsBearer(c: Config) { c.authType == "bearer" }

  predicate IsBearerPerUser(c: Config) {
    IsBearer(c) && c.keyRules != []
  }

  // Servers whose credentials depend on the calling user initialize on first use.
  predicate PerUser(c: Config) {
    c.forwardAuth || c.authType == "oauth2" || IsBearerPerUser(c)
  }

  // ---------------------------------------------------------------- header names

  function Lower(ch: char): char {
    if 'A' <= ch <= 'Z' then ((ch as int) + 32) as char else ch
  }

  function Upper(ch: char): char {
    if 'a' <= ch <= 'z' then ((ch as int) - 32) as char else ch
  }

  // Names equal up to the case of their ASCII letters.
  predicate SameName(a: string, b: string) {
    |a| == |b| && forall i | 0 <= i < |a| :: Lower(a[i]) == Lower(b[i])
  }

  // The characters a header name may have.
  predicate TokenChar(ch: char) {
    || 'a' <= ch <= 'z' || 'A' <= ch <= 'Z' || '0' <= ch <= '9'
    || ch in "!#$%&'*+-.^_`|~"
  }

  predicate Token(name: string) {
    forall i | 0 <= i < |name| :: TokenChar(name[i])
  }

  function CanonChar(name: string, i: nat): char
    requires i < |name|
  {
    if i == 0 || name[i - 1] == '-' then Upper(name[i]) else Lower(name[i])
  }

  // The canonical form under which a header is set; a name that is no token is left as it is.
  function Canon(name: string): string {
    if Token(name) then seq(|name|, i requires 0 <= i < |name| => CanonChar(name, i)) else name
  }

  lemma {:induction false} CharFacts(a: char, b: char)
    ensures TokenChar(Lower(a)) == TokenChar(a) == TokenChar(Upper(a))
    ensures Lower(Upper(a)) == Lower(a) == Lower(Lower(a))
    ensures Lower(a) == Lower(b) ==> Upper(a) == Upper(b) && (a == '-' <==> b == '-')
  {}

  lemma {:induction false} CanonKeeps(a: string)
    ensures |Canon(a)| == |a| && (Token(Canon(a)) <==> Token(a))
    ensures SameName(Canon(a), a)
  {
    hide TokenChar, Lower, Upper;
    forall i | 0 <= i < |a|
      ensures Lower(Canon(a)[i]) == Lower(a[i]) && TokenChar(Canon(a)[i]) == TokenChar(a[i])
    {
      CharFacts(a[i], a[i]);
    }
  }

  lemma {:induction false} SameTokens(a: string, b: string)
    requires SameName(a, b)
    ensures Token(a) <==> Token(b)
    ensures Token(a) ==> Canon(a) == Canon(b)
  {
    hide TokenChar, Lower, Upper;
    forall i | 0 <= i < |a|
      ensures TokenChar(a[i]) == TokenChar(b[i]) && CanonChar(a, i) == CanonChar(b, i)
    {
      CharFacts(a[i], b[i]);
      CharFacts(b[i], a[i]);
      if i > 0 {
        CharFacts(a[i - 1], b[i - 1]);
      }
    }
  }

  /** Two names are one header on the wire exactly when they are the same, or tokens that differ only in case. */
  lemma {:induction false} CanonExact(a: string, b: string)
    ensures Canon(a) == Canon(b) <==> a == b || (Token(a) && SameName(a, b))
  {
    hide TokenChar, Lower;
    CanonKeeps(a);
    CanonKeeps(b);
    if Token(a) && SameName(a, b) {
      SameTokens(a, b);
    }
    if Canon(a) == Canon(b) && Token(a) {
      forall i | 0 <= i < |a|
        ensures Lower(a[i]) == Lower(b[i])
      {
        assert Lower(Canon(a)[i]) == Lower(a[i]) && Lower(Canon(b)[i]) == Lower(b[i]);
      }
    }
  }

  // ---------------------------------------------------------------- the headers of a client

  predicate AddsCredential(c: Config) {
    IsBearer(c) && !IsBearerPerUser(c) && c.bearerToken != ""
  }

  predicate OnAuthorization(c: Config) {
    c.authHeaderName == "" || SameName(c.authHeaderName, "Authorization")
  }

  // The header a key of this server goes out on, and its value.
  function BearerName(c: Config): string {
    if OnAuthorization(c) then "Authorization" else c.authHeaderName
  }

  function HeaderValue(c: Config, key: string): string {
    if OnAuthorization(c) then "Bearer " + key else key
  }

  function BearerValue(c: Config): string {
    HeaderValue(c, c.bearerToken)
  }

  // The map a client is built with: a configured header replaces the credential only under exactly its name.
  function EffectiveHeaders(c: Config): map<string, string> {
    if AddsCredential(c) then map[BearerName(c) := BearerValue(c)] + c.headers else c.headers
  }

  // Copies one map over another, entry by entry.
  method Overlay(base: map<string, string>, over: map<string, string>) returns (merged: map<string, string>)
    ensures merged == base + over
  {
    merged := base;
    var keys := over.Keys;
    while keys != {}
      invariant keys <= over.Keys
      invariant merged == base + (map k | k in over && k !in keys :: over[k])
      decreases |keys|
    {
      var k :| k in keys;
      merged := merged[k := over[k]];
      keys := keys - {k};
    }
    assert (map k | k in over && k !in keys :: over[k]) == over;
  }

  method MergeHeaders(c: Config) returns (merged: map<string, string>)
    ensures merged == EffectiveHeaders(c)
  {
    if !IsBearer(c) || IsBearerPerUser(c) || c.bearerToken == "" {
      return c.headers;
    }
    merged := Overlay(map[BearerName(c) := BearerValue(c)], c.headers);
  }

  const BLOCKED: set<string> := {
    "metadata-flavor", "x-google-metadata-request", "x-aws-ec2-metadata-token",
    "x-forwarded-for", "x-forwarded-host", "x-real-ip"}

  const BLOCKED_PREFIXES: seq<string> := ["x-goog-", "x-gfe-", "x-amzn-", "x-azure-"]

  function LowerName(name: string): string {
    seq(|name|, i requires 0 <= i < |name| => Lower(name[i]))
  }

  predicate Blocked(name: string) {
    LowerName(name) in BLOCKED || exists i | 0 <= i < |BLOCKED_PREFIXES| :: BLOCKED_PREFIXES[i] <= LowerName(name)
  }

  // Headers that are never forwarded, in any spelling, are dropped.
  function Filtered(headers: map<string, string>): map<string, string> {
    map k | k in headers && !Blocked(k) :: headers[k]
  }

  method FilterHeaders(headers: map<string, string>) returns (filtered: map<string, string>)
    ensures filtered == Filtered(headers)
  {
    filtered := map[];
    var keys := headers.Keys;
    while keys != {}
      invariant keys <= headers.Keys
      invariant filtered == map k | k in headers && k !in keys && !Blocked(k) :: headers[k]
      decreases |keys|
    {
      var k :| k in keys;
      keys := keys - {k};
      var lower := LowerName(k);
      if lower in BLOCKED {
        continue;
      }
      var blocked := false;
      for i := 0 to |BLOCKED_PREFIXES|
        invariant blocked <==> exists j | 0 <= j < i :: BLOCKED_PREFIXES[j] <= lower
      {
        if BLOCKED_PREFIXES[i] <= lower {
          blocked := true;
          break;
        }
      }
      if !blocked {
        filtered := filtered[k := headers[k]];
      }
    }
  }

  lemma {:induction false} BlockedInAnySpelling(a: string, b: string)
    requires SameName(a, b)
    ensures Blocked(a) <==> Blocked(b)
  {
    assert LowerName(a) == LowerName(b);
  }

  // ---------------------------------------------------------------- setting them on a request

  // One of the orders in which a map may be walked.
  ghost predicate Enumerates(order: seq<string>, headers: map<string, string>) {
    && (forall k :: k in order <==> k in headers)
    && (forall i, j | 0 <= i < j < |order| :: order[i] != order[j])
  }

  // What a request carries once the headers were set in this order: setting replaces the value of the same header.
  function Wire(start: map<string, string>, headers: map<string, string>, order: seq<string>): map<string, string>
    requires forall k | k in order :: k in headers
  {
    if order == [] then start
    else
      var k := order[|order| - 1];
      Wire(start, headers, order[..|order| - 1])[Canon(k) := headers[k]]
  }

  method SetHeaders(start: map<string, string>, headers: map<string, string>, order: seq<string>) returns (wire: map<string, string>)
    requires forall k | k in order :: k in headers
    ensures wire == Wire(start, headers, order)
  {
    wire := start;
    for i := 0 to |order|
      invariant wire == Wire(start, headers, order[..i])
    {
      assert order[..i + 1][..i] == order[..i];
      wire := wire[Canon(order[i]) := headers[order[i]]];
    }
    assert order[..|order|] == order;
  }

  // The value sent for a header is that of the last spelling set.
  lemma {:induction false} LastSpellingWins(start: map<string, string>, headers: map<string, string>, order: seq<string>, name: string)
    returns (last: string)
    requires (forall k | k in order :: k in headers) && name in order
    ensures last in order && Canon(last) == Canon(name)
    ensures Canon(order[|order| - 1]) == Canon(name) ==> last == order[|order| - 1]
    ensures Canon(name) in Wire(start, headers, order) && Wire(start, headers, order)[Canon(name)] == headers[last]
  {
    hide Canon;
    var n := |order| - 1;
    if Canon(order[n]) == Canon(name) {
      last := order[n];
    } else {
      assert name in order[..n];
      last := LastSpellingWins(start, headers, order[..n], name);
    }
  }

  lemma {:induction false} SomeOrder(keys: set<string>) returns (order: seq<string>)
    ensures forall k :: k in order <==> k in keys
    ensures forall i, j | 0 <= i < j < |order| :: order[i] != order[j]
    decreases |keys|
  {
    if keys == {} {
      order := [];
    } else {
      var k :| k in keys;
      var rest := SomeOrder(keys - {k});
      order := rest + [k];
    }
  }

  lemma {:induction false} OrderEndingIn(headers: map<string, string>, last: string) returns (order: seq<string>)
    requires last in headers
    ensures Enumerates(order, headers) && order != [] && order[|order| - 1] == last
  {
    var rest := SomeOrder(headers.Keys - {last});
    order := rest + [last];
  }

  // Some spelling of this header is in the map.
  ghost predicate Provides(headers: map<string, string>, name: string) {
    exists k :: k in headers && Canon(k) == Canon(name)
  }

  // Every spelling of it there has this value.
  ghost predicate Gives(headers: map<string, string>, name: string, value: string) {
    forall k | k in headers && Canon(k) == Canon(name) :: headers[k] == value
  }

  lemma {:induction false} OtherHeaderStays(start: map<string, string>, headers: map<string, string>, order: seq<string>, name: string)
    requires forall k | k in order :: k in headers && Canon(k) != Canon(name)
    ensures var wire := Wire(start, headers, order);
      && (Canon(name) in wire <==> Canon(name) in start)
      && (Canon(name) in start ==> wire[Canon(name)] == start[Canon(name)])
  {
    hide Canon;
    if order == [] {
    } else {
      OtherHeaderStays(start, headers, order[..|order| - 1], name);
    }
  }

  // A walk over a map leaves a header with a value the map gives it, or alone.
  lemma {:induction false} WalkDecides(start: map<string, string>, headers: map<string, string>, order: seq<string>, name: string)
    requires Enumerates(order, headers)
    ensures var wire := Wire(start, headers, order);
      if Provides(headers, name) then
        exists k :: k in headers && Canon(k) == Canon(name) && Canon(name) in wire && wire[Canon(name)] == headers[k]
      else
        && (Canon(name) in wire <==> Canon(name) in start)
        && (Canon(name) in start ==> wire[Canon(name)] == start[Canon(name)])
  {
    hide Canon;
    if Provides(headers, name) {
      var k :| k in headers && Canon(k) == Canon(name);
      var last := LastSpellingWins(start, headers, order, k);
    } else {
      OtherHeaderStays(start, headers, order, name);
    }
  }

  // ---------------------------------------------------------------- a whole request

  // The client's headers, the per-request ones and the caller's identity are set one after the other.
  function Request(
      start: map<string, string>, own: map<string, string>, extra: map<string, string>, identity: map<string, string>,
      o1: seq<string>, o2: seq<string>, o3: seq<string>): map<string, string>
    requires forall k | k in o1 :: k in Filtered(own)
    requires forall k | k in o2 :: k in Filtered(extra)
    requires forall k | k in o3 :: k in identity
  {
    Wire(Wire(Wire(start, Filtered(own), o1), Filtered(extra), o2), identity, o3)
  }

  method PrepareRequest(
      start: map<string, string>, own: map<string, string>, extra: map<string, string>, identity: map<string, string>,
      o1: seq<string>, o2: seq<string>, o3: seq<string>)
    returns (wire: map<string, string>)
    requires forall k | k in o1 :: k in Filtered(own)
    requires forall k | k in o2 :: k in Filtered(extra)
    requires forall k | k in o3 :: k in identity
    ensures wire == Request(start, own, extra, identity, o1, o2, o3)
  {
    var headers := FilterHeaders(own);
    wire := SetHeaders(start, headers, o1);
    headers := FilterHeaders(extra);
    wire := SetHeaders(wire, headers, o2);
    wire := SetHeaders(wire, identity, o3);
  }

  // However the three maps are walked, the request carries this header with this value.
  ghost predicate AlwaysSent(own: map<string, string>, extra: map<string, string>, identity: map<string, string>, name: string, value: string) {
    forall start, o1, o2, o3 | Enumerates(o1, Filtered(own)) && Enumerates(o2, Filtered(extra)) && Enumerates(o3, identity) ::
      var wire := Request(start, own, extra, identity, o1, o2, o3);
      Canon(name) in wire && wire[Canon(name)] == value
  }

  // The last of the three maps that has the header decides.
  ghost function Decisive(own: map<string, string>, extra: map<string, string>, identity: map<string, string>, name: string): map<string, string> {
    if Provides(identity, name) then identity else if Provides(Filtered(extra), name) then Filtered(extra) else Filtered(own)
  }

  lemma {:induction false} DecisiveIsSent(
      own: map<string, string>, extra: map<string, string>, identity: map<string, string>, name: string, value: string)
    requires var last := Decisive(own, extra, identity, name); Provides(last, name) && Gives(last, name, value)
    ensures AlwaysSent(own, extra, identity, name, value)
  {
    hide Canon, Filtered, Provides, Wire;
    forall start, o1, o2, o3 | Enumerates(o1, Filtered(own)) && Enumerates(o2, Filtered(extra)) && Enumerates(o3, identity)
      ensures var wire := Request(start, own, extra, identity, o1, o2, o3); Canon(name) in wire && wire[Canon(name)] == value
    {
      var w1 := Wire(start, Filtered(own), o1);
      WalkDecides(start, Filtered(own), o1, name);
      WalkDecides(w1, Filtered(extra), o2, name);
      WalkDecides(Wire(w1, Filtered(extra), o2), identity, o3, name);
    }
  }

  // Any spelling in the deciding map can be the one whose value is sent.
  lemma {:induction false} SomeWalkSends(
      own: map<string, string>, extra: map<string, string>, identity: map<string, string>, name: string, k: string)
    returns (o1: seq<string>, o2: seq<string>, o3: seq<string>)
    requires k in Decisive(own, extra, identity, name) && Canon(k) == Canon(name)
    ensures Enumerates(o1, Filtered(own)) && Enumerates(o2, Filtered(extra)) && Enumerates(o3, identity)
    ensures forall start ::
      var wire := Request(start, own, extra, identity, o1, o2, o3);
      Canon(name) in wire && wire[Canon(name)] == Decisive(own, extra, identity, name)[k]
  {
    hide Canon, Filtered, Wire;
    o1 := SomeOrder(Filtered(own).Keys);
    o2 := SomeOrder(Filtered(extra).Keys);
    o3 := SomeOrder(identity.Keys);
    if Provides(identity, name) {
      o3 := OrderEndingIn(identity, k);
    } else if Provides(Filtered(extra), name) {
      o2 := OrderEndingIn(Filtered(extra), k);
    } else {
      o1 := OrderEndingIn(Filtered(own), k);
    }
    forall start
      ensures var wire := Request(start, own, extra, identity, o1, o2, o3);
        Canon(name) in wire && wire[Canon(name)] == Decisive(own, extra, identity, name)[k]
    {
      var w1 := Wire(start, Filtered(own), o1);
      var w2 := Wire(w1, Filtered(extra), o2);
      if Provides(identity, name) {
        var last := LastSpellingWins(w2, identity, o3, k);
      } else {
        OtherHeaderStays(w2, identity, o3, name);
        if Provides(Filtered(extra), name) {
          var last := LastSpellingWins(w1, Filtered(extra), o2, k);
        } else {
          OtherHeaderStays(w1, Filtered(extra), o2, name);
          var last := LastSpellingWins(start, Filtered(own), o1, k);
        }
      }
    }
  }

  lemma {:induction false} NothingSent(own: map<string, string>, extra: map<string, string>, identity: map<string, string>, name: string, value: string)
    requires !Provides(Decisive(own, extra, identity, name), name)
    ensures !AlwaysSent(own, extra, identity, name, value)
  {
    hide Canon, Filtered, Wire;
    var o1 := SomeOrder(Filtered(own).Keys);
    var o2 := SomeOrder(Filtered(extra).Keys);
    var o3 := SomeOrder(identity.Keys);
    var w1 := Wire(map[], Filtered(own), o1);
    OtherHeaderStays(map[], Filtered(own), o1, name);
    OtherHeaderStays(w1, Filtered(extra), o2, name);
    OtherHeaderStays(Wire(w1, Filtered(extra), o2), identity, o3, name);
    assert Canon(name) !in Request(map[], own, extra, identity, o1, o2, o3);
  }

  /**
   * A header goes out with a value in every walk exactly when the last of the
   * three maps that has it, in whatever spelling, gives it that value in all
   * its spellings.
   */
  lemma {:induction false} SentWhen(
      own: map<string, string>, extra: map<string, string>, identity: map<string, string>, name: string, value: string)
    ensures AlwaysSent(own, extra, identity, name, value) <==>
      var last := Decisive(own, extra, identity, name); Provides(last, name) && Gives(last, name, value)
  {
    hide Canon, Filtered, Request, Decisive;
    var last := Decisive(own, extra, identity, name);
    if !Provides(last, name) {
      NothingSent(own, extra, identity, name, value);
    } else if Gives(last, name, value) {
      DecisiveIsSent(own, extra, identity, name, value);
    } else {
      var k :| k in last && Canon(k) == Canon(name) && last[k] != value;
      var o1, o2, o3 := SomeWalkSends(own, extra, identity, name, k);
      assert Request(map[], own, extra, identity, o1, o2, o3)[Canon(name)] != value;
    }
  }

  // ---------------------------------------------------------------- the credential against the configured headers

  // A configured header that names the credential's header only in another spelling and gives it another value.
  predicate Misspelled(c: Config, name: string) {
    && AddsCredential(c) && name in c.headers && BearerName(c) !in c.headers
    && Token(name) && SameName(name, BearerName(c)) && c.headers[name] != BearerValue(c)
  }

  // What the client's own map says about a configured header.
  lemma {:induction false} OwnValueWhen(c: Config, name: string)
    requires name in Filtered(c.headers)
    ensures Provides(Filtered(EffectiveHeaders(c)), name)
    ensures Gives(Filtered(EffectiveHeaders(c)), name, c.headers[name]) <==>
      Gives(c.headers, name, c.headers[name]) && !Misspelled(c, name)
  {
    hide Canon, BearerName, BearerValue, Blocked, SameName, Token;
    var all, own := Filtered(EffectiveHeaders(c)), BearerName(c);
    assert name in all;
    CanonExact(name, own);
    if Misspelled(c, name) {
      BlockedInAnySpelling(name, own);
      assert own in all && all[own] == BearerValue(c);
    }
    forall k | k in c.headers && Canon(k) == Canon(name)
      ensures k in all && all[k] == c.headers[k]
    {
      CanonExact(name, k);
      if k != name {
        BlockedInAnySpelling(name, k);
      }
    }
  }

  /**
   * A client that a refresh reuses keeps the headers of the row it was built
   * from. A header configured in the new row is sent with its value there in
   * every walk exactly when the caller's identity, or else the per-request
   * headers, give it that value, or, where neither has it, the old row's map
   * has it and gives it that value.
   */
  lemma {:induction false} ReusedClientSentWhen(
      built: Config, c: Config, extra: map<string, string>, identity: map<string, string>, name: string)
    requires name in Filtered(c.headers)
    ensures var value := c.headers[name];
      AlwaysSent(EffectiveHeaders(built), extra, identity, name, value) <==>
        if Provides(identity, name) then Gives(identity, name, value)
        else if Provides(Filtered(extra), name) then Gives(Filtered(extra), name, value)
        else Provides(Filtered(EffectiveHeaders(built)), name) && Gives(Filtered(EffectiveHeaders(built)), name, value)
  {
    hide Provides, Gives, EffectiveHeaders, AlwaysSent;
    SentWhen(EffectiveHeaders(built), extra, identity, name, c.headers[name]);
  }

  /**
   * On a client built from the row itself, a configured header that may be
   * forwarded is sent with its value in every walk exactly when the caller's
   * identity, or else the per-request headers, give it just that value, or,
   * where neither has it, the row gives it one value and it is not the
   * credential's header in another spelling with another value.
   */
  lemma {:induction false} ConfiguredValueSentWhen(c: Config, extra: map<string, string>, identity: map<string, string>, name: string)
    requires name in Filtered(c.headers)
    ensures var value := c.headers[name];
      AlwaysSent(EffectiveHeaders(c), extra, identity, name, value) <==>
        if Provides(identity, name) then Gives(identity, name, value)
        else if Provides(Filtered(extra), name) then Gives(Filtered(extra), name, value)
        else Gives(c.headers, name, value) && !Misspelled(c, name)
  {
    hide Provides, Gives, EffectiveHeaders, Misspelled, AlwaysSent;
    ReusedClientSentWhen(c, c, extra, identity, name);
    OwnValueWhen(c, name);
  }

  /** For a header misspelled that way, and set by nothing later, there is a walk that sends the shared credential instead. */
  lemma {:induction false} StaleCredentialSent(c: Config, extra: map<string, string>, identity: map<string, string>, name: string)
    returns (o1: seq<string>, o2: seq<string>, o3: seq<string>)
    requires name in Filtered(c.headers) && Misspelled(c, name)
    requires !Provides(Filtered(extra), name) && !Provides(identity, name)
    ensures Enumerates(o1, Filtered(EffectiveHeaders(c))) && Enumerates(o2, Filtered(extra)) && Enumerates(o3, identity)
    ensures forall start ::
      var wire := Request(start, EffectiveHeaders(c), extra, identity, o1, o2, o3);
      Canon(name) in wire && wire[Canon(name)] == BearerValue(c) != c.headers[name]
  {
    hide Canon, BearerName, BearerValue, Blocked, SameName, Token, Request, Provides;
    var own := BearerName(c);
    CanonExact(name, own);
    BlockedInAnySpelling(name, own);
    assert own in Filtered(EffectiveHeaders(c)) && Filtered(EffectiveHeaders(c))[own] == BearerValue(c);
    o1, o2, o3 := SomeWalkSends(EffectiveHeaders(c), extra, identity, name, own);
  }
}
