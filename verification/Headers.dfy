/** The bounded identity headers sent with every outbound request. */
module Headers {
  import opened Prelude

  const MAX_GROUPS_BYTES: nat := 4096

  // The length of a character in UTF-8.
  function Width(c: char): nat {
    if c as int < 0x80 then 1 else if c as int < 0x800 then 2 else if c as int < 0x10000 then 3 else 4
  }

  function Bytes(s: string): nat {
    if s == "" then 0 else Bytes(s[..|s| - 1]) + Width(s[|s| - 1])
  }

  predicate Control(c: char) {
    c as int < 0x20 || c as int == 0x7f
  }

  // Unicode white space.
  predicate Space(c: char) {
    var n := c as int;
    (9 <= n <= 13) || n == 0x20 || n == 0x85 || n == 0xa0 || n == 0x1680 || (0x2000 <= n <= 0x200a)
    || n == 0x2028 || n == 0x2029 || n == 0x202f || n == 0x205f || n == 0x3000
  }

  function WithoutControls(s: string): string {
    if s == "" then ""
    else WithoutControls(s[..|s| - 1]) + if Control(s[|s| - 1]) then "" else [s[|s| - 1]]
  }

  function TrimLeft(s: string): string {
    if s != "" && Space(s[0]) then TrimLeft(s[1..]) else s
  }

  function TrimRight(s: string): string {
    if s != "" && Space(s[|s| - 1]) then TrimRight(s[..|s| - 1]) else s
  }

  function SanitizeValue(s: string): string {
    TrimRight(TrimLeft(WithoutControls(s)))
  }

  // ---------------------------------------------------------------- what a sanitized value is

  predicate NoControls(s: string) {
    forall c | c in s :: !Control(c)
  }

  // Nothing left to strip.
  predicate Sanitized(s: string) {
    NoControls(s) && (s == "" || (!Space(s[0]) && !Space(s[|s| - 1])))
  }

  lemma {:induction false} NoControlsLeft(s: string)
    ensures NoControls(WithoutControls(s))
    ensures NoControls(s) ==> WithoutControls(s) == s
  {
    hide Control;
    if s == "" {
    } else {
      NoControlsLeft(s[..|s| - 1]);
      assert s == s[..|s| - 1] + [s[|s| - 1]];
    }
  }

  lemma {:induction false} TrimmedLeft(s: string)
    ensures TrimLeft(s) == "" || !Space(TrimLeft(s)[0])
    ensures forall c | c in TrimLeft(s) :: c in s
  {
    hide Space;
    if s != "" && Space(s[0]) {
      TrimmedLeft(s[1..]);
    }
  }

  lemma {:induction false} TrimmedRight(s: string)
    ensures TrimRight(s) == "" || !Space(TrimRight(s)[|TrimRight(s)| - 1])
    ensures TrimRight(s) <= s
  {
    hide Space;
    if s != "" && Space(s[|s| - 1]) {
      TrimmedRight(s[..|s| - 1]);
    }
  }

  lemma {:induction false} ResultSanitized(s: string)
    ensures Sanitized(SanitizeValue(s))
  {
    hide Control, Space, WithoutControls, TrimLeft, TrimRight;
    NoControlsLeft(s);
    TrimmedLeft(WithoutControls(s));
    TrimmedRight(TrimLeft(WithoutControls(s)));
    var v, left := SanitizeValue(s), TrimLeft(WithoutControls(s));
    assert forall i | 0 <= i < |v| :: v[i] == left[i];
  }

  lemma {:induction false} SanitizedUnchanged(s: string)
    requires Sanitized(s)
    ensures SanitizeValue(s) == s
  {
    hide Control, Space, WithoutControls;
    NoControlsLeft(s);
  }

  /** Sanitizing leaves no control character and no surrounding space, and leaves alone exactly the values that have none. */
  lemma {:induction false} SanitizeExact(s: string)
    ensures Sanitized(SanitizeValue(s))
    ensures SanitizeValue(s) == s <==> Sanitized(s)
  {
    hide SanitizeValue, Sanitized;
    ResultSanitized(s);
    if Sanitized(s) {
      SanitizedUnchanged(s);
    }
  }

  // ---------------------------------------------------------------- the joined groups

  // The groups that count: sanitized and not empty.
  function Usable(groups: seq<string>): seq<string> {
    if groups == [] then []
    else
      var g := SanitizeValue(groups[|groups| - 1]);
      Usable(groups[..|groups| - 1]) + if g == "" then [] else [g]
  }

  function Join(gs: seq<string>): string {
    if gs == [] then ""
    else if |gs| == 1 then gs[0]
    else Join(gs[..|gs| - 1]) + "," + gs[|gs| - 1]
  }

  // b is the value for these groups, made of the first k usable ones.
  ghost predicate LongestPrefix(groups: seq<string>, b: string, k: nat) {
    && k <= |Usable(groups)| && b == Join(Usable(groups)[..k])
    && Bytes(b) <= MAX_GROUPS_BYTES
    && (k < |Usable(groups)| ==> Bytes(Join(Usable(groups)[..k + 1])) > MAX_GROUPS_BYTES)
  }

  lemma {:induction false} UsableStep(groups: seq<string>, i: nat)
    requires i < |groups|
    ensures var g := SanitizeValue(groups[i]);
      Usable(groups[..i + 1]) == Usable(groups[..i]) + if g == "" then [] else [g]
  {
    assert groups[..i + 1][..i] == groups[..i];
  }

  lemma {:induction false} NothingJoined()
    ensures Usable([]) == [] && Join([]) == "" && Bytes("") == 0
  {}

  lemma {:induction false} NothingBefore(g: string)
    ensures "" + g == g
  {}

  lemma {:induction false} BytesPositive(s: string)
    ensures Bytes(s) > 0 <==> s != ""
  {}

  lemma {:induction false} BytesConcat(a: string, b: string)
    ensures Bytes(a + b) == Bytes(a) + Bytes(b)
  {
    if b == "" {
      assert a + b == a;
    } else {
      assert (a + b)[..|a + b| - 1] == a + b[..|b| - 1];
      BytesConcat(a, b[..|b| - 1]);
    }
  }

  lemma {:induction false} JoinOneMore(gs: seq<string>, g: string)
    ensures Join(gs + [g]) == if gs == [] then g else Join(gs) + "," + g
    ensures Bytes(Join(gs + [g])) == Bytes(Join(gs)) + Bytes(g) + if gs == [] then 0 else 1
  {
    var all := gs + [g];
    assert all[..|gs|] == gs;
    if gs != [] {
      BytesConcat(Join(gs), ",");
      BytesConcat(Join(gs) + ",", g);
      assert Bytes(",") == 1;
    }
  }

  lemma {:induction false} UsablePrefix(groups: seq<string>, i: nat)
    requires i <= |groups|
    ensures Usable(groups[..i]) <= Usable(groups)
  {
    hide SanitizeValue;
    if i < |groups| {
      var n := |groups| - 1;
      UsablePrefix(groups[..n], i);
      assert groups[..n][..i] == groups[..i];
    } else {
      assert groups[..i] == groups;
    }
  }

  method JoinGroups(groups: seq<string>) returns (b: string)
    ensures exists k :: LongestPrefix(groups, b, k)
  {
    hide SanitizeValue, Usable, Join, Bytes;
    b := "";
    var size := 0;
    ghost var k := 0;
    assert groups[..0] == [];
    NothingJoined();
    for i := 0 to |groups|
      invariant k == |Usable(groups[..i])| && Usable(groups[..i]) <= Usable(groups)
      invariant b == Join(Usable(groups[..i])) && size == Bytes(b) <= MAX_GROUPS_BYTES
      invariant size > 0 <==> k > 0
    {
      UsableStep(groups, i);
      UsablePrefix(groups, i + 1);
      var g := SanitizeValue(groups[i]);
      ghost var before := Usable(groups[..i]);
      if g == "" {
        assert before + [] == before;
        continue;
      }
      assert Usable(groups)[..k] == before && Usable(groups)[..k + 1] == before + [g];
      JoinOneMore(before, g);
      var extra := Bytes(g);
      BytesPositive(g);
      if size > 0 {
        extra := extra + 1;
      }
      if size + extra > MAX_GROUPS_BYTES {
        assert LongestPrefix(groups, b, k);
        return;
      }
      if size > 0 {
        b := b + ",";
      }
      b := b + g;
      NothingBefore(g);
      size := size + extra;
      k := k + 1;
    }
    assert groups[..|groups|] == groups;
    assert Usable(groups)[..k] == Usable(groups);
    assert LongestPrefix(groups, b, k);
  }

  lemma {:induction false} UsableNotEmpty(groups: seq<string>)
    ensures forall j | 0 <= j < |Usable(groups)| :: Usable(groups)[j] != "" && Sanitized(Usable(groups)[j])
  {
    hide SanitizeValue, Sanitized;
    if groups == [] {
    } else {
      UsableNotEmpty(groups[..|groups| - 1]);
      SanitizeExact(groups[|groups| - 1]);
    }
  }

  // ---------------------------------------------------------------- what the header promises

  lemma {:induction false} LongerIsBigger(gs: seq<string>, j: nat, k: nat)
    requires j <= k <= |gs|
    ensures Bytes(Join(gs[..j])) <= Bytes(Join(gs[..k]))
    decreases k
  {
    if j < k {
      LongerIsBigger(gs, j, k - 1);
      assert gs[..k] == gs[..k - 1] + [gs[k - 1]];
      JoinOneMore(gs[..k - 1], gs[k - 1]);
    }
  }

  /** There is only one such prefix: no longer one fits, and the value is determined. */
  lemma {:induction false} PrefixIsUnique(groups: seq<string>, b: string, k: nat, c: string, j: nat)
    requires LongestPrefix(groups, b, k) && LongestPrefix(groups, c, j)
    ensures k == j && b == c
    ensures forall n | k < n <= |Usable(groups)| :: Bytes(Join(Usable(groups)[..n])) > MAX_GROUPS_BYTES
  {
    var gs := Usable(groups);
    if k < j {
      LongerIsBigger(gs, k + 1, j);
    } else if j < k {
      LongerIsBigger(gs, j + 1, k);
    }
    forall n | k < n <= |gs|
      ensures Bytes(Join(gs[..n])) > MAX_GROUPS_BYTES
    {
      LongerIsBigger(gs, k + 1, n);
    }
  }

  function Pieces(s: string): (r: seq<string>)
    ensures |r| >= 1
  {
    if s == "" then [""]
    else
      var n := |s| - 1;
      var before := Pieces(s[..n]);
      if s[n] == ',' then before + [""]
      else before[..|before| - 1] + [before[|before| - 1] + [s[n]]]
  }

  predicate CommaFree(s: string) {
    ',' !in s
  }

  lemma {:induction false} PiecesOfPlain(a: string, g: string)
    requires CommaFree(g)
    ensures Pieces(a + g) == Pieces(a)[..|Pieces(a)| - 1] + [Pieces(a)[|Pieces(a)| - 1] + g]
    decreases |g|
  {
    if g == "" {
      assert a + g == a;
      assert Pieces(a)[|Pieces(a)| - 1] + g == Pieces(a)[|Pieces(a)| - 1];
    } else {
      var n := |g| - 1;
      assert g == g[..n] + [g[n]];
      assert (a + g)[..|a + g| - 1] == a + g[..n];
      PiecesOfPlain(a, g[..n]);
      assert Pieces(a)[|Pieces(a)| - 1] + g[..n] + [g[n]] == Pieces(a)[|Pieces(a)| - 1] + g;
    }
  }

  lemma {:induction false} PiecesArePlain(s: string)
    ensures forall g | g in Pieces(s) :: CommaFree(g)
  {
    if s == "" {
    } else {
      var n := |s| - 1;
      PiecesArePlain(s[..n]);
      var before := Pieces(s[..n]);
      assert before[|before| - 1] in before;
      forall g | g in Pieces(s)
        ensures CommaFree(g)
      {
        if g !in before[..|before| - 1] && g !in before {
          assert g == "" || g == before[|before| - 1] + [s[n]];
        }
      }
    }
  }

  lemma {:induction false} PiecesAfterComma(a: string, g: string)
    requires CommaFree(g)
    ensures Pieces(a + "," + g) == Pieces(a) + [g]
  {
    var head := a + ",";
    assert head[..|head| - 1] == a;
    assert Pieces(head) == Pieces(a) + [""];
    hide Pieces;
    PiecesOfPlain(head, g);
    assert "" + g == g;
  }

  lemma {:induction false} PiecesOfOne(g: string)
    requires CommaFree(g)
    ensures Pieces(g) == [g]
  {
    PiecesOfPlain("", g);
    assert "" + g == g;
  }

  lemma {:induction false} PiecesOfJoin(gs: seq<string>)
    requires gs != [] && forall i | 0 <= i < |gs| :: CommaFree(gs[i])
    ensures Pieces(Join(gs)) == gs
    decreases |gs|
  {
    hide Pieces, CommaFree;
    var n := |gs| - 1;
    assert gs == gs[..n] + [gs[n]];
    if n == 0 {
      PiecesOfOne(gs[0]);
    } else {
      PiecesOfJoin(gs[..n]);
      PiecesAfterComma(Join(gs[..n]), gs[n]);
    }
  }

  /** A receiver that splits the header at commas reads back the groups exactly when no group contains a comma. */
  lemma {:induction false} ReadBackWhen(gs: seq<string>)
    requires gs != []
    ensures Pieces(Join(gs)) == gs <==> forall i | 0 <= i < |gs| :: CommaFree(gs[i])
  {
    PiecesArePlain(Join(gs));
    if forall i | 0 <= i < |gs| :: CommaFree(gs[i]) {
      PiecesOfJoin(gs);
    }
  }

  lemma {:induction false} JoinHasNoControls(gs: seq<string>)
    requires forall i | 0 <= i < |gs| :: Sanitized(gs[i])
    ensures NoControls(Join(gs))
    decreases |gs|
  {
    hide Space;
    if |gs| > 1 {
      JoinHasNoControls(gs[..|gs| - 1]);
    }
  }

  function SanitizeAll(groups: seq<string>): seq<string> {
    seq(|groups|, i requires 0 <= i < |groups| => SanitizeValue(groups[i]))
  }

  lemma {:induction false} UsableOfSanitized(groups: seq<string>)
    ensures Usable(SanitizeAll(groups)) == Usable(groups)
  {
    hide SanitizeValue, Sanitized;
    if groups == [] {
    } else {
      var n := |groups| - 1;
      UsableOfSanitized(groups[..n]);
      assert SanitizeAll(groups)[..n] == SanitizeAll(groups[..n]);
      SanitizeExact(SanitizeValue(groups[n]));
      SanitizeExact(groups[n]);
    }
  }

  /** The header never carries a control character, and sanitizing the groups beforehand changes nothing. */
  lemma {:induction false} HeaderIsPlain(groups: seq<string>, b: string, k: nat)
    requires LongestPrefix(groups, b, k)
    ensures NoControls(b)
    ensures LongestPrefix(SanitizeAll(groups), b, k)
  {
    hide Sanitized, Join, Bytes;
    UsableNotEmpty(groups);
    UsableOfSanitized(groups);
    JoinHasNoControls(Usable(groups)[..k]);
  }

  // ---------------------------------------------------------------- the character classes and the limit written out

  /** The control characters of ASCII, the white space of Unicode, the lengths of UTF-8. */
  lemma {:induction false} CharactersMean(c: char)
    ensures Control(c) <==> c < ' ' || c == '\U{7f}'
    ensures Space(c) <==>
      || c in "\U{9}\U{a}\U{b}\U{c}\U{d} \U{85}\U{a0}\U{1680}\U{2028}\U{2029}\U{202f}\U{205f}\U{3000}"
      || '\U{2000}' <= c < '\U{200b}'
    ensures Width(c) == 1 <==> c < '\U{80}'
    ensures Width(c) == 2 <==> '\U{80}' <= c < '\U{800}'
    ensures Width(c) == 3 <==> '\U{800}' <= c < '\U{10000}'
    ensures Width(c) == 4 <==> '\U{10000}' <= c
  {}

  lemma {:induction false} LeftTrim(s: string) returns (n: nat)
    ensures n <= |s| && TrimLeft(s) == s[n..] && forall i | 0 <= i < n :: Space(s[i])
  {
    hide Space;
    n := 0;
    if s != "" && Space(s[0]) {
      var m := LeftTrim(s[1..]);
      n := m + 1;
      assert forall i | 1 <= i < n :: s[i] == s[1..][i - 1];
    }
  }

  lemma {:induction false} RightTrim(s: string) returns (n: nat)
    ensures n <= |s| && TrimRight(s) == s[..n] && forall i | n <= i < |s| :: Space(s[i])
  {
    hide Space;
    n := |s|;
    if s != "" && Space(s[|s| - 1]) {
      n := RightTrim(s[..|s| - 1]);
      assert forall i | n <= i < |s| - 1 :: s[i] == s[..|s| - 1][i];
    }
  }

  /** Trimming takes away a first and a last part of nothing but white space, and leaves none at the ends. */
  lemma {:induction false} TrimMeans(s: string) returns (a: nat, b: nat)
    ensures a <= b <= |s| && TrimRight(TrimLeft(s)) == s[a..b]
    ensures forall i | 0 <= i < a || b <= i < |s| :: Space(s[i])
    ensures a < b ==> !Space(s[a]) && !Space(s[b - 1])
  {
    hide Space;
    a := LeftTrim(s);
    b := RightTrim(s[a..]);
    b := a + b;
    TrimmedLeft(s);
    TrimmedRight(TrimLeft(s));
  }

  lemma {:induction false} ControlsPicked(s: string) returns (at: seq<nat>)
    ensures PickedAt(WithoutControls(s), s, at)
    ensures forall i :: i in at <==> 0 <= i < |s| && !Control(s[i])
  {
    hide Control, PickedAt;
    at := [];
    if s == "" {
      assert PickedAt("", "", []) by { NothingPicked<char>(); }
    } else {
      var n := |s| - 1;
      at := ControlsPicked(s[..n]);
      PickOneMore(WithoutControls(s[..n]), s, at);
      assert forall i | 0 <= i < n :: s[..n][i] == s[i];
      if Control(s[n]) {
        assert WithoutControls(s[..n]) + "" == WithoutControls(s[..n]);
      } else {
        at := at + [n];
      }
    }
  }

  lemma {:induction false} TrimPicked(whole: string, s: string, clean: seq<nat>) returns (at: seq<nat>)
    requires PickedAt(whole, s, clean)
    ensures PickedAt(TrimRight(TrimLeft(whole)), s, at)
    ensures forall i | i in at :: i in clean
    ensures forall i: nat | i in clean && i !in at :: i < |s| && Space(s[i]) && (at != [] ==> i < at[0] || at[|at| - 1] < i)
    ensures at != [] ==> at[0] < |s| && at[|at| - 1] < |s| && !Space(s[at[0]]) && !Space(s[at[|at| - 1]])
  {
    hide Space, TrimLeft, TrimRight, PickedAt;
    var a, b := TrimMeans(whole);
    PickedFacts(whole, s, clean);
    PickSlice(whole, s, clean, a, b);
    at := clean[a..b];
    forall i: nat | i in clean && i !in at
      ensures i < |s| && Space(s[i]) && (at != [] ==> i < at[0] || at[|at| - 1] < i)
    {
      var j := OutsideSlice(whole, s, clean, a, b, i);
      assert whole[j] == s[i];
    }
    InSlice(clean, a, b);
  }

  /**
   * A sanitized value is the original at some positions, in order: all those
   * that hold no control character, but for white space before the first and
   * after the last of them that holds none.
   */
  lemma {:induction false} SanitizeMeans(s: string) returns (at: seq<nat>)
    ensures PickedAt(SanitizeValue(s), s, at)
    ensures forall i: nat | i in at :: i < |s| && !Control(s[i])
    ensures forall i: nat | i < |s| && !Control(s[i]) && i !in at :: Space(s[i]) && (at != [] ==> i < at[0] || at[|at| - 1] < i)
    ensures at != [] ==> !Space(s[at[0]]) && !Space(s[at[|at| - 1]])
  {
    hide Control, Space, WithoutControls, TrimLeft, TrimRight, PickedAt;
    var clean := ControlsPicked(s);
    at := TrimPicked(WithoutControls(s), s, clean);
  }

  /** The groups that count are the sanitized ones, in order, but for those of which nothing is left. */
  lemma {:induction false} UsableMeans(groups: seq<string>) returns (at: seq<nat>)
    ensures PickedAt(Usable(groups), SanitizeAll(groups), at)
    ensures forall i :: i in at <==> 0 <= i < |groups| && SanitizeValue(groups[i]) != ""
  {
    hide SanitizeValue, PickedAt;
    at := [];
    if groups == [] {
      assert SanitizeAll(groups) == [] && PickedAt<string>([], [], []) by { NothingPicked<string>(); }
    } else {
      var n := |groups| - 1;
      at := UsableMeans(groups[..n]);
      assert SanitizeAll(groups)[..n] == SanitizeAll(groups[..n]);
      PickOneMore(Usable(groups[..n]), SanitizeAll(groups), at);
      assert forall i | 0 <= i < n :: groups[..n][i] == groups[i];
      if SanitizeValue(groups[n]) == "" {
        assert Usable(groups[..n]) + [] == Usable(groups[..n]);
      } else {
        at := at + [n];
      }
    }
  }

  /** The value is at most 4096 bytes long, and either holds every group that counts or would be longer with the next one. */
  lemma {:induction false} LimitMeans(groups: seq<string>, b: string, k: nat)
    requires LongestPrefix(groups, b, k)
    ensures Bytes(b) <= 4096 && k <= |Usable(groups)|
    ensures k < |Usable(groups)| ==> Bytes(b) + Bytes(Usable(groups)[k]) + (if k == 0 then 0 else 1) > 4096
  {
    hide Usable, Bytes, Join;
    if k < |Usable(groups)| {
      assert Usable(groups)[..k + 1] == Usable(groups)[..k] + [Usable(groups)[k]];
      JoinOneMore(Usable(groups)[..k], Usable(groups)[k]);
    }
  }
}
