/**
 * The few functions of Go's `strings` package that the agent container
 * manager uses: TrimSpace, Split and SplitN with a limit of two, all with a
 * one-character separator.
 */
module GoStrings {

  /** White space as TrimSpace sees it. Go's unicode.IsSpace also accepts
      U+0085, U+00A0 and the Unicode space separators; the ASCII set below is
      the part this model keeps. */
  predicate IsSpace(c: char) {
    c == ' ' || c == '\t' || c == '\n' || c == '\U{000B}' || c == '\U{000C}' || c == '\r'
  }

  predicate AllSpace(s: string) {
    forall i :: 0 <= i < |s| ==> IsSpace(s[i])
  }

  /** Drops the leading white space: what remains is a suffix of `s` that
      does not start with white space, and what was dropped is all white space. */
  function TrimLeft(s: string): (r: string)
    ensures |r| <= |s| && r == s[|s| - |r|..]
    ensures AllSpace(s[..|s| - |r|])
    ensures r == [] || !IsSpace(r[0])
  {
    if |s| > 0 && IsSpace(s[0]) then
      var t := TrimLeft(s[1..]);
      assert s[..|s| - |t|] == [s[0]] + s[1..][..|s| - 1 - |t|];
      t
    else s
  }

  /** Drops the trailing white space: what remains is a prefix of `s` that
      does not end with white space, and what was dropped is all white space. */
  function TrimRight(s: string): (r: string)
    ensures |r| <= |s| && r == s[..|r|]
    ensures AllSpace(s[|r|..])
    ensures r == [] || !IsSpace(r[|r| - 1])
  {
    if |s| > 0 && IsSpace(s[|s| - 1]) then
      var t := TrimRight(s[..|s| - 1]);
      assert s[|t|..] == s[..|s| - 1][|t|..] + [s[|s| - 1]];
      t
    else s
  }

  /** `s` is the text `r` at offset `k`, with only white space before and after it. */
  predicate SpaceAround(s: string, k: int, r: string) {
    0 <= k <= |s| - |r| && r == s[k..k + |r|] && AllSpace(s[..k]) && AllSpace(s[k + |r|..])
  }

  /** Slicing a suffix of `s` is slicing `s` further along. */
  lemma SuffixSlices(s: string, k: int, n: int)
    requires 0 <= k <= |s| && 0 <= n <= |s| - k
    ensures s[k..][..n] == s[k..k + n] && s[k..][n..] == s[k + n..]
  {
  }

  /** The leading white space, then what TrimRight keeps of the rest, then
      the trailing white space. */
  lemma TrimmedAround(s: string)
    ensures SpaceAround(s, |s| - |TrimLeft(s)|, TrimRight(TrimLeft(s)))
  {
    var t := TrimLeft(s);
    var r := TrimRight(t);
    var k := |s| - |t|;
    assert t == s[k..] && r == t[..|r|] && AllSpace(t[|r|..]);
    SuffixSlices(s, k, |r|);
    assert r == s[k..k + |r|] && AllSpace(s[k + |r|..]);
    assert SpaceAround(s, k, r);
  }

  /** strings.TrimSpace: `s` is white space, then the result, then white
      space, and the result neither starts nor ends with white space. */
  function TrimSpace(s: string): (r: string)
    ensures r == [] || (!IsSpace(r[0]) && !IsSpace(r[|r| - 1]))
    ensures exists k :: SpaceAround(s, k, r)
  {
    var t := TrimLeft(s);
    var r := TrimRight(t);
    TrimmedAround(s);
    assert r != [] ==> r[0] == t[0];
    r
  }

  /** Around `r`, every character of `s` is white space. */
  lemma SpaceOutside(s: string, k: int, r: string)
    requires SpaceAround(s, k, r)
    ensures forall j :: 0 <= j < |s| && !(k <= j < k + |r|) ==> IsSpace(s[j])
  {
    forall j | 0 <= j < |s| && !(k <= j < k + |r|) ensures IsSpace(s[j]) {
      if j < k {
        assert s[..k][j] == s[j];
      } else {
        assert s[k + |r|..][j - k - |r|] == s[j];
      }
    }
  }

  /** Only one text fits TrimSpace's description: `s` with white space
      around a `r` that neither starts nor ends with white space trims to `r`. */
  lemma TrimSpaceUnique(s: string, k: int, r: string)
    requires SpaceAround(s, k, r)
    requires r != [] && !IsSpace(r[0]) && !IsSpace(r[|r| - 1])
    ensures TrimSpace(s) == r
  {
    var t := TrimSpace(s);
    var k' :| SpaceAround(s, k', t);
    SpaceOutside(s, k, r);
    SpaceOutside(s, k', t);
    assert s[k] == r[0] && s[k + |r| - 1] == r[|r| - 1];
    assert t != [];
    assert s[k'] == t[0] && s[k' + |t| - 1] == t[|t| - 1];
    assert k == k' && |t| == |r|;
  }

  /** Trimming twice trims no more than trimming once. */
  lemma TrimSpaceIdempotent(s: string)
    ensures TrimSpace(TrimSpace(s)) == TrimSpace(s)
  {
    var t := TrimSpace(s);
    if t == [] {
      var r := TrimSpace(t);
      var k :| SpaceAround(t, k, r);
    } else {
      assert t[0..0 + |t|] == t && t[..0] == [] && t[|t|..] == [];
      TrimSpaceUnique(t, 0, t);
    }
  }

  /** The position of the first `c` in `s`, or |s| when there is none. */
  function IndexOf(s: string, c: char): (i: nat)
    ensures i <= |s| && c !in s[..i]
    ensures i < |s| ==> s[i] == c
  {
    if |s| == 0 || s[0] == c then 0
    else
      var j := IndexOf(s[1..], c);
      assert s[..j + 1] == [s[0]] + s[1..][..j];
      j + 1
  }

  /** strings.Split(s, sep) for a one-character separator: the pieces
      between the separators, always at least one. */
  function Split(s: string, sep: char): (parts: seq<string>)
    ensures |parts| >= 1
    ensures forall p :: p in parts ==> sep !in p
    decreases |s|
  {
    var i := IndexOf(s, sep);
    if i == |s| then
      assert s[..i] == s;
      [s]
    else [s[..i]] + Split(s[i + 1..], sep)
  }

  /** strings.SplitN(s, sep, 2) for a one-character separator: `s` cut at
      its first separator, or `s` alone when it holds none. */
  function SplitN2(s: string, sep: char): (parts: seq<string>)
    ensures 1 <= |parts| <= 2
    ensures |parts| == 2 <==> sep in s
    ensures |parts| == 1 ==> parts[0] == s
    ensures |parts| == 2 ==> sep !in parts[0] && s == parts[0] + [sep] + parts[1]
  {
    var i := IndexOf(s, sep);
    if i == |s| then
      assert s[..i] == s;
      [s]
    else
      assert s == s[..i] + [sep] + s[i + 1..];
      [s[..i], s[i + 1..]]
  }

  /** The inverse of Split: the pieces with the separator between them. */
  function Join(parts: seq<string>, sep: char): string {
    if |parts| == 0 then ""
    else if |parts| == 1 then parts[0]
    else parts[0] + [sep] + Join(parts[1..], sep)
  }

  lemma {:induction false} IndexOfAfterPrefix(a: string, b: string, c: char)
    requires c !in a
    ensures IndexOf(a + b, c) == |a| + IndexOf(b, c)
    decreases |a|
  {
    if |a| > 0 {
      assert (a + b)[1..] == a[1..] + b;
      IndexOfAfterPrefix(a[1..], b, c);
    } else {
      assert a + b == b;
    }
  }

  /** SplitN2 undoes joining two pieces with the separator when the first
      piece holds none. */
  lemma SplitN2Join(a: string, b: string, sep: char)
    requires sep !in a
    ensures SplitN2(a + [sep] + b, sep) == [a, b]
  {
    var s := a + [sep] + b;
    assert s == a + ([sep] + b);
    IndexOfAfterPrefix(a, [sep] + b, sep);
    assert s[..|a|] == a && s[|a| + 1..] == b;
  }

  /** Split takes off the text before the first separator and goes on
      after it. */
  lemma SplitUnfold(s: string, sep: char)
    requires IndexOf(s, sep) < |s|
    ensures var i := IndexOf(s, sep); Split(s, sep) == [s[..i]] + Split(s[i + 1..], sep)
  {
  }

  /** Join puts the separator between the first piece and the join of the rest. */
  lemma JoinUnfold(p: string, rest: seq<string>, sep: char)
    requires |rest| >= 1
    ensures Join([p] + rest, sep) == p + [sep] + Join(rest, sep)
  {
    assert ([p] + rest)[1..] == rest;
  }

  /** Joining the pieces of a split gives back the original text. */
  lemma {:induction false} JoinSplit(s: string, sep: char)
    ensures Join(Split(s, sep), sep) == s
    decreases |s|
  {
    var i := IndexOf(s, sep);
    if i < |s| {
      var rest := Split(s[i + 1..], sep);
      JoinSplit(s[i + 1..], sep);
      SplitUnfold(s, sep);
      JoinUnfold(s[..i], rest, sep);
      assert s == s[..i] + [sep] + s[i + 1..];
    } else {
      assert s[..i] == s;
    }
  }

  /** Splitting a join of separator-free pieces gives back the pieces. */
  lemma {:induction false} SplitJoin(parts: seq<string>, sep: char)
    requires |parts| >= 1
    requires forall p :: p in parts ==> sep !in p
    ensures Split(Join(parts, sep), sep) == parts
  {
    var s := Join(parts, sep);
    if |parts| == 1 {
      IndexOfAfterPrefix(parts[0], "", sep);
      assert parts[0] + "" == parts[0];
    } else {
      var rest := Join(parts[1..], sep);
      assert s == parts[0] + ([sep] + rest);
      IndexOfAfterPrefix(parts[0], [sep] + rest, sep);
      assert IndexOf(s, sep) == |parts[0]|;
      assert s[..|parts[0]|] == parts[0];
      assert s[|parts[0]| + 1..] == rest;
      assert Split(s, sep) == [parts[0]] + Split(rest, sep);
      SplitJoin(parts[1..], sep);
      assert parts == [parts[0]] + parts[1..];
    }
  }
}
