/** String helpers shared by the front end and the back end: single-character
    split and join, substring search, ASCII case mapping, stripping over an
    explicit whitespace set, and decimal rendering of naturals. Strings are
    sequences of Unicode scalar values. */
module Text {

  /** Index of the first `c` in `s`, or `|s|` when there is none. */
  function IndexOf(s: string, c: char): (i: nat)
    ensures i <= |s|
    ensures forall j :: 0 <= j < i ==> s[j] != c
    ensures i < |s| ==> s[i] == c
  {
    if s == [] then 0
    else if s[0] == c then 0
    else 1 + IndexOf(s[1..], c)
  }

  /** Number of occurrences of `c` in `s`. */
  function CountChar(s: string, c: char): nat
  {
    if s == [] then 0
    else (if s[0] == c then 1 else 0) + CountChar(s[1..], c)
  }

  /** `s.split(c)` with a one-character separator, as both JavaScript and Python
      define it: empty pieces are kept and the result is never empty. */
  function Split(s: string, c: char): (r: seq<string>)
    ensures |r| >= 1
    decreases |s|
  {
    var i := IndexOf(s, c);
    if i == |s| then [s]
    else [s[..i]] + Split(s[i + 1..], c)
  }

  /** `c.join(parts)` (Python) or `parts.join(c)` (JavaScript). */
  function Join(parts: seq<string>, c: char): string
  {
    if |parts| == 0 then ""
    else if |parts| == 1 then parts[0]
    else parts[0] + [c] + Join(parts[1..], c)
  }

  lemma CountCharAppend(a: string, b: string, c: char)
    ensures CountChar(a + b, c) == CountChar(a, c) + CountChar(b, c)
  {
    if a == [] {
      assert a + b == b;
    } else {
      assert (a + b)[1..] == a[1..] + b;
      CountCharAppend(a[1..], b, c);
    }
  }

  /** No piece produced by `Split` contains the separator. */
  lemma {:induction false} SplitPiecesFree(s: string, c: char)
    ensures forall k :: 0 <= k < |Split(s, c)| ==> c !in Split(s, c)[k]
    decreases |s|
  {
    var i := IndexOf(s, c);
    if i < |s| {
      SplitPiecesFree(s[i + 1..], c);
      assert c !in s[..i];
    }
  }

  /** Joining the pieces again gives back the input. */
  lemma {:induction false} JoinSplit(s: string, c: char)
    ensures Join(Split(s, c), c) == s
    decreases |s|
  {
    var i := IndexOf(s, c);
    if i < |s| {
      var rest := Split(s[i + 1..], c);
      var parts := [s[..i]] + rest;
      assert Split(s, c) == parts;
      assert |parts| >= 2 && parts[0] == s[..i] && parts[1..] == rest;
      assert Join(parts, c) == s[..i] + [c] + Join(rest, c);
      JoinSplit(s[i + 1..], c);
      assert s == s[..i] + [c] + s[i + 1..];
    }
  }

  /** There is one more piece than there are separators. */
  lemma {:induction false} SplitCount(s: string, c: char)
    ensures |Split(s, c)| == CountChar(s, c) + 1
    decreases |s|
  {
    var i := IndexOf(s, c);
    CountFree(s[..i], c);
    if i == |s| {
      assert s[..i] == s;
    } else {
      SplitCount(s[i + 1..], c);
      assert s == s[..i] + ([c] + s[i + 1..]);
      CountCharAppend(s[..i], [c] + s[i + 1..], c);
      assert ([c] + s[i + 1..])[1..] == s[i + 1..];
    }
  }

  lemma {:induction false} CountFree(s: string, c: char)
    requires forall j :: 0 <= j < |s| ==> s[j] != c
    ensures CountChar(s, c) == 0
  {
    if s != [] {
      CountFree(s[1..], c);
    }
  }

  /** Splitting a join of separator-free pieces gives back the pieces. */
  lemma {:induction false} SplitJoin(parts: seq<string>, c: char)
    requires |parts| >= 1
    requires forall k :: 0 <= k < |parts| ==> c !in parts[k]
    ensures Split(Join(parts, c), c) == parts
  {
    var s := Join(parts, c);
    if |parts| == 1 {
      assert c !in s;
    } else {
      var p := parts[0];
      var rest := Join(parts[1..], c);
      assert s == p + [c] + rest;
      var i := IndexOf(s, c);
      assert forall j :: 0 <= j < |p| ==> s[j] == p[j];
      assert c !in p;
      assert s[|p|] == c;
      assert i == |p|;
      assert s[..i] == p;
      assert s[i + 1..] == rest;
      SplitJoin(parts[1..], c);
    }
  }

  /** `p` is a prefix of `s`. */
  predicate StartsWith(s: string, p: string)
  {
    |p| <= |s| && s[..|p|] == p
  }

  /** `n` occurs in `s` starting at index `i`. */
  predicate OccursAt(s: string, n: string, i: int)
  {
    0 <= i <= |s| - |n| && s[i..i + |n|] == n
  }

  /** `s.includes(n)` (JavaScript) or `n in s` (Python). */
  function Contains(s: string, n: string): (r: bool)
    ensures r <==> exists i :: OccursAt(s, n, i)
    decreases |s|
  {
    if StartsWith(s, n) then
      assert OccursAt(s, n, 0);
      true
    else if |s| <= |n| then
      assert forall i :: OccursAt(s, n, i) ==> i == 0;
      false
    else
      var r := Contains(s[1..], n);
      OccursInTail(s, n);
      r
  }

  /** An occurrence after the first index is an occurrence in the tail. */
  lemma OccursInTail(s: string, n: string)
    requires s != []
    ensures forall i :: OccursAt(s, n, i) && i >= 1 ==> OccursAt(s[1..], n, i - 1)
    ensures forall i :: OccursAt(s[1..], n, i) ==> OccursAt(s, n, i + 1)
  {
    forall i | OccursAt(s, n, i) && i >= 1
      ensures OccursAt(s[1..], n, i - 1)
    {
      assert s[1..][i - 1..i - 1 + |n|] == s[i..i + |n|];
    }
    forall i | OccursAt(s[1..], n, i)
      ensures OccursAt(s, n, i + 1)
    {
      assert s[1..][i..i + |n|] == s[i + 1..i + 1 + |n|];
    }
  }

  /** ASCII upper-case letters map to lower case; every other character is kept. */
  function LowerChar(c: char): (r: char)
    ensures 'A' <= c <= 'Z' ==> 'a' <= r <= 'z'
    ensures !('A' <= c <= 'Z') ==> r == c
  {
    if 'A' <= c <= 'Z' then (c as int + 32) as char else c
  }

  function AsciiLower(s: string): (r: string)
    ensures |r| == |s|
    ensures forall i :: 0 <= i < |s| ==> r[i] == LowerChar(s[i])
  {
    if s == [] then [] else [LowerChar(s[0])] + AsciiLower(s[1..])
  }

  lemma {:induction false} AsciiLowerIdempotent(s: string)
    ensures AsciiLower(AsciiLower(s)) == AsciiLower(s)
  {
    var once := AsciiLower(s);
    var twice := AsciiLower(once);
    assert forall i :: 0 <= i < |s| ==> twice[i] == once[i];
  }

  /** Drops leading characters of `ws`. */
  function StripLeft(s: string, ws: set<char>): (r: string)
    ensures |r| <= |s| && r == s[|s| - |r|..]
    ensures forall j :: 0 <= j < |s| - |r| ==> s[j] in ws
    ensures r == [] || r[0] !in ws
  {
    if s != [] && s[0] in ws then
      var r := StripLeft(s[1..], ws);
      assert s[1..][|s| - 1 - |r|..] == s[|s| - |r|..];
      assert forall j :: 1 <= j < |s| - |r| ==> s[j] == s[1..][j - 1];
      r
    else s
  }

  /** Drops trailing characters of `ws`. */
  function StripRight(s: string, ws: set<char>): (r: string)
    ensures |r| <= |s| && r == s[..|r|]
    ensures forall j :: |r| <= j < |s| ==> s[j] in ws
    ensures r == [] || r[|r| - 1] !in ws
  {
    if s != [] && s[|s| - 1] in ws then
      var r := StripRight(s[..|s| - 1], ws);
      assert s[..|s| - 1][..|r|] == s[..|r|];
      assert forall j :: |r| <= j < |s| - 1 ==> s[j] == s[..|s| - 1][j];
      r
    else s
  }

  /** Drops leading and trailing characters of `ws`: JavaScript `trim` and
      Python `strip` once their whitespace sets are fixed. */
  function Strip(s: string, ws: set<char>): (r: string)
    ensures |r| <= |s|
    ensures r == [] || (r[0] !in ws && r[|r| - 1] !in ws)
  {
    StripRight(StripLeft(s, ws), ws)
  }

  lemma StripKeepsEdges(s: string, ws: set<char>)
    requires s == [] || (s[0] !in ws && s[|s| - 1] !in ws)
    ensures Strip(s, ws) == s
  {
  }

  /** Stripping twice is stripping once. */
  lemma StripIdempotent(s: string, ws: set<char>)
    ensures Strip(Strip(s, ws), ws) == Strip(s, ws)
  {
    StripKeepsEdges(Strip(s, ws), ws);
  }

  /** Stripping only removes characters: what is left is the slice of the
      input after the leading whitespace. */
  lemma StripIsSlice(s: string, ws: set<char>)
    ensures |s| - |StripLeft(s, ws)| + |Strip(s, ws)| <= |s|
    ensures Strip(s, ws) == s[|s| - |StripLeft(s, ws)|..|s| - |StripLeft(s, ws)| + |Strip(s, ws)|]
  {
    var l := StripLeft(s, ws);
    var r := StripRight(l, ws);
    var i := |s| - |l|;
    SliceOfSuffix(s, i, |r|);
  }

  lemma SliceOfSuffix(s: string, i: nat, n: nat)
    requires i + n <= |s|
    ensures s[i..][..n] == s[i..i + n]
  {
  }

  /** Every character left after stripping comes from the input. */
  lemma StripKeepsChars(s: string, ws: set<char>)
    ensures forall j :: 0 <= j < |Strip(s, ws)| ==> Strip(s, ws)[j] in s
  {
    StripIsSlice(s, ws);
    SliceChars(s, Strip(s, ws), |s| - |StripLeft(s, ws)|);
  }

  lemma SliceChars(s: string, t: string, i: nat)
    requires i + |t| <= |s| && t == s[i..i + |t|]
    ensures forall j :: 0 <= j < |t| ==> t[j] in s
  {
    forall j | 0 <= j < |t|
      ensures t[j] in s
    {
      assert t[j] == s[i + j];
    }
  }

  /** The stripped string is empty exactly when every character is whitespace. */
  lemma StripEmptyIff(s: string, ws: set<char>)
    ensures Strip(s, ws) == [] <==> forall j :: 0 <= j < |s| ==> s[j] in ws
  {
    var l := StripLeft(s, ws);
    if !forall j :: 0 <= j < |s| ==> s[j] in ws {
      var j :| 0 <= j < |s| && s[j] !in ws;
      assert j >= |s| - |l|;
      assert l[j - (|s| - |l|)] == s[j];
      var r := StripRight(l, ws);
      assert |r| > j - (|s| - |l|);
    }
  }

  function DigitChar(d: nat): (c: char)
    requires d < 10
    ensures '0' <= c <= '9'
  {
    ('0' as int + d) as char
  }

  /** JavaScript's rendering of a non-negative integer in a template literal. */
  function NatToString(n: nat): (r: string)
    ensures |r| >= 1
    ensures forall i :: 0 <= i < |r| ==> '0' <= r[i] <= '9'
  {
    if n < 10 then [DigitChar(n)] else NatToString(n / 10) + [DigitChar(n % 10)]
  }

  /** Value of a string of decimal digits. */
  function DigitsValue(s: string): nat
    requires forall i :: 0 <= i < |s| ==> '0' <= s[i] <= '9'
  {
    if s == [] then 0
    else DigitsValue(s[..|s| - 1]) * 10 + (s[|s| - 1] as int - '0' as int)
  }

  /** Rendering a natural in decimal loses nothing. */
  lemma {:induction false} NatToStringRoundTrip(n: nat)
    ensures DigitsValue(NatToString(n)) == n
  {
    if n >= 10 {
      NatToStringRoundTrip(n / 10);
      var r := NatToString(n);
      assert r[..|r| - 1] == NatToString(n / 10);
    }
  }
}
