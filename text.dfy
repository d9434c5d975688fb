/** Sequence and string operations the Rust code gets from `str` and slices:
    `trim`, `to_lowercase`, `starts_with`, `ends_with`, `contains`, `find`,
    `split`, `join`, `replace`, `trim_start_matches`, `trim_end_matches` and
    integer formatting. */
module Text {
  import opened Wrappers

  /** `char::is_whitespace`: the Unicode White_Space property, code point by code point. */
  predicate IsWhitespace(c: char) {
    c == ' ' || ('\t' <= c <= '\r') || c == '\U{85}' || c == '\U{A0}' || c == '\U{1680}'
    || ('\U{2000}' <= c <= '\U{200A}') || c == '\U{2028}' || c == '\U{2029}'
    || c == '\U{202F}' || c == '\U{205F}' || c == '\U{3000}'
  }

  /** Neither end of `s` is whitespace: what trimming leaves. */
  predicate Trimmed(s: string) {
    s == [] || (!IsWhitespace(s[0]) && !IsWhitespace(s[|s| - 1]))
  }

  /** Every character of `s` is whitespace (the empty string included). */
  predicate IsBlank(s: string) {
    forall i :: 0 <= i < |s| ==> IsWhitespace(s[i])
  }

  /** `str::trim_start`: `s` without its leading whitespace. */
  function TrimStart(s: string): (r: string)
    ensures |r| <= |s| && r == s[|s| - |r|..]
    ensures r != [] ==> !IsWhitespace(r[0])
    ensures IsBlank(s[..|s| - |r|])
  {
    if s != [] && IsWhitespace(s[0]) then
      var tail := s[1..];
      var r := TrimStart(tail);
      assert r == s[|s| - |r|..];
      assert s[..|s| - |r|] == [s[0]] + tail[..|tail| - |r|];
      BlankPrepend(s[0], tail[..|tail| - |r|]);
      r
    else
      assert s[..0] == [];
      s
  }

  lemma BlankPrepend(c: char, a: string)
    requires IsWhitespace(c) && IsBlank(a)
    ensures IsBlank([c] + a)
  {
    forall i | 0 <= i < |[c] + a|
      ensures IsWhitespace(([c] + a)[i])
    {
      if i > 0 {
        assert ([c] + a)[i] == a[i - 1];
      }
    }
  }

  lemma BlankAppend(a: string, c: char)
    requires IsBlank(a) && IsWhitespace(c)
    ensures IsBlank(a + [c])
  {
    forall i | 0 <= i < |a + [c]|
      ensures IsWhitespace((a + [c])[i])
    {
      if i < |a| {
        assert (a + [c])[i] == a[i];
      }
    }
  }

  /** `str::trim_end`: `s` without its trailing whitespace. */
  function TrimEnd(s: string): (r: string)
    ensures |r| <= |s| && r == s[..|r|]
    ensures r != [] ==> !IsWhitespace(r[|r| - 1])
    ensures IsBlank(s[|r|..])
  {
    if s != [] && IsWhitespace(s[|s| - 1]) then
      var init := s[..|s| - 1];
      var r := TrimEnd(init);
      assert r == s[..|r|];
      assert s[|r|..] == init[|r|..] + [s[|s| - 1]];
      BlankAppend(init[|r|..], s[|s| - 1]);
      r
    else
      assert s[|s|..] == [];
      s
  }

  /** `str::trim`: the longest slice of `s` that neither starts nor ends with whitespace. */
  function Trim(s: string): (r: string)
    ensures exists i :: OccursAt(s, r, i)
    ensures Trimmed(r)
  {
    var t := TrimStart(s);
    var r := TrimEnd(t);
    TrimBothEnds(s, t, r);
    r
  }

  lemma TrimBothEnds(s: string, t: string, r: string)
    requires |t| <= |s| && t == s[|s| - |t|..] && (t != [] ==> !IsWhitespace(t[0]))
    requires |r| <= |t| && r == t[..|r|] && (r != [] ==> !IsWhitespace(r[|r| - 1]))
    ensures OccursAt(s, r, |s| - |t|)
    ensures Trimmed(r)
  {
    var k := |s| - |t|;
    assert s[k..k + |r|] == r;
    if r != [] {
      assert r[0] == t[0];
    }
  }

  lemma TrimEmptyIffBlank(s: string)
    ensures Trim(s) == [] <==> IsBlank(s)
  {
    var t := TrimStart(s);
    if Trim(s) == [] {
      assert IsBlank(s[..|s| - |t|]) && IsBlank(t);
      assert s == s[..|s| - |t|] + t;
    }
  }

  lemma TrimIdempotent(s: string)
    ensures Trim(Trim(s)) == Trim(s)
  {
    var r := Trim(s);
    if r != [] {
      assert TrimStart(r) == r;
      assert TrimEnd(r) == r;
    }
  }

  /** Leading blanks before a string that starts with a non-blank are what `trim_start` removes. */
  lemma {:induction false} TrimStartBlank(w: string, x: string)
    requires IsBlank(w) && (x == [] || !IsWhitespace(x[0]))
    ensures TrimStart(w + x) == x
  {
    if w == [] {
      assert w + x == x;
    } else {
      assert (w + x)[0] == w[0];
      assert (w + x)[1..] == w[1..] + x;
      TrimStartBlank(w[1..], x);
    }
  }

  /** Trailing blanks after a string that ends with a non-blank are what `trim_end` removes. */
  lemma {:induction false} TrimEndBlank(x: string, w: string)
    requires IsBlank(w) && (x == [] || !IsWhitespace(x[|x| - 1]))
    ensures TrimEnd(x + w) == x
  {
    if w == [] {
      assert x + w == x;
    } else {
      assert (x + w)[|x + w| - 1] == w[|w| - 1];
      assert (x + w)[..|x + w| - 1] == x + w[..|w| - 1];
      TrimEndBlank(x, w[..|w| - 1]);
    }
  }

  /** `trim` gives back a non-empty string with no blanks at its ends from
      between any blanks. */
  lemma TrimAround(w1: string, b: string, w2: string)
    requires IsBlank(w1) && IsBlank(w2)
    requires b != [] && !IsWhitespace(b[0]) && !IsWhitespace(b[|b| - 1])
    ensures Trim(w1 + b + w2) == b
  {
    assert w1 + b + w2 == w1 + (b + w2);
    TrimStartBlank(w1, b + w2);
    TrimEndBlank(b, w2);
  }

  /** ASCII lowercasing of one character. */
  function LowerChar(c: char): char {
    if 'A' <= c <= 'Z' then (c as int + 32) as char else c
  }

  /** `str::to_lowercase`, restricted to ASCII letters (other characters are kept). */
  function ToLower(s: string): (r: string)
    ensures |r| == |s| && forall i :: 0 <= i < |s| ==> r[i] == LowerChar(s[i])
  {
    seq(|s|, i requires 0 <= i < |s| => LowerChar(s[i]))
  }

  /** `s.trim().to_lowercase()`, the normalisation of provider names and intent aliases. */
  function TrimLower(p: string): (r: string)
    ensures |r| <= |p|
    ensures Trimmed(r)
    ensures forall i :: 0 <= i < |r| ==> !('A' <= r[i] <= 'Z')
  {
    var t := Trim(p);
    var r := ToLower(t);
    LowerPreservesWhitespace(t);
    r
  }

  /** Lowercasing keeps whitespace where it was and leaves no capital letter. */
  lemma LowerPreservesWhitespace(t: string)
    ensures forall i :: 0 <= i < |t| ==> (IsWhitespace(ToLower(t)[i]) <==> IsWhitespace(t[i]))
    ensures forall i :: 0 <= i < |t| ==> !('A' <= ToLower(t)[i] <= 'Z')
  {
    forall i | 0 <= i < |t|
      ensures IsWhitespace(ToLower(t)[i]) <==> IsWhitespace(t[i])
      ensures !('A' <= ToLower(t)[i] <= 'Z')
    {
      var c := t[i];
      if 'A' <= c <= 'Z' {
        assert ToLower(t)[i] as int == c as int + 32;
      }
    }
  }

  /** A string with no surrounding blanks and no capitals is its own normal form. */
  lemma TrimLowerFixed(p: string)
    requires Trimmed(p)
    requires forall i :: 0 <= i < |p| ==> !('A' <= p[i] <= 'Z')
    ensures TrimLower(p) == p
  {
    assert TrimStart(p) == p;
    assert TrimEnd(p) == p;
    assert ToLower(p) == p;
  }

  /** Normalising twice is normalising once. */
  lemma TrimLowerIdempotent(p: string)
    ensures TrimLower(TrimLower(p)) == TrimLower(p)
  {
    TrimLowerFixed(TrimLower(p));
  }

  /** `sub` stands at position `k` of `s`. */
  predicate OccursAt<T(==)>(s: seq<T>, sub: seq<T>, k: int) {
    0 <= k && k + |sub| <= |s| && s[k..k + |sub|] == sub
  }

  /** `starts_with`. */
  predicate StartsWith<T(==)>(s: seq<T>, p: seq<T>) {
    OccursAt(s, p, 0)
  }

  /** `ends_with`. */
  predicate EndsWith<T(==)>(s: seq<T>, q: seq<T>) {
    OccursAt(s, q, |s| - |q|)
  }

  /** The first position at or after `i` where `sub` occurs in `s`. */
  function IndexFrom<T(==)>(s: seq<T>, sub: seq<T>, i: nat): (r: Option<nat>)
    requires i <= |s|
    ensures r.Some? ==> i <= r.value && OccursAt(s, sub, r.value)
    ensures r.Some? ==> forall k :: i <= k < r.value ==> !OccursAt(s, sub, k)
    ensures r.None? ==> forall k :: i <= k ==> !OccursAt(s, sub, k)
    decreases |s| - i
  {
    if OccursAt(s, sub, i) then Some(i)
    else if i == |s| then None
    else IndexFrom(s, sub, i + 1)
  }

  /** `find`: the first position of `sub` in `s`. */
  function IndexOf<T(==)>(s: seq<T>, sub: seq<T>): Option<nat> {
    IndexFrom(s, sub, 0)
  }

  /** `contains`. */
  predicate Contains<T(==)>(s: seq<T>, sub: seq<T>) {
    IndexOf(s, sub).Some?
  }

  lemma ContainsIffOccurs<T>(s: seq<T>, sub: seq<T>)
    ensures Contains(s, sub) <==> exists k :: OccursAt(s, sub, k)
  {
  }

  /** `split(sep)`: the pieces between the non-overlapping occurrences of `sep`, left to right. */
  function Split<T(==)>(s: seq<T>, sep: seq<T>): (parts: seq<seq<T>>)
    requires |sep| > 0
    ensures |parts| >= 1
    decreases |s|
  {
    match IndexOf(s, sep)
    case None => [s]
    case Some(i) => [s[..i]] + Split(s[i + |sep|..], sep)
  }

  /** `join(sep)`. */
  function Join<T>(parts: seq<seq<T>>, sep: seq<T>): seq<T> {
    if |parts| == 0 then []
    else if |parts| == 1 then parts[0]
    else parts[0] + sep + Join(parts[1..], sep)
  }

  /** Splitting loses nothing: joining the pieces with the separator gives the input back. */
  lemma {:induction false} JoinSplit<T>(s: seq<T>, sep: seq<T>)
    requires |sep| > 0
    ensures Join(Split(s, sep), sep) == s
    decreases |s|
  {
    match IndexOf(s, sep)
    case None =>
    case Some(i) =>
      var rest := s[i + |sep|..];
      var parts := Split(s, sep);
      assert parts == [s[..i]] + Split(rest, sep);
      assert parts[1..] == Split(rest, sep);
      JoinSplit(rest, sep);
      assert Join(parts, sep) == s[..i] + sep + Join(parts[1..], sep);
      assert s == s[..i] + s[i..i + |sep|] + rest;
  }

  lemma JoinCons<T>(x: seq<T>, rest: seq<seq<T>>, sep: seq<T>)
    requires |rest| >= 1
    ensures Join([x] + rest, sep) == x + sep + Join(rest, sep)
  {
    assert ([x] + rest)[1..] == rest;
  }

  /** Joining one more piece at the end adds the separator and that piece. */
  lemma {:induction false} JoinSnoc<T>(parts: seq<seq<T>>, x: seq<T>, sep: seq<T>)
    requires |parts| >= 1
    ensures Join(parts + [x], sep) == Join(parts, sep) + sep + x
    decreases |parts|
  {
    if |parts| == 1 {
      assert (parts + [x])[1..] == [x];
    } else {
      JoinSnoc(parts[1..], x, sep);
      assert (parts + [x])[1..] == parts[1..] + [x];
    }
  }

  /** A join of two or more pieces opens with the first piece and a separator
      and closes with a separator and the last piece. */
  lemma JoinEnds<T>(parts: seq<seq<T>>, sep: seq<T>)
    requires |parts| >= 2
    ensures StartsWith(Join(parts, sep), parts[0] + sep)
    ensures EndsWith(Join(parts, sep), sep + parts[|parts| - 1])
  {
    var j := Join(parts, sep);
    var n := |parts|;
    assert parts == [parts[0]] + parts[1..];
    JoinCons(parts[0], parts[1..], sep);
    assert j[..|parts[0] + sep|] == parts[0] + sep;
    assert parts == parts[..n - 1] + [parts[n - 1]];
    JoinSnoc(parts[..n - 1], parts[n - 1], sep);
    assert j[|j| - |sep + parts[n - 1]|..] == sep + parts[n - 1];
  }

  /** No piece of a split contains the separator. */
  lemma {:induction false} SplitPiecesAvoidSeparator<T>(s: seq<T>, sep: seq<T>, j: nat)
    requires |sep| > 0 && j < |Split(s, sep)|
    ensures !Contains(Split(s, sep)[j], sep)
    decreases |s|
  {
    match IndexOf(s, sep)
    case None =>
    case Some(i) =>
      var rest := s[i + |sep|..];
      assert Split(s, sep) == [s[..i]] + Split(rest, sep);
      if j == 0 {
        forall k | OccursAt(s[..i], sep, k)
          ensures false
        {
          SliceOfPrefix(s, i, k, |sep|);
          assert OccursAt(s, sep, k);
        }
      } else {
        assert Split(s, sep)[j] == Split(rest, sep)[j - 1];
        SplitPiecesAvoidSeparator(rest, sep, j - 1);
      }
  }

  lemma SliceOfPrefix<T>(s: seq<T>, i: nat, k: nat, n: nat)
    requires k + n <= i <= |s|
    ensures s[..i][k..k + n] == s[k..k + n]
  {
    var x, y := s[..i][k..k + n], s[k..k + n];
    assert forall m :: 0 <= m < n ==> x[m] == y[m];
  }

  /** With a one-element separator that no piece contains, splitting undoes joining. */
  lemma {:induction false} SplitJoinSingle<T>(parts: seq<seq<T>>, x: T)
    requires |parts| >= 1
    requires forall j :: 0 <= j < |parts| ==> x !in parts[j]
    ensures Split(Join(parts, [x]), [x]) == parts
  {
    var s := Join(parts, [x]);
    if |parts| == 1 {
      NotInMeansNoOccurrence(parts[0], [], x);
      assert parts[0] + [] == parts[0];
    } else {
      var rest := Join(parts[1..], [x]);
      var p := parts[0];
      assert s == p + ([x] + rest);
      NotInMeansNoOccurrence(p, [x] + rest, x);
      assert OccursAt(s, [x], |p|);
      assert IndexOf(s, [x]) == Some(|p|);
      assert s[..|p|] == p;
      assert s[|p| + 1..] == rest;
      SplitJoinSingle(parts[1..], x);
    }
  }

  lemma NotInMeansNoOccurrence<T>(p: seq<T>, tail: seq<T>, x: T)
    requires x !in p
    ensures forall k :: 0 <= k < |p| ==> !OccursAt(p + tail, [x], k)
  {
    forall k | 0 <= k < |p|
      ensures !OccursAt(p + tail, [x], k)
    {
      assert (p + tail)[k..k + 1] == [p[k]];
    }
  }

  /** `replace(from, to)` for a non-empty pattern: every non-overlapping occurrence, left to right. */
  function Replace<T(==)>(s: seq<T>, from: seq<T>, to: seq<T>): seq<T>
    requires |from| > 0
  {
    Join(Split(s, from), to)
  }

  /** `trim_start_matches(p)`: strips `p` from the front as many times as it occurs there. */
  function TrimStartMatches<T(==)>(s: seq<T>, p: seq<T>): (r: seq<T>)
    requires |p| > 0
    ensures |r| <= |s| && r == s[|s| - |r|..]
    ensures !StartsWith(r, p)
    decreases |s|
  {
    if StartsWith(s, p) then TrimStartMatches(s[|p|..], p) else s
  }

  /** A string put between two others occurs there, right after the first. */
  lemma ConcatOccurs<T>(a: seq<T>, m: seq<T>, z: seq<T>)
    ensures StartsWith(a + m + z, a) && OccursAt(a + m + z, m, |a|) && EndsWith(a + m + z, z)
  {
    var s := a + m + z;
    assert s[..|a|] == a;
    assert s[|a|..|a| + |m|] == m;
    assert s[|s| - |z|..] == z;
  }

  /** One copy of `p` in front of a string that does not start with `p` is all `trim_start_matches` removes. */
  lemma StripPrefixOnce<T>(p: seq<T>, rest: seq<T>)
    requires |p| > 0 && !StartsWith(rest, p)
    ensures TrimStartMatches(p + rest, p) == rest
  {
    ConcatOccurs(p, rest, []);
    assert p + rest + [] == p + rest;
    assert (p + rest)[|p|..] == rest;
  }

  /** `trim_end_matches` counterpart of StripPrefixOnce. */
  lemma StripSuffixOnce<T>(init: seq<T>, p: seq<T>)
    requires |p| > 0 && !EndsWith(init, p)
    ensures TrimEndMatches(init + p, p) == init
  {
    ConcatOccurs(init, p, []);
    assert init + p + [] == init + p;
    assert (init + p)[..|init + p| - |p|] == init;
  }

  /** `trim_end_matches(p)`: strips `p` from the back as many times as it occurs there. */
  function TrimEndMatches<T(==)>(s: seq<T>, p: seq<T>): (r: seq<T>)
    requires |p| > 0
    ensures |r| <= |s| && r == s[..|r|]
    ensures !EndsWith(r, p)
    decreases |s|
  {
    if EndsWith(s, p) then TrimEndMatches(s[..|s| - |p|], p) else s
  }

  /** The decimal digit for `d`. */
  function DigitChar(d: nat): char
    requires d < 10
  {
    ('0' as int + d) as char
  }

  /** `Display` of a non-negative integer. */
  function NatToDecimal(n: nat): (r: string)
    ensures |r| >= 1 && forall i :: 0 <= i < |r| ==> '0' <= r[i] <= '9'
  {
    if n < 10 then [DigitChar(n)] else NatToDecimal(n / 10) + [DigitChar(n % 10)]
  }

  /** `Display` of an integer: a minus sign before the digits when negative. */
  function IntToDecimal(n: int): (r: string)
    ensures forall i :: 0 <= i < |r| ==> r[i] == '-' || '0' <= r[i] <= '9'
  {
    if n < 0 then "-" + NatToDecimal(-n) else NatToDecimal(n)
  }

  /** The value written by `NatToDecimal`. */
  function DecimalValue(s: string): int
    decreases |s|
  {
    if s == [] then 0 else DecimalValue(s[..|s| - 1]) * 10 + (s[|s| - 1] as int - '0' as int)
  }

  lemma {:induction false} DecimalRoundTrip(n: nat)
    ensures DecimalValue(NatToDecimal(n)) == n
  {
    var s := NatToDecimal(n);
    if n < 10 {
      assert s[..|s| - 1] == [];
    } else {
      assert s[..|s| - 1] == NatToDecimal(n / 10);
      DecimalRoundTrip(n / 10);
      assert DecimalValue(s) == (n / 10) * 10 + n % 10;
    }
  }
}
