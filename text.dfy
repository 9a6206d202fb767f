/** The JavaScript string operations the core relies on: `toLowerCase`, `trim`,
    `substring(0, n)`, `startsWith`, `replace` with a string pattern, `join`, and the
    decimal rendering of an index inside a template literal. Strings are sequences of
    characters; lengths count characters. */
module Text {
  import opened Wrappers

  /** The characters `String.prototype.trim` removes: ECMAScript white space and line terminators. */
  predicate IsSpace(c: char) {
    c == ' ' || c == '\t' || c == '\n' || c == '\r' || c == '\U{000B}' || c == '\U{000C}'
    || c == '\U{00A0}' || c == '\U{1680}' || ('\U{2000}' <= c <= '\U{200A}')
    || c == '\U{2028}' || c == '\U{2029}' || c == '\U{202F}' || c == '\U{205F}'
    || c == '\U{3000}' || c == '\U{FEFF}'
  }

  /** No character of `s` survives `trim`. */
  predicate IsBlank(s: string) {
    forall i :: 0 <= i < |s| ==> IsSpace(s[i])
  }

  /** `s` neither starts nor ends with a space. */
  predicate IsTrimmed(s: string) {
    s == [] || (!IsSpace(s[0]) && !IsSpace(s[|s| - 1]))
  }

  function LowerChar(c: char): char {
    if 'A' <= c <= 'Z' then (c as int + 32) as char else c
  }

  /** `toLowerCase`, on the ASCII letters. */
  function ToLower(s: string): (r: string)
    ensures |r| == |s|
    ensures forall i :: 0 <= i < |s| ==> r[i] == LowerChar(s[i])
  {
    seq(|s|, i requires 0 <= i < |s| => LowerChar(s[i]))
  }

  /** Number of spaces at the front of `s`. */
  function LeadingSpaces(s: string): (k: nat)
    ensures k <= |s|
  {
    if |s| > 0 && IsSpace(s[0]) then 1 + LeadingSpaces(s[1..]) else 0
  }

  /** The counted front characters are spaces, and the one after them is not. */
  lemma {:induction false} LeadingSpacesAreSpaces(s: string)
    ensures forall i :: 0 <= i < LeadingSpaces(s) ==> IsSpace(s[i])
    ensures LeadingSpaces(s) < |s| ==> !IsSpace(s[LeadingSpaces(s)])
  {
    if |s| > 0 && IsSpace(s[0]) {
      LeadingSpacesAreSpaces(s[1..]);
    }
  }

  /** Number of spaces at the end of `s`. */
  function TrailingSpaces(s: string): (k: nat)
    ensures k <= |s|
  {
    if |s| > 0 && IsSpace(s[|s| - 1]) then 1 + TrailingSpaces(s[..|s| - 1]) else 0
  }

  /** The counted back characters are spaces, and the one before them is not. */
  lemma {:induction false} TrailingSpacesAreSpaces(s: string)
    ensures forall i :: |s| - TrailingSpaces(s) <= i < |s| ==> IsSpace(s[i])
    ensures TrailingSpaces(s) < |s| ==> !IsSpace(s[|s| - 1 - TrailingSpaces(s)])
  {
    if |s| > 0 && IsSpace(s[|s| - 1]) {
      TrailingSpacesAreSpaces(s[..|s| - 1]);
    }
  }

  /** `trim`: drop the leading, then the trailing spaces. */
  function Trim(s: string): (r: string)
    ensures |r| <= |s|
  {
    var t := s[LeadingSpaces(s)..];
    t[..|t| - TrailingSpaces(t)]
  }

  /** `trim` leaves no space at either end. */
  lemma TrimmedResult(s: string)
    ensures IsTrimmed(Trim(s))
  {
    var t := s[LeadingSpaces(s)..];
    LeadingSpacesAreSpaces(s);
    TrailingSpacesAreSpaces(t);
    assert Trim(s) == t[..|t| - TrailingSpaces(t)];
  }

  /** Normalisation used when comparing answers: lower-case, then trim. */
  function Normalize(s: string): string {
    Trim(ToLower(s))
  }

  /** `trim` leaves a string that has no outer spaces as it is. */
  lemma TrimOfTrimmed(s: string)
    requires IsTrimmed(s)
    ensures Trim(s) == s
  {
    assert LeadingSpaces(s) == 0;
  }

  /** `trim` is idempotent. */
  lemma TrimIdempotent(s: string)
    ensures Trim(Trim(s)) == Trim(s)
  {
    TrimmedResult(s);
    TrimOfTrimmed(Trim(s));
  }

  /** `trim` yields the empty string exactly for blank input. */
  lemma {:induction false} TrimEmptyIffBlank(s: string)
    ensures Trim(s) == [] <==> IsBlank(s)
  {
    var k := LeadingSpaces(s);
    var t := s[k..];
    LeadingSpacesAreSpaces(s);
    TrailingSpacesAreSpaces(t);
    if !IsBlank(s) {
      var i :| 0 <= i < |s| && !IsSpace(s[i]);
      assert i >= k;
      assert t[i - k] == s[i];
      assert TrailingSpaces(t) < |t|;
    }
  }

  /** Every character of `Trim(s)` is a character of `s`, in the same order:
      `Trim(s)` is the slice of `s` from its first to its last non-space. */
  lemma TrimIsSlice(s: string) returns (a: nat, b: nat)
    ensures a <= b <= |s| && Trim(s) == s[a..b]
    ensures IsBlank(s[..a]) && IsBlank(s[b..])
  {
    var k := LeadingSpaces(s);
    var t := s[k..];
    var m := TrailingSpaces(t);
    LeadingSpacesAreSpaces(s);
    TrailingSpacesAreSpaces(t);
    a, b := k, k + |t| - m;
    assert Trim(s) == t[..|t| - m];
    assert t[..|t| - m] == s[a..b];
    forall i | 0 <= i < |s[b..]|
      ensures IsSpace(s[b..][i])
    {
      assert s[b..][i] == t[|t| - m + i];
    }
  }

  /** Lower-casing does not move spaces, so lower-case-then-trim is trim-then-lower-case. */
  lemma LowerCommutesWithTrim(s: string)
    ensures ToLower(Trim(s)) == Trim(ToLower(s))
  {
    var l := ToLower(s);
    LeadingSpacesLower(s);
    var k := LeadingSpaces(s);
    var t := s[k..];
    ToLowerDrop(s, k);
    TrailingSpacesLower(t);
    var m := |t| - TrailingSpaces(t);
    ToLowerTake(t, m);
    assert Trim(s) == t[..m];
    assert Trim(l) == ToLower(t)[..m];
  }

  lemma LowerCharKeepsSpace(c: char)
    ensures IsSpace(LowerChar(c)) == IsSpace(c)
  {
  }

  lemma ToLowerDrop(s: string, k: nat)
    requires k <= |s|
    ensures ToLower(s[k..]) == ToLower(s)[k..]
  {
  }

  lemma ToLowerTake(s: string, m: nat)
    requires m <= |s|
    ensures ToLower(s[..m]) == ToLower(s)[..m]
  {
  }

  lemma {:induction false} LeadingSpacesLower(s: string)
    ensures LeadingSpaces(ToLower(s)) == LeadingSpaces(s)
  {
    if |s| > 0 {
      LowerCharKeepsSpace(s[0]);
      assert IsSpace(ToLower(s)[0]) == IsSpace(s[0]);
      if IsSpace(s[0]) {
        ToLowerDrop(s, 1);
        LeadingSpacesLower(s[1..]);
      }
    }
  }

  lemma {:induction false} TrailingSpacesLower(s: string)
    ensures TrailingSpaces(ToLower(s)) == TrailingSpaces(s)
  {
    if |s| > 0 {
      var l := ToLower(s);
      LowerCharKeepsSpace(s[|s| - 1]);
      assert IsSpace(l[|l| - 1]) == IsSpace(s[|s| - 1]);
      if IsSpace(s[|s| - 1]) {
        ToLowerTake(s, |s| - 1);
        TrailingSpacesLower(s[..|s| - 1]);
      }
    }
  }

  /** Normalising twice is normalising once. */
  lemma NormalizeIdempotent(s: string)
    ensures Normalize(Normalize(s)) == Normalize(s)
  {
    var l := ToLower(s);
    ToLowerIdempotent(s);
    LowerCommutesWithTrim(l);
    TrimIdempotent(l);
  }

  /** Lower-casing twice is lower-casing once. */
  lemma ToLowerIdempotent(s: string)
    ensures ToLower(ToLower(s)) == ToLower(s)
  {
    var l := ToLower(s);
    forall i | 0 <= i < |s| ensures LowerChar(l[i]) == l[i] {
      LowerCharIdempotent(s[i]);
    }
  }

  lemma LowerCharIdempotent(c: char)
    ensures LowerChar(LowerChar(c)) == LowerChar(c)
  {
  }

  /** `substring(0, n)`: the first min(|s|, n) characters. */
  function Take(s: string, n: nat): (r: string)
    ensures |r| == if |s| <= n then |s| else n
    ensures r == s[..|r|]
  {
    if |s| <= n then s else s[..n]
  }

  predicate StartsWith(s: string, prefix: string) {
    |prefix| <= |s| && s[..|prefix|] == prefix
  }

  predicate OccursAt(s: string, pattern: string, k: nat) {
    k + |pattern| <= |s| && s[k..k + |pattern|] == pattern
  }

  /** `indexOf(pattern, from)`: the first position at or after `from` where `pattern` occurs. */
  function IndexOfFrom(s: string, pattern: string, from: nat): (r: Option<nat>)
    decreases |s| - from
    ensures r.Some? ==> from <= r.value && OccursAt(s, pattern, r.value)
    ensures r.Some? ==> forall j :: from <= j < r.value ==> !OccursAt(s, pattern, j)
    ensures r.None? ==> forall j :: from <= j ==> !OccursAt(s, pattern, j)
  {
    if from + |pattern| > |s| then None
    else if OccursAt(s, pattern, from) then Some(from)
    else IndexOfFrom(s, pattern, from + 1)
  }

  /** `replace(pattern, replacement)` with a string pattern: only the first occurrence is replaced. */
  function ReplaceFirst(s: string, pattern: string, replacement: string): string {
    match IndexOfFrom(s, pattern, 0)
    case None => s
    case Some(k) => s[..k] + replacement + s[k + |pattern|..]
  }

  /** Removing a prefix the string starts with by `replace(prefix, "")` leaves exactly the rest. */
  lemma ReplacePrefixWithEmpty(s: string, prefix: string)
    requires StartsWith(s, prefix)
    ensures ReplaceFirst(s, prefix, "") == s[|prefix|..]
  {
    assert OccursAt(s, prefix, 0);
  }

  /** `parts.join(sep)`. */
  function Join(parts: seq<string>, sep: string): string {
    if |parts| == 0 then ""
    else if |parts| == 1 then parts[0]
    else parts[0] + sep + Join(parts[1..], sep)
  }

  /** Joining one more part adds the separator and the part at the end. */
  lemma {:induction false} JoinSnoc(parts: seq<string>, last: string, sep: string)
    ensures Join(parts + [last], sep) == if parts == [] then last else Join(parts, sep) + sep + last
  {
    if |parts| > 1 {
      assert (parts + [last])[1..] == parts[1..] + [last];
      JoinSnoc(parts[1..], last, sep);
    } else if |parts| == 1 {
      assert (parts + [last])[1..] == [last];
    }
  }

  function DigitChar(d: nat): char
    requires d < 10
  {
    "0123456789"[d]
  }

  /** The decimal rendering of a natural number, as a template literal shows it. */
  function NatToString(n: nat): (r: string)
    ensures |r| > 0
    ensures forall i :: 0 <= i < |r| ==> '0' <= r[i] <= '9'
  {
    if n < 10 then [DigitChar(n)] else NatToString(n / 10) + [DigitChar(n % 10)]
  }

  /** The concatenation of `render(first + i, xs[i])` over the elements, in order. */
  function Numbered<T>(xs: seq<T>, first: nat, render: (nat, T) -> string): string {
    if xs == [] then "" else render(first, xs[0]) + Numbered(xs[1..], first + 1, render)
  }

  lemma {:induction false} NumberedAppend<T>(a: seq<T>, b: seq<T>, first: nat, render: (nat, T) -> string)
    ensures Numbered(a + b, first, render) == Numbered(a, first, render) + Numbered(b, first + |a|, render)
  {
    if a != [] {
      assert (a + b)[1..] == a[1..] + b;
      NumberedAppend(a[1..], b, first + 1, render);
    } else {
      assert a + b == b;
    }
  }

  /** Element `i` is rendered, with number `first + i`, between the elements before and after it. */
  lemma NumberedSplit<T>(xs: seq<T>, i: nat, first: nat, render: (nat, T) -> string)
    requires i < |xs|
    ensures Numbered(xs, first, render)
            == Numbered(xs[..i], first, render) + render(first + i, xs[i]) + Numbered(xs[i + 1..], first + i + 1, render)
  {
    assert xs == xs[..i] + xs[i..];
    NumberedAppend(xs[..i], xs[i..], first, render);
    assert xs[i..][1..] == xs[i + 1..];
  }

  /** The split of `NumberedSplit`, inside a fixed prefix and suffix. */
  lemma FramedSplit<T>(start: string, xs: seq<T>, end: string, i: nat, first: nat, render: (nat, T) -> string)
    requires i < |xs|
    ensures start + Numbered(xs, first, render) + end
            == start + Numbered(xs[..i], first, render) + render(first + i, xs[i])
               + Numbered(xs[i + 1..], first + i + 1, render) + end
  {
    NumberedSplit(xs, i, first, render);
  }

  /** One more rendered element after a fixed prefix. */
  lemma PrefixedStep<T>(start: string, xs: seq<T>, k: nat, first: nat, render: (nat, T) -> string)
    requires k < |xs|
    ensures start + Numbered(xs[..k + 1], first, render) == start + Numbered(xs[..k], first, render) + render(first + k, xs[k])
  {
    NumberedStep(xs, k, first, render);
  }

  /** Rendering one more element adds its text at the end. */
  lemma NumberedStep<T>(xs: seq<T>, k: nat, first: nat, render: (nat, T) -> string)
    requires k < |xs|
    ensures Numbered(xs[..k + 1], first, render) == Numbered(xs[..k], first, render) + render(first + k, xs[k])
  {
    assert xs[..k + 1] == xs[..k] + [xs[k]];
    NumberedAppend(xs[..k], [xs[k]], first, render);
    assert Numbered([xs[k]], first + k, render) == render(first + k, xs[k]) + Numbered([], first + k + 1, render);
  }
}
