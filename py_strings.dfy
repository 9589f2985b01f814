/**
 * The parts of Python's `str` that the transcript code relies on: `isspace`,
 * `strip`, `split()`, `split(sep)`, `split(sep, maxsplit)`, `rsplit(sep, 1)`,
 * `join`, ASCII `lower` and the decimal rendering of an `int`.
 */
module PyStrings {
  import opened Wrappers

  /** The characters `str.isspace` accepts, which `split()` and `strip()` remove. */
  predicate IsSpace(c: char) {
    || c in {' ', '\t', '\n', '\r', '\U{000B}', '\U{000C}', '\U{001C}', '\U{001D}', '\U{001E}', '\U{001F}'}
    || c in {'\U{0085}', '\U{00A0}', '\U{1680}', '\U{2028}', '\U{2029}', '\U{202F}', '\U{205F}', '\U{3000}'}
    || '\U{2000}' <= c <= '\U{200A}'
  }

  /** No whitespace anywhere in `s`. */
  predicate NoSpace(s: string) {
    forall i :: 0 <= i < |s| ==> !IsSpace(s[i])
  }

  /** `not s.strip()`: `s` is empty or whitespace only. */
  predicate IsBlank(s: string) {
    forall i :: 0 <= i < |s| ==> IsSpace(s[i])
  }

  // ---------------------------------------------------------------- strip

  function LStrip(s: string): (r: string)
    ensures |r| <= |s| && r == s[|s| - |r|..]
    ensures forall i :: 0 <= i < |s| - |r| ==> IsSpace(s[i])
    ensures r != [] ==> !IsSpace(r[0])
  {
    if s != [] && IsSpace(s[0]) then LStrip(s[1..]) else s
  }

  function RStrip(s: string): (r: string)
    ensures |r| <= |s| && r == s[..|r|]
    ensures forall i :: |r| <= i < |s| ==> IsSpace(s[i])
    ensures r != [] ==> !IsSpace(r[|r| - 1])
  {
    if s != [] && IsSpace(s[|s| - 1]) then RStrip(s[..|s| - 1]) else s
  }

  /** `s.strip()` */
  function Strip(s: string): string {
    RStrip(LStrip(s))
  }

  lemma StripEmptyIffBlank(s: string)
    ensures Strip(s) == [] <==> IsBlank(s)
  {
    var l := LStrip(s);
    assert l != [] ==> l[0] == s[|s| - |l|];
    forall i | 0 <= i < |s| && |s| - |l| <= i
      ensures s[i] == l[i - (|s| - |l|)]
    {
    }
  }

  /** Text that begins and ends with a non-whitespace character is left alone by `strip`. */
  lemma StripUnchanged(s: string)
    requires s != [] && !IsSpace(s[0]) && !IsSpace(s[|s| - 1])
    ensures Strip(s) == s
  {
  }

  // ------------------------------------------------------- split() on whitespace

  /** Length of the leading run of non-whitespace characters. */
  function TokenEnd(s: string): (n: nat)
    ensures n <= |s|
    ensures forall i :: 0 <= i < n ==> !IsSpace(s[i])
    ensures n < |s| ==> IsSpace(s[n])
  {
    if s == [] || IsSpace(s[0]) then 0 else 1 + TokenEnd(s[1..])
  }

  /** `s.split()`: the maximal runs of non-whitespace, in order. */
  function Words(s: string): (r: seq<string>)
    ensures forall i :: 0 <= i < |r| ==> r[i] != [] && NoSpace(r[i])
    decreases |s|
  {
    if s == [] then []
    else if IsSpace(s[0]) then Words(s[1..])
    else
      var n := TokenEnd(s);
      [s[..n]] + Words(s[n..])
  }

  lemma {:induction false} WordsOfBlank(s: string)
    requires IsBlank(s)
    ensures Words(s) == []
    decreases |s|
  {
    if s != [] {
      WordsOfBlank(s[1..]);
    }
  }

  // ------------------------------------------------------------ split(sep)

  /** Index of the first `c` in `s`. */
  function Find(s: string, c: char): (i: nat)
    requires c in s
    ensures i < |s| && s[i] == c
    ensures forall j :: 0 <= j < i ==> s[j] != c
  {
    if s[0] == c then 0 else 1 + Find(s[1..], c)
  }

  lemma FindAfterPrefix(p: string, c: char, rest: string)
    requires c !in p
    ensures c in p + [c] + rest && Find(p + [c] + rest, c) == |p|
  {
    var s := p + [c] + rest;
    assert s[|p|] == c;
    assert forall j :: 0 <= j < |p| ==> s[j] == p[j];
  }

  /** `s.split(sep)` for a one-character separator: never empty, keeps empty fields. */
  function Split(s: string, sep: char): (parts: seq<string>)
    ensures |parts| >= 1
    ensures forall i :: 0 <= i < |parts| ==> sep !in parts[i]
    decreases |s|
  {
    if sep !in s then [s]
    else
      var i := Find(s, sep);
      [s[..i]] + Split(s[i + 1..], sep)
  }

  /** `s.split(sep, maxsplit)` for a one-character separator. */
  function SplitMax(s: string, sep: char, maxsplit: nat): (parts: seq<string>)
    ensures 1 <= |parts| <= maxsplit + 1
    ensures forall i :: 0 <= i < |parts| - 1 ==> sep !in parts[i]
    decreases maxsplit
  {
    if maxsplit == 0 || sep !in s then [s]
    else
      var i := Find(s, sep);
      [s[..i]] + SplitMax(s[i + 1..], sep, maxsplit - 1)
  }

  /** `sep.join(parts)` */
  function Join(parts: seq<string>, sep: string): string {
    if |parts| == 0 then ""
    else if |parts| == 1 then parts[0]
    else parts[0] + sep + Join(parts[1..], sep)
  }

  /** One step of `split(sep)` past a separator-free first field. */
  lemma SplitStep(p: string, sep: char, rest: string)
    requires sep !in p
    ensures Split(p + [sep] + rest, sep) == [p] + Split(rest, sep)
  {
    var s := p + [sep] + rest;
    FindAfterPrefix(p, sep, rest);
    assert s[..|p|] == p;
    assert s[|p| + 1..] == rest;
  }

  /** One step of `sep.join(...)` over at least two parts. */
  lemma JoinCons(a: string, rest: seq<string>, sep: string)
    requires |rest| >= 1
    ensures Join([a] + rest, sep) == a + sep + Join(rest, sep)
  {
    assert ([a] + rest)[1..] == rest;
  }

  /** Splitting undoes joining when no part contains the separator. */
  lemma {:induction false} SplitJoin(parts: seq<string>, sep: char)
    requires |parts| >= 1
    requires forall i :: 0 <= i < |parts| ==> sep !in parts[i]
    ensures Split(Join(parts, [sep]), sep) == parts
    decreases |parts|
  {
    if |parts| > 1 {
      var p0, tail := parts[0], parts[1..];
      assert parts == [p0] + tail;
      JoinCons(p0, tail, [sep]);
      SplitJoin(tail, sep);
      SplitStep(p0, sep, Join(tail, [sep]));
    }
  }

  /** `s` around its first `sep`, and the split that follows from it. */
  lemma SplitAtFirst(s: string, sep: char)
    requires sep in s
    ensures var i := Find(s, sep);
      && s == s[..i] + [sep] + s[i + 1..]
      && Split(s, sep) == [s[..i]] + Split(s[i + 1..], sep)
  {
    var i := Find(s, sep);
    assert s == s[..i] + [sep] + s[i + 1..];
  }

  /** Joining undoes splitting. */
  lemma {:induction false} JoinSplit(s: string, sep: char)
    ensures Join(Split(s, sep), [sep]) == s
    decreases |s|
  {
    if sep in s {
      var i := Find(s, sep);
      var head, tail := s[..i], s[i + 1..];
      SplitAtFirst(s, sep);
      JoinSplit(tail, sep);
      JoinCons(head, Split(tail, sep), [sep]);
    }
  }

  /** One step of `split(sep, n)` past a separator-free first field. */
  lemma SplitMaxStep(p: string, sep: char, rest: string, n: nat)
    requires sep !in p
    ensures SplitMax(p + [sep] + rest, sep, n + 1) == [p] + SplitMax(rest, sep, n)
  {
    var s := p + [sep] + rest;
    FindAfterPrefix(p, sep, rest);
    assert s[..|p|] == p;
    assert s[|p| + 1..] == rest;
  }

  // ------------------------------------------------------- rsplit(d, 1)

  predicate OccursAt(s: string, d: string, k: nat) {
    k + |d| <= |s| && s[k..k + |d|] == d
  }

  /** `s.rfind(d)` for a non-empty `d`. */
  function LastIndexOf(s: string, d: string): (r: Option<nat>)
    requires d != []
    ensures r.Some? ==> OccursAt(s, d, r.value)
    ensures forall k: nat :: OccursAt(s, d, k) ==> r.Some? && k <= r.value
    decreases |s|
  {
    if |s| < |d| then None
    else if s[|s| - |d|..] == d then Some(|s| - |d|)
    else
      var r := LastIndexOf(s[..|s| - 1], d);
      assert forall k: nat :: OccursAt(s, d, k) ==> OccursAt(s[..|s| - 1], d, k) by {
        forall k: nat | OccursAt(s, d, k) ensures OccursAt(s[..|s| - 1], d, k) {
          assert k + |d| < |s|;
          assert s[..|s| - 1][k..k + |d|] == s[k..k + |d|];
        }
      }
      if r.Some? then
        assert s[..|s| - 1][r.value..r.value + |d|] == s[r.value..r.value + |d|];
        r
      else r
  }

  /** `s.rsplit(d, 1)`: split at the last occurrence of `d`, if any. */
  function RSplitOnce(s: string, d: string): (parts: seq<string>)
    requires d != []
    ensures |parts| == 1 ==> parts == [s] && forall k: nat :: !OccursAt(s, d, k)
    ensures |parts| == 2 ==> s == parts[0] + d + parts[1]
    ensures |parts| == 2 ==> forall k: nat :: OccursAt(s, d, k) ==> k <= |parts[0]|
    ensures |parts| == 1 || |parts| == 2
  {
    match LastIndexOf(s, d)
    case None => [s]
    case Some(k) =>
      assert s == s[..k] + d + s[k + |d|..];
      [s[..k], s[k + |d|..]]
  }

  /** The two halves of a split, read back as prefix and suffix of `s`. */
  lemma RSplitHalves(s: string, d: string)
    requires d != [] && |RSplitOnce(s, d)| == 2
    ensures var h := RSplitOnce(s, d);
      && OccursAt(s, d, |h[0]|)
      && h[0] + d <= s
      && s[|h[0]| + |d|..] == h[1]
  {
    var h := RSplitOnce(s, d);
    assert s == h[0] + d + h[1];
    assert s[|h[0]|..|h[0]| + |d|] == d;
    assert s[..|h[0]| + |d|] == h[0] + d;
  }

  /**
   * When the delimiter starts with the only space it contains and the tail has
   * no space, the last occurrence of the delimiter is the one before the tail,
   * whatever the head contains.
   */
  lemma RSplitBeforeTail(head: string, d: string, tail: string)
    requires d != [] && d[0] == ' '
    requires forall i :: 1 <= i < |d| ==> d[i] != ' '
    requires ' ' !in tail
    ensures RSplitOnce(head + d + tail, d) == [head, tail]
  {
    var s := head + d + tail;
    assert s[|head|..|head| + |d|] == d;
    assert OccursAt(s, d, |head|);
    forall j | |head| < j < |s|
      ensures s[j] != ' '
    {
      if j < |head| + |d| {
        assert s[j] == d[j - |head|];
      } else {
        assert s[j] == tail[j - |head| - |d|];
      }
    }
    var k := LastIndexOf(s, d).value;
    assert s[k] == s[k..k + |d|][0];
    assert s[..k] == head;
    assert s[k + |d|..] == tail;
  }

  // ---------------------------------------------------------------- lower

  /** `str.lower` restricted to ASCII letters; other characters are kept. */
  function LowerChar(c: char): char {
    if 'A' <= c <= 'Z' then (c as int + 32) as char else c
  }

  function Lower(s: string): (r: string)
    ensures |r| == |s|
  {
    seq(|s|, i requires 0 <= i < |s| => LowerChar(s[i]))
  }

  // ---------------------------------------------------------- str(int)

  function DigitChar(d: nat): char
    requires d < 10
  {
    "0123456789"[d]
  }

  predicate AllDigits(s: string) {
    forall i :: 0 <= i < |s| ==> '0' <= s[i] <= '9'
  }

  /** `str(n)` for a non-negative `int`. */
  function NatToString(n: nat): (s: string)
    ensures s != [] && AllDigits(s)
  {
    if n < 10 then [DigitChar(n)] else NatToString(n / 10) + [DigitChar(n % 10)]
  }

  /** `int(s)` for a string of decimal digits. */
  function DigitsValue(s: string): nat
    requires AllDigits(s)
  {
    if s == [] then 0 else DigitsValue(s[..|s| - 1]) * 10 + (s[|s| - 1] as int - '0' as int)
  }

  /** The rendered count reads back as the same number. */
  lemma {:induction false} NatToStringRoundTrip(n: nat)
    ensures DigitsValue(NatToString(n)) == n
  {
    if n >= 10 {
      NatToStringRoundTrip(n / 10);
      var s := NatToString(n);
      assert s[..|s| - 1] == NatToString(n / 10);
    }
  }
}
