/**
  Text and collection helpers shared by the rest of the model: an Option type,
  Python's notion of whitespace and `str.strip()`, substring search and
  `str.split(sep)[0]`, ASCII lower-casing, and the append of a bounded
  `collections.deque(maxlen=N)`.
 */
module Text {

  datatype Option<+T> = None | Some(value: T)

  /** Python's `str.isspace()` for a single character. */
  predicate IsSpace(c: char) {
    || c == ' '
    || ('\t' <= c <= '\r')
    || ('\U{1C}' <= c <= '\U{1F}')
    || c == '\U{85}' || c == '\U{A0}' || c == '\U{1680}'
    || ('\U{2000}' <= c <= '\U{200A}')
    || c == '\U{2028}' || c == '\U{2029}' || c == '\U{202F}'
    || c == '\U{205F}' || c == '\U{3000}'
  }

  /** Python's `str.lstrip()`: drops leading whitespace; the result is a suffix of `s`. */
  function LStrip(s: string): (r: string)
    ensures |r| <= |s|
    ensures r == [] || !IsSpace(r[0])
  {
    if |s| > 0 && IsSpace(s[0]) then LStrip(s[1..]) else s
  }

  lemma {:induction false} LStripIsSuffix(s: string)
    ensures LStrip(s) == s[|s| - |LStrip(s)|..]
  {
    if |s| > 0 && IsSpace(s[0]) {
      LStripIsSuffix(s[1..]);
    }
  }

  /** Python's `str.rstrip()`: drops trailing whitespace; the result is a prefix of `s`. */
  function RStrip(s: string): (r: string)
    ensures |r| <= |s|
    ensures r == [] || !IsSpace(r[|r| - 1])
  {
    if |s| > 0 && IsSpace(s[|s| - 1]) then RStrip(s[..|s| - 1]) else s
  }

  lemma {:induction false} RStripIsPrefix(s: string)
    ensures RStrip(s) == s[..|RStrip(s)|]
  {
    if |s| > 0 && IsSpace(s[|s| - 1]) {
      RStripIsPrefix(s[..|s| - 1]);
    }
  }

  /** Python's `str.strip()`. */
  function Strip(s: string): (r: string)
    ensures |r| <= |s|
    ensures r == [] || (!IsSpace(r[0]) && !IsSpace(r[|r| - 1]))
  {
    var l := LStrip(s);
    RStripIsPrefix(l);
    RStrip(l)
  }

  /** Stripping adds no character. */
  lemma StripOnlyDrops(s: string, c: char)
    requires c in Strip(s)
    ensures c in s
  {
    var l := LStrip(s);
    RStripIsPrefix(l);
    LStripIsSuffix(s);
    assert c in l[..|Strip(s)|];
    assert c in s[|s| - |l|..];
  }

  /** A string with no whitespace at either end is its own strip. */
  lemma StripUnchanged(s: string)
    requires s == [] || (!IsSpace(s[0]) && !IsSpace(s[|s| - 1]))
    ensures Strip(s) == s
  {
    if s != [] {
      assert !IsSpace(s[0]);
      assert LStrip(s) == s;
      assert !IsSpace(s[|s| - 1]);
      assert RStrip(s) == s;
    }
  }

  lemma StripIdempotent(s: string)
    ensures Strip(Strip(s)) == Strip(s)
  {
    StripUnchanged(Strip(s));
  }

  lemma {:induction false} LStripKeeps(s: string, c: char)
    requires c in s && !IsSpace(c)
    ensures c in LStrip(s)
  {
    if |s| > 0 && IsSpace(s[0]) {
      assert c in s[1..];
      LStripKeeps(s[1..], c);
    }
  }

  lemma {:induction false} RStripKeeps(s: string, c: char)
    requires c in s && !IsSpace(c)
    ensures c in RStrip(s)
  {
    if |s| > 0 && IsSpace(s[|s| - 1]) {
      assert s == s[..|s| - 1] + [s[|s| - 1]];
      assert c in s[..|s| - 1];
      RStripKeeps(s[..|s| - 1], c);
    }
  }

  /** Stripping only ever removes whitespace: every other character survives. */
  lemma StripKeeps(s: string, c: char)
    requires c in s && !IsSpace(c)
    ensures c in Strip(s)
  {
    LStripKeeps(s, c);
    RStripKeeps(LStrip(s), c);
  }

  lemma {:induction false} LStripAllSpace(s: string)
    requires forall i :: 0 <= i < |s| ==> IsSpace(s[i])
    ensures LStrip(s) == []
  {
    if s != [] {
      LStripAllSpace(s[1..]);
    }
  }

  /** `not s.strip()` holds exactly when every character of `s` is whitespace. */
  lemma StripEmptyIffAllSpace(s: string)
    ensures Strip(s) == [] <==> forall i :: 0 <= i < |s| ==> IsSpace(s[i])
  {
    if forall i :: 0 <= i < |s| ==> IsSpace(s[i]) {
      LStripAllSpace(s);
    } else {
      var i :| 0 <= i < |s| && !IsSpace(s[i]);
      StripKeeps(s, s[i]);
    }
  }

  /** `pat` occurs in `s` starting at index `i`. */
  predicate OccursAt(s: string, pat: string, i: int) {
    0 <= i && i + |pat| <= |s| && s[i..i + |pat|] == pat
  }

  /** Python's `pat in s`. */
  predicate Contains(s: string, pat: string) {
    exists i :: 0 <= i <= |s| && OccursAt(s, pat, i)
  }

  /** For a one-character pattern, `pat in s` is character membership. */
  lemma ContainsChar(s: string, c: char)
    ensures Contains(s, [c]) <==> c in s
  {
    if c in s {
      var i :| 0 <= i < |s| && s[i] == c;
      assert OccursAt(s, [c], i);
    }
    forall i | 0 <= i <= |s| && OccursAt(s, [c], i) ensures c in s {
      assert s[i] == s[i..i + 1][0];
    }
  }

  /** Python's `s.find(pat, start)`, as an Option: the first occurrence at or after `start`. */
  function FindFrom(s: string, pat: string, start: nat): (r: Option<nat>)
    requires start <= |s|
    ensures r.Some? ==> start <= r.value && OccursAt(s, pat, r.value)
    ensures forall j :: start <= j && (r.None? || j < r.value) ==> !OccursAt(s, pat, j)
    decreases |s| - start
  {
    if OccursAt(s, pat, start) then Some(start)
    else if start + |pat| >= |s| then
      assert forall j :: start < j ==> !OccursAt(s, pat, j);
      None
    else FindFrom(s, pat, start + 1)
  }

  function Find(s: string, pat: string): (r: Option<nat>)
    ensures r.Some? <==> Contains(s, pat)
    ensures r.Some? ==> OccursAt(s, pat, r.value)
    ensures forall j :: r.Some? && j < r.value ==> !OccursAt(s, pat, j)
  {
    FindFrom(s, pat, 0)
  }

  /**
    Python's `s.split(sep)[0]` for a non-empty separator: the text before the
    first occurrence of `sep`, or all of `s` when `sep` does not occur.
   */
  function SplitHead(s: string, sep: string): (r: string)
    requires sep != []
    ensures |r| <= |s| && r == s[..|r|]
    ensures !Contains(r, sep)
    ensures !Contains(s, sep) ==> r == s
    ensures Contains(s, sep) ==> OccursAt(s, sep, |r|)
  {
    match Find(s, sep)
    case None => s
    case Some(i) =>
      var r := s[..i];
      forall j | OccursAt(r, sep, j) ensures false {
        assert j < i;
        assert s[j..j + |sep|] == r[j..j + |sep|];
        assert OccursAt(s, sep, j);
      }
      r
  }

  /** A prefix or a suffix of a string has no occurrence of `pat` the string lacks. */
  lemma SliceAvoids(s: string, pat: string, lo: nat, hi: nat)
    requires lo <= hi <= |s|
    requires !Contains(s, pat)
    ensures !Contains(s[lo..hi], pat)
  {
    var t := s[lo..hi];
    forall j | OccursAt(t, pat, j) ensures false {
      var u, v := s[lo + j..lo + j + |pat|], t[j..j + |pat|];
      forall k | 0 <= k < |pat| ensures u[k] == v[k] {
      }
      assert u == v;
      assert OccursAt(s, pat, lo + j);
    }
  }

  /** Stripping introduces no new substring. */
  lemma StripAvoids(s: string, pat: string)
    requires !Contains(s, pat)
    ensures !Contains(Strip(s), pat)
  {
    var l := LStrip(s);
    LStripIsSuffix(s);
    RStripIsPrefix(l);
    SliceAvoids(s, pat, |s| - |l|, |s|);
    assert s[|s| - |l|..|s|] == l;
    SliceAvoids(l, pat, 0, |RStrip(l)|);
  }

  /** ASCII lower-casing of one character. */
  function LowerChar(c: char): (r: char)
    ensures 'A' <= c <= 'Z' ==> 'a' <= r <= 'z' && r as int - c as int == 32
    ensures !('A' <= c <= 'Z') ==> r == c
  {
    if 'A' <= c <= 'Z' then (c as int + 32) as char else c
  }

  /** ASCII model of Python's `str.lower()`. */
  function Lower(s: string): (r: string)
    ensures |r| == |s|
    ensures forall i :: 0 <= i < |s| ==> r[i] == LowerChar(s[i])
  {
    if s == [] then [] else [LowerChar(s[0])] + Lower(s[1..])
  }

  /** The decimal digit of `d`. */
  function Digit(d: nat): (c: char)
    requires d < 10
    ensures '0' <= c <= '9' && c as int - '0' as int == d
  {
    ('0' as int + d) as char
  }

  predicate AllDigits(s: string) {
    forall i :: 0 <= i < |s| ==> '0' <= s[i] <= '9'
  }

  /** `str(n)` and `f"{n}"` for a natural number: its decimal digits, no leading zero. */
  function NatToString(n: nat): (r: string)
    ensures r != [] && AllDigits(r)
    ensures r[0] == '0' ==> n == 0
  {
    if n < 10 then [Digit(n)] else NatToString(n / 10) + [Digit(n % 10)]
  }

  /** The number a string of decimal digits denotes. */
  function DecimalValue(s: string): nat
    requires AllDigits(s)
  {
    if s == [] then 0 else DecimalValue(s[..|s| - 1]) * 10 + (s[|s| - 1] as int - '0' as int)
  }

  /** Reading back the digits gives the number: the rendering loses nothing. */
  lemma {:induction false} NatToStringRoundTrip(n: nat)
    ensures DecimalValue(NatToString(n)) == n
  {
    if n >= 10 {
      var r := NatToString(n);
      assert r[..|r| - 1] == NatToString(n / 10);
      NatToStringRoundTrip(n / 10);
    }
  }

  /** Different numbers render differently. */
  lemma NatToStringInjective(m: nat, n: nat)
    requires NatToString(m) == NatToString(n)
    ensures m == n
  {
    NatToStringRoundTrip(m);
    NatToStringRoundTrip(n);
  }

  /** The total number of characters in `parts`. */
  function TotalLength(parts: seq<string>): nat {
    if parts == [] then 0 else |parts[0]| + TotalLength(parts[1..])
  }

  /**
    `sep.join(parts)`: every part in order, starting with the first, with one
    separator between each two neighbours and none at either end.
   */
  function Join(parts: seq<string>, sep: string): (r: string)
    ensures parts == [] ==> r == ""
    ensures parts != [] ==> parts[0] <= r && |r| == TotalLength(parts) + (|parts| - 1) * |sep|
  {
    if parts == [] then ""
    else if |parts| == 1 then parts[0]
    else parts[0] + sep + Join(parts[1..], sep)
  }

  /**
    `collections.deque(maxlen=cap).append(x)`: appends at the right and, when the
    deque is already full, evicts from the left.
   */
  function BoundedAppend<T>(s: seq<T>, x: T, cap: nat): (r: seq<T>)
    requires 0 < cap
    ensures |r| == if |s| < cap then |s| + 1 else cap
    ensures r[|r| - 1] == x
  {
    if |s| < cap then s + [x] else s[|s| - cap + 1..] + [x]
  }

  /** What `BoundedAppend` keeps is the newest part of `s + [x]`: only the oldest entries are dropped. */
  lemma BoundedAppendKeepsNewest<T>(s: seq<T>, x: T, cap: nat)
    requires 0 < cap
    ensures BoundedAppend(s, x, cap) == (s + [x])[|s| + 1 - |BoundedAppend(s, x, cap)|..]
  {
  }
}
