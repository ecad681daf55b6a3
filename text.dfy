/** The few Python `str` operations the order logic relies on: `upper()`,
    `strip()` and the decimal rendering of integers inside f-strings. */
module Text {

  /** `str.isspace()` for one character: the characters `strip()` removes. */
  predicate IsSpace(c: char) {
    || c == ' '
    || ('\t' <= c <= '\r')
    || ('\U{1c}' <= c <= '\U{1f}')
    || c == '\U{85}' || c == '\U{a0}' || c == '\U{1680}'
    || ('\U{2000}' <= c <= '\U{200a}')
    || c == '\U{2028}' || c == '\U{2029}' || c == '\U{202f}' || c == '\U{205f}' || c == '\U{3000}'
  }

  function UpperChar(c: char): char {
    if 'a' <= c <= 'z' then (c as int - 32) as char else c
  }

  /** `str.upper()` on the ASCII letters. */
  function Upper(s: string): (u: string)
    ensures |u| == |s|
    ensures forall i :: 0 <= i < |s| ==> u[i] == UpperChar(s[i])
  {
    seq(|s|, i requires 0 <= i < |s| => UpperChar(s[i]))
  }

  /** How many white-space characters `s` starts with. */
  function LeadingSpaces(s: string): (n: nat)
    ensures n <= |s|
    ensures forall i :: 0 <= i < n ==> IsSpace(s[i])
    ensures n < |s| ==> !IsSpace(s[n])
  {
    if |s| > 0 && IsSpace(s[0]) then 1 + LeadingSpaces(s[1..]) else 0
  }

  /** The end of `s[lo..hi]` once its trailing white space is dropped. */
  function TrimmedEnd(s: string, lo: nat, hi: nat): (e: nat)
    requires lo <= hi <= |s|
    ensures lo <= e <= hi
    ensures e > lo ==> !IsSpace(s[e - 1])
    ensures forall i :: e <= i < hi ==> IsSpace(s[i])
    decreases hi - lo
  {
    if hi > lo && IsSpace(s[hi - 1]) then TrimmedEnd(s, lo, hi - 1) else hi
  }

  /** `t` is `s[lo..hi]`, and everything `s` has before `lo` or from `hi` on is white space. */
  predicate TrimmedSlice(s: string, t: string, lo: nat, hi: nat) {
    && lo <= hi <= |s| && t == s[lo..hi]
    && (forall i :: 0 <= i < lo ==> IsSpace(s[i]))
    && (forall i :: hi <= i < |s| ==> IsSpace(s[i]))
  }

  /** `str.strip()`: the longest slice of `s` that neither starts nor ends with
      white space, after dropping only white space at either end. */
  function Strip(s: string): (t: string)
    ensures |t| <= |s|
    ensures exists lo: nat, hi: nat :: TrimmedSlice(s, t, lo, hi)
    ensures t == [] || (!IsSpace(t[0]) && !IsSpace(t[|t| - 1]))
  {
    var lo := LeadingSpaces(s);
    var hi := TrimmedEnd(s, lo, |s|);
    assert TrimmedSlice(s, s[lo..hi], lo, hi);
    s[lo..hi]
  }

  /** `strip()` leaves alone a string that has no white space at either end. */
  lemma StripNoop(s: string)
    requires s == [] || (!IsSpace(s[0]) && !IsSpace(s[|s| - 1]))
    ensures Strip(s) == s
  {
    if s != [] {
      assert LeadingSpaces(s) == 0;
      assert TrimmedEnd(s, 0, |s|) == |s|;
    }
  }

  /** `upper()` leaves alone a string without lower-case ASCII letters. */
  lemma UpperNoop(s: string)
    requires forall i :: 0 <= i < |s| ==> !('a' <= s[i] <= 'z')
    ensures Upper(s) == s
  {
  }

  function DigitChar(d: nat): char
    requires d < 10
  {
    "0123456789"[d]
  }

  /** The decimal digits of `n`, as `str(n)` renders a non-negative `int`. */
  function NatToString(n: nat): (s: string)
    ensures 1 <= |s|
    ensures n < 10 <==> |s| == 1
    ensures forall k :: 0 <= k < |s| ==> '0' <= s[k] <= '9'
  {
    if n < 10 then [DigitChar(n)] else NatToString(n / 10) + [DigitChar(n % 10)]
  }

  /** Different numbers render differently. */
  lemma {:induction false} NatToStringInjective(m: nat, n: nat)
    requires NatToString(m) == NatToString(n)
    ensures m == n
  {
    if m >= 10 && n >= 10 {
      var sm, sn := NatToString(m), NatToString(n);
      assert sm[|sm| - 1] == DigitChar(m % 10) && sn[|sn| - 1] == DigitChar(n % 10);
      assert sm[..|sm| - 1] == NatToString(m / 10);
      assert sn[..|sn| - 1] == NatToString(n / 10);
      NatToStringInjective(m / 10, n / 10);
    }
  }

  /** The id `<tag>_<symbol>_<stamp>_<index>` that TWAP and grid give each child order. */
  function ChildOrderId(tag: string, symbol: string, stamp: nat, index: nat): string {
    tag + "_" + symbol + "_" + NatToString(stamp) + "_" + NatToString(index)
  }

  /** The position of the last `c` in `s`, or -1 when there is none. */
  function LastIndexOf(s: string, c: char): (k: int)
    ensures -1 <= k < |s|
    ensures k >= 0 ==> s[k] == c
    decreases |s|
  {
    if s == [] then -1
    else if s[|s| - 1] == c then |s| - 1
    else LastIndexOf(s[..|s| - 1], c)
  }

  /** The last `_` of `a + "_" + x` is the one before `x` when `x` has none. */
  lemma {:induction false} LastSeparator(a: string, x: string)
    requires forall k :: 0 <= k < |x| ==> x[k] != '_'
    ensures LastIndexOf(a + "_" + x, '_') == |a|
    decreases |x|
  {
    var w := a + "_" + x;
    if x != [] {
      assert w[..|w| - 1] == a + "_" + x[..|x| - 1];
      LastSeparator(a, x[..|x| - 1]);
    }
  }

  /** Two strings that end in `_` followed by a piece without `_` end in the same piece. */
  lemma LastPieceUnique(a: string, x: string, b: string, y: string)
    requires forall k :: 0 <= k < |x| ==> x[k] != '_'
    requires forall k :: 0 <= k < |y| ==> y[k] != '_'
    requires a + "_" + x == b + "_" + y
    ensures x == y
  {
    var u, v := a + "_" + x, b + "_" + y;
    LastSeparator(a, x);
    LastSeparator(b, y);
    assert u[|a| + 1..] == x;
    assert v[|b| + 1..] == y;
  }

  /** Children with different indexes never share an id, whatever their tags,
      symbols and time stamps: the index is what follows the last `_`. */
  lemma ChildOrderIdsDistinct(tag: string, symbol: string, stamp: nat, i: nat,
                              tag': string, symbol': string, stamp': nat, j: nat)
    requires i != j
    ensures ChildOrderId(tag, symbol, stamp, i) != ChildOrderId(tag', symbol', stamp', j)
  {
    if ChildOrderId(tag, symbol, stamp, i) == ChildOrderId(tag', symbol', stamp', j) {
      var si, sj := NatToString(i), NatToString(j);
      LastPieceUnique(tag + "_" + symbol + "_" + NatToString(stamp), si,
                      tag' + "_" + symbol' + "_" + NatToString(stamp'), sj);
      NatToStringInjective(i, j);
    }
  }
}
