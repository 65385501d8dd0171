/** The string primitives of the JavaScript runtime that the services and
    routers rely on: `split` on a one-character separator, `replace` with a
    string pattern, `toLowerCase`, and `parseInt(_, 10)`. */
module Text {
  import opened Wrappers

  // ---------------------------------------------------------------------
  // split / join on a one-character separator

  /** `s.split(sep)` for a one-character separator: the pieces between the
      separators, with an empty piece at each end the separator touches. */
  function Split(s: string, sep: char): (parts: seq<string>)
    ensures |parts| >= 1
    ensures forall i :: 0 <= i < |parts| ==> sep !in parts[i]
    decreases |s|
  {
    if s == [] then [""]
    else
      var rest := Split(s[1..], sep);
      if s[0] == sep then [""] + rest
      else [[s[0]] + rest[0]] + rest[1..]
  }

  /** `parts.join(sep)`. */
  function Join(parts: seq<string>, sep: char): string
    requires |parts| >= 1
    decreases |parts|
  {
    if |parts| == 1 then parts[0] else parts[0] + [sep] + Join(parts[1..], sep)
  }

  /** Splitting loses nothing: joining the pieces gives the string back. */
  lemma {:induction false} JoinSplit(s: string, sep: char)
    ensures Join(Split(s, sep), sep) == s
    decreases |s|
  {
    if s != [] {
      var rest := Split(s[1..], sep);
      JoinSplit(s[1..], sep);
      if s[0] == sep {
        assert Split(s, sep) == [""] + rest;
        assert ([""] + rest)[1..] == rest;
      } else {
        var parts := Split(s, sep);
        assert parts == [[s[0]] + rest[0]] + rest[1..];
        if |rest| == 1 {
          assert Join(rest, sep) == rest[0];
        } else {
          assert parts[1..] == rest[1..];
          assert Join(rest, sep) == rest[0] + [sep] + Join(rest[1..], sep);
        }
        assert s == [s[0]] + s[1..];
      }
    }
  }

  /** A separator-free prefix glues onto the first piece of what follows. */
  lemma {:induction false} SplitFreePrefix(x: string, rest: string, sep: char)
    requires sep !in x
    ensures Split(x + rest, sep) == [x + Split(rest, sep)[0]] + Split(rest, sep)[1..]
    decreases |x|
  {
    if x != [] {
      var t := x[1..] + rest;
      assert (x + rest)[1..] == t;
      assert (x + rest)[0] == x[0];
      SplitFreePrefix(x[1..], rest, sep);
      assert [x[0]] + (x[1..] + Split(rest, sep)[0]) == x + Split(rest, sep)[0];
    } else {
      var parts := Split(rest, sep);
      assert x + rest == rest;
      assert x + parts[0] == parts[0];
      assert [parts[0]] + parts[1..] == parts;
    }
  }

  /** Splitting undoes joining, as long as no piece holds the separator. */
  lemma {:induction false} SplitJoin(parts: seq<string>, sep: char)
    requires |parts| >= 1
    requires forall i :: 0 <= i < |parts| ==> sep !in parts[i]
    ensures Split(Join(parts, sep), sep) == parts
    decreases |parts|
  {
    if |parts| == 1 {
      SplitFreePrefix(parts[0], [], sep);
      assert parts[0] + [] == parts[0];
    } else {
      var tail := Join(parts[1..], sep);
      SplitJoin(parts[1..], sep);
      var r := [sep] + tail;
      assert r[1..] == tail;
      assert Split(r, sep) == [""] + Split(tail, sep);
      assert parts[0] + [sep] + tail == parts[0] + r;
      SplitFreePrefix(parts[0], r, sep);
      assert parts[0] + "" == parts[0];
      assert [parts[0]] + parts[1..] == parts;
    }
  }

  // ---------------------------------------------------------------------
  // indexOf / replace with a string pattern

  /** `pat` occurs in `s` starting at index `i`. */
  predicate OccursAt(s: string, pat: string, i: nat) {
    i + |pat| <= |s| && s[i..i + |pat|] == pat
  }

  predicate Contains(s: string, pat: string) {
    exists i: nat :: i <= |s| && OccursAt(s, pat, i)
  }

  /** `s.indexOf(pat, from)`: the first occurrence at or after `from`. */
  function IndexFrom(s: string, pat: string, from: nat): (r: Option<nat>)
    requires from <= |s|
    ensures r.Some? ==> from <= r.value && OccursAt(s, pat, r.value)
    ensures r.Some? ==> forall j: nat :: from <= j < r.value ==> !OccursAt(s, pat, j)
    ensures r.None? ==> forall j: nat :: from <= j <= |s| ==> !OccursAt(s, pat, j)
    decreases |s| - from
  {
    if OccursAt(s, pat, from) then Some(from)
    else if from + |pat| >= |s| then None
    else IndexFrom(s, pat, from + 1)
  }

  /** `s.indexOf(pat)`. */
  function IndexOf(s: string, pat: string): (r: Option<nat>)
    ensures r.None? <==> !Contains(s, pat)
    ensures r.Some? ==> OccursAt(s, pat, r.value)
    ensures r.Some? ==> forall j: nat :: j < r.value ==> !OccursAt(s, pat, j)
  {
    IndexFrom(s, pat, 0)
  }

  /** `s.replace(pat, rep)` with a string pattern: only the first
      occurrence is replaced, and `$` patterns in `rep` are not used. */
  function ReplaceFirst(s: string, pat: string, rep: string): (r: string)
    ensures !Contains(s, pat) ==> r == s
  {
    match IndexOf(s, pat)
    case None => s
    case Some(i) => s[..i] + rep + s[i + |pat|..]
  }

  /** The first occurrence of the pattern, and only that one, becomes the
      replacement. */
  lemma ReplaceFirstAt(s: string, pat: string, rep: string, i: nat)
    requires OccursAt(s, pat, i)
    requires forall j: nat :: j < i ==> !OccursAt(s, pat, j)
    ensures ReplaceFirst(s, pat, rep) == s[..i] + rep + s[i + |pat|..]
  {
    var k := IndexOf(s, pat).value;
    assert !(k < i);
  }

  /** An occurrence after the prefix `p` is an occurrence in what follows. */
  lemma ShiftOccurs(p: string, t: string, pat: string, k: nat)
    requires |p| <= k
    ensures OccursAt(p + t, pat, k) <==> OccursAt(t, pat, k - |p|)
  {
    if k + |pat| <= |p + t| {
      assert (p + t)[k..k + |pat|] == t[k - |p|..k - |p| + |pat|];
    }
  }

  /** `pat` does not occur in `s` before index `n`. */
  predicate NoMatchBefore(s: string, pat: string, n: nat) {
    IndexOf(s, pat).None? || n <= IndexOf(s, pat).value
  }

  /** Past a prefix without a match, text that holds no match after the
      prefix holds none at all. */
  lemma NoIndexAfter(p: string, t: string, pat: string)
    requires NoMatchBefore(p + t, pat, |p|)
    requires IndexOf(t, pat) == None
    ensures IndexOf(p + t, pat) == None
  {
    if IndexOf(p + t, pat).Some? {
      ShiftOccurs(p, t, pat, IndexOf(p + t, pat).value);
    }
  }

  /** Past a prefix without a match, the first match is the first match
      of what follows, moved by the prefix's length. */
  lemma FirstIndexAfter(p: string, t: string, pat: string, m: nat)
    requires NoMatchBefore(p + t, pat, |p|)
    requires IndexOf(t, pat) == Some(m)
    ensures IndexOf(p + t, pat) == Some(|p| + m)
  {
    ShiftOccurs(p, t, pat, |p| + m);
    var i := IndexOf(p + t, pat).value;
    ShiftOccurs(p, t, pat, i);
  }

  /** Replacing in text whose prefix `p` holds no match leaves `p` alone
      and replaces in what follows it. */
  lemma ReplaceAfter(p: string, t: string, pat: string, rep: string)
    requires NoMatchBefore(p + t, pat, |p|)
    ensures ReplaceFirst(p + t, pat, rep) == p + ReplaceFirst(t, pat, rep)
  {
    match IndexOf(t, pat)
    case None =>
      NoIndexAfter(p, t, pat);
    case Some(m) =>
      FirstIndexAfter(p, t, pat, m);
      ReplaceFirstAfter(p, t, pat, rep, m);
  }

  lemma ReplaceFirstAfter(p: string, t: string, pat: string, rep: string, m: nat)
    requires IndexOf(p + t, pat) == Some(|p| + m)
    requires IndexOf(t, pat) == Some(m)
    ensures ReplaceFirst(p + t, pat, rep) == p + ReplaceFirst(t, pat, rep)
  {
    ReplaceAtIndex(p + t, pat, rep, |p| + m);
    ReplaceAtIndex(t, pat, rep, m);
    SpliceAfter(p, t, m, |pat|, rep);
  }

  lemma ReplaceAtIndex(s: string, pat: string, rep: string, i: nat)
    requires IndexOf(s, pat) == Some(i)
    ensures i + |pat| <= |s|
    ensures ReplaceFirst(s, pat, rep) == s[..i] + rep + s[i + |pat|..]
  {
  }

  lemma SpliceAfter(p: string, t: string, i: nat, n: nat, rep: string)
    requires i + n <= |t|
    ensures (p + t)[..|p| + i] + rep + (p + t)[|p| + i + n..] == p + (t[..i] + rep + t[i + n..])
  {
    var s := p + t;
    assert s[..|p| + i] == p + t[..i];
    assert s[|p| + i + n..] == t[i + n..];
  }

  // ---------------------------------------------------------------------
  // toLowerCase

  function LowerChar(c: char): char {
    if 'A' <= c <= 'Z' then (c as int + 32) as char else c
  }

  /** `s.toLowerCase()` on the ASCII letters. */
  function ToLower(s: string): (r: string)
    ensures |r| == |s|
    ensures forall i :: 0 <= i < |s| ==> r[i] == LowerChar(s[i])
  {
    seq(|s|, i requires 0 <= i < |s| => LowerChar(s[i]))
  }

  lemma ToLowerIdempotent(s: string)
    ensures ToLower(ToLower(s)) == ToLower(s)
  {
  }

  // ---------------------------------------------------------------------
  // decimal digits and parseInt(_, 10)

  predicate IsDigit(c: char) {
    '0' <= c <= '9'
  }

  predicate AllDigits(s: string) {
    forall i :: 0 <= i < |s| ==> IsDigit(s[i])
  }

  function DigitValue(c: char): nat
    requires IsDigit(c)
  {
    c as int - '0' as int
  }

  function DigitChar(d: nat): (c: char)
    requires d < 10
    ensures IsDigit(c) && DigitValue(c) == d
  {
    ('0' as int + d) as char
  }

  /** The value of a run of decimal digits, most significant first. */
  function DigitsValue(s: string): nat
    requires AllDigits(s)
  {
    if s == [] then 0 else DigitsValue(s[..|s| - 1]) * 10 + DigitValue(s[|s| - 1])
  }

  /** The shortest decimal numeral of `n`. */
  function NatToDigits(n: nat): (s: string)
    ensures |s| >= 1
    ensures AllDigits(s)
    ensures |s| > 1 ==> s[0] != '0'
  {
    if n < 10 then [DigitChar(n)] else NatToDigits(n / 10) + [DigitChar(n % 10)]
  }

  lemma {:induction false} DigitsRoundTrip(n: nat)
    ensures DigitsValue(NatToDigits(n)) == n
  {
    if n >= 10 {
      var s := NatToDigits(n);
      assert s[..|s| - 1] == NatToDigits(n / 10);
      DigitsRoundTrip(n / 10);
    }
  }

  /** The white-space characters `parseInt` skips: the ECMAScript
      WhiteSpace and LineTerminator productions. */
  predicate IsJsSpace(c: char) {
    || c == '\t' || c == '\n' || c == '\U{000B}' || c == '\U{000C}' || c == '\r'
    || c == ' ' || c == '\U{00A0}' || c == '\U{1680}'
    || ('\U{2000}' <= c <= '\U{200A}')
    || c == '\U{2028}' || c == '\U{2029}' || c == '\U{202F}' || c == '\U{205F}'
    || c == '\U{3000}' || c == '\U{FEFF}'
  }

  function TrimStart(s: string): (r: string)
    ensures |r| <= |s| && r == s[|s| - |r|..]
    ensures r == [] || !IsJsSpace(r[0])
    ensures forall i :: 0 <= i < |s| - |r| ==> IsJsSpace(s[i])
  {
    if s != [] && IsJsSpace(s[0]) then TrimStart(s[1..]) else s
  }

  /** The longest run of digits at the start of `s`. */
  function DigitPrefix(s: string): (d: string)
    ensures AllDigits(d) && d <= s
    ensures |d| < |s| ==> !IsDigit(s[|d|])
  {
    if s != [] && IsDigit(s[0]) then [s[0]] + DigitPrefix(s[1..]) else []
  }

  /** The digits at the start of `b`, read as a number; `None` when there
      are none. */
  function ParseDigits(b: string): Option<nat> {
    var digits := DigitPrefix(b);
    if digits == [] then None else Some(DigitsValue(digits))
  }

  /** The value of trimmed text: one optional sign, then digits. */
  function SignedValue(t: string): Option<int> {
    var negative := t != [] && t[0] == '-';
    var body := if t != [] && (t[0] == '-' || t[0] == '+') then t[1..] else t;
    match ParseDigits(body)
    case None => None
    case Some(m) => Some(if negative then 0 - m as int else m)
  }

  /** `parseInt(s, 10)`; `None` stands for NaN.  Leading white space is
      skipped, one sign is accepted, and the digits that follow are read
      up to the first character that is not a digit. */
  function ParseInt10(s: string): Option<int> {
    SignedValue(TrimStart(s))
  }

  lemma {:induction false} DigitPrefixOfDigits(d: string, tail: string)
    requires AllDigits(d)
    requires tail == [] || !IsDigit(tail[0])
    ensures DigitPrefix(d + tail) == d
    decreases |d|
  {
    if d == [] {
      assert d + tail == tail;
    } else {
      assert (d + tail)[1..] == d[1..] + tail;
      DigitPrefixOfDigits(d[1..], tail);
      assert [d[0]] + d[1..] == d;
    }
  }

  /** The digits of a numeral followed by a non-digit are read as its
      number. */
  lemma ParseDigitsOfDecimal(m: nat, tail: string)
    requires tail == [] || !IsDigit(tail[0])
    ensures ParseDigits(NatToDigits(m) + tail) == Some(m)
  {
    DigitsRoundTrip(m);
    DigitPrefixOfDigits(NatToDigits(m), tail);
  }

  /** Text that does not start with white space is not trimmed. */
  lemma TrimNothing(s: string)
    requires s != [] && !IsJsSpace(s[0])
    ensures TrimStart(s) == s
  {
  }

  /** A minus sign before text whose leading digits read `m` gives `-m`. */
  lemma NegativeParse(x: string, m: nat)
    requires ParseDigits(x) == Some(m)
    ensures ParseInt10("-" + x) == Some(0 - m as int)
  {
    var s := "-" + x;
    TrimNothing(s);
    assert s[1..] == x;
  }

  /** Text starting with digits that read `m` gives `m`. */
  lemma UnsignedParse(x: string, m: nat)
    requires x != [] && IsDigit(x[0])
    requires ParseDigits(x) == Some(m)
    ensures ParseInt10(x) == Some(m as int)
  {
    TrimNothing(x);
  }

  /** `parseInt(String(n) + tail, 10) == n` whenever `tail` does not start
      with a digit: reading stops at the end of the numeral. */
  lemma {:induction false} ParseIntOfDecimal(n: nat, tail: string)
    requires tail == [] || !IsDigit(tail[0])
    ensures ParseInt10(NatToDigits(n) + tail) == Some(n as int)
  {
    var d := NatToDigits(n);
    assert (d + tail)[0] == d[0];
    ParseDigitsOfDecimal(n, tail);
    UnsignedParse(d + tail, n);
  }

  lemma ParseIntRoundTrip(n: nat)
    ensures ParseInt10(NatToDigits(n)) == Some(n as int)
  {
    ParseIntOfDecimal(n, []);
    assert NatToDigits(n) + [] == NatToDigits(n);
  }

  /** A string with no digit after its sign and white space is NaN. */
  lemma ParseIntNoDigits(s: string)
    requires forall i :: 0 <= i < |s| ==> !IsDigit(s[i])
    ensures ParseInt10(s) == None
  {
    var t := TrimStart(s);
    var body := if t != [] && (t[0] == '-' || t[0] == '+') then t[1..] else t;
    if body != [] {
      assert body[0] in s;
    }
  }
}
