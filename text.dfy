/** The Python string operations the core relies on, over `string` (a sequence of
    Unicode scalar values): `str.strip()`, `str.split(sep)`, `str.split()`, the
    `in` substring test, the `{:w}` / `{:>w}` format specs on strings, `int(str)`
    and `str(int)`. */
module Text {

  import opened Base

  /** Python's `str.isspace()`: the characters that `strip()` and `split()`
      treat as white space. */
  predicate IsSpace(c: char) {
    || c == '\t' || c == '\n' || c == '\U{B}' || c == '\U{C}' || c == '\r'
    || ('\U{1C}' <= c <= '\U{1F}') || c == ' ' || c == '\U{85}' || c == '\U{A0}'
    || c == '\U{1680}' || ('\U{2000}' <= c <= '\U{200A}') || c == '\U{2028}'
    || c == '\U{2029}' || c == '\U{202F}' || c == '\U{205F}' || c == '\U{3000}'
  }

  predicate NoSpace(s: string) {
    forall k :: 0 <= k < |s| ==> !IsSpace(s[k])
  }

  // ---------------------------------------------------------------- strip

  /** The number of white-space characters at the front of `s`. */
  function LeadingSpaces(s: string): (n: nat)
    ensures n <= |s|
  {
    if |s| > 0 && IsSpace(s[0]) then 1 + LeadingSpaces(s[1..]) else 0
  }

  /** The number of white-space characters at the end of `s`. */
  function TrailingSpaces(s: string): (n: nat)
    ensures n <= |s|
  {
    if |s| > 0 && IsSpace(s[|s| - 1]) then 1 + TrailingSpaces(s[..|s| - 1]) else 0
  }

  /** `s.lstrip()`. */
  function StripLeft(s: string): string {
    s[LeadingSpaces(s)..]
  }

  /** `s.rstrip()`. */
  function StripRight(s: string): string {
    s[..|s| - TrailingSpaces(s)]
  }

  /** `s.strip()`. */
  function Strip(s: string): string {
    StripRight(StripLeft(s))
  }

  /** The leading run counted is all white space, and stops at the first
      character that is not. */
  lemma {:induction false} LeadingSpacesAreSpaces(s: string)
    ensures var n := LeadingSpaces(s);
      && (forall k :: 0 <= k < n ==> IsSpace(s[k]))
      && (n == |s| || !IsSpace(s[n]))
    decreases |s|
  {
    if |s| > 0 && IsSpace(s[0]) {
      LeadingSpacesAreSpaces(s[1..]);
      forall k | 1 <= k < LeadingSpaces(s) ensures IsSpace(s[k]) {
        assert s[k] == s[1..][k - 1];
      }
    }
  }

  /** The trailing run counted is all white space, and stops at the last
      character that is not. */
  lemma {:induction false} TrailingSpacesAreSpaces(s: string)
    ensures var n := TrailingSpaces(s);
      && (forall k :: |s| - n <= k < |s| ==> IsSpace(s[k]))
      && (n == |s| || !IsSpace(s[|s| - n - 1]))
    decreases |s|
  {
    if |s| > 0 && IsSpace(s[|s| - 1]) {
      var p := s[..|s| - 1];
      TrailingSpacesAreSpaces(p);
      forall k | |s| - TrailingSpaces(s) <= k < |s| - 1 ensures IsSpace(s[k]) {
        assert s[k] == p[k];
      }
      if TrailingSpaces(s) < |s| {
        assert s[|s| - TrailingSpaces(s) - 1] == p[|p| - TrailingSpaces(p) - 1];
      }
    }
  }

  /** A stripped string is the piece of the original between its leading and
      trailing white space, with no white space left at either end. */
  lemma StripIsTrimmedSlice(s: string)
    ensures var r := Strip(s); var i := LeadingSpaces(s);
      && i + |r| <= |s| && r == s[i..i + |r|]
      && (forall k :: 0 <= k < i ==> IsSpace(s[k]))
      && (forall k :: i + |r| <= k < |s| ==> IsSpace(s[k]))
      && (r == [] || (!IsSpace(r[0]) && !IsSpace(r[|r| - 1])))
  {
    LeadingSpacesAreSpaces(s);
    StripSlice(s);
    StripTrailing(s);
    StripEnds(s);
  }

  lemma StripSlice(s: string)
    ensures var r := Strip(s); var i := LeadingSpaces(s);
      i + |r| <= |s| && r == s[i..i + |r|]
  {
    var i := LeadingSpaces(s);
    var l := s[i..];
    var r := Strip(s);
    assert r == l[..|l| - TrailingSpaces(l)];
    SliceOfSuffix(s, i, |r|);
  }

  lemma StripTrailing(s: string)
    ensures var r := Strip(s); var i := LeadingSpaces(s);
      forall k :: i + |r| <= k < |s| ==> IsSpace(s[k])
  {
    var i := LeadingSpaces(s);
    var l := s[i..];
    var r := Strip(s);
    assert |r| == |l| - TrailingSpaces(l);
    TrailingSpacesAreSpaces(l);
    forall k | i + |r| <= k < |s| ensures IsSpace(s[k]) {
      assert s[k] == l[k - i];
    }
  }

  lemma StripEnds(s: string)
    ensures var r := Strip(s); r == [] || (!IsSpace(r[0]) && !IsSpace(r[|r| - 1]))
  {
    var i := LeadingSpaces(s);
    var l := s[i..];
    var t := TrailingSpaces(l);
    var r := Strip(s);
    assert r == l[..|l| - t];
    LeadingSpacesAreSpaces(s);
    TrailingSpacesAreSpaces(l);
    if r != [] {
      assert r[0] == l[0] == s[i];
      assert r[|r| - 1] == l[|l| - t - 1];
    }
  }

  lemma SliceOfSuffix(s: string, i: nat, n: nat)
    requires i + n <= |s|
    ensures s[i..][..n] == s[i..i + n]
  {
  }

  /** A string with no white space at either end is its own stripped form. */
  lemma StripTrimmed(s: string)
    requires s == [] || (!IsSpace(s[0]) && !IsSpace(s[|s| - 1]))
    ensures Strip(s) == s
  {
    assert LeadingSpaces(s) == 0;
    assert s[0..] == s;
    assert TrailingSpaces(s) == 0;
    assert s[..|s|] == s;
  }

  /** Stripping twice is stripping once. */
  lemma StripIdempotent(s: string)
    ensures Strip(Strip(s)) == Strip(s)
  {
    StripIsTrimmedSlice(s);
    StripTrimmed(Strip(s));
  }

  /** A string with no white space at all is its own stripped form. */
  lemma StripNoSpace(s: string)
    requires NoSpace(s)
    ensures Strip(s) == s
  {
    StripTrimmed(s);
  }

  // ---------------------------------------------------------------- split

  function IndexOf(s: string, c: char): (i: nat)
    requires c in s
    ensures i < |s| && s[i] == c && c !in s[..i]
  {
    if s[0] == c then 0 else 1 + IndexOf(s[1..], c)
  }

  /** `s.split(sep)` for a one-character separator: the pieces between the
      separators, empty ones included. */
  function Split(s: string, sep: char): (r: seq<string>)
    ensures |r| >= 1
    ensures forall k :: 0 <= k < |r| ==> sep !in r[k]
    decreases |s|
  {
    if sep !in s then [s]
    else
      var i := IndexOf(s, sep);
      [s[..i]] + Split(s[i + 1..], sep)
  }

  /** `sep.join(parts)`. */
  function Join(parts: seq<string>, sep: char): string {
    if |parts| == 0 then ""
    else if |parts| == 1 then parts[0]
    else parts[0] + [sep] + Join(parts[1..], sep)
  }

  /** Splitting on a character and joining back on it gives the original text. */
  lemma {:induction false} JoinSplit(s: string, sep: char)
    ensures Join(Split(s, sep), sep) == s
    decreases |s|
  {
    if sep in s {
      var i := IndexOf(s, sep);
      var rest := s[i + 1..];
      JoinSplit(rest, sep);
      assert Split(s, sep)[1..] == Split(rest, sep);
      assert s == s[..i] + [sep] + rest;
    }
  }

  /** Joining pieces that do not contain the separator and splitting again
      gives the pieces back. */
  lemma {:induction false} SplitJoin(parts: seq<string>, sep: char)
    requires |parts| >= 1
    requires forall k :: 0 <= k < |parts| ==> sep !in parts[k]
    ensures Split(Join(parts, sep), sep) == parts
    decreases |parts|
  {
    if |parts| > 1 {
      var tail := Join(parts[1..], sep);
      var s := parts[0] + [sep] + tail;
      assert s == Join(parts, sep);
      assert s[|parts[0]|] == sep;
      assert s[..|parts[0]|] == parts[0];
      assert IndexOf(s, sep) == |parts[0]|;
      assert s[|parts[0]| + 1..] == tail;
      SplitJoin(parts[1..], sep);
    }
  }

  /** A character that is not the separator and occurs in no piece does not
      occur in the joined text. */
  lemma {:induction false} JoinAvoids(parts: seq<string>, sep: char, c: char)
    requires c != sep
    requires forall k :: 0 <= k < |parts| ==> c !in parts[k]
    ensures c !in Join(parts, sep)
    decreases |parts|
  {
    if |parts| > 1 {
      JoinAvoids(parts[1..], sep, c);
    }
  }

  // ---------------------------------------------------------------- words

  /** Length of the leading run of non-space characters. */
  function WordEnd(s: string): (i: nat)
    ensures i <= |s| && NoSpace(s[..i]) && (i == |s| || IsSpace(s[i]))
  {
    if |s| == 0 || IsSpace(s[0]) then 0 else 1 + WordEnd(s[1..])
  }

  /** `s.split()` with no argument: the maximal runs of non-space characters. */
  function Words(s: string): seq<string>
    decreases |s|
  {
    if s == [] then []
    else if IsSpace(s[0]) then Words(s[1..])
    else
      var i := WordEnd(s);
      [s[..i]] + Words(s[i..])
  }

  predicate IsWord(w: string) {
    |w| > 0 && NoSpace(w)
  }

  /** Every piece `s.split()` returns is a non-empty run of non-space characters. */
  lemma {:induction false} WordsAreWords(s: string)
    ensures forall k :: 0 <= k < |Words(s)| ==> IsWord(Words(s)[k])
    decreases |s|
  {
    if s != [] {
      if IsSpace(s[0]) {
        WordsAreWords(s[1..]);
      } else {
        var i := WordEnd(s);
        WordsAreWords(s[i..]);
        var r := Words(s);
        var rest := Words(s[i..]);
        assert r == [s[..i]] + rest;
        forall k | 0 <= k < |r| ensures IsWord(r[k]) {
          if k == 0 {
            assert IsWord(s[..i]);
          } else {
            assert r[k] == rest[k - 1];
          }
        }
      }
    }
  }

  /** A word followed by white space (or by nothing) is the first word. */
  lemma WordsCons(w: string, rest: string)
    requires IsWord(w)
    requires rest == [] || IsSpace(rest[0])
    ensures Words(w + rest) == [w] + Words(rest)
  {
    var s := w + rest;
    assert s[..|w|] == w;
    WordEndOfPrefix(w, s);
    assert s[|w|..] == rest;
  }

  /** Words joined by single spaces split back into the same words. */
  lemma {:induction false} WordsOfJoin(ws: seq<string>)
    requires forall k :: 0 <= k < |ws| ==> IsWord(ws[k])
    ensures Words(Join(ws, ' ')) == ws
    decreases |ws|
  {
    if ws == [] {
      return;
    }
    var w := ws[0];
    if |ws| == 1 {
      WordsCons(w, "");
      assert w + "" == w;
    } else {
      var rest := Join(ws[1..], ' ');
      assert Join(ws, ' ') == w + ([' '] + rest);
      WordsCons(w, [' '] + rest);
      assert ([' '] + rest)[1..] == rest;
      assert forall k :: 0 <= k < |ws| - 1 ==> ws[1..][k] == ws[k + 1];
      WordsOfJoin(ws[1..]);
      assert ws == [w] + ws[1..];
    }
  }

  lemma {:induction false} WordEndOfPrefix(w: string, s: string)
    requires NoSpace(w) && |w| <= |s| && s[..|w|] == w
    requires |w| == |s| || IsSpace(s[|w|])
    ensures WordEnd(s) == |w|
    decreases |w|
  {
    if |w| > 0 {
      assert s[1..][..|w| - 1] == w[1..];
      WordEndOfPrefix(w[1..], s[1..]);
    }
  }

  // ---------------------------------------------------------------- substring

  /** Python's `sub in s` for strings. */
  predicate Contains(s: string, sub: string)
    decreases |s|
  {
    |sub| <= |s| && (s[..|sub|] == sub || Contains(s[1..], sub))
  }

  predicate OccursAt(s: string, sub: string, i: int) {
    0 <= i <= |s| - |sub| && s[i..i + |sub|] == sub
  }

  /** `sub in s` holds exactly when `sub` occurs at some position of `s`. */
  lemma {:induction false} ContainsIff(s: string, sub: string)
    ensures Contains(s, sub) <==> exists i :: OccursAt(s, sub, i)
    decreases |s|
  {
    if |sub| <= |s| {
      if s[..|sub|] == sub {
        assert OccursAt(s, sub, 0);
      } else {
        assert |s| > 0;
        ContainsIff(s[1..], sub);
        if Contains(s[1..], sub) {
          var i :| OccursAt(s[1..], sub, i);
          assert OccursAt(s, sub, i + 1);
        }
        if exists i :: OccursAt(s, sub, i) {
          var i :| OccursAt(s, sub, i);
          assert i != 0;
          assert OccursAt(s[1..], sub, i - 1);
        }
      }
    }
  }

  // ---------------------------------------------------------------- padding

  function Spaces(n: nat): (r: string)
    ensures |r| == n && forall k :: 0 <= k < n ==> r[k] == ' '
  {
    seq(n, _ => ' ')
  }

  function Max(a: int, b: int): int {
    if a < b then b else a
  }

  /** `'{:w}'.format(s)` on a string: padded on the right with spaces to width `w`. */
  function LeftJustify(s: string, w: nat): string {
    if |s| >= w then s else s + Spaces(w - |s|)
  }

  /** `'{:>w}'.format(s)` on a string: padded on the left with spaces to width `w`. */
  function RightJustify(s: string, w: nat): string {
    if |s| >= w then s else Spaces(w - |s|) + s
  }

  /** A left-justified field is `w` characters wide or, for a longer string, the
      string itself: never truncated, padded with spaces after it. */
  lemma LeftJustifyShape(s: string, w: nat)
    ensures var r := LeftJustify(s, w);
      && |r| == Max(|s|, w)
      && r[..|s|] == s
      && forall k :: |s| <= k < |r| ==> r[k] == ' '
  {
  }

  /** A right-justified field is `w` characters wide or, for a longer string,
      the string itself: never truncated, padded with spaces before it. */
  lemma RightJustifyShape(s: string, w: nat)
    ensures var r := RightJustify(s, w);
      && |r| == Max(|s|, w)
      && r[|r| - |s|..] == s
      && forall k :: 0 <= k < |r| - |s| ==> r[k] == ' '
  {
  }

  // ---------------------------------------------------------------- int(str)

  predicate IsDigit(c: char) {
    '0' <= c <= '9'
  }

  function DigitValue(c: char): nat
    requires IsDigit(c)
  {
    (c as int) - ('0' as int)
  }

  function DigitChar(d: nat): char
    requires d < 10
  {
    (('0' as int) + d) as char
  }

  /** The digits of an `int()` literal in base 10: ASCII digits, with single
      underscores allowed between two digits. */
  predicate ValidDigits(s: string)
    decreases |s|
  {
    && |s| > 0 && IsDigit(s[0])
    && (|s| == 1 || ValidDigits(s[1..]) || (s[1] == '_' && ValidDigits(s[2..])))
  }

  /** The value of a digit string, underscores ignored. */
  function DigitsValue(s: string): nat {
    if s == [] then 0
    else if IsDigit(s[|s| - 1]) then 10 * DigitsValue(s[..|s| - 1]) + DigitValue(s[|s| - 1])
    else DigitsValue(s[..|s| - 1])
  }

  /** Python's `int(s)` on a string, base 10: surrounding white space is
      ignored, one optional sign, then the digits. `None` is the `ValueError`. */
  function ParseInt(s: string): Option<int> {
    var t := Strip(s);
    if |t| > 0 && (t[0] == '+' || t[0] == '-') then
      if ValidDigits(t[1..]) then
        var v: int := DigitsValue(t[1..]);
        Some(if t[0] == '-' then -v else v)
      else None
    else if ValidDigits(t) then Some(DigitsValue(t))
    else None
  }

  /** `str(n)` for a non-negative integer: its decimal digits. */
  function NatToString(n: nat): (r: string)
    ensures |r| > 0
    ensures forall k :: 0 <= k < |r| ==> IsDigit(r[k])
  {
    if n < 10 then [DigitChar(n)] else NatToString(n / 10) + [DigitChar(n % 10)]
  }

  /** Python's `str(n)` for an integer. */
  function IntToString(n: int): string {
    if n < 0 then "-" + NatToString(-n) else NatToString(n)
  }

  lemma {:induction false} NatToStringValue(n: nat)
    ensures ValidDigits(NatToString(n))
    ensures DigitsValue(NatToString(n)) == n
  {
    var r := NatToString(n);
    if n >= 10 {
      NatToStringValue(n / 10);
      ValidDigitsSnoc(NatToString(n / 10), DigitChar(n % 10));
      assert r[..|r| - 1] == NatToString(n / 10);
    }
  }

  /** One more digit at the end keeps a literal valid. */
  lemma {:induction false} ValidDigitsSnoc(s: string, d: char)
    requires ValidDigits(s) && IsDigit(d)
    ensures ValidDigits(s + [d])
    decreases |s|
  {
    var t := s + [d];
    if |s| > 1 {
      if ValidDigits(s[1..]) {
        ValidDigitsSnoc(s[1..], d);
        assert t[1..] == s[1..] + [d];
      } else {
        ValidDigitsSnoc(s[2..], d);
        assert t[2..] == s[2..] + [d];
      }
    } else {
      assert t[1..] == [d];
    }
  }

  /** `int(str(n)) == n`: the integer reader inverts the integer writer. */
  lemma ParseIntOfIntToString(n: int)
    ensures ParseInt(IntToString(n)) == Some(n)
  {
    var s := IntToString(n);
    var m := if n < 0 then -n else n;
    NatToStringValue(m);
    assert !IsSpace(s[0]);
    assert NoSpace(s) by {
      forall k | 0 <= k < |s| ensures !IsSpace(s[k]) {
        if n < 0 && k > 0 { assert s[k] == NatToString(m)[k - 1]; }
      }
    }
    StripNoSpace(s);
    if n < 0 {
      assert s[1..] == NatToString(m);
    }
  }
}
