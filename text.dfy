/**
 * The string operations the calendar code relies on, as functions over
 * `string`: Python's `lower`, `in`, `find`, `split`, `strip`, `replace`,
 * `join`, `startswith`, `str(int)` and `int(str)`.
 *
 * Case mapping and whitespace are those of ASCII plus the C0 separator
 * characters that Python also treats as white space.
 */
module Text {

  datatype Option<T> = None | Some(value: T)

  // ---------------------------------------------------------------------
  // Characters

  predicate IsSpace(c: char) {
    c == ' ' || ('\t' <= c <= '\r') || (28 <= c as int <= 31)
  }

  predicate IsDigit(c: char) {
    '0' <= c <= '9'
  }

  /** Python's `\w` restricted to ASCII: letters, digits and underscore. */
  predicate IsWordChar(c: char) {
    IsDigit(c) || ('a' <= c <= 'z') || ('A' <= c <= 'Z') || c == '_'
  }

  function LowerChar(c: char): (r: char)
    ensures 'A' <= c <= 'Z' ==> 'a' <= r <= 'z'
    ensures !('A' <= c <= 'Z') ==> r == c
  {
    if 'A' <= c <= 'Z' then (c as int + 32) as char else c
  }

  /** Python's `str.lower()`. */
  function Lower(s: string): (r: string)
    ensures |r| == |s|
    ensures forall i :: 0 <= i < |s| ==> r[i] == LowerChar(s[i])
  {
    if s == [] then [] else [LowerChar(s[0])] + Lower(s[1..])
  }

  lemma {:induction false} LowerIdempotent(s: string)
    ensures Lower(Lower(s)) == Lower(s)
  {
    var l := Lower(s);
    assert forall i :: 0 <= i < |l| ==> Lower(l)[i] == l[i];
  }

  predicate AllDigits(s: string) {
    forall i :: 0 <= i < |s| ==> IsDigit(s[i])
  }

  // ---------------------------------------------------------------------
  // Searching

  predicate StartsWith(s: string, prefix: string) {
    |prefix| <= |s| && s[..|prefix|] == prefix
  }

  predicate OccursAt(s: string, sub: string, i: int) {
    0 <= i && i + |sub| <= |s| && s[i..i + |sub|] == sub
  }

  /** Python's `s.find(sub, k)` for a non-empty `sub`: the first occurrence at or after `k`. */
  function FindFrom(s: string, sub: string, k: nat): (r: Option<nat>)
    requires sub != []
    decreases |s| - k
    ensures r.Some? ==> k <= r.value && OccursAt(s, sub, r.value)
    ensures r.Some? ==> forall j :: k <= j < r.value ==> !OccursAt(s, sub, j)
    ensures r.None? ==> forall j :: k <= j ==> !OccursAt(s, sub, j)
  {
    if k + |sub| > |s| then None
    else if s[k..k + |sub|] == sub then Some(k)
    else FindFrom(s, sub, k + 1)
  }

  function Find(s: string, sub: string): (r: Option<nat>)
    requires sub != []
    ensures r.Some? ==> OccursAt(s, sub, r.value) && forall j :: 0 <= j < r.value ==> !OccursAt(s, sub, j)
    ensures r.None? ==> forall j :: !OccursAt(s, sub, j)
  {
    FindFrom(s, sub, 0)
  }

  /** Python's `sub in s`. */
  predicate Contains(s: string, sub: string) {
    sub == [] || Find(s, sub).Some?
  }

  lemma ContainsAt(s: string, sub: string, i: int)
    requires OccursAt(s, sub, i)
    ensures Contains(s, sub)
  {
  }

  // ---------------------------------------------------------------------
  // Split and join

  /** Python's `s.split(sep)` for a non-empty separator. */
  function Split(s: string, sep: string): (r: seq<string>)
    requires sep != []
    decreases |s|
    ensures |r| >= 1
  {
    match Find(s, sep)
    case None => [s]
    case Some(i) => [s[..i]] + Split(s[i + |sep|..], sep)
  }

  /** Python's `sep.join(parts)`. */
  function Join(parts: seq<string>, sep: string): string
  {
    if parts == [] then ""
    else if |parts| == 1 then parts[0]
    else parts[0] + sep + Join(parts[1..], sep)
  }

  /** Python's `s.split(sep, 1)`: the text before the first `sep` and, when there is one, the text after it. */
  function SplitOnce(s: string, sep: string): (r: (string, Option<string>))
    requires sep != []
    ensures r.1.None? ==> r.0 == s && !Contains(s, sep)
    ensures r.1.Some? ==> s == r.0 + sep + r.1.value && !Contains(r.0, sep)
  {
    match Find(s, sep)
    case None => (s, None)
    case Some(i) =>
      var before := s[..i];
      assert s == before + sep + s[i + |sep|..];
      NoEarlierOccurrence(s, sep, i);
      (before, Some(s[i + |sep|..]))
  }

  lemma NoEarlierOccurrence(s: string, sep: string, i: nat)
    requires sep != [] && i <= |s|
    requires forall j :: 0 <= j < i ==> !OccursAt(s, sep, j)
    ensures !Contains(s[..i], sep)
  {
    if Find(s[..i], sep).Some? {
      var j := Find(s[..i], sep).value;
      assert s[..i][j..j + |sep|] == s[j..j + |sep|];
      assert OccursAt(s, sep, j);
    }
  }

  /** Python's `s.replace(pat, rep)` for a non-empty `pat`. */
  function Replace(s: string, pat: string, rep: string): string
    requires pat != []
  {
    Join(Split(s, pat), rep)
  }

  lemma JoinCons(a: string, parts: seq<string>, sep: string)
    requires parts != []
    ensures Join([a] + parts, sep) == a + sep + Join(parts, sep)
  {
    assert ([a] + parts)[1..] == parts;
  }

  lemma {:induction false} JoinSplit(s: string, sep: string)
    requires sep != []
    ensures Join(Split(s, sep), sep) == s
    decreases |s|
  {
    var f := Find(s, sep);
    if f.Some? {
      var i := f.value;
      var rest := s[i + |sep|..];
      JoinSplit(rest, sep);
      assert Split(s, sep) == [s[..i]] + Split(rest, sep);
      JoinCons(s[..i], Split(rest, sep), sep);
      AroundOccurrence(s, sep, i);
    } else {
      assert Split(s, sep) == [s];
    }
  }

  lemma AroundOccurrence(s: string, sub: string, i: int)
    requires OccursAt(s, sub, i)
    ensures s == s[..i] + sub + s[i + |sub|..]
  {
  }

  lemma ReplaceAbsent(s: string, pat: string, rep: string)
    requires pat != [] && !Contains(s, pat)
    ensures Replace(s, pat, rep) == s
  {
  }

  /** A separator that occurs splits the text into at least two parts. */
  lemma SplitOccurs(s: string, sep: string)
    requires sep != [] && Contains(s, sep)
    ensures |Split(s, sep)| >= 2
  {
  }

  /** A separator absent from `p`, which cannot straddle the end of `p`, first occurs right after `p`. */
  lemma FirstOccurrence(p: string, sep: string, rest: string)
    requires sep != [] && !Contains(p, sep)
    requires |sep| == 1 || (|sep| == 2 && sep[0] != sep[1])
    ensures Find(p + sep + rest, sep) == Some(|p|)
  {
    var s := p + sep + rest;
    assert s[|p|..|p| + |sep|] == sep;
    forall j | 0 <= j < |p| ensures !OccursAt(s, sep, j) {
      if j + |sep| <= |p| {
        assert s[j..j + |sep|] == p[j..j + |sep|];
        assert !OccursAt(p, sep, j);
      } else {
        assert |sep| == 2 && j + 1 == |p|;
        assert s[j + 1] == sep[0] != sep[1];
        assert s[j..j + 2][1] != sep[1];
      }
    }
    assert OccursAt(s, sep, |p|);
  }

  /** `sep.join(parts).split(sep) == parts` when no part contains the separator. */
  lemma {:induction false} SplitJoined(parts: seq<string>, sep: string)
    requires parts != [] && sep != []
    requires |sep| == 1 || (|sep| == 2 && sep[0] != sep[1])
    requires forall i :: 0 <= i < |parts| ==> !Contains(parts[i], sep)
    ensures Split(Join(parts, sep), sep) == parts
    decreases |parts|
  {
    if |parts| > 1 {
      var rest := Join(parts[1..], sep);
      SplitJoined(parts[1..], sep);
      FirstOccurrence(parts[0], sep, rest);
      var s := parts[0] + sep + rest;
      assert s[..|parts[0]|] == parts[0];
      assert s[|parts[0]| + |sep|..] == rest;
      assert parts == [parts[0]] + parts[1..];
    }
  }

  /** A text that lacks one of the characters of `pat` does not contain it. */
  lemma AbsentChar(s: string, pat: string, k: nat)
    requires k < |pat| && forall i :: 0 <= i < |s| ==> s[i] != pat[k]
    ensures !Contains(s, pat)
  {
    forall j ensures !OccursAt(s, pat, j) {
      if 0 <= j && j + |pat| <= |s| {
        assert s[j..j + |pat|][k] == s[j + k];
      }
    }
  }

  /** Deleting a pattern that ends the text, where the rest has no character that starts it. */
  lemma ReplaceSuffix(s: string, pat: string)
    requires pat != [] && forall i :: 0 <= i < |s| ==> s[i] != pat[0]
    ensures Replace(s + pat, pat, "") == s
  {
    var full := s + pat;
    assert OccursAt(full, pat, |s|);
    forall j | 0 <= j < |s| ensures !OccursAt(full, pat, j) {
      assert full[j] == s[j];
    }
    var j := Find(full, pat).value;
    assert full[..j] == s;
    assert full[|s| + |pat|..] == "";
    assert Split("", pat) == [""];
    assert Split(full, pat) == [s, ""];
    assert Join([s, ""], "") == s;
  }

  // ---------------------------------------------------------------------
  // White space

  function TrimLeft(s: string): (r: string)
    ensures |r| <= |s| && r == s[|s| - |r|..]
    ensures r == [] || !IsSpace(r[0])
  {
    if s != [] && IsSpace(s[0]) then TrimLeft(s[1..]) else s
  }

  function TrimRight(s: string): (r: string)
    ensures |r| <= |s| && r == s[..|r|]
    ensures r == [] || !IsSpace(r[|r| - 1])
  {
    if s != [] && IsSpace(s[|s| - 1]) then TrimRight(s[..|s| - 1]) else s
  }

  /** Python's `s.strip()`. */
  function Strip(s: string): string {
    TrimRight(TrimLeft(s))
  }

  /** Python's `s.strip(chars)`. */
  function StripChars(s: string, chars: set<char>): string
  {
    TrimRightChars(TrimLeftChars(s, chars), chars)
  }

  function TrimLeftChars(s: string, chars: set<char>): string {
    if s != [] && s[0] in chars then TrimLeftChars(s[1..], chars) else s
  }

  function TrimRightChars(s: string, chars: set<char>): string {
    if s != [] && s[|s| - 1] in chars then TrimRightChars(s[..|s| - 1], chars) else s
  }

  /** The first white-space separated word, Python's `s.split()[0]`, or None when there is none. */
  function FirstWord(s: string): (r: Option<string>)
    ensures r.Some? ==> r.value != [] && forall i :: 0 <= i < |r.value| ==> !IsSpace(r.value[i])
  {
    var t := TrimLeft(s);
    if t == [] then None else Some(t[..WordEnd(t, 0)])
  }

  function WordEnd(t: string, k: nat): (e: nat)
    requires k <= |t|
    decreases |t| - k
    ensures k <= e <= |t|
    ensures forall i :: k <= i < e ==> !IsSpace(t[i])
    ensures e == |t| || IsSpace(t[e])
  {
    if k == |t| || IsSpace(t[k]) then k else WordEnd(t, k + 1)
  }

  lemma {:induction false} WordEndRun(t: string, k: nat, e: nat)
    requires k <= e < |t| && IsSpace(t[e])
    requires forall i :: k <= i < e ==> !IsSpace(t[i])
    decreases e - k
    ensures WordEnd(t, k) == e
  {
    if k < e {
      WordEndRun(t, k + 1, e);
    }
  }

  /** A word without white space, followed by white space, is the first word. */
  lemma FirstWordOf(w: string, rest: string)
    requires w != [] && forall i :: 0 <= i < |w| ==> !IsSpace(w[i])
    requires rest != [] && IsSpace(rest[0])
    ensures FirstWord(w + rest) == Some(w)
  {
    var s := w + rest;
    assert TrimLeft(s) == s;
    WordEndRun(s, 0, |w|);
    assert s[..|w|] == w;
  }

  // ---------------------------------------------------------------------
  // Decimal numbers

  function DigitChar(d: nat): (c: char)
    requires d < 10
    ensures IsDigit(c)
  {
    ('0' as int + d) as char
  }

  function DigitValue(c: char): (d: nat)
    requires IsDigit(c)
    ensures d < 10 && DigitChar(d) == c
  {
    c as int - '0' as int
  }

  /** The value of a string of decimal digits (leading zeros allowed). */
  function DigitsValue(s: string): nat
    requires AllDigits(s)
  {
    if s == [] then 0 else DigitsValue(s[..|s| - 1]) * 10 + DigitValue(s[|s| - 1])
  }

  function Pow10(n: nat): (r: nat)
    ensures r >= 1
  {
    if n == 0 then 1 else 10 * Pow10(n - 1)
  }

  /** `n` written with exactly `width` digits, zero-padded: Python's `f"{n:0{width}d}"` for n below 10^width. */
  function PadDigits(n: nat, width: nat): (s: string)
    requires n < Pow10(width)
    ensures |s| == width && AllDigits(s)
  {
    if width == 0 then "" else PadDigits(n / 10, width - 1) + [DigitChar(n % 10)]
  }

  lemma {:induction false} PadDigitsValue(n: nat, width: nat)
    requires n < Pow10(width)
    ensures DigitsValue(PadDigits(n, width)) == n
  {
    if width > 0 {
      PadDigitsValue(n / 10, width - 1);
      var s := PadDigits(n, width);
      assert s[..|s| - 1] == PadDigits(n / 10, width - 1);
    }
  }

  /** Python's `str(n)` for a natural number. */
  function NatToString(n: nat): (s: string)
    ensures s != [] && AllDigits(s)
    ensures |s| > 1 ==> s[0] != '0'
  {
    if n < 10 then [DigitChar(n)] else NatToString(n / 10) + [DigitChar(n % 10)]
  }

  lemma {:induction false} NatToStringValue(n: nat)
    ensures DigitsValue(NatToString(n)) == n
  {
    if n >= 10 {
      NatToStringValue(n / 10);
      var s := NatToString(n);
      assert s[..|s| - 1] == NatToString(n / 10);
    }
  }

  /** Python's `str(i)` for an integer. */
  function IntToString(i: int): string {
    if i < 0 then "-" + NatToString(-i) else NatToString(i)
  }

  /** `str(i)` has no white space in it. */
  lemma IntNoSpace(i: int)
    ensures IntToString(i) != [] && forall k :: 0 <= k < |IntToString(i)| ==> !IsSpace(IntToString(i)[k])
  {
    var t := IntToString(i);
    var m := if i < 0 then -i else i;
    assert AllDigits(NatToString(m));
    forall k | 0 <= k < |t| ensures !IsSpace(t[k]) {
      if i < 0 && k > 0 {
        assert t[k] == NatToString(m)[k - 1];
      }
    }
  }

  /**
   * Python's `int(s)` on a string: surrounding white space, an optional sign
   * and at least one decimal digit; anything else raises, here None.
   */
  function ParseInt(s: string): (r: Option<int>)
    ensures r.Some? ==> Strip(s) != []
  {
    var t := Strip(s);
    if t == [] then None
    else if t[0] == '-' || t[0] == '+' then
      var body := t[1..];
      if body != [] && AllDigits(body) then
        var v: int := if t[0] == '-' then -(DigitsValue(body) as int) else DigitsValue(body);
        Some(v)
      else None
    else if AllDigits(t) then Some(DigitsValue(t))
    else None
  }

  lemma StripNoSpace(s: string)
    requires s != [] && !IsSpace(s[0]) && !IsSpace(s[|s| - 1])
    ensures Strip(s) == s
  {
    assert TrimLeft(s) == s;
    assert TrimRight(s) == s;
  }

  /** `int(str(i)) == i`: the decimal rendering of an integer parses back to it. */
  lemma IntRoundTrip(i: int)
    ensures ParseInt(IntToString(i)) == Some(i)
  {
    var s := IntToString(i);
    StripNoSpace(s);
    if i < 0 {
      NatToStringValue(-i);
      assert s[1..] == NatToString(-i);
      assert s[0] == '-';
    } else {
      NatToStringValue(i);
      assert s == NatToString(i);
      assert !(s[0] == '-' || s[0] == '+');
    }
  }
}
