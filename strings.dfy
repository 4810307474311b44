/** The Python string built-ins the command dispatcher relies on: `str.split()`
    with no argument, `str.split(sep)`, `str.upper()`, `int()` on a string and
    the decimal formatting of an `int` inside an f-string. */
module Strings {
  import opened Wrappers

  // ---------------------------------------------------------------------
  // str.split() with no argument
  // ---------------------------------------------------------------------

  /** The characters for which Python's `str.isspace()` holds: the separators
      of `str.split()` with no argument. */
  predicate IsSpace(c: char) {
    || '\t' <= c <= '\r'
    || '\U{1c}' <= c <= ' '
    || c == '\U{85}' || c == '\U{a0}' || c == '\U{1680}'
    || '\U{2000}' <= c <= '\U{200a}'
    || c == '\U{2028}' || c == '\U{2029}' || c == '\U{202f}' || c == '\U{205f}'
    || c == '\U{3000}'
  }

  predicate AllSpace(s: string) {
    forall i :: 0 <= i < |s| ==> IsSpace(s[i])
  }

  /** What `str.split()` can return as an element: non-empty, no whitespace. */
  predicate IsWord(w: string) {
    |w| > 0 && forall i :: 0 <= i < |w| ==> !IsSpace(w[i])
  }

  /** Length of the maximal whitespace-free prefix of `s`. */
  function WordLength(s: string): (n: nat)
    ensures n <= |s|
    ensures forall i :: 0 <= i < n ==> !IsSpace(s[i])
    ensures n < |s| ==> IsSpace(s[n])
  {
    if s == [] || IsSpace(s[0]) then 0 else 1 + WordLength(s[1..])
  }

  /** `s.split()`: the maximal runs of non-whitespace characters, in order;
      leading, trailing and repeated whitespace produce no empty strings. */
  function Words(s: string): (ws: seq<string>)
    ensures forall i :: 0 <= i < |ws| ==> IsWord(ws[i])
    decreases |s|
  {
    if s == [] then []
    else if IsSpace(s[0]) then Words(s[1..])
    else
      var n := WordLength(s);
      [s[..n]] + Words(s[n..])
  }

  /** Words joined by single spaces: the inverse of `Words` on well-formed input. */
  function JoinWords(ws: seq<string>): string {
    if |ws| == 0 then ""
    else if |ws| == 1 then ws[0]
    else ws[0] + " " + JoinWords(ws[1..])
  }

  /** A line splits into no words exactly when it is empty or all whitespace. */
  lemma {:induction false} WordsEmptyIffAllSpace(s: string)
    ensures Words(s) == [] <==> AllSpace(s)
    decreases |s|
  {
    if s != [] && IsSpace(s[0]) {
      WordsEmptyIffAllSpace(s[1..]);
      if AllSpace(s[1..]) {
        forall i | 0 <= i < |s| ensures IsSpace(s[i]) {
          if i > 0 { assert s[i] == s[1..][i - 1]; }
        }
      }
    }
  }

  lemma {:induction false} WordLengthAtSpace(a: string, c: char, b: string)
    requires IsSpace(c)
    ensures WordLength(a + [c] + b) == WordLength(a)
    decreases |a|
  {
    var s := a + [c] + b;
    if a == [] {
      assert s[0] == c;
    } else if !IsSpace(a[0]) {
      assert s[0] == a[0];
      assert s[1..] == a[1..] + [c] + b;
      WordLengthAtSpace(a[1..], c, b);
    } else {
      assert s[0] == a[0];
    }
  }

  /** Splitting at a whitespace character splits the word list:
      `(a + c + b).split() == a.split() + b.split()`. */
  lemma {:induction false} WordsAtSpace(a: string, c: char, b: string)
    requires IsSpace(c)
    ensures Words(a + [c] + b) == Words(a) + Words(b)
    decreases |a|
  {
    var s := a + [c] + b;
    if a == [] {
      assert s == [c] + b;
      assert s[1..] == b;
    } else if IsSpace(a[0]) {
      assert s[0] == a[0];
      assert s[1..] == a[1..] + [c] + b;
      WordsAtSpace(a[1..], c, b);
    } else {
      assert s[0] == a[0];
      WordLengthAtSpace(a, c, b);
      var n := WordLength(a);
      assert s[..n] == a[..n];
      assert s[n..] == a[n..] + [c] + b;
      WordsAtSpace(a[n..], c, b);
    }
  }

  lemma WordsOfWord(w: string)
    requires IsWord(w)
    ensures Words(w) == [w]
  {
    assert WordLength(w) == |w|;
    assert w[..|w|] == w;
  }

  /** Round trip: splitting words joined by single spaces gives them back. */
  lemma {:induction false} WordsOfJoinWords(ws: seq<string>)
    requires forall i :: 0 <= i < |ws| ==> IsWord(ws[i])
    ensures Words(JoinWords(ws)) == ws
  {
    if |ws| == 1 {
      WordsOfWord(ws[0]);
    } else if |ws| > 1 {
      WordsAtSpace(ws[0], ' ', JoinWords(ws[1..]));
      WordsOfWord(ws[0]);
      WordsOfJoinWords(ws[1..]);
      assert ws == [ws[0]] + ws[1..];
    }
  }

  // ---------------------------------------------------------------------
  // str.split(sep) with a one-character separator
  // ---------------------------------------------------------------------

  /** `s.split(sep)`: the pieces between separators, empty pieces included;
      always at least one piece. */
  function Split(s: string, sep: char): (fields: seq<string>)
    ensures |fields| >= 1
    ensures forall i :: 0 <= i < |fields| ==> sep !in fields[i]
  {
    if s == [] then [""]
    else
      var rest := Split(s[1..], sep);
      if s[0] == sep then [""] + rest
      else [[s[0]] + rest[0]] + rest[1..]
  }

  /** `sep.join(fields)`. */
  function Join(fields: seq<string>, sep: char): string {
    if |fields| == 0 then ""
    else if |fields| == 1 then fields[0]
    else fields[0] + [sep] + Join(fields[1..], sep)
  }

  /** Joining the pieces of a split with the same separator restores the string. */
  lemma {:induction false} JoinSplit(s: string, sep: char)
    ensures Join(Split(s, sep), sep) == s
  {
    if s != [] {
      var rest := Split(s[1..], sep);
      JoinSplit(s[1..], sep);
      if s[0] == sep {
        assert s == [sep] + s[1..];
      } else if |rest| == 1 {
        assert s == [s[0]] + s[1..];
      } else {
        assert rest == [rest[0]] + rest[1..];
        assert s == [s[0]] + s[1..];
      }
    }
  }

  /** A separator-free prefix sticks to the first piece of the split. */
  lemma {:induction false} SplitPrefix(w: string, t: string, sep: char)
    requires sep !in w
    ensures Split(w + t, sep) == [w + Split(t, sep)[0]] + Split(t, sep)[1..]
  {
    if w != [] {
      var r := Split(t, sep);
      assert w[0] in w;
      assert (w + t)[0] == w[0];
      assert (w + t)[1..] == w[1..] + t;
      SplitPrefix(w[1..], t, sep);
      var rest := Split(w[1..] + t, sep);
      assert rest[0] == w[1..] + r[0] && rest[1..] == r[1..];
      assert [w[0]] + rest[0] == w + r[0];
    } else {
      assert w + t == t;
      assert w + Split(t, sep)[0] == Split(t, sep)[0];
      assert Split(t, sep) == [Split(t, sep)[0]] + Split(t, sep)[1..];
    }
  }

  /** Round trip: splitting separator-free pieces joined by the separator
      gives them back. */
  lemma {:induction false} SplitJoin(fields: seq<string>, sep: char)
    requires |fields| >= 1
    requires forall i :: 0 <= i < |fields| ==> sep !in fields[i]
    ensures Split(Join(fields, sep), sep) == fields
  {
    if |fields| == 1 {
      SplitPrefix(fields[0], "", sep);
      assert fields[0] + "" == fields[0];
    } else {
      var t := [sep] + Join(fields[1..], sep);
      assert Join(fields, sep) == fields[0] + t;
      SplitPrefix(fields[0], t, sep);
      assert t[1..] == Join(fields[1..], sep);
      SplitJoin(fields[1..], sep);
      assert fields[0] + "" == fields[0];
      assert fields == [fields[0]] + fields[1..];
    }
  }

  // ---------------------------------------------------------------------
  // str.upper()
  // ---------------------------------------------------------------------

  predicate IsLowerAscii(c: char) { 'a' <= c <= 'z' }
  predicate IsUpperAscii(c: char) { 'A' <= c <= 'Z' }

  function ToUpperAscii(c: char): (u: char)
    requires IsLowerAscii(c)
    ensures IsUpperAscii(u)
  {
    (c as int - 32) as char
  }

  function ToLowerAscii(c: char): (l: char)
    requires IsUpperAscii(c)
    ensures IsLowerAscii(l) && ToUpperAscii(l) == c
  {
    (c as int + 32) as char
  }

  /** Python's upper-case mapping of one character, for a-z and for every
      non-ASCII character whose upper-case form is entirely ASCII (dotless i,
      long s, sharp s and the Latin ligatures U+FB00-U+FB06); every other
      character is kept. */
  function UpperChar(c: char): (u: string)
    ensures 1 <= |u| <= 3
    ensures forall i :: 0 <= i < |u| ==> !IsLowerAscii(u[i])
    ensures (c as int) < 128 && !IsLowerAscii(c) ==> u == [c]
  {
    if IsLowerAscii(c) then [ToUpperAscii(c)]
    else if c == '\U{131}' then "I"
    else if c == '\U{17f}' then "S"
    else if c == '\U{df}' then "SS"
    else if c == '\U{fb00}' then "FF"
    else if c == '\U{fb01}' then "FI"
    else if c == '\U{fb02}' then "FL"
    else if c == '\U{fb03}' then "FFI"
    else if c == '\U{fb04}' then "FFL"
    else if c == '\U{fb05}' || c == '\U{fb06}' then "ST"
    else [c]
  }

  /** `s.upper()`. */
  function Upper(s: string): (r: string)
    ensures |r| >= |s|
    ensures forall i :: 0 <= i < |r| ==> !IsLowerAscii(r[i])
  {
    if s == [] then [] else UpperChar(s[0]) + Upper(s[1..])
  }

  lemma {:induction false} UpperAppend(a: string, b: string)
    ensures Upper(a + b) == Upper(a) + Upper(b)
  {
    if a != [] {
      assert (a + b)[0] == a[0];
      assert (a + b)[1..] == a[1..] + b;
      UpperAppend(a[1..], b);
    } else {
      assert a + b == b;
    }
  }

  /** Upper-casing twice is the same as upper-casing once. */
  lemma {:induction false} UpperIdempotent(s: string)
    ensures Upper(Upper(s)) == Upper(s)
  {
    if s != [] {
      var u := UpperChar(s[0]);
      UpperAppend(u, Upper(s[1..]));
      UpperIdempotent(s[1..]);
      UpperCharKept(s[0]);
      UpperCharFixed(u);
    }
  }

  /** Every character `UpperChar` produces is one it keeps as it is. */
  lemma UpperCharKept(c: char)
    ensures forall i :: 0 <= i < |UpperChar(c)| ==>
      !IsLowerAscii(UpperChar(c)[i]) && UpperChar(c)[i] !in NonAsciiFolded
  {
    var u := UpperChar(c);
    if IsLowerAscii(c) || u == [c] {
    } else {
      assert forall i :: 0 <= i < |u| ==> u[i] as int < 128;
    }
  }

  /** Upper-cased text is a fixed point of `Upper`. */
  lemma {:induction false} UpperCharFixed(u: string)
    requires forall i :: 0 <= i < |u| ==> !IsLowerAscii(u[i]) && u[i] !in NonAsciiFolded
    ensures Upper(u) == u
  {
    if u != [] {
      UpperCharFixed(u[1..]);
      assert u == [u[0]] + u[1..];
    }
  }

  /** The non-ASCII characters `UpperChar` rewrites. */
  const NonAsciiFolded: set<char> :=
    {'\U{131}', '\U{17f}', '\U{df}', '\U{fb00}', '\U{fb01}', '\U{fb02}', '\U{fb03}', '\U{fb04}', '\U{fb05}', '\U{fb06}'}

  /** Matching against an upper-case keyword is case-insensitive: any mix of
      upper- and lower-case spellings of `k` upper-cases to `k`. */
  lemma {:induction false} UpperIgnoresCase(t: string, k: string)
    requires forall i :: 0 <= i < |k| ==> IsUpperAscii(k[i])
    requires |t| == |k|
    requires forall i :: 0 <= i < |t| ==> t[i] == k[i] || t[i] == ToLowerAscii(k[i])
    ensures Upper(t) == k
  {
    if t != [] {
      UpperIgnoresCase(t[1..], k[1..]);
      assert k == [k[0]] + k[1..];
    }
  }

  // ---------------------------------------------------------------------
  // int(s) and f"{n}"
  // ---------------------------------------------------------------------

  predicate IsDigit(c: char) { '0' <= c <= '9' }

  predicate AllDigits(s: string) {
    forall i :: 0 <= i < |s| ==> IsDigit(s[i])
  }

  function DigitValue(c: char): (v: nat)
    requires IsDigit(c)
    ensures v < 10
  {
    c as int - '0' as int
  }

  function DigitChar(v: nat): (c: char)
    requires v < 10
    ensures IsDigit(c) && DigitValue(c) == v
  {
    ('0' as int + v) as char
  }

  /** Decimal value of a digit string, most significant digit first. */
  function DigitsValue(s: string): nat
    requires AllDigits(s)
  {
    if s == [] then 0 else 10 * DigitsValue(s[..|s| - 1]) + DigitValue(s[|s| - 1])
  }

  /** The digit part `int()` accepts: decimal digits, with single underscores
      allowed between two digits. */
  predicate IsDigitGroups(s: string) {
    && |s| > 0 && IsDigit(s[0]) && IsDigit(s[|s| - 1])
    && (forall i :: 0 <= i < |s| ==> IsDigit(s[i]) || s[i] == '_')
    && (forall i :: 0 <= i < |s| - 1 ==> IsDigit(s[i]) || IsDigit(s[i + 1]))
  }

  function RemoveUnderscores(s: string): (r: string)
    ensures (forall i :: 0 <= i < |s| ==> IsDigit(s[i]) || s[i] == '_') ==> AllDigits(r)
    ensures AllDigits(s) ==> r == s
  {
    if s == [] then []
    else (if s[0] == '_' then [] else [s[0]]) + RemoveUnderscores(s[1..])
  }

  /** The largest number of digits `int()` converts from a decimal string:
      the default of `sys.get_int_max_str_digits()` since Python 3.11. Longer
      digit strings, leading zeros included, raise `ValueError`. */
  const MaxStrDigits: nat := 4300

  /** Digit groups that `int()` converts: well-formed and within the limit. */
  predicate IsDecimal(s: string) {
    IsDigitGroups(s) && |RemoveUnderscores(s)| <= MaxStrDigits
  }

  /** Removing underscores works piecewise. */
  lemma {:induction false} RemoveUnderscoresAppend(a: string, b: string)
    ensures RemoveUnderscores(a + b) == RemoveUnderscores(a) + RemoveUnderscores(b)
  {
    if a == [] {
      assert a + b == b;
    } else {
      assert (a + b)[1..] == a[1..] + b;
      RemoveUnderscoresAppend(a[1..], b);
    }
  }

  /** Reading one more character of `s` adds it to the digits read so far,
      unless it is an underscore. */
  lemma RemoveUnderscoresStep(s: string, i: nat)
    requires i < |s|
    ensures RemoveUnderscores(s[..i + 1]) == RemoveUnderscores(s[..i]) + (if s[i] == '_' then [] else [s[i]])
  {
    assert s[..i + 1] == s[..i] + [s[i]];
    RemoveUnderscoresAppend(s[..i], [s[i]]);
  }

  /** One more digit on the right multiplies the value by ten and adds it. */
  lemma DigitsValueStep(d: string, c: char)
    requires AllDigits(d) && IsDigit(c)
    ensures AllDigits(d + [c]) && DigitsValue(d + [c]) == 10 * DigitsValue(d) + DigitValue(c)
  {
    assert (d + [c])[..|d|] == d;
  }

  /** The digit loop of a base-10 `int()` conversion, from position `i` of
      `s` on: `v` is the value and `n` the number of the digits before `i`.
      A digit is taken as it is, an underscore only when a digit follows it;
      at the end the digit count is checked against the limit. */
  function ScanDigits(s: string, i: nat, v: nat, n: nat): Option<nat>
    requires i <= |s|
    decreases |s| - i
  {
    if i == |s| then
      if n <= MaxStrDigits then Some(v) else None
    else if IsDigit(s[i]) then
      ScanDigits(s, i + 1, 10 * v + DigitValue(s[i]), n + 1)
    else if s[i] == '_' && i + 1 < |s| && IsDigit(s[i + 1]) then
      ScanDigits(s, i + 2, 10 * v + DigitValue(s[i + 1]), n + 1)
    else None
  }

  /** Well-formed digit groups followed by a digit are well-formed. */
  lemma DigitGroupsDigit(s: string, i: nat)
    requires 0 < i < |s| && IsDigitGroups(s[..i]) && IsDigit(s[i])
    ensures IsDigitGroups(s[..i + 1])
  {
    var p, q := s[..i], s[..i + 1];
    assert forall k :: 0 <= k < i ==> q[k] == p[k];
  }

  /** Well-formed digit groups followed by `_` and a digit are well-formed. */
  lemma DigitGroupsUnderscore(s: string, i: nat)
    requires 0 < i && i + 1 < |s| && IsDigitGroups(s[..i]) && s[i] == '_' && IsDigit(s[i + 1])
    ensures IsDigitGroups(s[..i + 2])
  {
    var p, q := s[..i], s[..i + 2];
    assert IsDigit(p[i - 1]);
    assert forall k :: 0 <= k < i ==> q[k] == p[k];
  }

  /** A character that is neither a digit nor `_` followed by a digit ends
      any hope of well-formed digit groups. */
  lemma DigitGroupsBroken(s: string, i: nat)
    requires i < |s| && !IsDigit(s[i])
    requires !(s[i] == '_' && i + 1 < |s| && IsDigit(s[i + 1]))
    ensures !IsDigitGroups(s)
  {
    if s[i] != '_' {
      assert !(IsDigit(s[i]) || s[i] == '_');
    } else if i + 1 == |s| {
      assert !IsDigit(s[|s| - 1]);
    } else {
      assert !(IsDigit(s[i]) || IsDigit(s[i + 1]));
    }
  }

  /** Value and count of the digits read so far, after one more digit. */
  lemma ReadDigit(s: string, i: nat)
    requires i < |s| && IsDigit(s[i])
    requires forall k :: 0 <= k < i ==> IsDigit(s[k]) || s[k] == '_'
    ensures AllDigits(RemoveUnderscores(s[..i])) && AllDigits(RemoveUnderscores(s[..i + 1]))
    ensures |RemoveUnderscores(s[..i + 1])| == |RemoveUnderscores(s[..i])| + 1
    ensures DigitsValue(RemoveUnderscores(s[..i + 1])) == 10 * DigitsValue(RemoveUnderscores(s[..i])) + DigitValue(s[i])
  {
    var p := s[..i];
    assert forall k :: 0 <= k < |p| ==> IsDigit(p[k]) || p[k] == '_';
    RemoveUnderscoresStep(s, i);
    DigitsValueStep(RemoveUnderscores(p), s[i]);
  }

  /** What the digit loop knows at position `i`: the characters before it
      are well-formed digit groups, with `n` digits of value `v`. */
  predicate ScanInvariant(s: string, i: nat, v: nat, n: nat) {
    && 0 < i <= |s| && IsDigitGroups(s[..i])
    && v == DigitsValue(RemoveUnderscores(s[..i])) && n == |RemoveUnderscores(s[..i])|
  }

  /** `r` is what `int()` makes of the digit string `s`: a value exactly
      when `s` is decimal, and then the value of its digits. */
  predicate ConvertsTo(s: string, r: Option<nat>) {
    && (r.Some? <==> IsDecimal(s))
    && (r.Some? ==> IsDecimal(s) && r.value == DigitsValue(RemoveUnderscores(s)))
  }

  /** The loop's step over one digit keeps its invariant, and a right
      verdict from the next position is a right verdict from this one. */
  lemma ScanDigitStep(s: string, i: nat, v: nat, n: nat)
    requires ScanInvariant(s, i, v, n) && i < |s| && IsDigit(s[i])
    ensures ScanInvariant(s, i + 1, 10 * v + DigitValue(s[i]), n + 1)
    ensures ConvertsTo(s, ScanDigits(s, i + 1, 10 * v + DigitValue(s[i]), n + 1)) ==> ConvertsTo(s, ScanDigits(s, i, v, n))
  {
    DigitGroupsDigit(s, i);
    RemoveUnderscoresStep(s, i);
    DigitsValueStep(RemoveUnderscores(s[..i]), s[i]);
  }

  /** The same for the loop's step over `_` and the digit after it. */
  lemma ScanUnderscoreStep(s: string, i: nat, v: nat, n: nat)
    requires ScanInvariant(s, i, v, n) && i + 1 < |s| && s[i] == '_' && IsDigit(s[i + 1])
    ensures ScanInvariant(s, i + 2, 10 * v + DigitValue(s[i + 1]), n + 1)
    ensures ConvertsTo(s, ScanDigits(s, i + 2, 10 * v + DigitValue(s[i + 1]), n + 1)) ==> ConvertsTo(s, ScanDigits(s, i, v, n))
  {
    DigitGroupsUnderscore(s, i);
    var p, pair := s[..i], [s[i], s[i + 1]];
    assert s[..i + 2] == p + pair;
    RemoveUnderscoresAppend(p, pair);
    assert pair[1..] == [s[i + 1]];
    assert RemoveUnderscores(pair) == [s[i + 1]];
    DigitsValueStep(RemoveUnderscores(p), s[i + 1]);
  }

  /** At the end of the string the loop's verdict is the right one. */
  lemma ScanEnd(s: string, v: nat, n: nat)
    requires ScanInvariant(s, |s|, v, n)
    ensures ConvertsTo(s, ScanDigits(s, |s|, v, n))
  {
    assert s[..|s|] == s;
  }

  /** A character the loop stops at makes the whole string undecimal. */
  lemma ScanStops(s: string, i: nat, v: nat, n: nat)
    requires i < |s| && !IsDigit(s[i]) && !(s[i] == '_' && i + 1 < |s| && IsDigit(s[i + 1]))
    ensures ConvertsTo(s, ScanDigits(s, i, v, n))
  {
    DigitGroupsBroken(s, i);
  }

  /** Started on well-formed digit groups, the loop accepts exactly the
      strings `IsDecimal` describes and computes their digits' value. */
  lemma {:induction false} ScanDigitsCorrect(s: string, i: nat, v: nat, n: nat)
    requires ScanInvariant(s, i, v, n)
    ensures ConvertsTo(s, ScanDigits(s, i, v, n))
    decreases |s| - i
  {
    if i == |s| {
      ScanEnd(s, v, n);
    } else if IsDigit(s[i]) {
      var w := 10 * v + DigitValue(s[i]);
      ScanDigitStep(s, i, v, n);
      ScanDigitsCorrect(s, i + 1, w, n + 1);
    } else if s[i] == '_' && i + 1 < |s| && IsDigit(s[i + 1]) {
      var w := 10 * v + DigitValue(s[i + 1]);
      ScanUnderscoreStep(s, i, v, n);
      ScanDigitsCorrect(s, i + 2, w, n + 1);
    } else {
      ScanStops(s, i, v, n);
    }
  }

  /** `int(s)` on an unsigned digit string, by the digit loop above. */
  function ParseMagnitude(s: string): (r: Option<nat>)
    ensures r.Some? <==> IsDecimal(s)
    ensures r.Some? ==> r.value == DigitsValue(RemoveUnderscores(s))
  {
    if |s| > 0 && IsDigit(s[0]) then
      assert s[..1] == [s[0]];
      ScanDigitsCorrect(s, 1, DigitValue(s[0]), 1);
      ScanDigits(s, 1, DigitValue(s[0]), 1)
    else None
  }

  predicate IsSign(c: char) { c == '+' || c == '-' }

  /** `int(s)` for a whitespace-free string: an optional sign, then digit
      groups; anything else is the `ValueError` case, `None`. */
  function ParseInt(s: string): (r: Option<int>)
    ensures r.Some? <==> IsDecimal(s) || (|s| > 0 && IsSign(s[0]) && IsDecimal(s[1..]))
    ensures r.Some? && IsDigit(s[0]) ==> r.value == DigitsValue(RemoveUnderscores(s))
    ensures r.Some? && s[0] == '+' ==> r.value == DigitsValue(RemoveUnderscores(s[1..]))
    ensures r.Some? && s[0] == '-' ==> r.value == -(DigitsValue(RemoveUnderscores(s[1..])) as int)
  {
    if |s| > 0 && IsSign(s[0]) then
      match ParseMagnitude(s[1..])
      case None => None
      case Some(m) => if s[0] == '-' then Some(-(m as int)) else Some(m as int)
    else
      match ParseMagnitude(s)
      case None => None
      case Some(m) => Some(m as int)
  }

  /** `int()` rejects a digit string longer than the limit. */
  lemma TooManyDigitsRejected(s: string)
    requires AllDigits(s) && |s| > MaxStrDigits
    ensures ParseInt(s) == None
    ensures ParseInt("+" + s) == None && ParseInt("-" + s) == None
  {
    assert RemoveUnderscores(s) == s;
    assert !IsDecimal(s);
    var plus, minus := "+" + s, "-" + s;
    assert plus[1..] == s && minus[1..] == s;
    assert !IsDigit(plus[0]) && !IsDigit(minus[0]);
  }

  /** `f"{n}"` for a non-negative `n`: shortest decimal digits. */
  function NatToString(n: nat): (s: string)
    ensures |s| > 0 && AllDigits(s)
    ensures DigitsValue(s) == n
    ensures s[0] == '0' ==> n == 0
  {
    if n < 10 then [DigitChar(n)]
    else
      var prefix := NatToString(n / 10);
      var s := prefix + [DigitChar(n % 10)];
      assert s[..|s| - 1] == prefix;
      s
  }

  /** `f"{n}"`: a minus sign for a negative `n`, then the digits. */
  function IntToString(n: int): (s: string)
    ensures |s| > 0
    ensures forall i :: 0 <= i < |s| ==> IsDigit(s[i]) || (i == 0 && s[i] == '-')
  {
    if n < 0 then "-" + NatToString(-n) else NatToString(n)
  }

  /** Round trip: `int(f"{n}") == n` for every integer whose decimal form is
      within the digit limit. */
  lemma ParseIntToString(n: int)
    requires |NatToString(if n < 0 then -n else n)| <= MaxStrDigits
    ensures ParseInt(IntToString(n)) == Some(n)
  {
    var s := IntToString(n);
    if n < 0 {
      assert s[1..] == NatToString(-n);
    }
  }
}
