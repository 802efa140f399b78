/** The JavaScript string operations the webhook handlers rely on, with the
    ECMAScript semantics they have there: `||` on possibly missing strings,
    `startsWith`, `includes`, `split`, `replace` with a string pattern,
    `trim` and the global `parseInt`. */
module JsText {
  import opened Wrappers

  /** A string field of a parsed JSON body or of a header: `None` stands for
      `undefined` or `null`. */
  type Field = Option<string>

  /** JavaScript truthiness of such a field: the missing value and the empty
      string are falsy. */
  predicate Truthy(f: Field) {
    f.Some? && f.value != ""
  }

  /** `a || b`: the first operand when it is truthy, the second otherwise. */
  function Or(a: Field, b: Field): (r: Field)
    ensures Truthy(r) <==> Truthy(a) || Truthy(b)
    ensures Truthy(a) ==> r == a
    ensures !Truthy(a) ==> r == b
  {
    if Truthy(a) then a else b
  }

  /** `s.startsWith(p)`. */
  predicate StartsWith(s: string, p: string) {
    p <= s
  }

  /** `s.includes(c)` for a one-character pattern. */
  predicate Includes(s: string, c: char) {
    c in s
  }

  // ---------------------------------------------------------------------
  // split

  /** Index of the first occurrence of `c` in `s`. */
  function IndexOf(s: string, c: char): (i: nat)
    requires c in s
    ensures i < |s| && s[i] == c && c !in s[..i]
  {
    if s[0] == c then 0
    else
      var j := IndexOf(s[1..], c);
      assert s[..j + 1] == [s[0]] + s[1..][..j];
      1 + j
  }

  /** The inverse of `Split`: the parts glued back with the separator. */
  function Join(parts: seq<string>, sep: char): string
    requires |parts| >= 1
  {
    if |parts| == 1 then parts[0] else parts[0] + [sep] + Join(parts[1..], sep)
  }

  /** `s.split(sep)` for a one-character separator: the maximal pieces of `s`
      between occurrences of `sep`, empty pieces included, so that there is
      always at least one part, no part contains the separator and joining
      the parts gives `s` back. */
  function Split(s: string, sep: char): (parts: seq<string>)
    ensures |parts| >= 1
    ensures |parts| >= 2 <==> sep in s
    ensures forall k :: 0 <= k < |parts| ==> sep !in parts[k]
    ensures Join(parts, sep) == s
    decreases |s|
  {
    if sep !in s then [s]
    else
      var i := IndexOf(s, sep);
      var rest := Split(s[i + 1..], sep);
      assert ([s[..i]] + rest)[1..] == rest;
      assert s == s[..i] + [sep] + s[i + 1..];
      [s[..i]] + rest
  }

  /** The first separator after a separator-free prefix is the one that ends it. */
  lemma {:induction false} IndexOfAfter(p: string, sep: char, rest: string)
    requires sep !in p
    ensures IndexOf(p + [sep] + rest, sep) == |p|
    decreases |p|
  {
    if p != [] {
      assert (p + [sep] + rest)[1..] == p[1..] + [sep] + rest;
      IndexOfAfter(p[1..], sep, rest);
    }
  }

  /** Splitting a joined sequence of separator-free parts gives the parts. */
  lemma {:induction false} SplitJoin(parts: seq<string>, sep: char)
    requires |parts| >= 1
    requires forall k :: 0 <= k < |parts| ==> sep !in parts[k]
    ensures Split(Join(parts, sep), sep) == parts
    decreases |parts|
  {
    if |parts| > 1 {
      var head, tail := parts[0], Join(parts[1..], sep);
      var s := head + [sep] + tail;
      assert Join(parts, sep) == s;
      assert Split(tail, sep) == parts[1..] by {
        SplitJoin(parts[1..], sep);
      }
      assert Split(s, sep) == [head] + Split(tail, sep) by {
        SplitAfter(head, sep, tail);
      }
      assert parts == [head] + parts[1..];
    }
  }

  /** Three separator-free segments joined by the separator split back into
      themselves. */
  lemma SplitThree(a: string, b: string, c: string, sep: char)
    requires sep !in a && sep !in b && sep !in c
    ensures Split(a + [sep] + b + [sep] + c, sep) == [a, b, c]
  {
    var parts := [a, b, c];
    assert parts[1..] == [b, c];
    assert [b, c][1..] == [c];
    assert Join([b, c], sep) == b + [sep] + c;
    assert Join(parts, sep) == a + [sep] + (b + [sep] + c);
    assert a + [sep] + (b + [sep] + c) == a + [sep] + b + [sep] + c;
    SplitJoin(parts, sep);
  }

  /** Two separator-free segments joined by the separator split back into
      themselves. */
  lemma SplitTwo(a: string, b: string, sep: char)
    requires sep !in a && sep !in b
    ensures Split(a + [sep] + b, sep) == [a, b]
  {
    var parts := [a, b];
    assert parts[1..] == [b];
    assert Join(parts, sep) == a + [sep] + b;
    SplitJoin(parts, sep);
  }

  /** A separator-free prefix followed by the separator is the first part. */
  lemma SplitAfter(head: string, sep: char, tail: string)
    requires sep !in head
    ensures Split(head + [sep] + tail, sep) == [head] + Split(tail, sep)
  {
    var s := head + [sep] + tail;
    assert s[|head|] == sep;
    IndexOfAfter(head, sep, tail);
    assert s[..|head|] == head;
    assert s[|head| + 1..] == tail;
  }

  // ---------------------------------------------------------------------
  // replace

  /** `pat` occurs in `s` starting at index `i`. */
  predicate OccursAt(s: string, pat: string, i: nat) {
    i + |pat| <= |s| && s[i..i + |pat|] == pat
  }

  /** The first index at or after `from` where `pat` occurs in `s`. */
  function FirstOccurrence(s: string, pat: string, from: nat): (r: Option<nat>)
    requires from <= |s|
    ensures r.Some? ==> from <= r.value && OccursAt(s, pat, r.value)
    ensures r.Some? ==> forall j :: from <= j < r.value ==> !OccursAt(s, pat, j)
    ensures r.None? ==> forall j :: from <= j ==> !OccursAt(s, pat, j)
    decreases |s| - from
  {
    if OccursAt(s, pat, from) then Some(from)
    else if from == |s| then None
    else FirstOccurrence(s, pat, from + 1)
  }

  /** `s.replace(pat, '')`: a string pattern replaces only its first
      occurrence, wherever it is; without one `s` is returned as it is. */
  function RemoveFirst(s: string, pat: string): (r: string)
    ensures FirstOccurrence(s, pat, 0).None? ==> r == s
    ensures FirstOccurrence(s, pat, 0).Some? ==>
      var i := FirstOccurrence(s, pat, 0).value;
      |r| == |s| - |pat| && r[..i] + pat + r[i..] == s
  {
    match FirstOccurrence(s, pat, 0)
    case None => s
    case Some(i) =>
      var r := s[..i] + s[i + |pat|..];
      assert r[..i] == s[..i] && r[i..] == s[i + |pat|..];
      r
  }

  /** A string that starts with the pattern loses exactly that prefix. */
  lemma RemoveLeadingPattern(pat: string, rest: string)
    ensures RemoveFirst(pat + rest, pat) == rest
  {
    var s := pat + rest;
    assert OccursAt(s, pat, 0) by { assert s[0..|pat|] == pat; }
    assert FirstOccurrence(s, pat, 0) == Some(0);
    assert s[|pat|..] == rest;
  }

  // ---------------------------------------------------------------------
  // trim

  /** The WhiteSpace and LineTerminator code points of ECMAScript, which
      `trim` and `parseInt` skip. */
  const JsSpaces: set<char> := {
    '\t', '\n', '\U{B}', '\U{C}', '\r', ' ', '\U{A0}', '\U{1680}',
    '\U{2000}', '\U{2001}', '\U{2002}', '\U{2003}', '\U{2004}', '\U{2005}',
    '\U{2006}', '\U{2007}', '\U{2008}', '\U{2009}', '\U{200A}',
    '\U{2028}', '\U{2029}', '\U{202F}', '\U{205F}', '\U{3000}', '\U{FEFF}'
  }

  predicate IsSpace(c: char) {
    c in JsSpaces
  }

  predicate AllSpace(s: string) {
    forall k :: 0 <= k < |s| ==> IsSpace(s[k])
  }

  /** Neither end of `s` is white space. */
  predicate Trimmed(s: string) {
    s == [] || (!IsSpace(s[0]) && !IsSpace(s[|s| - 1]))
  }

  /** `s` without its leading white space. */
  function TrimStart(s: string): (r: string)
    ensures |r| <= |s| && r == s[|s| - |r|..]
    ensures AllSpace(s[..|s| - |r|])
    ensures r == [] || !IsSpace(r[0])
  {
    if s != [] && IsSpace(s[0]) then
      var r := TrimStart(s[1..]);
      assert s[..|s| - |r|] == [s[0]] + s[1..][..|s| - 1 - |r|];
      r
    else s
  }

  /** `s` without its trailing white space. */
  function TrimEnd(s: string): (r: string)
    ensures |r| <= |s| && r == s[..|r|]
    ensures AllSpace(s[|r|..])
    ensures r == [] || !IsSpace(r[|r| - 1])
  {
    if s != [] && IsSpace(s[|s| - 1]) then
      var r := TrimEnd(s[..|s| - 1]);
      assert s[|r|..] == s[..|s| - 1][|r|..] + [s[|s| - 1]];
      r
    else s
  }

  /** `s.trim()`. */
  function Trim(s: string): (r: string)
    ensures Trimmed(r)
  {
    TrimEnd(TrimStart(s))
  }

  /** Trimming removes exactly the white space padding around a trimmed
      string. */
  lemma {:induction false} TrimPadded(w1: string, k: string, w2: string)
    requires AllSpace(w1) && AllSpace(w2) && Trimmed(k)
    ensures Trim(w1 + k + w2) == k
  {
    var tail := k + w2;
    assert w1 + k + w2 == w1 + tail;
    if k == [] {
      assert tail == w2;
      TrimStartPadded(w1, w2);
      TrimStartAllSpace(w2);
      TrimStartPadded(w1, []);
    } else {
      assert tail[0] == k[0];
      TrimStartPadded(w1, tail);
      TrimEndPadded(k, w2);
    }
  }

  lemma {:induction false} TrimStartAllSpace(w: string)
    requires AllSpace(w)
    ensures TrimStart(w) == []
    decreases |w|
  {
    if w != [] {
      TrimStartAllSpace(w[1..]);
    }
  }

  lemma {:induction false} TrimStartPadded(w: string, s: string)
    requires AllSpace(w)
    ensures s == [] || !IsSpace(s[0]) ==> TrimStart(w + s) == s
    ensures s != [] && IsSpace(s[0]) ==> TrimStart(w + s) == TrimStart(s)
    decreases |w|
  {
    if w != [] {
      assert (w + s)[1..] == w[1..] + s;
      TrimStartPadded(w[1..], s);
    } else {
      assert w + s == s;
    }
  }

  lemma {:induction false} TrimEndPadded(k: string, w: string)
    requires AllSpace(w) && k != [] && !IsSpace(k[|k| - 1])
    ensures TrimEnd(k + w) == TrimEnd(k)
    ensures TrimEnd(k) == k
    decreases |w|
  {
    if w != [] {
      assert (k + w)[..|k + w| - 1] == k + w[..|w| - 1];
      TrimEndPadded(k, w[..|w| - 1]);
    } else {
      assert k + w == k;
    }
  }

  // ---------------------------------------------------------------------
  // parseInt

  /** The value of `c` as a digit in bases up to 16 (`0-9`, `a-f`, `A-F`). */
  function DigitValue(c: char): Option<nat> {
    if '0' <= c <= '9' then Some(c as nat - '0' as nat)
    else if 'a' <= c <= 'f' then Some(c as nat - 'a' as nat + 10)
    else if 'A' <= c <= 'F' then Some(c as nat - 'A' as nat + 10)
    else None
  }

  predicate IsDigitIn(c: char, radix: nat) {
    DigitValue(c).Some? && DigitValue(c).value < radix
  }

  /** Length of the longest prefix of `s` made of digits of `radix`. */
  function DigitPrefix(s: string, radix: nat): (n: nat)
    ensures n <= |s|
    ensures forall k :: 0 <= k < n ==> IsDigitIn(s[k], radix)
    ensures n < |s| ==> !IsDigitIn(s[n], radix)
  {
    if s == [] || !IsDigitIn(s[0], radix) then 0
    else 1 + DigitPrefix(s[1..], radix)
  }

  /** The number a string of digits of `radix` denotes. */
  function ValueOf(digits: string, radix: nat): int
    requires forall k :: 0 <= k < |digits| ==> IsDigitIn(digits[k], radix)
  {
    if digits == [] then 0
    else
      var last := digits[|digits| - 1];
      assert IsDigitIn(last, radix);
      ValueOf(digits[..|digits| - 1], radix) * radix + DigitValue(last).value
  }

  /** The longest run of digits of `radix` at the start of `body`, read as a
      number; `None` when there is none. */
  function LeadingNumber(body: string, radix: nat): Option<int>
  {
    var n := DigitPrefix(body, radix);
    if n == 0 then None else Some(ValueOf(body[..n], radix))
  }

  /** The unsigned part of `parseInt`: `0x`/`0X` switches to hexadecimal,
      then the longest run of digits is read; `None` when there is none. */
  function ParseUnsigned(u: string): Option<int>
  {
    if |u| >= 2 && u[0] == '0' && (u[1] == 'x' || u[1] == 'X') then LeadingNumber(u[2..], 16)
    else LeadingNumber(u, 10)
  }

  /** `t` begins with a minus sign. */
  predicate Negative(t: string) {
    t != [] && t[0] == '-'
  }

  /** `t` without its sign, if it has one. */
  function Unsigned(t: string): string {
    if t != [] && (t[0] == '-' || t[0] == '+') then t[1..] else t
  }

  /** The global `parseInt(s)` with no radix: leading white space skipped, an
      optional sign, then the unsigned part; `None` stands for NaN (no digit
      at all). The Number rounding of values beyond 2^53 is not modelled. */
  function ParseInt(s: string): (r: Option<int>)
  {
    var t := TrimStart(s);
    var magnitude := ParseUnsigned(Unsigned(t));
    if magnitude.None? then None
    else if Negative(t) then Some(-magnitude.value)
    else Some(magnitude.value)
  }

  /** The decimal digits of `n`, most significant first, with no leading zero. */
  function Digits(n: nat): (d: string)
    ensures |d| >= 1
    ensures forall k :: 0 <= k < |d| ==> IsDigitIn(d[k], 10)
  {
    if n < 10 then ['0' + n as char]
    else Digits(n / 10) + ['0' + (n % 10) as char]
  }

  /** `String(n)` for an integer `n`. */
  function DecimalString(n: int): string {
    if n < 0 then "-" + Digits(-n) else Digits(n)
  }

  lemma {:induction false} ValueOfDigits(n: nat)
    ensures ValueOf(Digits(n), 10) == n
  {
    if n >= 10 {
      var d := Digits(n);
      assert d[..|d| - 1] == Digits(n / 10);
      ValueOfDigits(n / 10);
    }
  }

  /** The digit run of `d + junk` is exactly `d` when `junk` does not go on
      with a digit. */
  lemma {:induction false} DigitPrefixStops(d: string, junk: string, radix: nat)
    requires forall k :: 0 <= k < |d| ==> IsDigitIn(d[k], radix)
    requires junk == [] || !IsDigitIn(junk[0], radix)
    ensures DigitPrefix(d + junk, radix) == |d|
    decreases |d|
  {
    if d == [] {
      assert d + junk == junk;
    } else {
      assert (d + junk)[1..] == d[1..] + junk;
      DigitPrefixStops(d[1..], junk, radix);
    }
  }

  lemma UnsignedOfDigits(m: nat, junk: string)
    requires junk == [] || (!IsDigitIn(junk[0], 10) && junk[0] != 'x' && junk[0] != 'X')
    ensures ParseUnsigned(Digits(m) + junk) == Some(m)
  {
    var d := Digits(m);
    var u := d + junk;
    assert !(|u| >= 2 && u[0] == '0' && (u[1] == 'x' || u[1] == 'X')) by {
      if |u| >= 2 {
        if |d| >= 2 { assert u[1] == d[1]; } else { assert u[1] == junk[0]; }
      }
    }
    DigitPrefixStops(d, junk, 10);
    assert DigitPrefix(u, 10) == |d|;
    assert u[..|d|] == d;
    ValueOfDigits(m);
    assert ValueOf(u[..|d|], 10) == m;
  }

  /** Without a sign in front, `parseInt` is its unsigned part. */
  lemma ParseIntUnsigned(u: string)
    requires u != [] && !IsSpace(u[0]) && u[0] != '-' && u[0] != '+'
    ensures ParseInt(u) == ParseUnsigned(u)
  {
    assert TrimStart(u) == u;
  }

  /** A leading minus negates the unsigned part. */
  lemma ParseIntNegated(u: string)
    ensures ParseInt("-" + u) == if ParseUnsigned(u).Some? then Some(-ParseUnsigned(u).value) else None
  {
    var s := "-" + u;
    assert s[0] == '-' && !IsSpace('-');
    assert TrimStart(s) == s;
    assert Negative(s) && Unsigned(s) == u;
  }

  /** `parseInt` reads back the decimal form of any integer, also when other
      text that is not a digit (and not an `x` that would turn `0` into a
      hexadecimal prefix) follows it. */
  lemma ParseIntOfDecimal(n: int, junk: string)
    requires junk == [] || (!IsDigitIn(junk[0], 10) && junk[0] != 'x' && junk[0] != 'X')
    ensures ParseInt(DecimalString(n) + junk) == Some(n)
  {
    if n < 0 {
      var u := Digits(-n) + junk;
      calc {
        ParseInt(DecimalString(n) + junk);
        { assert DecimalString(n) + junk == "-" + u; }
        ParseInt("-" + u);
        { ParseIntOfNegative(n, junk); }
        Some(n);
      }
    } else {
      calc {
        ParseInt(DecimalString(n) + junk);
        { assert DecimalString(n) == Digits(n); }
        ParseInt(Digits(n) + junk);
        { ParseIntOfDigits(n, junk); }
        Some(n);
      }
    }
  }

  lemma ParseIntOfDigits(n: nat, junk: string)
    requires junk == [] || (!IsDigitIn(junk[0], 10) && junk[0] != 'x' && junk[0] != 'X')
    ensures ParseInt(Digits(n) + junk) == Some(n)
  {
    DigitsLead(n, junk);
    UnsignedOfDigits(n, junk);
    ParseIntUnsigned(Digits(n) + junk);
  }

  lemma ParseIntOfNegative(n: int, junk: string)
    requires n < 0
    requires junk == [] || (!IsDigitIn(junk[0], 10) && junk[0] != 'x' && junk[0] != 'X')
    ensures ParseInt("-" + (Digits(-n) + junk)) == Some(n)
  {
    var u := Digits(-n) + junk;
    assert ParseUnsigned(u) == Some(-n) by {
      UnsignedOfDigits(-n, junk);
    }
    ParseIntNegated(u);
  }

  lemma DigitsLead(n: nat, junk: string)
    ensures var u := Digits(n) + junk; u != [] && !IsSpace(u[0]) && u[0] != '-' && u[0] != '+'
  {
    var d := Digits(n);
    assert IsDigitIn(d[0], 10);
    assert (d + junk)[0] == d[0];
  }
}
