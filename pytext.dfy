/**
 * The parts of Python's built-in behaviour that the downloader relies on:
 * substring search (`sep in s`), `s.split(sep)[1]`, `s.strip(chars)`,
 * `int(s)` on a string, `str(n)` on a natural number, a slice `xs[:k]`
 * and the two-argument `os.path.join`, together with the exceptions they raise.
 */
module PyText {
  import opened Wrappers

  /** The Python exceptions that can escape a request handler. */
  datatype PyException =
    | KeyError(key: string)          // a dict lookup `d[key]` on a missing key
    | ValueError(literal: string)    // `int(literal)` on a string that is not an integer
    | TypeError                      // `int(None)`
    | FileNotFoundError(path: string) // `os.listdir(path)` on a path that does not exist
    | ConnectionError(url: string)   // `requests.get(url)` that gets no response at all

  // ---------------------------------------------------------------------
  // Substring search

  /** `sep` occurs in `s` starting at index `i`. */
  predicate OccursAt(s: string, sep: string, i: int) {
    0 <= i && i + |sep| <= |s| && s[i..i + |sep|] == sep
  }

  /** Python's `s.find(sep, start)`: the first index at or after `start` where `sep` occurs. */
  function FindFrom(s: string, sep: string, start: nat): (r: Option<nat>)
    decreases |s| - start
    ensures r.Some? ==> start <= r.value && OccursAt(s, sep, r.value)
    ensures r.Some? ==> forall j :: start <= j < r.value ==> !OccursAt(s, sep, j)
    ensures r.None? ==> forall j :: start <= j ==> !OccursAt(s, sep, j)
  {
    if start + |sep| > |s| then None
    else if s[start..start + |sep|] == sep then Some(start)
    else FindFrom(s, sep, start + 1)
  }

  /** Python's `s.find(sep)`. */
  function Find(s: string, sep: string): (r: Option<nat>)
    ensures r.Some? ==> OccursAt(s, sep, r.value) && forall j :: 0 <= j < r.value ==> !OccursAt(s, sep, j)
    ensures r.None? <==> forall j :: !OccursAt(s, sep, j)
  {
    FindFrom(s, sep, 0)
  }

  /** The first occurrence is the one `find` reports. */
  lemma FindFirst(s: string, sep: string, p: nat)
    requires OccursAt(s, sep, p)
    requires forall j :: 0 <= j < p ==> !OccursAt(s, sep, j)
    ensures Find(s, sep) == Some(p)
  {
  }

  /** Python's `sep in s`. */
  predicate Contains(s: string, sep: string) {
    exists i | 0 <= i <= |s| :: OccursAt(s, sep, i)
  }

  /** `sep in s` exactly when `s.find(sep)` finds it. */
  lemma ContainsFind(s: string, sep: string)
    ensures Contains(s, sep) <==> Find(s, sep).Some?
  {
  }

  /** An occurrence inside a slice of `s` is an occurrence in `s`. */
  lemma OccursInSlice(s: string, sep: string, lo: nat, hi: nat, i: int)
    requires lo <= hi <= |s| && OccursAt(s[lo..hi], sep, i)
    ensures OccursAt(s, sep, lo + i)
  {
    forall k | 0 <= k < |sep| ensures s[lo + i + k] == sep[k] {
      assert s[lo..hi][i + k] == s[lo + i + k];
    }
    assert s[lo + i..lo + i + |sep|] == sep;
  }

  /**
   * Python's `s.split(sep)[1]`: the text between the first occurrence of `sep`
   * and the next one (or the end). `None` stands for the IndexError raised when
   * `sep` does not occur; Python refuses an empty separator.
   */
  function SplitSecond(s: string, sep: string): (r: Option<string>)
    requires sep != []
    ensures r.None? <==> !Contains(s, sep)
    ensures r.Some? ==>
      var rest := s[Find(s, sep).value + |sep|..];
      && r.value <= rest
      && !Contains(r.value, sep)
      && (r.value == rest || OccursAt(rest, sep, |r.value|))
      && forall j :: 0 <= j < |r.value| ==> !OccursAt(rest, sep, j)
  {
    match Find(s, sep)
    case None => None
    case Some(i) =>
      var rest := s[i + |sep|..];
      match Find(rest, sep)
      case None => Some(rest)
      case Some(j) =>
        var segment := rest[..j];
        assert !Contains(segment, sep) by {
          forall p | OccursAt(segment, sep, p) ensures false {
            OccursInSlice(rest, sep, 0, j, p);
          }
        }
        Some(segment)
  }

  // ---------------------------------------------------------------------
  // Stripping

  /**
   * The characters a strip removes: `Some(cs)`, the `chars` argument of
   * `str.strip`, removes exactly the characters of `cs`; `None` removes the
   * whitespace `int()` ignores around a number (`IsIntSpace`).
   */
  predicate Strips(chars: Option<set<char>>, c: char) {
    match chars
    case None => IsIntSpace(c)
    case Some(cs) => c in cs
  }

  /** Where `s.lstrip(chars)` starts: the first index at or after `i` whose character is kept. */
  function KeptFrom(s: string, chars: Option<set<char>>, i: nat): (a: nat)
    requires i <= |s|
    decreases |s| - i
    ensures i <= a <= |s|
    ensures forall k :: i <= k < a ==> Strips(chars, s[k])
    ensures a == |s| || !Strips(chars, s[a])
  {
    if i == |s| || !Strips(chars, s[i]) then i else KeptFrom(s, chars, i + 1)
  }

  /** Where `s.rstrip(chars)` ends, looking back from `j` no further than `lo`. */
  function KeptUntil(s: string, chars: Option<set<char>>, lo: nat, j: nat): (b: nat)
    requires lo <= j <= |s|
    decreases j
    ensures lo <= b <= j
    ensures forall k :: b <= k < j ==> Strips(chars, s[k])
    ensures b == lo || !Strips(chars, s[b - 1])
  {
    if j == lo || !Strips(chars, s[j - 1]) then j else KeptUntil(s, chars, lo, j - 1)
  }

  /** `s` is `r` placed at index `a` between two runs of stripped characters. */
  predicate FramedAt(s: string, r: string, a: int, chars: Option<set<char>>) {
    && 0 <= a <= |s| - |r|
    && s[a..a + |r|] == r
    && (forall k :: 0 <= k < a ==> Strips(chars, s[k]))
    && (forall k :: a + |r| <= k < |s| ==> Strips(chars, s[k]))
  }

  /** Neither end of `r` is a stripped character. */
  predicate KeptEnds(r: string, chars: Option<set<char>>) {
    r == [] || (!Strips(chars, r[0]) && !Strips(chars, r[|r| - 1]))
  }

  /**
   * `s.strip(chars)`: `s` is the result framed by a run of stripped characters
   * on each side, and the result neither starts nor ends with one.
   */
  function Strip(s: string, chars: Option<set<char>>): (r: string)
    ensures KeptEnds(r, chars)
    ensures exists a :: FramedAt(s, r, a, chars)
  {
    var a := KeptFrom(s, chars, 0);
    var b := KeptUntil(s, chars, a, |s|);
    assert FramedAt(s, s[a..b], a, chars);
    s[a..b]
  }

  /** Conversely, a text framed by stripped characters, with kept ends, is what `strip` returns. */
  lemma StripOf(s: string, r: string, a: int, chars: Option<set<char>>)
    requires FramedAt(s, r, a, chars) && KeptEnds(r, chars)
    ensures Strip(s, chars) == r
  {
    var a' := KeptFrom(s, chars, 0);
    if r != [] {
      assert s[a] == r[0];
      assert s[a + |r| - 1] == r[|r| - 1];
      assert a' == a;
      var b' := KeptUntil(s, chars, a', |s|);
      assert b' == a + |r|;
    } else {
      assert a' == |s|;
    }
  }

  /** A text that does not contain `sep` still does not after stripping. */
  lemma StripKeepsAbsence(s: string, sep: string, chars: Option<set<char>>)
    requires !Contains(s, sep)
    ensures !Contains(Strip(s, chars), sep)
  {
    var r := Strip(s, chars);
    var a :| FramedAt(s, r, a, chars);
    forall p | OccursAt(r, sep, p) ensures false {
      OccursInSlice(s, sep, a, a + |r|, p);
    }
  }

  /** Stripping changes nothing exactly when neither end is a stripped character. */
  lemma StripUnchanged(s: string, chars: Option<set<char>>)
    ensures Strip(s, chars) == s <==> KeptEnds(s, chars)
  {
    if KeptEnds(s, chars) {
      assert s[0..|s|] == s;
      StripOf(s, s, 0, chars);
    }
  }

  /** Stripping twice is stripping once. */
  lemma StripIdempotent(s: string, chars: Option<set<char>>)
    ensures Strip(Strip(s, chars), chars) == Strip(s, chars)
  {
    StripUnchanged(Strip(s, chars), chars);
  }

  // ---------------------------------------------------------------------
  // Integers and their decimal text

  predicate IsDigit(c: char) {
    '0' <= c <= '9'
  }

  predicate AllDigits(s: string) {
    forall k :: 0 <= k < |s| ==> IsDigit(s[k])
  }

  /**
   * The characters Python's `int()` ignores at both ends of its argument: the
   * ASCII whitespace `\t \n \v \f \r` and space, and the non-ASCII characters
   * for which `str.isspace` holds (`int()` turns those into spaces first).
   * The ASCII separators U+001C..U+001F count as whitespace for `str.isspace`
   * but not for `int()`.
   */
  predicate IsIntSpace(c: char) {
    var n := c as int;
    (9 <= n <= 13) || n == 32 || n == 0x85 || n == 0xA0 || n == 0x1680
    || (0x2000 <= n <= 0x200A) || n == 0x2028 || n == 0x2029 || n == 0x202F
    || n == 0x205F || n == 0x3000
  }

  /**
   * The digits of a base-10 integer as `int()` accepts them: one digit, then
   * digits each optionally preceded by a single underscore.
   */
  predicate IsDigitPart(s: string) {
    s != [] && IsDigit(s[0]) && DigitGroups(s[1..])
  }

  /** What follows the first digit of a digit part: `(["_"] digit)*`. */
  predicate DigitGroups(s: string)
    decreases |s|
  {
    if s == [] then true
    else if IsDigit(s[0]) then DigitGroups(s[1..])
    else s[0] == '_' && |s| >= 2 && IsDigit(s[1]) && DigitGroups(s[2..])
  }

  /** A non-empty run of digit groups ends in a digit. */
  lemma {:induction false} DigitGroupsEnd(s: string)
    requires s != [] && DigitGroups(s)
    ensures IsDigit(s[|s| - 1])
  {
    if IsDigit(s[0]) {
      if |s| > 1 {
        DigitGroupsEnd(s[1..]);
      }
    } else if |s| > 2 {
      DigitGroupsEnd(s[2..]);
    }
  }

  /** A digit part ends in a digit, so `int()` has nothing to strip at either end of it. */
  lemma DigitPartEnds(s: string)
    requires IsDigitPart(s)
    ensures IsDigit(s[|s| - 1])
  {
    if |s| > 1 {
      DigitGroupsEnd(s[1..]);
    }
  }

  /** One more digit extends a run of digit groups. */
  lemma {:induction false} DigitGroupsAppend(s: string, c: char)
    requires DigitGroups(s) && IsDigit(c)
    ensures DigitGroups(s + [c])
  {
    if s == [] {
      assert (s + [c])[1..] == [];
    } else if IsDigit(s[0]) {
      DigitGroupsAppend(s[1..], c);
      assert (s + [c])[1..] == s[1..] + [c];
    } else {
      DigitGroupsAppend(s[2..], c);
      assert (s + [c])[2..] == s[2..] + [c];
    }
  }

  /** The number a digit part denotes; underscores carry no value. */
  function DigitsValue(s: string): (v: nat)
  {
    if s == [] then 0
    else if IsDigit(s[|s| - 1]) then DigitsValue(s[..|s| - 1]) * 10 + (s[|s| - 1] as int - '0' as int)
    else DigitsValue(s[..|s| - 1])
  }

  /**
   * Python's `int(s)` on a string: surrounding whitespace is ignored, one
   * optional sign, then a digit part; anything else raises ValueError.
   */
  function ParseInt(s: string): (r: Result<int, PyException>)
    ensures r.Failure? ==> r.error == ValueError(s)
  {
    match ParseSigned(Strip(s, None))
    case None => Failure(ValueError(s))
    case Some(v) => Success(v)
  }

  /** What `int()` makes of its argument once whitespace is stripped: one optional sign, then a digit part. */
  function ParseSigned(t: string): (r: Option<int>)
    ensures r.Some? <==> IsDigitPart(t) || (t != [] && (t[0] == '-' || t[0] == '+') && IsDigitPart(t[1..]))
  {
    var signed := t != [] && (t[0] == '-' || t[0] == '+');
    var body := if signed then t[1..] else t;
    if !IsDigitPart(body) then None
    else
      var v: int := DigitsValue(body);
      Some(if signed && t[0] == '-' then -v else v)
  }

  /** `int()` refuses U+001C next to the number, although `str.isspace` holds for it. */
  lemma SeparatorNotIgnored()
    ensures ParseInt([28 as char, '5']) == Failure(ValueError([28 as char, '5']))
  {
    var s := [28 as char, '5'];
    assert s[0..|s|] == s;
    StripOf(s, s, 0, None);
    assert !IsDigitPart(s);
  }

  /** Python's `str(n)` for a natural number: its decimal digits, without leading zeros. */
  function Decimal(n: nat): (s: string)
    ensures s != [] && AllDigits(s)
    ensures |s| > 1 ==> s[0] != '0'
  {
    var digit := ('0' as int + n % 10) as char;
    if n < 10 then [digit] else Decimal(n / 10) + [digit]
  }

  /** Reading back the decimal text of `n` gives `n`. */
  lemma {:induction false} DecimalValue(n: nat)
    ensures DigitsValue(Decimal(n)) == n
  {
    if n >= 10 {
      var s := Decimal(n);
      assert s[..|s| - 1] == Decimal(n / 10);
      DecimalValue(n / 10);
    }
  }

  /** `int(str(n)) == n`. */
  lemma ParseIntOfDecimal(n: nat)
    ensures ParseInt(Decimal(n)) == Success(n)
  {
    DecimalValue(n);
    DecimalIsDigitPart(n);
    ParseIntOfDigits(Decimal(n), n);
  }

  /** `int("-" + str(n)) == -n`. */
  lemma ParseIntOfNegatedDecimal(n: nat)
    ensures ParseInt("-" + Decimal(n)) == Success(0 - n)
  {
    DecimalValue(n);
    DecimalIsDigitPart(n);
    ParseIntOfNegatedDigits(Decimal(n), n);
  }

  /** A bare digit part is read as the number `v` it denotes. */
  lemma ParseIntOfDigits(s: string, v: nat)
    requires IsDigitPart(s) && DigitsValue(s) == v
    ensures ParseInt(s) == Success(v)
  {
    DigitPartEnds(s);
    assert KeptEnds(s, None);
    StripUnchanged(s, None);
  }

  /** A digit part after a minus sign is read as the negated number. */
  lemma ParseIntOfNegatedDigits(s: string, v: nat)
    requires IsDigitPart(s) && DigitsValue(s) == v
    ensures ParseInt("-" + s) == Success(0 - v)
  {
    var m := "-" + s;
    assert Strip(m, None) == m by {
      DigitPartEnds(s);
      assert m[|m| - 1] == s[|s| - 1];
      StripUnchanged(m, None);
    }
    assert m[1..] == s;
  }

  /** The decimal text of a natural number is a digit part. */
  lemma {:induction false} DecimalIsDigitPart(n: nat)
    ensures IsDigitPart(Decimal(n))
  {
    var s := Decimal(n);
    if n < 10 {
      assert s[1..] == [];
    } else {
      var p := Decimal(n / 10);
      var d := s[|s| - 1];
      assert s == p + [d];
      DecimalIsDigitPart(n / 10);
      DigitGroupsAppend(p[1..], d);
      assert s[1..] == p[1..] + [d];
    }
  }

  /** Different natural numbers have different decimal text. */
  lemma DecimalInjective(a: nat, b: nat)
    requires Decimal(a) == Decimal(b)
    ensures a == b
  {
    DecimalValue(a);
    DecimalValue(b);
  }

  // ---------------------------------------------------------------------
  // Slices and paths

  /**
   * Python's `xs[:k]`: a prefix of `xs`; a non-negative `k` keeps at most `k`
   * elements, a negative `k` drops the last `-k` elements.
   */
  function SliceTo<T>(xs: seq<T>, k: int): (r: seq<T>)
    ensures |r| <= |xs| && r == xs[..|r|]
    ensures 0 <= k ==> |r| == if k < |xs| then k else |xs|
    ensures k < 0 ==> |r| == if -k < |xs| then |xs| + k else 0
  {
    if k >= |xs| then xs
    else if k >= 0 then xs[..k]
    else if -k < |xs| then xs[..|xs| + k]
    else []
  }

  /**
   * Python's `os.path.join(a, b)` on POSIX: an absolute `b` replaces `a`;
   * otherwise a `/` is put between them unless `a` is empty or already ends in one.
   */
  function PathJoin(a: string, b: string): string {
    if b != [] && b[0] == '/' then b
    else if a == [] || a[|a| - 1] == '/' then a + b
    else a + "/" + b
  }

  /** The name ends the joined path; an absolute name replaces the directory, a relative one extends it. */
  lemma PathJoinShape(a: string, b: string)
    ensures var r := PathJoin(a, b);
      && |b| <= |r| && r[|r| - |b|..] == b
      && (b != [] && b[0] == '/' ==> r == b)
      && ((b == [] || b[0] != '/') ==> a <= r && |r| >= |a| + |b|)
  {
  }

  /** Joining one directory with two relative names gives two paths exactly when the names differ. */
  lemma PathJoinInjective(dir: string, x: string, y: string)
    requires x == [] || x[0] != '/'
    requires y == [] || y[0] != '/'
    requires PathJoin(dir, x) == PathJoin(dir, y)
    ensures x == y
  {
    var p := PathJoin(dir, x);
    var head := if dir == [] || dir[|dir| - 1] == '/' then dir else dir + "/";
    assert PathJoin(dir, x) == head + x && PathJoin(dir, y) == head + y;
    assert x == p[|head|..] && y == p[|head|..];
  }
}
