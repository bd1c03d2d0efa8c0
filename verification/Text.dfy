/** String operations of the Go standard library that the modelled code leans on:
    three-way comparison, splitting and joining at one separator, and base 36 numerals. */
module Text {

  /** `strings.Compare`: the sign of the lexicographic order on code units. */
  function Compare(a: string, b: string): (c: int)
    ensures c == 0 <==> a == b
    ensures -1 <= c <= 1
  {
    if a == [] then (if b == [] then 0 else -1)
    else if b == [] then 1
    else if a[0] < b[0] then -1
    else if a[0] > b[0] then 1
    else
      assert a == [a[0]] + a[1..] && b == [b[0]] + b[1..];
      Compare(a[1..], b[1..])
  }

  lemma {:induction false} CompareAntisymmetric(a: string, b: string)
    ensures Compare(a, b) == -Compare(b, a)
  {
    if a != [] && b != [] && a[0] == b[0] {
      CompareAntisymmetric(a[1..], b[1..]);
    }
  }

  lemma {:induction false} CompareTransitive(a: string, b: string, c: string)
    requires Compare(a, b) <= 0 && Compare(b, c) <= 0
    ensures Compare(a, c) <= 0
    ensures Compare(a, b) < 0 || Compare(b, c) < 0 ==> Compare(a, c) < 0
  {
    if a != [] && b != [] && c != [] && a[0] == b[0] == c[0] {
      CompareTransitive(a[1..], b[1..], c[1..]);
    }
  }

  /** A common prefix never decides a comparison. */
  lemma {:induction false} CompareCommonPrefix(p: string, a: string, b: string)
    ensures Compare(p + a, p + b) == Compare(a, b)
  {
    if p == [] {
      assert p + a == a && p + b == b;
    } else {
      assert (p + a)[1..] == p[1..] + a && (p + b)[1..] == p[1..] + b;
      CompareCommonPrefix(p[1..], a, b);
    }
  }

  /** The lexicographic order: at the first difference the first is smaller, or it ends there. */
  ghost predicate Before(a: string, b: string) {
    exists k: nat :: SmallerAt(a, b, k)
  }

  predicate SmallerAt(a: string, b: string, k: nat) {
    k < |b| && k <= |a| && a[..k] == b[..k] && (k < |a| ==> a[k] < b[k])
  }

  lemma CompareIsLexicographic(a: string, b: string)
    ensures Compare(a, b) < 0 <==> Before(a, b)
    ensures Compare(a, b) > 0 <==> Before(b, a)
  {
    SmallerIsBefore(a, b);
    SmallerIsBefore(b, a);
    CompareAntisymmetric(a, b);
  }

  /** Behind a common first character the difference is one place earlier. */
  lemma SmallerInRest(a: string, b: string, k: nat)
    requires a != [] && b != [] && a[0] == b[0] && k > 0
    ensures SmallerAt(a, b, k) <==> SmallerAt(a[1..], b[1..], k - 1)
  {
    if k <= |a| && k <= |b| {
      assert a[..k] == [a[0]] + a[1..][..k - 1] && b[..k] == [b[0]] + b[1..][..k - 1];
      assert a[1..][..k - 1] == a[..k][1..] && b[1..][..k - 1] == b[..k][1..];
    }
  }

  lemma SmallerAtStart(a: string, b: string, k: nat)
    requires SmallerAt(a, b, k)
    ensures if k == 0 then a == [] || a[0] < b[0] else a != [] && a[0] == b[0]
  {
    assert k > 0 ==> a[..k][0] == a[0] && b[..k][0] == b[0];
  }

  lemma {:induction false} SmallerIsBefore(a: string, b: string)
    ensures Compare(a, b) < 0 <==> Before(a, b)
  {
    if k: nat :| SmallerAt(a, b, k) {
      SmallerAtStart(a, b, k);
      if k > 0 {
        SmallerInRest(a, b, k);
        SmallerIsBefore(a[1..], b[1..]);
      }
    }
    if Compare(a, b) < 0 {
      if a == [] || a[0] != b[0] {
        assert SmallerAt(a, b, 0);
      } else {
        SmallerIsBefore(a[1..], b[1..]);
        var k: nat :| SmallerAt(a[1..], b[1..], k);
        SmallerInRest(a, b, k + 1);
      }
    }
  }

  predicate Above(s: string, sep: char) {
    forall i :: 0 <= i < |s| ==> sep < s[i]
  }

  /** Fields put together with a separator below all their characters compare like the fields, one
      after the other. */
  lemma {:induction false} CompareFields(a: string, x: string, b: string, y: string, sep: char)
    requires Above(a, sep) && Above(b, sep)
    ensures Compare(a + ([sep] + x), b + ([sep] + y)) == if a != b then Compare(a, b) else Compare(x, y)
  {
    if a == b {
      CompareCommonPrefix(a, [sep] + x, [sep] + y);
      CompareCommonPrefix([sep], x, y);
    } else if a != [] && b != [] && a[0] == b[0] {
      assert a == [a[0]] + a[1..] && b == [b[0]] + b[1..];
      CompareFields(a[1..], x, b[1..], y, sep);
      assert (a + ([sep] + x))[1..] == a[1..] + ([sep] + x) && (b + ([sep] + y))[1..] == b[1..] + ([sep] + y);
    }
  }

  /** `strings.Split` at a one character separator. */
  function Split(s: string, sep: char): (parts: seq<string>)
    ensures parts != []
  {
    if s == [] then [[]]
    else
      var rest := Split(s[1..], sep);
      if s[0] == sep then [[]] + rest else [[s[0]] + rest[0]] + rest[1..]
  }

  /** `strings.Join` with a one character separator. */
  function Join(parts: seq<string>, sep: char): string {
    if parts == [] then []
    else if |parts| == 1 then parts[0]
    else parts[0] + [sep] + Join(parts[1..], sep)
  }

  ghost predicate Free(s: string, sep: char) {
    sep !in s
  }

  ghost predicate AllFree(parts: seq<string>, sep: char) {
    forall i :: 0 <= i < |parts| ==> Free(parts[i], sep)
  }

  lemma {:induction false} SplitFree(s: string, sep: char)
    requires Free(s, sep)
    ensures Split(s, sep) == [s]
  {
    if s != [] {
      SplitFree(s[1..], sep);
      assert s == [s[0]] + s[1..];
    }
  }

  lemma {:induction false} SplitHead(head: string, tail: string, sep: char)
    requires Free(head, sep)
    ensures Split(head + [sep] + tail, sep) == [head] + Split(tail, sep)
  {
    var whole := head + [sep] + tail;
    if head == [] {
      assert whole[1..] == tail;
    } else {
      assert whole[1..] == head[1..] + [sep] + tail;
      SplitHead(head[1..], tail, sep);
      assert [head[0]] + head[1..] == head;
    }
  }

  /** Splitting undoes joining whenever no part holds the separator. */
  lemma {:induction false} SplitJoin(parts: seq<string>, sep: char)
    requires parts != [] && AllFree(parts, sep)
    ensures Split(Join(parts, sep), sep) == parts
  {
    if |parts| == 1 {
      SplitFree(parts[0], sep);
    } else {
      SplitJoin(parts[1..], sep);
      SplitHead(parts[0], Join(parts[1..], sep), sep);
    }
  }

  /** Joining undoes splitting for every string, and split parts are separator free. */
  lemma {:induction false} JoinSplit(s: string, sep: char)
    ensures Join(Split(s, sep), sep) == s
    ensures AllFree(Split(s, sep), sep)
  {
    if s != [] {
      JoinSplit(s[1..], sep);
      var rest := Split(s[1..], sep);
      var parts := Split(s, sep);
      assert s == [s[0]] + s[1..];
      if s[0] == sep {
        assert parts[1..] == rest;
      } else {
        assert parts[1..] == rest[1..];
        if |rest| > 1 {
          assert parts[0] + [sep] + Join(parts[1..], sep) == [s[0]] + (rest[0] + [sep] + Join(rest[1..], sep));
        }
      }
    }
  }

  /** One lower case base 36 digit, as `strconv.FormatUint(_, 36)` writes it. */
  function Digit36(d: nat): char
    requires d < 36
  {
    if d < 10 then ('0' as int + d) as char else ('a' as int + d - 10) as char
  }

  function Format36(n: nat): (s: string)
    ensures s != []
  {
    if n < 36 then [Digit36(n)] else Format36(n / 36) + [Digit36(n % 36)]
  }

  /** Value of a digit for `strconv.ParseUint(_, 36, 64)`, either case; 36 marks a bad digit. */
  function Value36(c: char): (v: nat)
    ensures v <= 36
  {
    if '0' <= c <= '9' then c as int - '0' as int
    else if 'a' <= c <= 'z' then c as int - 'a' as int + 10
    else if 'A' <= c <= 'Z' then c as int - 'A' as int + 10
    else 36
  }

  datatype Parsed = NotANumber | Number(value: nat)

  function Parse36(s: string): Parsed {
    if s == [] then NotANumber
    else
      var v := Value36(s[|s| - 1]);
      if v == 36 then NotANumber
      else if |s| == 1 then Number(v)
      else
        match Parse36(s[..|s| - 1])
        case NotANumber => NotANumber
        case Number(n) => Number(36 * n + v)
  }

  const UINT64_LIMIT: nat := 0x1_0000_0000_0000_0000

  /** `strconv.ParseUint(s, 36, 64)`. */
  function ParseUint36(s: string): Parsed {
    match Parse36(s)
    case Number(n) => if n < UINT64_LIMIT then Number(n) else NotANumber
    case NotANumber => NotANumber
  }

  lemma {:induction false} Parse36Format36(n: nat)
    ensures Parse36(Format36(n)) == Number(n)
    ensures Free(Format36(n), '.')
  {
    if n >= 36 {
      Parse36Format36(n / 36);
      var s := Format36(n);
      assert s[..|s| - 1] == Format36(n / 36);
    }
  }
}
