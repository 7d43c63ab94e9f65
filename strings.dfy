/**
 * The parts of Rust's `str`/`String` API that the bot relies on, stated over `seq<char>`:
 * `split`, `join`, `lines`, `trim`, `to_lowercase`, `starts_with`, integer rendering and
 * parsing, UTF-8 byte length and the byte-wise ordering of `String::cmp`.
 */
module Strings {
  import opened Wrappers

  const U64_MAX: nat := 0xFFFF_FFFF_FFFF_FFFF
  const I64_MAX: nat := 0x7FFF_FFFF_FFFF_FFFF

  predicate StartsWith(s: string, prefix: string) {
    |prefix| <= |s| && s[..|prefix|] == prefix
  }

  predicate EndsWith(s: string, suffix: string) {
    |suffix| <= |s| && s[|s| - |suffix|..] == suffix
  }

  // ---------------------------------------------------------------------------
  // trim

  /** `char::is_whitespace`: the characters with the Unicode White_Space property. */
  predicate IsWhitespace(c: char) {
    ('\t' <= c <= '\r') || c == ' ' || c == '\U{0085}' || c == '\U{00A0}' || c == '\U{1680}'
    || ('\U{2000}' <= c <= '\U{200A}') || c == '\U{2028}' || c == '\U{2029}'
    || c == '\U{202F}' || c == '\U{205F}' || c == '\U{3000}'
  }

  /** Neither end of `s` is whitespace. */
  predicate Trimmed(s: string) {
    s == [] || (!IsWhitespace(s[0]) && !IsWhitespace(s[|s| - 1]))
  }

  /** `trim_start`: drops the longest all-whitespace prefix. */
  function TrimStart(s: string): (r: string)
    ensures |r| <= |s| && r == s[|s| - |r|..]
    ensures r == [] || !IsWhitespace(r[0])
    ensures forall i :: 0 <= i < |s| - |r| ==> IsWhitespace(s[i])
  {
    if s != [] && IsWhitespace(s[0]) then TrimStart(s[1..]) else s
  }

  /** `trim_end`: drops the longest all-whitespace suffix. */
  function TrimEnd(s: string): (r: string)
    ensures |r| <= |s| && r == s[..|r|]
    ensures r == [] || !IsWhitespace(r[|r| - 1])
    ensures forall i :: |r| <= i < |s| ==> IsWhitespace(s[i])
  {
    if s != [] && IsWhitespace(s[|s| - 1]) then TrimEnd(s[..|s| - 1]) else s
  }

  /** `trim`: the result is a slice of `s` with no whitespace at either end. */
  function Trim(s: string): (r: string)
    ensures Trimmed(r) && |r| <= |s|
    ensures Trimmed(s) ==> r == s
  {
    var t := TrimStart(s);
    var r := TrimEnd(t);
    assert r != [] ==> r[0] == t[0];
    assert Trimmed(s) && s != [] ==> t == s && r == s;
    r
  }

  // ---------------------------------------------------------------------------
  // to_lowercase (ASCII and the basic Cyrillic block)

  function LowerChar(c: char): char {
    if 'A' <= c <= 'Z' || '\U{0410}' <= c <= '\U{042F}' then (c as int + 32) as char
    else if '\U{0400}' <= c <= '\U{040F}' then (c as int + 80) as char
    else c
  }

  function Lower(s: string): (r: string)
    ensures |r| == |s| && forall i :: 0 <= i < |s| ==> r[i] == LowerChar(s[i])
  {
    seq(|s|, i requires 0 <= i < |s| => LowerChar(s[i]))
  }

  /** `s` is its own lowercase form. */
  predicate IsLowercase(s: string) {
    forall i :: 0 <= i < |s| ==> LowerChar(s[i]) == s[i]
  }

  /** Lowercasing yields lowercase text, keeps whitespace where it was, and fixes lowercase text. */
  lemma LowerProperties(s: string)
    ensures IsLowercase(Lower(s))
    ensures Trimmed(s) ==> Trimmed(Lower(s))
    ensures IsLowercase(s) ==> Lower(s) == s
  {
    forall i | 0 <= i < |s| ensures LowerChar(LowerChar(s[i])) == LowerChar(s[i]) {
    }
  }

  // ---------------------------------------------------------------------------
  // split, join, lines

  function IndexOf(s: string, c: char): (i: nat)
    requires c in s
    ensures i < |s| && s[i] == c && c !in s[..i]
  {
    if s[0] == c then 0 else 1 + IndexOf(s[1..], c)
  }

  /** `s.split(sep)`: one more piece than there are separators; no piece holds `sep`. */
  function Split(s: string, sep: char): (parts: seq<string>)
    ensures |parts| >= 1
    decreases |s|
  {
    if sep !in s then [s]
    else
      var i := IndexOf(s, sep);
      [s[..i]] + Split(s[i + 1..], sep)
  }

  /** No piece of a split holds the separator. */
  lemma {:induction false} SplitAvoids(s: string, sep: char)
    ensures forall i :: 0 <= i < |Split(s, sep)| ==> sep !in Split(s, sep)[i]
    decreases |s|
  {
    if sep in s {
      var i := IndexOf(s, sep);
      SplitAvoids(s[i + 1..], sep);
      var rest := Split(s[i + 1..], sep);
      assert Split(s, sep) == [s[..i]] + rest;
    }
  }

  /** `parts.join(sep)` */
  /** `join`: the first piece opens the text. */
  function Join(parts: seq<string>, sep: string): (r: string)
    ensures parts != [] ==> StartsWith(r, parts[0])
    ensures parts == [] ==> r == ""
  {
    if |parts| == 0 then ""
    else if |parts| == 1 then parts[0]
    else parts[0] + sep + Join(parts[1..], sep)
  }

  /** The last piece of `split(sep)`, i.e. `split(sep).next_back().unwrap()`. */
  /** `s.split(sep).next_back()`: the text after the last separator, all of it when there is none. */
  function LastSegment(s: string, sep: char): (r: string)
    ensures sep !in r && EndsWith(s, r)
    ensures sep !in s ==> r == s
  {
    var parts := Split(s, sep);
    SplitAvoids(s, sep);
    JoinSplit(s, sep);
    SplitSingle(s, sep);
    JoinEndsWithLast(parts, [sep]);
    parts[|parts| - 1]
  }

  /** The last piece closes a join. */
  lemma {:induction false} JoinEndsWithLast(parts: seq<string>, sep: string)
    requires parts != []
    ensures EndsWith(Join(parts, sep), parts[|parts| - 1])
    decreases |parts|
  {
    if |parts| > 1 {
      var last := parts[|parts| - 1];
      var rest := parts[1..];
      JoinEndsWithLast(rest, sep);
      assert rest[|rest| - 1] == last;
      var j := Join(rest, sep);
      var r := parts[0] + sep + j;
      assert r[|r| - |last|..] == j[|j| - |last|..];
    }
  }

  /**
   * `str::lines`: pieces between line feeds, without a final empty piece (so "" has no lines
   * and "a\n" has one). A carriage return before the line feed is left in the piece: every
   * caller trims the lines, which removes it anyway.
   */
  function Lines(s: string): seq<string> {
    DropEmptyLast(Split(s, '\n'))
  }

  /** The pieces without the empty one a final separator leaves. */
  function DropEmptyLast(parts: seq<string>): seq<string>
    requires parts != []
  {
    if parts[|parts| - 1] == "" then parts[..|parts| - 1] else parts
  }

  /** `.map(|x| x.trim())` */
  function TrimAll(ls: seq<string>): (r: seq<string>)
    ensures |r| == |ls| && forall i :: 0 <= i < |ls| ==> r[i] == Trim(ls[i])
  {
    seq(|ls|, i requires 0 <= i < |ls| => Trim(ls[i]))
  }

  /** A split yields a single piece exactly when the separator does not occur. */
  lemma SplitSingle(s: string, sep: char)
    ensures |Split(s, sep)| == 1 <==> sep !in s
  {
    if sep in s {
      var i := IndexOf(s, sep);
      var rest := Split(s[i + 1..], sep);
      assert Split(s, sep) == [s[..i]] + rest;
      assert |rest| >= 1;
    } else {
      assert Split(s, sep) == [s];
    }
  }

  /** Splitting and joining again on the same separator gives the text back. */
  lemma {:induction false} JoinSplit(s: string, sep: char)
    ensures Join(Split(s, sep), [sep]) == s
    decreases |s|
  {
    if sep in s {
      var i := IndexOf(s, sep);
      JoinSplit(s[i + 1..], sep);
      var rest := Split(s[i + 1..], sep);
      assert Split(s, sep) == [s[..i]] + rest;
      assert s == s[..i] + [sep] + s[i + 1..];
    }
  }

  /** A separator after a separator-free piece: that piece comes first, the rest is split as usual. */
  lemma SplitAfterPiece(x: string, sep: char, y: string)
    requires sep !in x
    ensures Split(x + [sep] + y, sep) == [x] + Split(y, sep)
  {
    var s := x + [sep] + y;
    assert s[|x|] == sep;
    var i := IndexOf(s, sep);
    assert s[..i] == x;
    assert s[i + 1..] == y;
  }

  /** Joining separator-free pieces and splitting again gives the pieces back. */
  lemma {:induction false} SplitJoin(parts: seq<string>, sep: char)
    requires |parts| >= 1
    requires forall i :: 0 <= i < |parts| ==> sep !in parts[i]
    ensures Split(Join(parts, [sep]), sep) == parts
  {
    HeadTail(parts);
    if |parts| > 1 {
      var rest := parts[1..];
      assert forall i :: 0 <= i < |rest| ==> sep !in rest[i] by {
        forall i | 0 <= i < |rest| ensures sep !in rest[i] {
          assert rest[i] == parts[i + 1];
        }
      }
      SplitJoin(rest, sep);
      assert Join(parts, [sep]) == parts[0] + [sep] + Join(rest, [sep]);
      SplitAfterPiece(parts[0], sep, Join(rest, [sep]));
    } else {
      assert sep !in parts[0];
      assert Split(Join(parts, [sep]), sep) == [parts[0]];
    }
  }

  /** Joining after a head piece: the head, the separator, the rest joined. */
  lemma JoinFront(p: string, rest: seq<string>, sep: string)
    ensures Join([p] + rest, sep) == if rest == [] then p else p + sep + Join(rest, sep)
  {
    TailOfCons(p, rest);
  }

  lemma Associative<T>(a: seq<T>, b: seq<T>, c: seq<T>)
    ensures a + (b + c) == (a + b) + c
  {
  }

  lemma DropTwo<T>(a: T, b: T, rest: seq<T>)
    ensures ([a, b] + rest)[0] == a && ([a, b] + rest)[1] == b && ([a, b] + rest)[2..] == rest
  {
  }

  lemma TailOfCons<T>(x: T, rest: seq<T>)
    ensures ([x] + rest)[0] == x && ([x] + rest)[1..] == rest && |[x] + rest| == |rest| + 1
  {
  }

  /** A non-empty sequence is its head followed by its tail. */
  lemma HeadTail<T>(xs: seq<T>)
    requires xs != []
    ensures xs == [xs[0]] + xs[1..]
    ensures |xs| == 1 ==> xs == [xs[0]]
  {
  }

  /** Appending a separator-free piece after a separator adds exactly one last piece. */
  lemma {:induction false} SplitBeforePiece(x: string, sep: char, y: string)
    requires sep !in y
    ensures Split(x + [sep] + y, sep) == Split(x, sep) + [y]
    decreases |x|
  {
    if sep !in x {
      SplitAfterPiece(x, sep, y);
    } else {
      var i := IndexOf(x, sep);
      var s := x + [sep] + y;
      assert s[..i + 1] == x[..i + 1];
      assert s[i] == sep && s[..i] == x[..i];
      assert s[i + 1..] == x[i + 1..] + [sep] + y;
      SplitBeforePiece(x[i + 1..], sep, y);
      Associative([x[..i]], Split(x[i + 1..], sep), [y]);
    }
  }

  /** `x.split(':').next_back()` of `prefix + ":" + x` is `x` when `x` has no ':'. */
  lemma LastSegmentAfterSeparator(prefix: string, sep: char, x: string)
    requires sep !in x
    ensures LastSegment(prefix + [sep] + x, sep) == x
  {
    SplitBeforePiece(prefix, sep, x);
  }

  /** Text that does not end in the separator has a non-empty last piece. */
  lemma {:induction false} SplitLastNonEmpty(s: string, sep: char)
    requires s != [] && s[|s| - 1] != sep
    ensures Split(s, sep)[|Split(s, sep)| - 1] != ""
    decreases |s|
  {
    if sep in s {
      var i := IndexOf(s, sep);
      assert s[i] == sep && i + 1 < |s|;
      var t := s[i + 1..];
      assert t[|t| - 1] == s[|s| - 1];
      SplitLastNonEmpty(t, sep);
      var rest := Split(t, sep);
      assert Split(s, sep) == [s[..i]] + rest;
      LastOfCons(s[..i], rest);
    } else {
      assert Split(s, sep) == [s];
    }
  }

  /** Text that does not end in a line feed: its lines are its '\n'-pieces. */
  lemma LinesNoFinalFeed(s: string)
    requires s != [] && s[|s| - 1] != '\n'
    ensures Lines(s) == Split(s, '\n')
  {
    SplitLastNonEmpty(s, '\n');
  }

  /** Three lines, the last one non-empty. */
  lemma LinesOfThree(a: string, b: string, c: string)
    requires '\n' !in a && '\n' !in b
    requires c != [] && c[|c| - 1] != '\n'
    ensures Lines(a + "\n" + b + "\n" + c) == [a, b] + Split(c, '\n')
  {
    var s := a + "\n" + b + "\n" + c;
    SplitOfThree(a, b, c);
    assert s[|s| - 1] == c[|c| - 1];
    LinesNoFinalFeed(s);
  }

  /** Two separator-free pieces, each followed by the separator, split off in front. */
  lemma SplitOfThree(a: string, b: string, c: string)
    requires '\n' !in a && '\n' !in b
    ensures Split(a + "\n" + b + "\n" + c, '\n') == [a, b] + Split(c, '\n')
  {
    var tail := b + "\n" + c;
    assert a + "\n" + b + "\n" + c == a + ['\n'] + tail;
    SplitAfterPiece(b, '\n', c);
    SplitAfterPiece(a, '\n', tail);
    ConsTwo(a, b, Split(c, '\n'));
  }

  lemma LastOfCons<T>(x: T, rest: seq<T>)
    requires rest != []
    ensures ([x] + rest)[|rest|] == rest[|rest| - 1]
  {
  }

  lemma ConsTwo<T>(a: T, b: T, rest: seq<T>)
    ensures [a] + ([b] + rest) == [a, b] + rest
  {
  }

  /** Joining trimmed pieces with a trimmed, non-empty separator gives trimmed text. */
  lemma {:induction false} JoinTrimmed(parts: seq<string>, sep: string)
    requires sep != [] && Trimmed(sep)
    requires forall i :: 0 <= i < |parts| ==> Trimmed(parts[i])
    ensures Trimmed(Join(parts, sep))
  {
    if |parts| > 1 {
      JoinTrimmed(parts[1..], sep);
      var j := Join(parts[1..], sep);
      var s := parts[0] + sep + j;
      assert s[0] == if parts[0] == [] then sep[0] else parts[0][0];
      assert s[|s| - 1] == if j == [] then sep[|sep| - 1] else j[|j| - 1];
    }
  }

  // ---------------------------------------------------------------------------
  // integers: `to_string` and `parse`

  predicate IsDigit(c: char) {
    '0' as int <= c as int <= '9' as int
  }

  predicate IsDigits(s: string) {
    |s| >= 1 && forall i :: 0 <= i < |s| ==> IsDigit(s[i])
  }

  function DigitChar(d: nat): (c: char)
    requires d < 10
    ensures IsDigit(c) && DigitValue(c) == d
  {
    ('0' as int + d) as char
  }

  /** Decimal rendering of a non-negative integer (`format!("{}", n)`). */
  function NatToString(n: nat): (s: string)
    ensures IsDigits(s)
    ensures s[0] == '0' ==> s == "0"
  {
    if n < 10 then [DigitChar(n)] else NatToString(n / 10) + [DigitChar(n % 10)]
  }

  function DigitValue(c: char): (d: nat)
    requires IsDigit(c)
    ensures d < 10
  {
    c as int - '0' as int
  }

  /** The value of a run of decimal digits. */
  function DigitsValue(s: string): nat
    requires forall i :: 0 <= i < |s| ==> IsDigit(s[i])
  {
    if s == [] then 0 else DigitsValue(s[..|s| - 1]) * 10 + DigitValue(s[|s| - 1])
  }

  /** Reading back a rendered integer gives the integer. */
  lemma {:induction false} DigitsOfNatToString(n: nat)
    ensures DigitsValue(NatToString(n)) == n
  {
    if n >= 10 {
      DigitsOfNatToString(n / 10);
      var s := NatToString(n);
      assert s[..|s| - 1] == NatToString(n / 10);
    }
  }

  /** Different integers render differently. */
  lemma NatToStringInjective(m: nat, n: nat)
    ensures NatToString(m) == NatToString(n) ==> m == n
  {
    DigitsOfNatToString(m);
    DigitsOfNatToString(n);
  }

  /** `s.parse::<u64>()`: an optional '+', then at least one digit, value at most `u64::MAX`. */
  function ParseU64(s: string): Option<nat> {
    var digits := if |s| >= 1 && s[0] == '+' then s[1..] else s;
    if IsDigits(digits) && DigitsValue(digits) <= U64_MAX then Some(DigitsValue(digits)) else None
  }

  /** `s.parse::<i64>()`: an optional sign, then at least one digit, value within the i64 range. */
  function ParseI64(s: string): (r: Option<int>)
    ensures r.Some? ==> -(I64_MAX + 1) <= r.value <= I64_MAX
  {
    if |s| >= 1 && s[0] == '-' then
      if IsDigits(s[1..]) && DigitsValue(s[1..]) <= I64_MAX + 1 then Some(-(DigitsValue(s[1..]) as int)) else None
    else
      var digits := if |s| >= 1 && s[0] == '+' then s[1..] else s;
      if IsDigits(digits) && DigitsValue(digits) <= I64_MAX then Some(DigitsValue(digits)) else None
  }

  /** Rendering then parsing is the identity on the u64 and non-negative i64 ranges. */
  lemma ParseNatToString(n: nat)
    ensures n <= U64_MAX ==> ParseU64(NatToString(n)) == Some(n)
    ensures n <= I64_MAX ==> ParseI64(NatToString(n)) == Some(n)
  {
    DigitsOfNatToString(n);
  }

  // ---------------------------------------------------------------------------
  // UTF-8 length and the ordering of `String::cmp`

  /** Bytes of the UTF-8 encoding of one character. */
  function Utf8Width(c: char): nat {
    if c as int < 0x80 then 1 else if c as int < 0x800 then 2 else if c as int < 0x1_0000 then 3 else 4
  }

  /** `String::len`: the length of the UTF-8 encoding. */
  function ByteLen(s: string): (n: nat)
    ensures |s| <= n <= 4 * |s|
  {
    if s == [] then 0 else ByteLen(s[..|s| - 1]) + Utf8Width(s[|s| - 1])
  }

  lemma {:induction false} ByteLenConcat(a: string, b: string)
    ensures ByteLen(a + b) == ByteLen(a) + ByteLen(b)
    decreases |b|
  {
    if b != [] {
      assert (a + b)[..|a + b| - 1] == a + b[..|b| - 1];
      assert (a + b)[|a + b| - 1] == b[|b| - 1];
      assert ByteLen(a + b) == ByteLen(a + b[..|b| - 1]) + Utf8Width(b[|b| - 1]);
      ByteLenConcat(a, b[..|b| - 1]);
    } else {
      assert a + b == a;
    }
  }

  /**
   * `a <= b` for `String`: byte-wise lexicographic order, which on UTF-8 is the same as the
   * lexicographic order of the characters.
   */
  predicate LexLe(a: string, b: string)
    ensures StartsWith(b, a) ==> LexLe(a, b)
    ensures LexLe(a, b) && a != [] ==> b != [] && a[0] <= b[0]
    decreases |a|
  {
    assert StartsWith(b, a) && a != [] ==> StartsWith(b[1..], a[1..]);
    a == [] || (b != [] && (a[0] < b[0] || (a[0] == b[0] && LexLe(a[1..], b[1..]))))
  }

  lemma {:induction false} LexLeTotal(a: string, b: string)
    ensures LexLe(a, b) || LexLe(b, a)
    decreases |a|
  {
    if a != [] && b != [] && a[0] == b[0] {
      LexLeTotal(a[1..], b[1..]);
    }
  }

  lemma {:induction false} LexLeTransitive(a: string, b: string, c: string)
    requires LexLe(a, b) && LexLe(b, c)
    ensures LexLe(a, c)
    decreases |a|
  {
    if a != [] && a[0] == b[0] && b[0] == c[0] {
      LexLeTransitive(a[1..], b[1..], c[1..]);
    }
  }
}
