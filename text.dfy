/** The string operations of Rust's standard library that infod's record codecs
    rely on, stated over `seq<char>`: `str::split` with one separator character,
    `[..].join`, `BufRead::lines`, `str::split_whitespace`, `{}` formatting of an
    unsigned integer, `from_str_radix(_, 10)`, `Path::join` and the ordering of
    `&str` keys in a `BTreeMap`. */
module Text {
  import opened Outcomes

  // ---------------------------------------------------------------------------
  // Splitting on one separator, and joining

  function Count(s: string, c: char): nat {
    if s == [] then 0 else (if s[0] == c then 1 else 0) + Count(s[1..], c)
  }

  /** `s.split(sep)`: the pieces between separators, one more than there are
      separators; the empty string splits into one empty piece. */
  function Split(s: string, sep: char): (parts: seq<string>)
    ensures |parts| == Count(s, sep) + 1
    ensures forall i :: 0 <= i < |parts| ==> sep !in parts[i]
    decreases |s|
  {
    if s == [] then [""]
    else
      var rest := Split(s[1..], sep);
      if s[0] == sep then [""] + rest
      else [[s[0]] + rest[0]] + rest[1..]
  }

  /** `parts.join(sep)`; an empty list joins to the empty string. */
  function Join(parts: seq<string>, sep: char): string
    decreases |parts|
  {
    if |parts| == 0 then ""
    else if |parts| == 1 then parts[0]
    else parts[0] + [sep] + Join(parts[1..], sep)
  }

  lemma {:induction false} SplitNoSeparator(a: string, sep: char)
    requires sep !in a
    ensures Split(a, sep) == [a]
    decreases |a|
  {
    if a != [] {
      SplitNoSeparator(a[1..], sep);
      assert [a[0]] + a[1..] == a;
    }
  }

  lemma {:induction false} SplitAfterPiece(a: string, sep: char, t: string)
    requires sep !in a
    ensures Split(a + [sep] + t, sep) == [a] + Split(t, sep)
    decreases |a|
  {
    var s := a + [sep] + t;
    if a == [] {
      assert s[0] == sep && s[1..] == t;
    } else {
      assert s[0] == a[0] && s[1..] == a[1..] + [sep] + t;
      SplitAfterPiece(a[1..], sep, t);
      assert [a[0]] + a[1..] == a;
    }
  }

  /** Splitting a join gives back the pieces, provided there is at least one and
      none contains the separator. */
  lemma {:induction false} SplitJoin(parts: seq<string>, sep: char)
    requires |parts| >= 1
    requires forall i :: 0 <= i < |parts| ==> sep !in parts[i]
    ensures Split(Join(parts, sep), sep) == parts
    decreases |parts|
  {
    if |parts| == 1 {
      SplitNoSeparator(parts[0], sep);
    } else {
      SplitJoin(parts[1..], sep);
      SplitAfterPiece(parts[0], sep, Join(parts[1..], sep));
      assert [parts[0]] + parts[1..] == parts;
    }
  }

  /** Proof helper: a join of two or more pieces, followed by more text, is the
      first piece, a separator, and the join of the rest followed by that text. */
  lemma {:induction false} JoinStep(parts: seq<string>, sep: char, t: string)
    requires |parts| >= 2
    ensures Join(parts, sep) + [sep] + t == parts[0] + [sep] + (Join(parts[1..], sep) + [sep] + t)
  {
    assert Join(parts, sep) == parts[0] + [sep] + Join(parts[1..], sep);
  }

  /** Proof helper: putting the head back in front of the tail. */
  lemma {:induction false} ConsAppend<T>(xs: seq<T>, ys: seq<T>)
    requires |xs| >= 1
    ensures [xs[0]] + (xs[1..] + ys) == xs + ys
  {
    assert [xs[0]] + xs[1..] == xs;
  }

  /** Splitting a join followed by more text gives the pieces, then the pieces
      of that text. */
  lemma {:induction false} SplitJoinThen(parts: seq<string>, sep: char, t: string)
    requires |parts| >= 1
    requires forall i :: 0 <= i < |parts| ==> sep !in parts[i]
    ensures Split(Join(parts, sep) + [sep] + t, sep) == parts + Split(t, sep)
    decreases |parts|
  {
    if |parts| == 1 {
      SplitAfterPiece(parts[0], sep, t);
    } else {
      JoinStep(parts, sep, t);
      SplitAfterPiece(parts[0], sep, Join(parts[1..], sep) + [sep] + t);
      SplitJoinThen(parts[1..], sep, t);
      ConsAppend(parts, Split(t, sep));
    }
  }

  /** Joining a split gives back the string, whatever it is. */
  lemma {:induction false} JoinSplit(s: string, sep: char)
    ensures Join(Split(s, sep), sep) == s
    decreases |s|
  {
    if s != [] {
      JoinSplit(s[1..], sep);
      var rest := Split(s[1..], sep);
      if s[0] != sep {
        var parts := Split(s, sep);
        assert parts[1..] == rest[1..];
        if |rest| == 1 {
          assert parts == [[s[0]] + rest[0]];
        } else {
          assert Join(parts, sep) == [s[0]] + rest[0] + [sep] + Join(rest[1..], sep);
        }
        assert [s[0]] + s[1..] == s;
      } else {
        assert [s[0]] + s[1..] == s;
      }
    }
  }

  // ---------------------------------------------------------------------------
  // Lines

  /** The index of the first newline, or the length when there is none. */
  function LineEnd(s: string): (i: nat)
    ensures i <= |s|
    ensures '\n' !in s[..i]
    ensures i < |s| ==> s[i] == '\n'
    decreases |s|
  {
    if s == [] || s[0] == '\n' then 0
    else
      var i := 1 + LineEnd(s[1..]);
      assert s[..i] == [s[0]] + s[1..][..i - 1];
      i
  }

  predicate EndsWithCr(l: string) {
    |l| > 0 && l[|l| - 1] == '\r'
  }

  /** A line that was ended by "\n" also loses a "\r" just before it. */
  function StripCr(l: string): string {
    if EndsWithCr(l) then l[..|l| - 1] else l
  }

  /** `BufRead::lines`: each line without its "\n" (or "\r\n"); a last line
      without a newline is kept as it is; the empty text has no lines. */
  function Lines(s: string): seq<string>
    decreases |s|
  {
    if s == [] then []
    else
      var i := LineEnd(s);
      if i == |s| then [s]
      else [StripCr(s[..i])] + Lines(s[i + 1..])
  }

  /** Every line followed by "\n", concatenated: what a writer emits when it
      writes one "\n"-terminated line per record. */
  function Unlines(ls: seq<string>): string
    decreases |ls|
  {
    if ls == [] then "" else ls[0] + "\n" + Unlines(ls[1..])
  }

  predicate IsPlainLine(l: string) {
    '\n' !in l && !EndsWithCr(l)
  }

  lemma {:induction false} LineEndOfTerminated(l: string, rest: string)
    requires '\n' !in l
    ensures LineEnd(l + "\n" + rest) == |l|
  {
    var s := l + "\n" + rest;
    var i := LineEnd(s);
    assert s[|l|] == '\n';
    assert s[..|l|] == l;
  }

  /** Reading back "\n"-terminated lines gives the same lines, provided none
      contains a newline or ends in a carriage return. */
  lemma {:induction false} LinesUnlines(ls: seq<string>)
    requires forall i :: 0 <= i < |ls| ==> IsPlainLine(ls[i])
    ensures Lines(Unlines(ls)) == ls
    decreases |ls|
  {
    if ls != [] {
      var rest := Unlines(ls[1..]);
      var s := Unlines(ls);
      assert s == ls[0] + "\n" + rest;
      LineEndOfTerminated(ls[0], rest);
      assert s[..|ls[0]|] == ls[0];
      assert s[|ls[0]| + 1..] == rest;
      LinesUnlines(ls[1..]);
      assert [ls[0]] + ls[1..] == ls;
    }
  }

  // ---------------------------------------------------------------------------
  // Whitespace-separated words

  /** Unicode White_Space, the set `char::is_whitespace` tests. */
  predicate IsWhitespace(c: char) {
    var n := c as int;
    (0x09 <= n <= 0x0D) || n == 0x20 || n == 0x85 || n == 0xA0 || n == 0x1680
    || (0x2000 <= n <= 0x200A) || n == 0x2028 || n == 0x2029 || n == 0x202F
    || n == 0x205F || n == 0x3000
  }

  predicate IsWord(w: string) {
    w != [] && forall i :: 0 <= i < |w| ==> !IsWhitespace(w[i])
  }

  /** The length of the longest prefix without whitespace. */
  function WordEnd(s: string): (k: nat)
    ensures k <= |s|
    ensures forall j :: 0 <= j < k ==> !IsWhitespace(s[j])
    ensures k < |s| ==> IsWhitespace(s[k])
    decreases |s|
  {
    if s == [] || IsWhitespace(s[0]) then 0 else 1 + WordEnd(s[1..])
  }

  /** `s.split_whitespace()`: the maximal runs of non-whitespace, in order. */
  function Words(s: string): (ws: seq<string>)
    ensures forall i :: 0 <= i < |ws| ==> IsWord(ws[i])
    decreases |s|
  {
    if s == [] then []
    else if IsWhitespace(s[0]) then Words(s[1..])
    else
      var k := WordEnd(s);
      [s[..k]] + Words(s[k..])
  }

  lemma {:induction false} WordEndOfWord(w: string, rest: string)
    requires IsWord(w)
    requires rest == [] || IsWhitespace(rest[0])
    ensures WordEnd(w + rest) == |w|
  {
    var s := w + rest;
    assert s[..|w|] == w;
    assert |w| < |s| ==> s[|w|] == rest[0];
  }

  /** Words joined by tabs split back into the same words. */
  lemma {:induction false} WordsJoinTab(ws: seq<string>)
    requires forall i :: 0 <= i < |ws| ==> IsWord(ws[i])
    ensures Words(Join(ws, '\t')) == ws
    decreases |ws|
  {
    if |ws| == 1 {
      WordEndOfWord(ws[0], "");
      assert ws[0] + "" == ws[0];
    } else if |ws| > 1 {
      var tail := Join(ws[1..], '\t');
      var s := ws[0] + ['\t'] + tail;
      assert s == ws[0] + (['\t'] + tail);
      WordEndOfWord(ws[0], ['\t'] + tail);
      assert s[..|ws[0]|] == ws[0];
      assert s[|ws[0]|..] == ['\t'] + tail;
      assert (['\t'] + tail)[1..] == tail;
      WordsJoinTab(ws[1..]);
      assert [ws[0]] + ws[1..] == ws;
    }
  }

  lemma {:induction false} WordsAfterWord(w: string, t: string)
    requires IsWord(w)
    ensures Words(w + ['\t'] + t) == [w] + Words(t)
  {
    var s := w + (['\t'] + t);
    assert w + ['\t'] + t == s;
    WordEndOfWord(w, ['\t'] + t);
    assert s[..|w|] == w;
    assert s[|w|..] == ['\t'] + t;
    assert (['\t'] + t)[1..] == t;
  }

  /** Words joined by tabs and followed by a tab and more text split into those
      words, then the words of that text. */
  lemma {:induction false} WordsJoinTabThen(ws: seq<string>, t: string)
    requires |ws| >= 1
    requires forall i :: 0 <= i < |ws| ==> IsWord(ws[i])
    ensures Words(Join(ws, '\t') + ['\t'] + t) == ws + Words(t)
    decreases |ws|
  {
    if |ws| == 1 {
      WordsAfterWord(ws[0], t);
    } else {
      JoinStep(ws, '\t', t);
      WordsAfterWord(ws[0], Join(ws[1..], '\t') + ['\t'] + t);
      WordsJoinTabThen(ws[1..], t);
      ConsAppend(ws, Words(t));
    }
  }

  // ---------------------------------------------------------------------------
  // Decimal numbers

  predicate IsDigit(c: char) {
    '0' <= c <= '9'
  }

  predicate AllDigits(s: string) {
    forall i :: 0 <= i < |s| ==> IsDigit(s[i])
  }

  function DigitChar(d: nat): (c: char)
    requires d < 10
    ensures IsDigit(c)
  {
    ('0' as int + d) as char
  }

  /** The value of a string of decimal digits, most significant first. */
  function DigitsValue(s: string): nat
    requires AllDigits(s)
    decreases |s|
  {
    if s == [] then 0
    else DigitsValue(s[..|s| - 1]) * 10 + (s[|s| - 1] as int - '0' as int)
  }

  /** `{}` of an unsigned integer: its decimal digits, no sign, no leading zero. */
  function Decimal(n: nat): (s: string)
    ensures s != [] && AllDigits(s)
    ensures |s| > 1 ==> s[0] != '0'
    decreases n
  {
    if n < 10 then [DigitChar(n)] else Decimal(n / 10) + [DigitChar(n % 10)]
  }

  lemma {:induction false} DecimalValue(n: nat)
    ensures DigitsValue(Decimal(n)) == n
    decreases n
  {
    if n >= 10 {
      DecimalValue(n / 10);
      var s := Decimal(n);
      assert s[..|s| - 1] == Decimal(n / 10);
    }
  }

  /** `from_str_radix(s, 10)` for an unsigned integer type whose values are
      below `limit`: an optional '+', then one or more decimal digits, and no
      overflow. */
  function ParseUnsigned(s: string, limit: nat): (r: Option<nat>)
    ensures r.Some? ==> r.value < limit
  {
    var digits := if |s| > 0 && s[0] == '+' then s[1..] else s;
    if digits != [] && AllDigits(digits) && DigitsValue(digits) < limit
    then Some(DigitsValue(digits))
    else None
  }

  /** Formatting then parsing an unsigned value gives it back. */
  lemma {:induction false} ParseDecimal(n: nat, limit: nat)
    requires n < limit
    ensures ParseUnsigned(Decimal(n), limit) == Some(n)
  {
    DecimalValue(n);
  }

  /** A leading '+' is accepted and a leading '-' is not. */
  lemma {:induction false} ParseUnsignedSign(n: nat, limit: nat)
    requires n < limit
    ensures ParseUnsigned("+" + Decimal(n), limit) == Some(n)
    ensures ParseUnsigned("-" + Decimal(n), limit) == None
  {
    DecimalValue(n);
    assert ("+" + Decimal(n))[1..] == Decimal(n);
    assert !IsDigit(("-" + Decimal(n))[0]);
  }

  const I64_HALF: nat := 0x8000_0000_0000_0000

  /** `str::parse::<i64>()`: an optional sign, then one or more decimal digits,
      within -2^63 .. 2^63 - 1. */
  function ParseI64(s: string): (r: Option<int>)
    ensures r.Some? ==> -(I64_HALF as int) <= r.value < I64_HALF
  {
    if |s| > 0 && s[0] == '-' then
      var digits := s[1..];
      if digits != [] && AllDigits(digits) && DigitsValue(digits) <= I64_HALF
      then Some(-(DigitsValue(digits) as int))
      else None
    else
      match ParseUnsigned(s, I64_HALF)
      case Some(v) => Some(v)
      case None => None
  }

  // ---------------------------------------------------------------------------
  // Paths

  /** `Path::join`: a name starting with '/' replaces the directory; otherwise a
      '/' is put between them unless the directory is empty or already ends in
      one. */
  function PathJoin(dir: string, name: string): (p: string)
    ensures |name| > 0 && name[0] == '/' ==> p == name
  {
    if |name| > 0 && name[0] == '/' then name
    else if dir == [] || dir[|dir| - 1] == '/' then dir + name
    else dir + "/" + name
  }

  /** Under one directory, distinct relative names give distinct paths. */
  lemma {:induction false} PathJoinInjective(dir: string, a: string, b: string)
    requires a != b
    requires |a| > 0 && a[0] != '/' && |b| > 0 && b[0] != '/'
    ensures PathJoin(dir, a) != PathJoin(dir, b)
  {
    var pa, pb := PathJoin(dir, a), PathJoin(dir, b);
    var k := if dir == [] || dir[|dir| - 1] == '/' then |dir| else |dir| + 1;
    assert pa[k..] == a;
    assert pb[k..] == b;
  }

  // ---------------------------------------------------------------------------
  // The order of `&str` keys

  /** Lexicographic order by code point, which is the byte order of the UTF-8
      encodings that `Ord for str` compares. */
  predicate StrLess(a: string, b: string)
    decreases |a|
  {
    |b| > 0 && (|a| == 0 || a[0] < b[0] || (a[0] == b[0] && StrLess(a[1..], b[1..])))
  }

  lemma {:induction false} StrLessIrreflexive(a: string)
    ensures !StrLess(a, a)
    decreases |a|
  {
    if |a| > 0 {
      StrLessIrreflexive(a[1..]);
    }
  }

  lemma {:induction false} StrLessTransitive(a: string, b: string, c: string)
    requires StrLess(a, b) && StrLess(b, c)
    ensures StrLess(a, c)
    decreases |a|
  {
    if |a| > 0 && a[0] == b[0] && b[0] == c[0] {
      StrLessTransitive(a[1..], b[1..], c[1..]);
    }
  }

  lemma {:induction false} StrLessTotal(a: string, b: string)
    requires a != b
    ensures StrLess(a, b) || StrLess(b, a)
    decreases |a|
  {
    if |a| > 0 && |b| > 0 && a[0] == b[0] {
      assert a == [a[0]] + a[1..] && b == [b[0]] + b[1..];
      StrLessTotal(a[1..], b[1..]);
    }
  }
}
