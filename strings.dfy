/** String operations of the two runtimes the application runs on: Python's
    `str.split`, `str.join`, `str.startswith`, `str.rsplit(sep, 1)`, `str.lower`
    and `int()` on the backend; JavaScript's `String.prototype.trim` and
    `Number.prototype.toString` on the frontend. */
module Strings {
  import opened Options

  predicate StartsWith(s: string, prefix: string) {
    |prefix| <= |s| && s[..|prefix|] == prefix
  }

  predicate EndsWith(s: string, suffix: string) {
    |suffix| <= |s| && s[|s| - |suffix|..] == suffix
  }

  // ---------------------------------------------------------------------------
  // Python str.split(sep) and sep.join(parts)
  // ---------------------------------------------------------------------------

  /** Python's `s.split(sep)` for a non-empty separator: the pieces between the
      leftmost non-overlapping occurrences of `sep`; empty pieces are kept. */
  function Split(s: string, sep: string): (parts: seq<string>)
    requires sep != ""
    ensures |parts| >= 1
    decreases |s|
  {
    if |s| < |sep| then [s]
    else if s[..|sep|] == sep then [""] + Split(s[|sep|..], sep)
    else
      var rest := Split(s[1..], sep);
      [[s[0]] + rest[0]] + rest[1..]
  }

  /** Python's `sep.join(parts)`. */
  function Join(parts: seq<string>, sep: string): string
  {
    if |parts| == 0 then ""
    else if |parts| == 1 then parts[0]
    else parts[0] + sep + Join(parts[1..], sep)
  }

  lemma JoinConsChar(c: char, parts: seq<string>, sep: string)
    requires |parts| >= 1
    ensures Join([[c] + parts[0]] + parts[1..], sep) == [c] + Join(parts, sep)
  {
    var q := [[c] + parts[0]] + parts[1..];
    if |parts| == 1 {
      assert q == [[c] + parts[0]];
    } else {
      assert q[1..] == parts[1..];
    }
  }

  /** Joining the pieces of a split with the same separator gives back the text. */
  lemma {:induction false} JoinSplit(s: string, sep: string)
    requires sep != ""
    ensures Join(Split(s, sep), sep) == s
    decreases |s|
  {
    if |s| < |sep| {
    } else if s[..|sep|] == sep {
      var tail := s[|sep|..];
      JoinSplit(tail, sep);
      var rest := Split(tail, sep);
      var whole := [""] + rest;
      assert Split(s, sep) == whole;
      assert whole[1..] == rest;
      assert Join(whole, sep) == "" + sep + Join(rest, sep);
      assert s == s[..|sep|] + tail;
    } else {
      JoinSplit(s[1..], sep);
      JoinConsChar(s[0], Split(s[1..], sep), sep);
      assert s == [s[0]] + s[1..];
    }
  }

  /** A leading piece that does not contain the separator's first character is
      cut off as the first element of the split. */
  lemma {:induction false} SplitAfterPiece(a: string, sep: string, x: string)
    requires sep != "" && sep[0] !in a
    ensures Split(a + sep + x, sep) == [a] + Split(x, sep)
    decreases |a|
  {
    var s := a + sep + x;
    if a == [] {
      assert s == sep + x;
      assert s[..|sep|] == sep;
      assert s[|sep|..] == x;
    } else {
      assert s[..|sep|][0] == a[0];
      assert s[..|sep|] != sep;
      assert s[1..] == a[1..] + sep + x;
      SplitAfterPiece(a[1..], sep, x);
      assert [a[0]] + a[1..] == a;
    }
  }

  /** A text without the separator's first character is a single piece. */
  lemma {:induction false} SplitWithout(s: string, sep: string)
    requires sep != "" && sep[0] !in s
    ensures Split(s, sep) == [s]
    decreases |s|
  {
    if |s| >= |sep| {
      assert s[..|sep|][0] == s[0];
      SplitWithout(s[1..], sep);
      assert [s[0]] + s[1..] == s;
    }
  }

  /** For a one-character separator, the first piece is the longest prefix free
      of that character: it is followed by the end of the text or by `c`. */
  lemma {:induction false} SplitHead(s: string, c: char)
    ensures var h := Split(s, [c])[0];
      c !in h && |h| <= |s| && s[..|h|] == h && (|h| == |s| || s[|h|] == c)
    decreases |s|
  {
    if |s| < 1 {
    } else if s[..1] == [c] {
      assert s[0] == c;
    } else {
      SplitHead(s[1..], c);
      assert s[0] != c;
    }
  }

  /** For a one-character separator, no piece of the split contains it. */
  lemma {:induction false} SplitPiecesFree(s: string, c: char)
    ensures forall i :: 0 <= i < |Split(s, [c])| ==> c !in Split(s, [c])[i]
    decreases |s|
  {
    if |s| < 1 {
    } else if s[..1] == [c] {
      SplitPiecesFree(s[1..], c);
      assert Split(s, [c]) == [""] + Split(s[1..], [c]);
    } else {
      SplitPiecesFree(s[1..], c);
      assert s[0] != c;
      var rest := Split(s[1..], [c]);
      assert Split(s, [c]) == [[s[0]] + rest[0]] + rest[1..];
      assert forall i :: 1 <= i < |rest| ==> c !in rest[i];
    }
  }

  /** Conversely, a prefix free of `c` that is followed by the end or by `c` is
      the first piece. */
  lemma {:induction false} SplitHeadOf(t: string, r: string, c: char)
    requires c !in t && (r == "" || r[0] == c)
    ensures Split(t + r, [c])[0] == t
    decreases |t|
  {
    var s := t + r;
    if t == [] {
      assert s == r;
      if r != "" { assert s[..1] == [c]; }
    } else {
      assert s[0] == t[0];
      assert s[..1] != [c];
      assert s[1..] == t[1..] + r;
      SplitHeadOf(t[1..], r, c);
      assert [t[0]] + t[1..] == t;
    }
  }

  /** Python's `s.rsplit(c, 1)[1]` for a text that contains `c`: the text after
      the last occurrence of `c`. */
  function AfterLast(s: string, c: char): (r: string)
    requires c in s
    ensures |r| < |s| && c !in r
    ensures s[|s| - |r| - 1] == c && s[|s| - |r|..] == r
  {
    if s[|s| - 1] == c then ""
    else
      assert c in s[..|s| - 1] by {
        var i :| 0 <= i < |s| && s[i] == c;
        assert s[..|s| - 1][i] == c;
      }
      var r := AfterLast(s[..|s| - 1], c) + [s[|s| - 1]];
      r
  }

  // ---------------------------------------------------------------------------
  // Case mapping
  // ---------------------------------------------------------------------------

  function LowerChar(c: char): char {
    if 'A' <= c <= 'Z' then (c as int - 'A' as int + 'a' as int) as char else c
  }

  /** Python's `str.lower()` restricted to ASCII letters. */
  function ToLower(s: string): (r: string)
    ensures |r| == |s|
    ensures forall i :: 0 <= i < |s| ==> r[i] == LowerChar(s[i])
  {
    if s == "" then "" else [LowerChar(s[0])] + ToLower(s[1..])
  }

  // ---------------------------------------------------------------------------
  // JavaScript String.prototype.trim
  // ---------------------------------------------------------------------------

  /** ECMAScript WhiteSpace and LineTerminator code points, the set `trim` strips. */
  predicate IsJsSpace(c: char) {
    var n := c as int;
    n == 0x09 || n == 0x0A || n == 0x0B || n == 0x0C || n == 0x0D || n == 0x20 ||
    n == 0xA0 || n == 0x1680 || (0x2000 <= n <= 0x200A) || n == 0x2028 || n == 0x2029 ||
    n == 0x202F || n == 0x205F || n == 0x3000 || n == 0xFEFF
  }

  predicate AllJsSpace(s: string) {
    forall i :: 0 <= i < |s| ==> IsJsSpace(s[i])
  }

  function TrimStart(s: string): string
  {
    if s != "" && IsJsSpace(s[0]) then TrimStart(s[1..]) else s
  }

  function TrimEnd(s: string): string
  {
    if s != "" && IsJsSpace(s[|s| - 1]) then TrimEnd(s[..|s| - 1]) else s
  }

  /** JavaScript's `s.trim()`. */
  function Trim(s: string): string {
    TrimEnd(TrimStart(s))
  }

  lemma {:induction false} TrimStartEmpty(s: string)
    ensures TrimStart(s) == "" <==> AllJsSpace(s)
    ensures TrimStart(s) != "" ==> !IsJsSpace(TrimStart(s)[0])
    decreases |s|
  {
    if s != "" && IsJsSpace(s[0]) {
      TrimStartEmpty(s[1..]);
      assert AllJsSpace(s) <==> AllJsSpace(s[1..]) by {
        if AllJsSpace(s[1..]) {
          forall i | 0 <= i < |s| ensures IsJsSpace(s[i]) {
            if i > 0 { assert s[i] == s[1..][i - 1]; }
          }
        }
      }
    } else if s != "" {
      assert !AllJsSpace(s);
    }
  }

  lemma {:induction false} TrimEndKeepsNonSpaceStart(s: string)
    requires s != "" && !IsJsSpace(s[0])
    ensures TrimEnd(s) != ""
    decreases |s|
  {
    if IsJsSpace(s[|s| - 1]) {
      assert |s| > 1;
      TrimEndKeepsNonSpaceStart(s[..|s| - 1]);
    }
  }

  /** `s.trim()` is empty exactly when every character of `s` is white space. */
  lemma TrimEmptyIff(s: string)
    ensures Trim(s) == "" <==> AllJsSpace(s)
  {
    TrimStartEmpty(s);
    var t := TrimStart(s);
    if t != "" {
      TrimEndKeepsNonSpaceStart(t);
    }
  }

  // ---------------------------------------------------------------------------
  // Decimal integers: JS Number.prototype.toString and Python int()
  // ---------------------------------------------------------------------------

  predicate IsDigit(c: char) {
    '0' <= c <= '9'
  }

  predicate AllDigits(s: string) {
    forall i :: 0 <= i < |s| ==> IsDigit(s[i])
  }

  function DigitChar(d: int): (c: char)
    requires 0 <= d < 10
    ensures IsDigit(c)
  {
    ('0' as int + d) as char
  }

  function DigitValue(c: char): (d: nat)
    requires IsDigit(c)
    ensures d < 10
  {
    c as int - '0' as int
  }

  /** The decimal numeral of a natural number, without leading zeros. */
  function NatToString(n: nat): (s: string)
    ensures s != "" && AllDigits(s)
    decreases n
  {
    if n < 10 then [DigitChar(n)] else NatToString(n / 10) + [DigitChar(n % 10)]
  }

  /** `n.toString()` for an integral JavaScript number. */
  function IntToString(n: int): string
  {
    if n < 0 then "-" + NatToString(-n) else NatToString(n)
  }

  function DigitsValue(s: string): nat
    requires AllDigits(s)
  {
    if s == "" then 0 else DigitsValue(s[..|s| - 1]) * 10 + DigitValue(s[|s| - 1])
  }

  /** Python's `int(s)` on a string: an optional sign followed by one or more
      ASCII digits; anything else raises ValueError, modelled as None. */
  function ParseDecimal(s: string): Option<int>
  {
    if s != "" && (s[0] == '-' || s[0] == '+') then
      if |s| > 1 && AllDigits(s[1..]) then
        var magnitude: int := DigitsValue(s[1..]);
        Some(if s[0] == '-' then -magnitude else magnitude)
      else None
    else if s != "" && AllDigits(s) then Some(DigitsValue(s))
    else None
  }

  lemma {:induction false} NatToStringValue(n: nat)
    ensures DigitsValue(NatToString(n)) == n
    decreases n
  {
    if n >= 10 {
      NatToStringValue(n / 10);
      var s := NatToString(n);
      assert s[..|s| - 1] == NatToString(n / 10);
    }
  }

  /** The numeral the frontend writes is read back by the backend as the same number. */
  lemma ParseIntToString(n: int)
    ensures ParseDecimal(IntToString(n)) == Some(n)
  {
    if n < 0 {
      NatToStringValue(-n);
      var s := IntToString(n);
      assert s[1..] == NatToString(-n);
    } else {
      NatToStringValue(n);
    }
  }

  // ---------------------------------------------------------------------------
  // Counting a character (SQL placeholders)
  // ---------------------------------------------------------------------------

  function CountChar(s: string, c: char): nat
  {
    if s == "" then 0 else (if s[0] == c then 1 else 0) + CountChar(s[1..], c)
  }

  lemma {:induction false} CountCharAppend(a: string, b: string, c: char)
    ensures CountChar(a + b, c) == CountChar(a, c) + CountChar(b, c)
    decreases |a|
  {
    if a != "" {
      assert (a + b)[1..] == a[1..] + b;
      CountCharAppend(a[1..], b, c);
    } else {
      assert a + b == b;
    }
  }

  lemma {:induction false} CountCharAbsent(s: string, c: char)
    requires c !in s
    ensures CountChar(s, c) == 0
    decreases |s|
  {
    if s != "" {
      CountCharAbsent(s[1..], c);
    }
  }

  /** Joining pieces that each hold `c` once with a separator free of `c` gives
      a text holding `c` once per piece. */
  lemma {:induction false} CountCharJoin(parts: seq<string>, sep: string, c: char)
    requires c !in sep
    requires forall i :: 0 <= i < |parts| ==> CountChar(parts[i], c) == 1
    ensures CountChar(Join(parts, sep), c) == |parts|
    decreases |parts|
  {
    if |parts| > 1 {
      CountCharJoin(parts[1..], sep, c);
      CountCharAbsent(sep, c);
      CountCharAppend(parts[0], sep, c);
      CountCharAppend(parts[0] + sep, Join(parts[1..], sep), c);
    }
  }
}
