/**
 * The part of Go's `strings` package (and of `%d` formatting) that the
 * command's line-oriented text handling relies on, over `string` = `seq<char>`.
 * Go strings are UTF-8 bytes; here they are sequences of code points.
 */
module GoStrings {

  /** unicode.IsSpace: the Latin-1 spaces and the Unicode White_Space code points. */
  predicate IsSpace(c: char) {
    var n := c as int;
    (0x09 <= n <= 0x0D) || n == 0x20 || n == 0x85 || n == 0xA0 || n == 0x1680 ||
    (0x2000 <= n <= 0x200A) || n == 0x2028 || n == 0x2029 || n == 0x202F ||
    n == 0x205F || n == 0x3000
  }

  /** strings.HasPrefix */
  predicate HasPrefix(s: string, prefix: string) {
    |prefix| <= |s| && s[..|prefix|] == prefix
  }

  /** strings.HasSuffix */
  predicate HasSuffix(s: string, suffix: string) {
    |suffix| <= |s| && s[|s| - |suffix|..] == suffix
  }

  /** strings.TrimPrefix: removes one leading copy of `prefix`, if present. */
  function TrimPrefix(s: string, prefix: string): string {
    if HasPrefix(s, prefix) then s[|prefix|..] else s
  }

  /** strings.TrimLeftFunc: the longest suffix of `s` that does not start with a dropped character. */
  function TrimLeftFunc(s: string, drop: char -> bool): string {
    if s != [] && drop(s[0]) then TrimLeftFunc(s[1..], drop) else s
  }

  /** strings.TrimRightFunc: the longest prefix of `s` that does not end with a dropped character. */
  function TrimRightFunc(s: string, drop: char -> bool): string {
    if s != [] && drop(s[|s| - 1]) then TrimRightFunc(s[..|s| - 1], drop) else s
  }

  /** TrimLeftFunc removes a run of dropped characters and stops at the first kept one. */
  lemma {:induction false} TrimLeftFuncSpec(s: string, drop: char -> bool)
    ensures var r := TrimLeftFunc(s, drop);
      |r| <= |s| && r == s[|s| - |r|..] &&
      (r == [] || !drop(r[0])) &&
      forall i :: 0 <= i < |s| - |r| ==> drop(s[i])
  {
    if s != [] && drop(s[0]) {
      var t := s[1..];
      TrimLeftFuncSpec(t, drop);
      var r := TrimLeftFunc(t, drop);
      assert TrimLeftFunc(s, drop) == r;
      assert r == s[|s| - |r|..] by {
        assert t[|t| - |r|..] == s[|s| - |r|..];
      }
      forall i | 0 <= i < |s| - |r| ensures drop(s[i]) {
        if i > 0 {
          assert s[i] == t[i - 1];
        }
      }
    }
  }

  /** TrimRightFunc removes a run of dropped characters and stops at the last kept one. */
  lemma {:induction false} TrimRightFuncSpec(s: string, drop: char -> bool)
    ensures var r := TrimRightFunc(s, drop);
      |r| <= |s| && r == s[..|r|] &&
      (r == [] || !drop(r[|r| - 1])) &&
      forall i :: |r| <= i < |s| ==> drop(s[i])
  {
    if s != [] && drop(s[|s| - 1]) {
      var t := s[..|s| - 1];
      TrimRightFuncSpec(t, drop);
      var r := TrimRightFunc(t, drop);
      assert TrimRightFunc(s, drop) == r;
      assert r == s[..|r|] by {
        assert t[..|r|] == s[..|r|];
      }
      forall i | |r| <= i < |s| ensures drop(s[i]) {
        if i < |s| - 1 {
          assert s[i] == t[i];
        }
      }
    }
  }

  /** strings.TrimFunc */
  function TrimFunc(s: string, drop: char -> bool): string {
    TrimRightFunc(TrimLeftFunc(s, drop), drop)
  }

  /** strings.TrimSpace: drops leading and trailing white space (unicode.IsSpace). */
  function TrimSpace(s: string): string {
    TrimRightSpace(TrimLeftSpace(s))
  }

  function TrimLeftSpace(s: string): string {
    if s != [] && IsSpace(s[0]) then TrimLeftSpace(s[1..]) else s
  }

  function TrimRightSpace(s: string): string {
    if s != [] && IsSpace(s[|s| - 1]) then TrimRightSpace(s[..|s| - 1]) else s
  }

  /** TrimSpace is TrimFunc with unicode.IsSpace, as strings.TrimSpace's slow path states. */
  lemma TrimSpaceIsTrimFunc(s: string)
    ensures TrimSpace(s) == TrimFunc(s, IsSpace)
  {
    TrimLeftSpaceIsTrimLeftFunc(s);
    TrimRightSpaceIsTrimRightFunc(TrimLeftSpace(s));
  }

  lemma {:induction false} TrimLeftSpaceIsTrimLeftFunc(s: string)
    ensures TrimLeftSpace(s) == TrimLeftFunc(s, IsSpace)
  {
    if s != [] && IsSpace(s[0]) {
      TrimLeftSpaceIsTrimLeftFunc(s[1..]);
    }
  }

  lemma {:induction false} TrimRightSpaceIsTrimRightFunc(s: string)
    ensures TrimRightSpace(s) == TrimRightFunc(s, IsSpace)
  {
    if s != [] && IsSpace(s[|s| - 1]) {
      TrimRightSpaceIsTrimRightFunc(s[..|s| - 1]);
    }
  }

  /** strings.Trim: drops every leading and trailing character that occurs in `cutset`. */
  function Trim(s: string, cutset: string): string {
    TrimFunc(s, c => c in cutset)
  }

  /** A string that neither starts nor ends with a dropped character is its own trim. */
  lemma TrimFuncNoop(s: string, drop: char -> bool)
    requires s == [] || (!drop(s[0]) && !drop(s[|s| - 1]))
    ensures TrimFunc(s, drop) == s
  {
  }

  /** strings.Count with a one-character separator: its number of occurrences. */
  function Count(s: string, sep: char): nat {
    if s == [] then 0 else (if s[0] == sep then 1 else 0) + Count(s[1..], sep)
  }

  /**
   * strings.Split with a one-character separator: the pieces between
   * separators. Splitting always yields one more piece than there are
   * separators, so an empty string splits into [""].
   */
  function Split(s: string, sep: char): (r: seq<string>)
    ensures |r| == Count(s, sep) + 1
    ensures forall i :: 0 <= i < |r| ==> sep !in r[i]
  {
    if s == [] then [""]
    else
      var rest := Split(s[1..], sep);
      if s[0] == sep then [""] + rest
      else [[s[0]] + rest[0]] + rest[1..]
  }

  /** strings.Join with a one-character separator. */
  function Join(parts: seq<string>, sep: char): string {
    if parts == [] then ""
    else if |parts| == 1 then parts[0]
    else parts[0] + [sep] + Join(parts[1..], sep)
  }

  /** Joining the pieces of a split gives back the original string. */
  lemma {:induction false} JoinSplit(s: string, sep: char)
    ensures Join(Split(s, sep), sep) == s
  {
    if s != [] {
      var rest := Split(s[1..], sep);
      JoinSplit(s[1..], sep);
      if s[0] == sep {
        assert ([""] + rest)[1..] == rest;
      } else if |rest| == 1 {
        assert Split(s, sep) == [[s[0]] + rest[0]];
        assert s == [s[0]] + s[1..];
      } else {
        var r := Split(s, sep);
        assert r[1..] == rest[1..];
        assert Join(rest, sep) == rest[0] + [sep] + Join(rest[1..], sep);
        assert s == [s[0]] + s[1..];
      }
    }
  }

  lemma {:induction false} SplitNoSeparator(s: string, sep: char)
    requires sep !in s
    ensures Split(s, sep) == [s]
  {
    if s != [] {
      SplitNoSeparator(s[1..], sep);
      assert s == [s[0]] + s[1..];
    }
  }

  lemma {:induction false} SplitAtSeparator(a: string, sep: char, t: string)
    requires sep !in a
    ensures Split(a + [sep] + t, sep) == [a] + Split(t, sep)
  {
    var s := a + [sep] + t;
    if a == [] {
      assert s[1..] == t;
    } else {
      assert s[1..] == a[1..] + [sep] + t;
      SplitAtSeparator(a[1..], sep, t);
      assert a == [a[0]] + a[1..];
    }
  }

  /** Splitting a join of separator-free pieces gives back the pieces. */
  lemma {:induction false} SplitJoin(parts: seq<string>, sep: char)
    requires |parts| >= 1
    requires forall i :: 0 <= i < |parts| ==> sep !in parts[i]
    ensures Split(Join(parts, sep), sep) == parts
  {
    if |parts| == 1 {
      SplitNoSeparator(parts[0], sep);
    } else {
      SplitJoin(parts[1..], sep);
      SplitAtSeparator(parts[0], sep, Join(parts[1..], sep));
      assert parts == [parts[0]] + parts[1..];
    }
  }

  /** A join of separator-free pieces holds one separator fewer than it has pieces. */
  lemma CountJoin(parts: seq<string>, sep: char)
    requires |parts| >= 1
    requires forall i :: 0 <= i < |parts| ==> sep !in parts[i]
    ensures Count(Join(parts, sep), sep) == |parts| - 1
  {
    SplitJoin(parts, sep);
  }

  /** strings.Repeat */
  function Repeat(s: string, n: nat): (r: string)
    ensures |r| == n * |s|
    ensures forall i :: 0 <= i < |r| ==> r[i] in s
  {
    if n == 0 then "" else s + Repeat(s, n - 1)
  }

  /** The decimal value of a string of digits. */
  function DecimalValue(s: string): nat {
    if s == [] then 0
    else
      var d := s[|s| - 1] as int - '0' as int;
      DecimalValue(s[..|s| - 1]) * 10 + (if 0 <= d then d else 0)
  }

  predicate IsDigit(c: char) {
    '0' <= c <= '9'
  }

  /** The `%d` rendering of a natural number: digits whose decimal value is the number. */
  function NatToString(n: nat): (r: string)
    ensures |r| >= 1
    ensures forall i :: 0 <= i < |r| ==> IsDigit(r[i])
    ensures DecimalValue(r) == n
  {
    var digit := ('0' as int + n % 10) as char;
    if n < 10 then [digit]
    else
      var r := NatToString(n / 10) + [digit];
      assert r[..|r| - 1] == NatToString(n / 10);
      r
  }

  /** Concatenation is associative; stated apart so that proofs about the rewrite do not reason about their own sequences element by element. */
  lemma AppendAssoc<T>(x: seq<T>, y: seq<T>, z: seq<T>)
    ensures x + (y + z) == (x + y) + z
  {
  }
}
