/** String and number helpers shared by the models: the JavaScript string
    operations (`split`, `trim`, `toLowerCase`, `replace(/\D/g, "")`,
    `slice`, `parseInt`, `toString`) that the storefront's code leans on. */
module Common {

  datatype Option<T> = None | Some(value: T) {
    function GetOr(default: T): T {
      if Some? then value else default
    }
  }

  /** The outcome of JavaScript code that may throw: `Failure` stands for
      the `TypeError` the code raises. */
  datatype Result<T> = Ok(value: T) | Failure(error: string)

  predicate IsDigit(c: char) {
    '0' <= c <= '9'
  }

  /** JavaScript's `\s` and `trim` whitespace, restricted to the ASCII
      control spaces and the no-break space. */
  predicate IsSpace(c: char) {
    c == ' ' || c == '\t' || c == '\n' || c == '\r' || c == '\U{000B}' || c == '\U{000C}' || c == '\U{00A0}'
  }

  predicate AllDigits(s: string) {
    forall i :: 0 <= i < |s| ==> IsDigit(s[i])
  }

  predicate StartsWith(s: string, prefix: string) {
    |prefix| <= |s| && s[..|prefix|] == prefix
  }

  /** `sub` occurs in `s` starting at index `i`. */
  predicate OccursAt(s: string, sub: string, i: int) {
    0 <= i && i + |sub| <= |s| && s[i..i + |sub|] == sub
  }

  /** `s.includes(sub)`. */
  predicate Contains(s: string, sub: string) {
    exists i :: 0 <= i <= |s| - |sub| && OccursAt(s, sub, i)
  }

  /** `s.slice(0, n)`. */
  function Take(s: string, n: nat): (r: string)
    ensures |r| == if |s| <= n then |s| else n
    ensures r == s[..|r|]
  {
    if |s| <= n then s else s[..n]
  }

  /** `s.replace(/\D/g, "")`: the digits of `s`, in order. */
  function DigitsOnly(s: string): (r: string)
    ensures AllDigits(r)
    ensures |r| <= |s|
  {
    if s == [] then []
    else if IsDigit(s[0]) then [s[0]] + DigitsOnly(s[1..])
    else DigitsOnly(s[1..])
  }

  lemma {:induction false} DigitsOnlyOfDigits(s: string)
    requires AllDigits(s)
    ensures DigitsOnly(s) == s
  {
    if s != [] {
      DigitsOnlyOfDigits(s[1..]);
    }
  }

  /** Keeping the digits of digits, a space, and more. */
  lemma DigitsThenSpace(a: string, b: string)
    requires AllDigits(a)
    ensures DigitsOnly(a + " " + b) == a + DigitsOnly(b)
  {
    var x := a + " ";
    DigitsOnlyAppend(x, b);
    DigitsOnlyAppend(a, " ");
    DigitsOnlyOfDigits(a);
    assert " "[1..] == [] && !IsDigit(' ');
    assert DigitsOnly(" ") == [];
    assert DigitsOnly(x) == a;
  }

  /** Filtering out the non-digits works piece by piece. */
  lemma {:induction false} DigitsOnlyAppend(a: string, b: string)
    ensures DigitsOnly(a + b) == DigitsOnly(a) + DigitsOnly(b)
  {
    if a != [] {
      assert (a + b)[0] == a[0];
      assert (a + b)[1..] == a[1..] + b;
      DigitsOnlyAppend(a[1..], b);
    } else {
      assert a + b == b;
    }
  }

  /** `s.split(c).join("")`: `s` with every `c` removed. */
  function Remove(s: string, c: char): (r: string)
    ensures c !in r
    ensures |r| <= |s|
  {
    if s == [] then []
    else if s[0] == c then Remove(s[1..], c)
    else [s[0]] + Remove(s[1..], c)
  }

  lemma {:induction false} RemoveAppend(a: string, b: string, c: char)
    ensures Remove(a + b, c) == Remove(a, c) + Remove(b, c)
  {
    if a != [] {
      assert (a + b)[0] == a[0];
      assert (a + b)[1..] == a[1..] + b;
      RemoveAppend(a[1..], b, c);
    } else {
      assert a + b == b;
    }
  }

  lemma {:induction false} RemoveAbsent(s: string, c: char)
    requires c !in s
    ensures Remove(s, c) == s
  {
    if s != [] {
      RemoveAbsent(s[1..], c);
    }
  }

  // ---------------------------------------------------------------------
  // split and join

  /** `s.split(sep)` for a non-empty separator: the pieces between the
      leftmost non-overlapping occurrences of `sep`. */
  function Split(s: string, sep: string): (r: seq<string>)
    requires |sep| > 0
    ensures |r| >= 1
    decreases |s|
  {
    if |s| < |sep| then [s]
    else if s[..|sep|] == sep then [[]] + Split(s[|sep|..], sep)
    else
      var rest := Split(s[1..], sep);
      [[s[0]] + rest[0]] + rest[1..]
  }

  /** `parts.join(sep)`. */
  function Join(parts: seq<string>, sep: string): string
    requires |parts| >= 1
  {
    if |parts| == 1 then parts[0] else parts[0] + sep + Join(parts[1..], sep)
  }

  lemma JoinConsFirst(c: char, parts: seq<string>, sep: string)
    requires |parts| >= 1
    ensures Join([[c] + parts[0]] + parts[1..], sep) == [c] + Join(parts, sep)
  {
    var q := [[c] + parts[0]] + parts[1..];
    assert q[1..] == parts[1..];
  }

  /** Splitting and joining again gives back the original string. */
  lemma {:induction false} JoinSplit(s: string, sep: string)
    requires |sep| > 0
    ensures Join(Split(s, sep), sep) == s
    decreases |s|
  {
    if |s| < |sep| {
    } else if s[..|sep|] == sep {
      JoinSplit(s[|sep|..], sep);
      var r := Split(s, sep);
      assert r == [[]] + Split(s[|sep|..], sep);
      assert r[1..] == Split(s[|sep|..], sep);
      assert s == s[..|sep|] + s[|sep|..];
    } else {
      JoinSplit(s[1..], sep);
      JoinConsFirst(s[0], Split(s[1..], sep), sep);
      assert s == [s[0]] + s[1..];
    }
  }

  /** No piece holds the one-character separator. */
  lemma {:induction false} SplitPiecesWithout(s: string, sep: string)
    requires |sep| == 1
    ensures forall j :: 0 <= j < |Split(s, sep)| ==> sep[0] !in Split(s, sep)[j]
    decreases |s|
  {
    if |s| < |sep| {
    } else if s[..|sep|] == sep {
      SplitPiecesWithout(s[|sep|..], sep);
      assert Split(s, sep) == [[]] + Split(s[|sep|..], sep);
    } else {
      SplitPiecesWithout(s[1..], sep);
      assert s[0] != sep[0] by { assert s[..1][0] == s[0]; }
      var rest := Split(s[1..], sep);
      var r := Split(s, sep);
      assert r == [[s[0]] + rest[0]] + rest[1..];
      forall j | 0 <= j < |r|
        ensures sep[0] !in r[j]
      {
        if j == 0 {
          assert sep[0] !in rest[0];
        } else {
          assert r[j] == rest[j];
        }
      }
    }
  }

  /** The first piece is everything before the first separator. */
  lemma {:induction false} SplitFirst(a: string, rest: string, sep: string)
    requires |sep| == 1 && sep[0] !in a
    ensures Split(a + sep + rest, sep) == [a] + Split(rest, sep)
    decreases |a|
  {
    var s := a + sep + rest;
    if a == [] {
      assert s[..1] == sep;
      assert s[1..] == rest;
    } else {
      assert s[..1] != sep by { assert s[..1][0] == a[0]; }
      assert s[1..] == a[1..] + sep + rest;
      SplitFirst(a[1..], rest, sep);
      assert [a[0]] + a[1..] == a;
    }
  }

  /** A string without the separator is not split. */
  lemma {:induction false} SplitWithout(s: string, sep: string)
    requires |sep| == 1 && sep[0] !in s
    ensures Split(s, sep) == [s]
    decreases |s|
  {
    if |s| >= 1 {
      assert s[..1] != sep by { assert s[..1][0] == s[0]; }
      SplitWithout(s[1..], sep);
      assert [s[0]] + s[1..] == s;
    }
  }

  /** The first two pieces of `a + sep + b + more`, where `more` is empty
      or starts a new piece, are `a` and `b`. */
  lemma SplitTwoPieces(a: string, b: string, more: string, sep: string)
    requires |sep| == 1 && sep[0] !in a && sep[0] !in b
    requires more == [] || more[0] == sep[0]
    ensures var r := Split(a + sep + b + more, sep);
      |r| >= 2 && r[0] == a && r[1] == b
  {
    assert a + sep + b + more == a + sep + (b + more);
    SplitFirst(a, b + more, sep);
    if more == [] {
      assert b + more == b;
      SplitWithout(b, sep);
    } else {
      assert b + more == b + sep + more[1..];
      SplitFirst(b, more[1..], sep);
    }
  }

  /** The last piece of `a + sep + b` is `b` when `b` does not hold the
      one-character separator. */
  lemma {:induction false} SplitLastPiece(a: string, b: string, sep: string)
    requires |sep| == 1 && sep[0] !in b
    ensures var r := Split(a + sep + b, sep); r[|r| - 1] == b
    decreases |a|
  {
    var s := a + sep + b;
    if a == [] {
      assert s[..1] == sep;
      assert s[1..] == b;
      SplitWithout(b, sep);
    } else if s[..1] == sep {
      assert s[1..] == a[1..] + sep + b;
      SplitLastPiece(a[1..], b, sep);
    } else {
      assert s[1..] == a[1..] + sep + b;
      SplitLastPiece(a[1..], b, sep);
      JoinSplit(s[1..], sep);
      var rest := Split(s[1..], sep);
      assert |s[1..]| > |b|;
      assert |rest| != 1;
    }
  }

  // ---------------------------------------------------------------------
  // trimming

  /** The first index at or after `from` that does not hold whitespace. */
  function SkipSpaces(s: string, from: nat): (i: nat)
    requires from <= |s|
    ensures from <= i <= |s|
    ensures forall k :: from <= k < i ==> IsSpace(s[k])
    ensures i < |s| ==> !IsSpace(s[i])
    decreases |s| - from
  {
    if from < |s| && IsSpace(s[from]) then SkipSpaces(s, from + 1) else from
  }

  /** The end of `s[lo..hi]` once its trailing whitespace is cut off. */
  function CutSpaces(s: string, lo: nat, hi: nat): (j: nat)
    requires lo <= hi <= |s|
    ensures lo <= j <= hi
    ensures forall k :: j <= k < hi ==> IsSpace(s[k])
    ensures j > lo ==> !IsSpace(s[j - 1])
    decreases hi
  {
    if hi > lo && IsSpace(s[hi - 1]) then CutSpaces(s, lo, hi - 1) else hi
  }

  /** `s.trimStart()`. */
  function TrimStart(s: string): (r: string)
    ensures |r| <= |s| && r == s[|s| - |r|..]
    ensures r == [] || !IsSpace(r[0])
    ensures forall k :: 0 <= k < |s| - |r| ==> IsSpace(s[k])
  {
    s[SkipSpaces(s, 0)..]
  }

  /** `r` is the slice of `s` at `i` with only whitespace around it. */
  predicate TrimmedAt(s: string, r: string, i: int) {
    && 0 <= i <= |s| - |r| && r == s[i..i + |r|]
    && (forall k :: 0 <= k < i ==> IsSpace(s[k]))
    && (forall k :: i + |r| <= k < |s| ==> IsSpace(s[k]))
  }

  /** `s.trim()`: the part of `s` between leading and trailing whitespace. */
  function Trim(s: string): (r: string)
    ensures r == [] || (!IsSpace(r[0]) && !IsSpace(r[|r| - 1]))
    ensures exists i :: TrimmedAt(s, r, i)
  {
    var i := SkipSpaces(s, 0);
    var j := CutSpaces(s, i, |s|);
    assert TrimmedAt(s, s[i..j], i);
    s[i..j]
  }

  /** A string of whitespace trims to nothing. */
  lemma TrimBlank(s: string)
    requires forall k :: 0 <= k < |s| ==> IsSpace(s[k])
    ensures Trim(s) == []
  {
    assert SkipSpaces(s, 0) == |s|;
  }

  /** A string that neither starts nor ends with whitespace is its own trim. */
  lemma TrimNoop(s: string)
    requires s == [] || (!IsSpace(s[0]) && !IsSpace(s[|s| - 1]))
    ensures Trim(s) == s
  {
  }

  // ---------------------------------------------------------------------
  // case

  function LowerChar(c: char): char {
    if 'A' <= c <= 'Z' then (c as int + 32) as char else c
  }

  /** `s.toLowerCase()` over ASCII letters. */
  function ToLower(s: string): (r: string)
    ensures |r| == |s|
    ensures forall i :: 0 <= i < |s| ==> r[i] == LowerChar(s[i])
  {
    if s == [] then [] else [LowerChar(s[0])] + ToLower(s[1..])
  }

  // ---------------------------------------------------------------------
  // decimal numbers

  function DigitChar(d: nat): char
    requires d < 10
  {
    ('0' as int + d) as char
  }

  function DigitValue(c: char): nat
    requires IsDigit(c)
  {
    c as int - '0' as int
  }

  /** The value of a string of decimal digits, most significant first. */
  function DigitsValue(s: string): nat
    requires AllDigits(s)
  {
    if s == [] then 0 else DigitsValue(s[..|s| - 1]) * 10 + DigitValue(s[|s| - 1])
  }

  lemma DigitsValueSnoc(s: string, c: char)
    requires AllDigits(s) && IsDigit(c)
    ensures AllDigits(s + [c])
    ensures DigitsValue(s + [c]) == DigitsValue(s) * 10 + DigitValue(c)
  {
    assert (s + [c])[..|s|] == s;
  }

  /** `n.toString()` for a natural number. */
  function NatToString(n: nat): (r: string)
    ensures |r| >= 1 && AllDigits(r)
    ensures |r| > 1 ==> r[0] != '0'
    ensures DigitsValue(r) == n
  {
    if n < 10 then [DigitChar(n)]
    else
      var r := NatToString(n / 10) + [DigitChar(n % 10)];
      assert r[..|r| - 1] == NatToString(n / 10);
      r
  }

  /** `n.toString()` for an integer. */
  function IntToString(n: int): (r: string)
    ensures n >= 0 ==> r == NatToString(n)
    ensures n < 0 ==> r == "-" + NatToString(-n)
  {
    if n < 0 then "-" + NatToString(-n) else NatToString(n)
  }

  /** Leading zeros do not change the value of a digit string. */
  lemma {:induction false} LeadingZeros(z: string, s: string)
    requires forall i :: 0 <= i < |z| ==> z[i] == '0'
    requires AllDigits(s)
    ensures AllDigits(z + s)
    ensures DigitsValue(z + s) == DigitsValue(s)
    decreases |s|
  {
    if s == [] {
      assert z + s == z;
      ZerosValue(z);
    } else {
      var t := z + s;
      assert t[..|t| - 1] == z + s[..|s| - 1];
      LeadingZeros(z, s[..|s| - 1]);
    }
  }

  lemma {:induction false} ZerosValue(z: string)
    requires forall i :: 0 <= i < |z| ==> z[i] == '0'
    ensures AllDigits(z) && DigitsValue(z) == 0
  {
    if z != [] {
      ZerosValue(z[..|z| - 1]);
    }
  }

  /** The longest prefix of `s` made of digits. */
  function DigitPrefix(s: string): (r: string)
    ensures AllDigits(r) && StartsWith(s, r)
    ensures |r| < |s| ==> !IsDigit(s[|r|])
  {
    if s != [] && IsDigit(s[0]) then [s[0]] + DigitPrefix(s[1..]) else []
  }

  lemma {:induction false} DigitPrefixOfDigits(s: string)
    requires AllDigits(s)
    ensures DigitPrefix(s) == s
  {
    if s != [] {
      DigitPrefixOfDigits(s[1..]);
    }
  }

  /** `parseInt(s, 10)`: skip leading whitespace, an optional sign, then
      the longest run of digits; `None` stands for `NaN` (no digits). */
  function ParseInt(s: string): (r: Option<int>)
    ensures r.None? <==> DigitPrefix(SkipSign(TrimStart(s))) == []
  {
    var t := TrimStart(s);
    var digits := DigitPrefix(SkipSign(t));
    var v: int := DigitsValue(digits);
    if digits == [] then None
    else if t[0] == '-' then Some(-v)
    else Some(v)
  }

  function SkipSign(t: string): (r: string)
    ensures r == t || (t != [] && (t[0] == '+' || t[0] == '-') && r == t[1..])
  {
    if t != [] && (t[0] == '+' || t[0] == '-') then t[1..] else t
  }

  /** Without a minus sign, `parseInt` gives no negative number. */
  lemma ParseIntNonNegative(s: string)
    requires '-' !in s
    ensures ParseInt(s).Some? ==> ParseInt(s).value >= 0
  {
    var t := TrimStart(s);
    if t != [] {
      assert t[0] == s[|s| - |t|];
    }
  }

  /** `parseInt` reads back a string of digits as its value. */
  lemma ParseIntOfDigits(s: string)
    requires s != [] && AllDigits(s)
    ensures ParseInt(s) == Some(DigitsValue(s))
  {
    assert !IsSpace(s[0]);
    DigitPrefixOfDigits(s);
  }

  // ---------------------------------------------------------------------
  // grouping of digits in threes

  /** A digit string with `sep` inserted before every trailing group of
      three digits that has a digit in front of it. */
  function GroupThousands(s: string, sep: char): (r: string)
    decreases |s|
  {
    if |s| <= 3 then s else GroupThousands(s[..|s| - 3], sep) + [sep] + s[|s| - 3..]
  }

  lemma {:induction false} GroupThousandsLength(s: string, sep: char)
    requires |s| >= 1
    ensures |GroupThousands(s, sep)| == |s| + (|s| - 1) / 3
    decreases |s|
  {
    if |s| > 3 {
      GroupThousandsLength(s[..|s| - 3], sep);
    }
  }

  /** Appending a separator and three more characters keeps the separators
      at the positions a multiple of four from the end. */
  lemma GroupStep(q: string, tail: string, sep: char)
    requires |tail| == 3 && sep !in tail
    requires forall i :: 0 <= i < |q| ==> (q[i] == sep <==> (|q| - i) % 4 == 0)
    ensures var r := q + [sep] + tail;
      forall i :: 0 <= i < |r| ==> (r[i] == sep <==> (|r| - i) % 4 == 0)
  {
    var r := q + [sep] + tail;
    forall i | 0 <= i < |r|
      ensures r[i] == sep <==> (|r| - i) % 4 == 0
    {
      if i < |q| {
        assert r[i] == q[i];
        assert |r| - i == (|q| - i) + 4;
      } else if i > |q| {
        assert r[i] == tail[i - |q| - 1];
      }
    }
  }

  lemma NotInSlices(s: string, c: char, k: nat)
    requires c !in s && k <= |s|
    ensures c !in s[..k] && c !in s[k..]
  {
    assert forall x :: x in s[..k] ==> x in s;
    assert forall x :: x in s[k..] ==> x in s;
  }

  lemma RemoveSeparator(q: string, tail: string, sep: char)
    requires sep !in tail
    ensures Remove(q + [sep] + tail, sep) == Remove(q, sep) + tail
  {
    var x := q + [sep];
    RemoveAppend(x, tail, sep);
    RemoveAppend(q, [sep], sep);
    RemoveAbsent(tail, sep);
    assert [sep][1..] == [];
    assert Remove([sep], sep) == [];
    assert Remove(x, sep) == Remove(q, sep);
  }

  /** Removing `c` around one occurrence of it, after a part without it. */
  lemma RemoveAfter(a: string, b: string, c: char)
    requires c !in a
    ensures Remove(a + [c] + b, c) == a + Remove(b, c)
  {
    var x := a + [c];
    RemoveAppend(x, b, c);
    RemoveAppend(a, [c], c);
    RemoveAbsent(a, c);
    assert [c][1..] == [];
    assert Remove([c], c) == [];
    assert Remove(x, c) == a;
  }

  /** Removing the separators from a grouped string gives the digits back. */
  lemma {:induction false} GroupThousandsRemove(s: string, sep: char)
    requires sep !in s
    ensures Remove(GroupThousands(s, sep), sep) == s
    decreases |s|
  {
    if |s| <= 3 {
      RemoveAbsent(s, sep);
    } else {
      var p := s[..|s| - 3];
      var tail := s[|s| - 3..];
      NotInSlices(s, sep, |s| - 3);
      GroupThousandsRemove(p, sep);
      var q := GroupThousands(p, sep);
      assert GroupThousands(s, sep) == q + [sep] + tail;
      RemoveSeparator(q, tail, sep);
      assert p + tail == s;
    }
  }

  /** Grouping puts `sep` exactly at the positions that are a multiple of
      four from the end. */
  lemma {:induction false} GroupThousandsSeparators(s: string, sep: char)
    requires sep !in s
    ensures var r := GroupThousands(s, sep);
      forall i :: 0 <= i < |r| ==> (r[i] == sep <==> (|r| - i) % 4 == 0)
    decreases |s|
  {
    if |s| > 3 {
      var p := s[..|s| - 3];
      var tail := s[|s| - 3..];
      NotInSlices(s, sep, |s| - 3);
      GroupThousandsSeparators(p, sep);
      assert GroupThousands(s, sep) == GroupThousands(p, sep) + [sep] + tail;
      GroupStep(GroupThousands(p, sep), tail, sep);
    }
  }

  lemma GroupedLengthMod(n: nat)
    requires n >= 1
    ensures (n + (n - 1) / 3) % 4 != 0
  {
    var q := (n - 1) / 3;
    var m := (n - 1) % 3;
    assert n + q == 4 * q + m + 1;
  }

  /** Grouping puts `sep` exactly at the positions that are a multiple of
      four from the end, never first, and removing it gives `s` back. */
  lemma GroupThousandsShape(s: string, sep: char)
    requires |s| >= 1 && sep !in s
    ensures var r := GroupThousands(s, sep);
      && |r| % 4 != 0
      && (forall i :: 0 <= i < |r| ==> (r[i] == sep <==> (|r| - i) % 4 == 0))
      && Remove(r, sep) == s
  {
    GroupThousandsLength(s, sep);
    GroupedLengthMod(|s|);
    GroupThousandsRemove(s, sep);
    GroupThousandsSeparators(s, sep);
  }
}
