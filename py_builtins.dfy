/**
 * The pieces of Python's `str`, `int()`, `sorted()` and `dict` that the engine
 * code relies on, with the properties the rest of the model needs.
 */
module PyBuiltins {
  import opened Wrappers

  // ---------------------------------------------------------------------------
  // str.startswith / str.endswith

  /** `s.startswith(prefix)`: a character-wise prefix test (no notion of paths). */
  predicate StartsWith(s: string, prefix: string) {
    |prefix| <= |s| && s[..|prefix|] == prefix
  }

  /** `s.endswith(suffix)`. */
  predicate EndsWith(s: string, suffix: string) {
    |suffix| <= |s| && s[|s| - |suffix|..] == suffix
  }

  // ---------------------------------------------------------------------------
  // str.split(sep) with a one-character separator

  function Count(s: string, c: char): nat {
    if s == [] then 0 else (if s[0] == c then 1 else 0) + Count(s[1..], c)
  }

  /** `sep.join(fields)`. */
  function JoinWith(fields: seq<string>, sep: char): string
    requires |fields| >= 1
  {
    if |fields| == 1 then fields[0] else fields[0] + [sep] + JoinWith(fields[1..], sep)
  }

  /**
   * `s.split(sep)`: the maximal separator-free runs of `s`. There is always
   * one field more than there are separators, and joining the fields back
   * with the separator gives `s` again.
   */
  function Split(s: string, sep: char): (fields: seq<string>)
    ensures |fields| == Count(s, sep) + 1
    ensures forall i :: 0 <= i < |fields| ==> sep !in fields[i]
    ensures JoinWith(fields, sep) == s
    decreases |s|
  {
    if s == [] then [""]
    else
      var rest := Split(s[1..], sep);
      if s[0] == sep then
        [""] + rest
      else
        assert JoinWith(rest, sep) == s[1..];
        assert |rest| > 1 ==> JoinWith(rest, sep) == rest[0] + [sep] + JoinWith(rest[1..], sep);
        [[s[0]] + rest[0]] + rest[1..]
  }

  /** Splitting `a,b` where neither part holds the separator gives exactly `[a, b]`. */
  lemma {:induction false} SplitTwoFields(a: string, b: string, sep: char)
    requires sep !in a && sep !in b
    ensures Split(a + [sep] + b, sep) == [a, b]
    decreases |a|
  {
    var s := a + [sep] + b;
    if a == [] {
      assert s[1..] == b;
      SplitNoSeparator(b, sep);
    } else {
      assert s[1..] == a[1..] + [sep] + b;
      SplitTwoFields(a[1..], b, sep);
      assert [s[0]] + a[1..] == a;
    }
  }

  /** A string without the separator splits into itself alone. */
  lemma SplitNoSeparator(s: string, sep: char)
    requires sep !in s
    ensures Split(s, sep) == [s]
  {
    var f := Split(s, sep);
    CountAbsent(s, sep);
    assert |f| == 1;
  }

  lemma {:induction false} CountAbsent(s: string, c: char)
    requires c !in s
    ensures Count(s, c) == 0
    decreases |s|
  {
    if s != [] {
      assert c !in s[1..] by {
        forall i | 0 <= i < |s[1..]| ensures s[1..][i] != c { assert s[1..][i] == s[i + 1]; }
      }
      CountAbsent(s[1..], c);
    }
  }

  // ---------------------------------------------------------------------------
  // s[1:-1]

  /** `s[1:-1]` with Python's clamping slice semantics: empty for strings shorter than two. */
  function DropEnds(s: string): (inner: string)
    ensures |s| >= 2 ==> inner == s[1..|s| - 1]
    ensures |s| < 2 ==> inner == ""
  {
    if |s| >= 2 then s[1..|s| - 1] else ""
  }

  // ---------------------------------------------------------------------------
  // int(s)

  predicate IsSpace(c: char) {
    c == ' ' || c == '\t' || c == '\n' || c == '\r' || c == '\U{0B}' || c == '\U{0C}'
  }

  function StripLeft(s: string): string
    decreases |s|
  {
    if s != [] && IsSpace(s[0]) then StripLeft(s[1..]) else s
  }

  function StripRight(s: string): string
    decreases |s|
  {
    if s != [] && IsSpace(s[|s| - 1]) then StripRight(s[..|s| - 1]) else s
  }

  /** `s.strip()` over ASCII whitespace. */
  function Strip(s: string): string {
    StripRight(StripLeft(s))
  }

  predicate IsDigit(c: char) {
    '0' <= c <= '9'
  }

  predicate AllDigits(s: string) {
    forall i :: 0 <= i < |s| ==> IsDigit(s[i])
  }

  function DigitValue(c: char): nat
    requires IsDigit(c)
  {
    c as int - '0' as int
  }

  function DigitChar(d: nat): (c: char)
    requires d < 10
    ensures IsDigit(c) && DigitValue(c) == d
  {
    ('0' as int + d) as char
  }

  /** The value of a run of decimal digits, read most significant first. */
  function DigitsValue(s: string): nat
    requires AllDigits(s)
    decreases |s|
  {
    if s == [] then 0 else DigitsValue(s[..|s| - 1]) * 10 + DigitValue(s[|s| - 1])
  }

  /**
   * Python 2's `int(s)` on a `str`: surrounding whitespace is ignored, an
   * optional sign is followed by at least one decimal digit, with
   * whitespace allowed between the sign and the digits (`int("- 5") == -5`,
   * since the sign is read before the digit reader skips leading blanks);
   * anything else raises `ValueError`, here `None`.
   */
  function ParseInt(s: string): Option<int> {
    var t := Strip(s);
    if t != [] && (t[0] == '-' || t[0] == '+') then
      var d := StripLeft(t[1..]);
      if d != [] && AllDigits(d) then
        var v: int := DigitsValue(d);
        Some(if t[0] == '-' then -v else v)
      else None
    else if t != [] && AllDigits(t) then Some(DigitsValue(t))
    else None
  }

  /** `str(n)` for a natural number. */
  function NatToString(n: nat): (s: string)
    ensures s != [] && AllDigits(s)
    decreases n
  {
    (if n < 10 then "" else NatToString(n / 10)) + [DigitChar(n % 10)]
  }

  /** `str(i)`. */
  function IntToString(i: int): string {
    if i < 0 then "-" + NatToString(-i) else NatToString(i)
  }

  lemma {:induction false} NatToStringValue(n: nat)
    ensures DigitsValue(NatToString(n)) == n
    decreases n
  {
    var s := NatToString(n);
    var init := if n < 10 then "" else NatToString(n / 10);
    assert s[..|s| - 1] == init;
    if n >= 10 {
      NatToStringValue(n / 10);
    }
  }

  lemma {:induction false} StripLeftBlanks(ws: string, rest: string)
    requires forall k :: 0 <= k < |ws| ==> IsSpace(ws[k])
    requires rest == [] || !IsSpace(rest[0])
    ensures StripLeft(ws + rest) == rest
    decreases |ws|
  {
    if ws != [] {
      assert (ws + rest)[1..] == ws[1..] + rest;
      StripLeftBlanks(ws[1..], rest);
    }
  }

  /** A sign, any run of blanks, then digits: `int` reads the signed value of the digits. */
  lemma SignedDigitsParse(sign: char, ws: string, digits: string)
    requires sign == '-' || sign == '+'
    requires forall k :: 0 <= k < |ws| ==> IsSpace(ws[k])
    requires digits != [] && AllDigits(digits)
    ensures ParseInt([sign] + ws + digits)
         == Some(if sign == '-' then -(DigitsValue(digits) as int) else DigitsValue(digits))
  {
    var s := [sign] + ws + digits;
    assert !IsSpace(s[0]) && !IsSpace(s[|s| - 1]);
    assert Strip(s) == s;
    assert s[1..] == ws + digits;
    StripLeftBlanks(ws, digits);
  }

  /** `int(str(i)) == i`. */
  lemma ParseIntOfIntToString(i: int)
    ensures ParseInt(IntToString(i)) == Some(i)
  {
    var s := IntToString(i);
    var digits := if i < 0 then NatToString(-i) else NatToString(i);
    NatToStringValue(if i < 0 then -i else i);
    assert !IsSpace(s[0]) && !IsSpace(s[|s| - 1]);
    assert Strip(s) == s;
    if i < 0 {
      assert s[1..] == digits;
      assert StripLeft(digits) == digits by { assert IsDigit(digits[0]); }
    }
  }

  // ---------------------------------------------------------------------------
  // sorted() over str

  /** Python's `<=` on `str`: lexicographic by code point. */
  predicate LessEq(a: string, b: string)
    decreases |a|
  {
    a == [] || (b != [] && (a[0] < b[0] || (a[0] == b[0] && LessEq(a[1..], b[1..]))))
  }

  lemma {:induction false} LessEqTotal(a: string, b: string)
    ensures LessEq(a, b) || LessEq(b, a)
    decreases |a|
  {
    if a != [] && b != [] && a[0] == b[0] {
      LessEqTotal(a[1..], b[1..]);
    }
  }

  lemma {:induction false} LessEqTransitive(a: string, b: string, c: string)
    requires LessEq(a, b) && LessEq(b, c)
    ensures LessEq(a, c)
    decreases |a|
  {
    if a != [] && a[0] == b[0] && b[0] == c[0] {
      LessEqTransitive(a[1..], b[1..], c[1..]);
    }
  }

  predicate IsSorted(s: seq<string>) {
    forall i, j :: 0 <= i < j < |s| ==> LessEq(s[i], s[j])
  }

  function Insert(x: string, s: seq<string>): seq<string> {
    if s == [] then [x]
    else if LessEq(x, s[0]) then [x] + s
    else [s[0]] + Insert(x, s[1..])
  }

  /** `sorted(keys)`, written as an insertion sort. */
  function SortStrings(keys: seq<string>): seq<string> {
    if keys == [] then [] else Insert(keys[0], SortStrings(keys[1..]))
  }

  lemma {:induction false} InsertElements(x: string, s: seq<string>)
    ensures multiset(Insert(x, s)) == multiset(s) + multiset{x}
  {
    if s != [] && !LessEq(x, s[0]) {
      InsertElements(x, s[1..]);
      assert s == [s[0]] + s[1..];
    }
  }

  /** Every string in `Insert(x, s)` is `x` or one of `s`. */
  lemma InsertMember(x: string, s: seq<string>, y: string)
    requires y in Insert(x, s)
    ensures y == x || y in s
  {
    InsertElements(x, s);
    assert y in multiset(Insert(x, s));
  }

  lemma {:induction false} InsertSorted(x: string, s: seq<string>)
    requires IsSorted(s)
    ensures IsSorted(Insert(x, s))
  {
    if s == [] {
    } else if LessEq(x, s[0]) {
      forall j | 0 <= j < |s| ensures LessEq(x, s[j]) {
        if j > 0 { LessEqTransitive(x, s[0], s[j]); }
      }
    } else {
      LessEqTotal(x, s[0]);
      var tail := s[1..];
      InsertSorted(x, tail);
      var t := Insert(x, tail);
      forall j | 0 <= j < |t| ensures LessEq(s[0], t[j]) {
        InsertMember(x, tail, t[j]);
        if t[j] != x {
          var k :| 0 <= k < |tail| && tail[k] == t[j];
          assert s[k + 1] == t[j];
        }
      }
    }
  }

  /** `sorted(keys)` is in ascending order and a permutation of `keys`. */
  lemma {:induction false} SortStringsCorrect(keys: seq<string>)
    ensures IsSorted(SortStrings(keys))
    ensures multiset(SortStrings(keys)) == multiset(keys)
  {
    if keys != [] {
      SortStringsCorrect(keys[1..]);
      InsertSorted(keys[0], SortStrings(keys[1..]));
      InsertElements(keys[0], SortStrings(keys[1..]));
      assert keys == [keys[0]] + keys[1..];
    }
  }

  // ---------------------------------------------------------------------------
  // dict, in insertion order

  /** A Python dict as its `items()` list: keys in insertion order. */
  type Dict<K, V> = seq<(K, V)>

  function Keys<K, V>(d: Dict<K, V>): (ks: seq<K>)
    ensures |ks| == |d|
  {
    if d == [] then [] else [d[0].0] + Keys(d[1..])
  }

  predicate Distinct<T(==)>(s: seq<T>) {
    forall i, j :: 0 <= i < j < |s| ==> s[i] != s[j]
  }

  /** `d.get(k)`. */
  function DictGet<K(==), V>(d: Dict<K, V>, k: K): Option<V> {
    if d == [] then None
    else if d[0].0 == k then Some(d[0].1)
    else DictGet(d[1..], k)
  }

  /** `d[k] = v`: an existing key keeps its place, a new key goes last. */
  function DictSet<K(==), V>(d: Dict<K, V>, k: K, v: V): Dict<K, V> {
    if d == [] then [(k, v)]
    else if d[0].0 == k then [(k, v)] + d[1..]
    else [d[0]] + DictSet(d[1..], k, v)
  }

  lemma {:induction false} KeysIn<K, V>(d: Dict<K, V>, i: nat)
    requires i < |d|
    ensures Keys(d)[i] == d[i].0
  {
    if i > 0 { KeysIn(d[1..], i - 1); }
  }

  lemma {:induction false} DictGetPresent<K, V>(d: Dict<K, V>, k: K)
    ensures DictGet(d, k).Some? <==> k in Keys(d)
  {
    if d != [] {
      DictGetPresent(d[1..], k);
      assert Keys(d) == [d[0].0] + Keys(d[1..]);
    }
  }

  /** After `d[k] = v`, reading `k` gives `v` and every other key reads as before. */
  lemma {:induction false} DictSetGet<K, V>(d: Dict<K, V>, k: K, v: V, k': K)
    ensures DictGet(DictSet(d, k, v), k') == if k' == k then Some(v) else DictGet(d, k')
  {
    if d != [] && d[0].0 != k {
      DictSetGet(d[1..], k, v, k');
    }
  }

  /** `d[k] = v` keeps the key order and appends a key it has not seen. */
  lemma {:induction false} DictSetKeys<K, V>(d: Dict<K, V>, k: K, v: V)
    ensures Keys(DictSet(d, k, v)) == if k in Keys(d) then Keys(d) else Keys(d) + [k]
  {
    if d != [] && d[0].0 != k {
      DictSetKeys(d[1..], k, v);
      assert Keys(d) == [d[0].0] + Keys(d[1..]);
    }
  }

  /** Keys stay pairwise distinct under `d[k] = v`. */
  lemma DictSetDistinct<K, V>(d: Dict<K, V>, k: K, v: V)
    requires Distinct(Keys(d))
    ensures Distinct(Keys(DictSet(d, k, v)))
  {
    DictSetKeys(d, k, v);
  }

  /** Two writes to one key leave the dict as the second write alone would. */
  lemma {:induction false} DictSetTwice<K, V>(d: Dict<K, V>, k: K, v1: V, v2: V)
    ensures DictSet(DictSet(d, k, v1), k, v2) == DictSet(d, k, v2)
  {
    if d != [] && d[0].0 != k {
      DictSetTwice(d[1..], k, v1, v2);
    }
  }
}
