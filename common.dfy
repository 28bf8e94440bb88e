/** Shared vocabulary: optional values, sequence filters and counts, a stable
    sort on an integer key, grouping in first-insertion order (the order in which
    a JavaScript object with string keys lists its properties), and decimal text. */
module Common {

  datatype Option<T> = None | Some(value: T)

  /** A call that either returns a value or throws an error. */
  datatype Result<T, E> = Ok(value: T) | Err(error: E)

  // ---------------------------------------------------------------------------
  // Filters and counts (Array.prototype.filter, .filter(...).length)
  // ---------------------------------------------------------------------------

  /** Milliseconds in a day, the unit of JavaScript Date arithmetic. */
  const DayMs := 24 * 60 * 60 * 1000

  /** The elements of s that satisfy p, in their original order. */
  function Filter<T>(s: seq<T>, p: T -> bool): (r: seq<T>)
    ensures |r| <= |s|
    ensures forall x :: x in r ==> x in s && p(x)
  {
    if s == [] then []
    else Filter(s[..|s| - 1], p) + (if p(s[|s| - 1]) then [s[|s| - 1]] else [])
  }

  /** The number of elements of s that satisfy p. */
  function Count<T>(s: seq<T>, p: T -> bool): (n: nat)
    ensures n <= |s|
  {
    if s == [] then 0
    else Count(s[..|s| - 1], p) + (if p(s[|s| - 1]) then 1 else 0)
  }

  lemma {:induction false} FilterCount<T>(s: seq<T>, p: T -> bool)
    ensures |Filter(s, p)| == Count(s, p)
  {
    if s != [] {
      FilterCount(s[..|s| - 1], p);
    }
  }

  lemma {:induction false} FilterComplete<T>(s: seq<T>, p: T -> bool, x: T)
    requires x in s && p(x)
    ensures x in Filter(s, p)
  {
    if x != s[|s| - 1] {
      assert x in s[..|s| - 1];
      FilterComplete(s[..|s| - 1], p, x);
    }
  }

  /** Filtering by a predicate every element satisfies changes nothing. */
  lemma {:induction false} FilterAll<T>(s: seq<T>, p: T -> bool)
    requires forall i :: 0 <= i < |s| ==> p(s[i])
    ensures Filter(s, p) == s
  {
    if s != [] {
      var init := s[..|s| - 1];
      calc {
        Filter(s, p);
        == { assert p(s[|s| - 1]); }
        Filter(init, p) + [s[|s| - 1]];
        == { assert forall i :: 0 <= i < |init| ==> p(init[i]) by {
               assert forall i :: 0 <= i < |init| ==> init[i] == s[i];
             }
             FilterAll(init, p); }
        init + [s[|s| - 1]];
        == { assert s == init + [s[|s| - 1]]; }
        s;
      }
    }
  }

  lemma {:induction false} FilterNone<T>(s: seq<T>, p: T -> bool)
    requires forall i :: 0 <= i < |s| ==> !p(s[i])
    ensures Filter(s, p) == []
  {
    if s != [] {
      FilterNone(s[..|s| - 1], p);
    }
  }

  lemma {:induction false} FilterAppend<T>(a: seq<T>, b: seq<T>, p: T -> bool)
    ensures Filter(a + b, p) == Filter(a, p) + Filter(b, p)
    decreases |b|
  {
    if b != [] {
      assert (a + b)[..|a + b| - 1] == a + b[..|b| - 1];
      FilterAppend(a, b[..|b| - 1], p);
    } else {
      assert a + b == a;
    }
  }

  lemma {:induction false} CountAppend<T>(a: seq<T>, b: seq<T>, p: T -> bool)
    ensures Count(a + b, p) == Count(a, p) + Count(b, p)
    decreases |b|
  {
    if b != [] {
      assert (a + b)[..|a + b| - 1] == a + b[..|b| - 1];
      CountAppend(a, b[..|b| - 1], p);
    } else {
      assert a + b == a;
    }
  }

  /** Counting one step further along a prefix. */
  lemma CountStep<T>(s: seq<T>, i: nat, p: T -> bool)
    requires i < |s|
    ensures Count(s[..i + 1], p) == Count(s[..i], p) + (if p(s[i]) then 1 else 0)
  {
    assert s[..i + 1][..i] == s[..i];
  }

  /** Filtering one step further along a prefix. */
  lemma FilterStep<T>(s: seq<T>, i: nat, p: T -> bool)
    requires i < |s|
    ensures Filter(s[..i + 1], p) == Filter(s[..i], p) + (if p(s[i]) then [s[i]] else [])
  {
    assert s[..i + 1][..i] == s[..i];
  }

  /** Nothing is counted exactly when no element satisfies p. */
  lemma {:induction false} CountZero<T>(s: seq<T>, p: T -> bool)
    ensures Count(s, p) == 0 <==> forall i :: 0 <= i < |s| ==> !p(s[i])
  {
    if s != [] {
      CountZero(s[..|s| - 1], p);
      assert forall i :: 0 <= i < |s| - 1 ==> s[..|s| - 1][i] == s[i];
    }
  }

  /** A predicate and its negation split a sequence: the two counts add up. */
  lemma {:induction false} CountComplement<T>(s: seq<T>, p: T -> bool, q: T -> bool)
    requires forall x :: x in s ==> (q(x) <==> !p(x))
    ensures Count(s, p) + Count(s, q) == |s|
  {
    if s != [] {
      CountComplement(s[..|s| - 1], p, q);
    }
  }

  // ---------------------------------------------------------------------------
  // Stable insertion sort on an integer key (SQL ORDER BY on one column)
  // ---------------------------------------------------------------------------

  ghost predicate SortedBy<T>(s: seq<T>, key: T -> int) {
    forall i, j :: 0 <= i < j < |s| ==> key(s[i]) <= key(s[j])
  }

  /** Filtering keeps an ordered sequence ordered. */
  lemma {:induction false} FilterKeepsOrder<T>(s: seq<T>, p: T -> bool, key: T -> int)
    requires SortedBy(s, key)
    ensures SortedBy(Filter(s, p), key)
  {
    if s != [] {
      var init := s[..|s| - 1];
      var last := s[|s| - 1];
      assert SortedBy(init, key);
      FilterKeepsOrder(init, p, key);
      var fi := Filter(init, p);
      forall x | x in fi ensures key(x) <= key(last) {
        var k :| 0 <= k < |init| && init[k] == x;
        assert s[k] == x;
      }
    }
  }

  /** Inserts x after every element whose key is not larger (keeps ties stable). */
  function InsertByKey<T>(s: seq<T>, x: T, key: T -> int): (r: seq<T>)
    ensures multiset(r) == multiset(s) + multiset{x}
    ensures |r| == |s| + 1
  {
    if s == [] then [x]
    else if key(x) < key(s[0]) then [x] + s
    else assert s == [s[0]] + s[1..]; [s[0]] + InsertByKey(s[1..], x, key)
  }

  function SortByKey<T>(s: seq<T>, key: T -> int): (r: seq<T>)
    ensures multiset(r) == multiset(s)
    ensures |r| == |s|
  {
    if s == [] then []
    else
      assert s == s[..|s| - 1] + [s[|s| - 1]];
      InsertByKey(SortByKey(s[..|s| - 1], key), s[|s| - 1], key)
  }

  lemma {:induction false} InsertByKeySorted<T>(s: seq<T>, x: T, key: T -> int)
    requires SortedBy(s, key)
    ensures SortedBy(InsertByKey(s, x, key), key)
  {
    if s != [] && key(x) >= key(s[0]) {
      InsertByKeySorted(s[1..], x, key);
      var r := InsertByKey(s[1..], x, key);
      assert forall y :: y in r ==> y == x || y in s[1..] by {
        forall y | y in r ensures y == x || y in s[1..] {
          assert y in multiset(r);
        }
      }
      forall j | 0 <= j < |r| ensures key(s[0]) <= key(r[j]) {
        assert r[j] in r;
        if r[j] != x {
          var k :| 0 <= k < |s[1..]| && s[1..][k] == r[j];
          assert s[k + 1] == r[j];
        }
      }
    }
  }

  lemma {:induction false} SortByKeySorted<T>(s: seq<T>, key: T -> int)
    ensures SortedBy(SortByKey(s, key), key)
  {
    if s != [] {
      SortByKeySorted(s[..|s| - 1], key);
      InsertByKeySorted(SortByKey(s[..|s| - 1], key), s[|s| - 1], key);
    }
  }

  // ---------------------------------------------------------------------------
  // Grouping in first-insertion order
  // ---------------------------------------------------------------------------

  /** The elements of s whose key is k, in their original order. */
  function WithKey<K(==), T>(s: seq<T>, key: T -> K, k: K): (r: seq<T>)
    ensures |r| <= |s|
  {
    if s == [] then []
    else WithKey(s[..|s| - 1], key, k) + (if key(s[|s| - 1]) == k then [s[|s| - 1]] else [])
  }

  lemma {:induction false} WithKeyMembers<K, T>(s: seq<T>, key: T -> K, k: K, x: T)
    ensures x in WithKey(s, key, k) <==> x in s && key(x) == k
  {
    if s != [] {
      WithKeyMembers(s[..|s| - 1], key, k, x);
      assert s == s[..|s| - 1] + [s[|s| - 1]];
    }
  }

  ghost predicate DistinctKeys<K, V>(gs: seq<(K, V)>) {
    forall i, j :: 0 <= i < j < |gs| ==> gs[i].0 != gs[j].0
  }

  ghost function Keys<K, V>(gs: seq<(K, V)>): set<K> {
    set i | 0 <= i < |gs| :: gs[i].0
  }

  lemma KeysCons<K, V>(g: (K, V), gs: seq<(K, V)>)
    ensures Keys([g] + gs) == {g.0} + Keys(gs)
  {
    var r := [g] + gs;
    forall y | y in Keys(gs) ensures y in Keys(r) {
      var i :| 0 <= i < |gs| && gs[i].0 == y;
      assert r[i + 1].0 == y;
    }
    forall y | y in Keys(r) ensures y in {g.0} + Keys(gs) {
      var i :| 0 <= i < |r| && r[i].0 == y;
      if i > 0 {
        assert gs[i - 1].0 == y;
      }
    }
    assert r[0].0 == g.0;
  }

  lemma KeysSame<K, V, W>(a: seq<(K, V)>, b: seq<(K, W)>)
    requires |a| == |b| && forall i :: 0 <= i < |a| ==> a[i].0 == b[i].0
    ensures Keys(a) == Keys(b)
  {
    forall y | y in Keys(a) ensures y in Keys(b) {
      var i :| 0 <= i < |a| && a[i].0 == y;
      assert b[i].0 == y;
    }
    forall y | y in Keys(b) ensures y in Keys(a) {
      var i :| 0 <= i < |b| && b[i].0 == y;
      assert a[i].0 == y;
    }
  }

  /** The group stored under k, or [] when there is none (`grouped[k] || []`). */
  function GroupOf<K(==), T>(gs: seq<(K, seq<T>)>, k: K): seq<T> {
    if gs == [] then [] else if gs[0].0 == k then gs[0].1 else GroupOf(gs[1..], k)
  }

  /** `if (!grouped[k]) grouped[k] = []; grouped[k].push(x)` */
  function AddToGroup<K(==), T>(gs: seq<(K, seq<T>)>, k: K, x: T): seq<(K, seq<T>)> {
    if gs == [] then [(k, [x])]
    else if gs[0].0 == k then [(k, gs[0].1 + [x])] + gs[1..]
    else [gs[0]] + AddToGroup(gs[1..], k, x)
  }

  function GroupBy<K(==), T>(s: seq<T>, key: T -> K): seq<(K, seq<T>)> {
    if s == [] then []
    else AddToGroup(GroupBy(s[..|s| - 1], key), key(s[|s| - 1]), s[|s| - 1])
  }

  lemma {:induction false} AddToGroupFacts<K, T>(gs: seq<(K, seq<T>)>, k: K, x: T)
    requires DistinctKeys(gs)
    ensures DistinctKeys(AddToGroup(gs, k, x))
    ensures Keys(AddToGroup(gs, k, x)) == Keys(gs) + {k}
    ensures GroupOf(AddToGroup(gs, k, x), k) == GroupOf(gs, k) + [x]
    ensures forall k' :: k' != k ==> GroupOf(AddToGroup(gs, k, x), k') == GroupOf(gs, k')
  {
    AddToGroupKeys(gs, k, x);
    AddToGroupOf(gs, k, x);
  }

  lemma {:induction false} AddToGroupKeys<K, T>(gs: seq<(K, seq<T>)>, k: K, x: T)
    requires DistinctKeys(gs)
    ensures DistinctKeys(AddToGroup(gs, k, x))
    ensures Keys(AddToGroup(gs, k, x)) == Keys(gs) + {k}
  {
    if gs != [] && gs[0].0 != k {
      DistinctTail(gs);
      AddToGroupKeys(gs[1..], k, x);
      var r := AddToGroup(gs[1..], k, x);
      assert AddToGroup(gs, k, x) == [gs[0]] + r;
      KeysCons(gs[0], r);
      KeysCons(gs[0], gs[1..]);
      assert gs == [gs[0]] + gs[1..];
      DistinctCons(gs[0], r);
    } else if gs != [] {
      var r := AddToGroup(gs, k, x);
      KeysSame(r, gs);
    } else {
      assert AddToGroup(gs, k, x)[0].0 == k;
    }
  }

  lemma {:induction false} AddToGroupOf<K, T>(gs: seq<(K, seq<T>)>, k: K, x: T)
    ensures GroupOf(AddToGroup(gs, k, x), k) == GroupOf(gs, k) + [x]
    ensures forall k' :: k' != k ==> GroupOf(AddToGroup(gs, k, x), k') == GroupOf(gs, k')
  {
    if gs != [] && gs[0].0 != k {
      AddToGroupOf(gs[1..], k, x);
      assert AddToGroup(gs, k, x) == [gs[0]] + AddToGroup(gs[1..], k, x);
    }
  }

  /** The tail of a sequence with distinct keys has distinct keys, none of them the head's. */
  lemma DistinctTail<K, V>(gs: seq<(K, V)>)
    requires gs != [] && DistinctKeys(gs)
    ensures DistinctKeys(gs[1..]) && gs[0].0 !in Keys(gs[1..])
  {
    forall i | 0 <= i < |gs[1..]| ensures gs[1..][i].0 != gs[0].0 {
      assert gs[1..][i] == gs[i + 1];
    }
    forall i, j | 0 <= i < j < |gs[1..]| ensures gs[1..][i].0 != gs[1..][j].0 {
      assert gs[1..][i] == gs[i + 1] && gs[1..][j] == gs[j + 1];
    }
  }

  lemma DistinctCons<K, V>(g: (K, V), r: seq<(K, V)>)
    requires DistinctKeys(r) && g.0 !in Keys(r)
    ensures DistinctKeys([g] + r)
  {
    forall i, j | 0 <= i < j < |[g] + r| ensures ([g] + r)[i].0 != ([g] + r)[j].0 {
      if i == 0 {
        assert ([g] + r)[j] == r[j - 1];
        assert r[j - 1].0 in Keys(r);
      } else {
        assert ([g] + r)[i] == r[i - 1] && ([g] + r)[j] == r[j - 1];
      }
    }
  }


  /** Every element lands in the group of its key, in input order, and the group keys are distinct. */
  lemma {:induction false} GroupByCorrect<K, T>(s: seq<T>, key: T -> K)
    ensures DistinctKeys(GroupBy(s, key))
    ensures forall k :: GroupOf(GroupBy(s, key), k) == WithKey(s, key, k)
    ensures forall k :: k in Keys(GroupBy(s, key)) <==> exists x :: x in s && key(x) == k
  {
    if s != [] {
      var init := s[..|s| - 1];
      var last := s[|s| - 1];
      GroupByCorrect(init, key);
      AddToGroupFacts(GroupBy(init, key), key(last), last);
      forall k ensures k in Keys(GroupBy(s, key)) <==> exists x :: x in s && key(x) == k {
        if k in Keys(GroupBy(init, key)) {
          var x :| x in init && key(x) == k;
          assert x in s;
        }
        if exists x :: x in s && key(x) == k {
          var x :| x in s && key(x) == k;
          if x != last {
            assert x in init;
          }
        }
      }
    }
  }

  /** The total of the group sizes is the length of the input. */
  function TotalSize<K, T>(gs: seq<(K, seq<T>)>): nat {
    if gs == [] then 0 else |gs[0].1| + TotalSize(gs[1..])
  }

  lemma {:induction false} AddToGroupSize<K, T>(gs: seq<(K, seq<T>)>, k: K, x: T)
    ensures TotalSize(AddToGroup(gs, k, x)) == TotalSize(gs) + 1
  {
    if gs != [] {
      if gs[0].0 == k {
        assert AddToGroup(gs, k, x)[1..] == gs[1..];
      } else {
        AddToGroupSize(gs[1..], k, x);
        assert AddToGroup(gs, k, x)[1..] == AddToGroup(gs[1..], k, x);
      }
    }
  }

  lemma {:induction false} GroupBySize<K, T>(s: seq<T>, key: T -> K)
    ensures TotalSize(GroupBy(s, key)) == |s|
  {
    if s != [] {
      GroupBySize(s[..|s| - 1], key);
      AddToGroupSize(GroupBy(s[..|s| - 1], key), key(s[|s| - 1]), s[|s| - 1]);
    }
  }

  // ---------------------------------------------------------------------------
  // Counters keyed in first-insertion order (`if (!c[k]) c[k] = 0; c[k]++`)
  // ---------------------------------------------------------------------------

  function CountOf<K(==)>(cs: seq<(K, nat)>, k: K): nat {
    if cs == [] then 0 else if cs[0].0 == k then cs[0].1 else CountOf(cs[1..], k)
  }

  function Bump<K(==)>(cs: seq<(K, nat)>, k: K): seq<(K, nat)> {
    if cs == [] then [(k, 1)]
    else if cs[0].0 == k then [(k, cs[0].1 + 1)] + cs[1..]
    else [cs[0]] + Bump(cs[1..], k)
  }

  function Total<K>(cs: seq<(K, nat)>): nat {
    if cs == [] then 0 else cs[0].1 + Total(cs[1..])
  }

  lemma {:induction false} BumpKeys<K>(cs: seq<(K, nat)>, k: K)
    requires DistinctKeys(cs)
    ensures DistinctKeys(Bump(cs, k))
    ensures Keys(Bump(cs, k)) == Keys(cs) + {k}
  {
    if cs != [] && cs[0].0 != k {
      DistinctTail(cs);
      BumpKeys(cs[1..], k);
      var r := Bump(cs[1..], k);
      assert Bump(cs, k) == [cs[0]] + r;
      KeysCons(cs[0], r);
      KeysCons(cs[0], cs[1..]);
      assert cs == [cs[0]] + cs[1..];
      DistinctCons(cs[0], r);
    } else if cs != [] {
      var r := Bump(cs, k);
      KeysSame(r, cs);
    } else {
      assert Bump(cs, k)[0].0 == k;
    }
  }

  lemma {:induction false} BumpCounts<K>(cs: seq<(K, nat)>, k: K)
    ensures Total(Bump(cs, k)) == Total(cs) + 1
    ensures CountOf(Bump(cs, k), k) == CountOf(cs, k) + 1
    ensures forall k' :: k' != k ==> CountOf(Bump(cs, k), k') == CountOf(cs, k')
  {
    if cs != [] && cs[0].0 != k {
      BumpCounts(cs[1..], k);
      assert Bump(cs, k)[1..] == Bump(cs[1..], k);
    } else if cs != [] {
      assert Bump(cs, k)[1..] == cs[1..];
    }
  }

  // ---------------------------------------------------------------------------
  // Decimal text (template interpolation of a number, parseInt)
  // ---------------------------------------------------------------------------

  predicate IsDigit(c: char) { '0' <= c <= '9' }

  function DigitChar(d: nat): (c: char)
    requires d < 10
    ensures IsDigit(c) && c as int - '0' as int == d
  {
    ('0' as int + d) as char
  }

  /** `${n}` for a natural number. */
  function NatToString(n: nat): (r: string)
    ensures |r| >= 1
    ensures forall i :: 0 <= i < |r| ==> IsDigit(r[i])
  {
    if n < 10 then [DigitChar(n)] else NatToString(n / 10) + [DigitChar(n % 10)]
  }

  /** The value of a string of decimal digits. */
  function DigitsValue(s: string): nat
    requires forall i :: 0 <= i < |s| ==> IsDigit(s[i])
  {
    if s == [] then 0
    else
      assert IsDigit(s[|s| - 1]);
      10 * DigitsValue(s[..|s| - 1]) + (s[|s| - 1] as int - '0' as int)
  }

  /** The longest prefix of s made of decimal digits. */
  function DigitPrefix(s: string): (r: string)
    ensures |r| <= |s| && r == s[..|r|]
    ensures forall i :: 0 <= i < |r| ==> IsDigit(r[i])
    ensures |r| < |s| ==> !IsDigit(s[|r|])
  {
    if s == [] || !IsDigit(s[0]) then [] else [s[0]] + DigitPrefix(s[1..])
  }

  /** ECMAScript white space and line terminators, as stripped by trim() and parseInt(). */
  predicate IsSpace(c: char) {
    || c == ' ' || c == '\t' || c == '\n' || c == '\r'
    || c as int == 0x0B || c as int == 0x0C || c as int == 0xA0 || c as int == 0x1680
    || 0x2000 <= c as int <= 0x200A || c as int == 0x2028 || c as int == 0x2029
    || c as int == 0x202F || c as int == 0x205F || c as int == 0x3000 || c as int == 0xFEFF
  }

  function SkipSpaces(s: string): (r: string)
    ensures |r| <= |s|
    ensures r == [] || !IsSpace(r[0])
  {
    if s != [] && IsSpace(s[0]) then SkipSpaces(s[1..]) else s
  }

  predicate IsHexDigit(c: char) {
    IsDigit(c) || 'a' <= c <= 'f' || 'A' <= c <= 'F'
  }

  function HexDigitValue(c: char): nat
    requires IsHexDigit(c)
  {
    if IsDigit(c) then c as int - '0' as int
    else if 'a' <= c <= 'f' then c as int - 'a' as int + 10
    else c as int - 'A' as int + 10
  }

  /** The value of a string of hexadecimal digits. */
  function HexValue(s: string): nat
    requires forall i :: 0 <= i < |s| ==> IsHexDigit(s[i])
  {
    if s == [] then 0
    else
      assert IsHexDigit(s[|s| - 1]);
      16 * HexValue(s[..|s| - 1]) + HexDigitValue(s[|s| - 1])
  }

  /** The longest prefix of s made of hexadecimal digits. */
  function HexPrefix(s: string): (r: string)
    ensures |r| <= |s| && r == s[..|r|]
    ensures forall i :: 0 <= i < |r| ==> IsHexDigit(r[i])
  {
    if s == [] || !IsHexDigit(s[0]) then [] else [s[0]] + HexPrefix(s[1..])
  }

  /** Text that opens with "0x" or "0X", which parseInt without a radix reads as
      hexadecimal. */
  predicate HexLed(s: string) {
    |s| >= 2 && s[0] == '0' && (s[1] == 'x' || s[1] == 'X')
  }

  /** parseInt(s) without a radix, as every call in the core makes it: leading white
      space, an optional sign, then either "0x"/"0X" and the longest run of hexadecimal
      digits, or the longest run of decimal digits; None stands for NaN (no digit where
      one was expected). */
  function ParseInt(s: string): Option<int> {
    var t := SkipSpaces(s);
    var neg := t != [] && t[0] == '-';
    var v := ParseUnsigned(if t != [] && (t[0] == '-' || t[0] == '+') then t[1..] else t);
    if v.None? then None else Some(if neg then -(v.value as int) else v.value)
  }

  /** The digits after the sign: hexadecimal behind "0x"/"0X", decimal otherwise. */
  function ParseUnsigned(body: string): Option<nat> {
    if HexLed(body) then
      var hs := HexPrefix(body[2..]);
      if hs == [] then None else Some(HexValue(hs))
    else
      var ds := DigitPrefix(body);
      if ds == [] then None else Some(DigitsValue(ds))
  }

  /** The decimal text of an integer, as `String(n)` writes it. */
  function IntText(n: int): string {
    if n < 0 then "-" + NatToString(-n) else NatToString(n)
  }

  /** A "0x" prefix switches parseInt to hexadecimal: "0x5A" reads as 90. */
  lemma ParseIntHex()
    ensures ParseInt("0x5A") == Some(90)
    ensures ParseInt("0x") == None
  {
    var s := "0x5A";
    assert SkipSpaces(s) == s;
    assert HexLed(s);
    assert s[2..] == "5A";
    assert HexPrefix("5A") == "5A" by {
      assert HexPrefix("A") == "A" by {
        assert "A"[1..] == [];
      }
      assert "5A"[1..] == "A";
    }
    assert HexValue("5A") == 90 by {
      assert "5A"[..1] == "5";
      assert "5"[..0] == [];
    }
    assert SkipSpaces("0x") == "0x";
    assert "0x"[2..] == [];
  }

  /** The decimal text of a number of two or more digits does not open with '0'. */
  lemma {:induction false} NatToStringLead(n: nat)
    ensures n >= 10 ==> NatToString(n)[0] != '0'
    ensures n < 10 ==> |NatToString(n)| == 1
  {
    if n >= 10 {
      NatToStringLead(n / 10);
      assert NatToString(n)[0] == NatToString(n / 10)[0];
    }
  }

  /** Text that starts with a letter (such as 'custom') parses to NaN. */
  lemma ParseIntOfWord(s: string)
    requires s != [] && 'a' <= s[0] <= 'z'
    ensures ParseInt(s) == None
  {
  }

  lemma {:induction false} DigitsValueOfNat(n: nat)
    ensures DigitsValue(NatToString(n)) == n
  {
    var r := NatToString(n);
    if n >= 10 {
      DigitsValueOfNat(n / 10);
      assert r[..|r| - 1] == NatToString(n / 10);
    }
  }

  lemma {:induction false} DigitPrefixAll(s: string)
    requires forall i :: 0 <= i < |s| ==> IsDigit(s[i])
    ensures DigitPrefix(s) == s
  {
    if s != [] {
      DigitPrefixAll(s[1..]);
    }
  }

  lemma {:induction false} DigitPrefixConcat(ds: string, rest: string)
    requires forall i :: 0 <= i < |ds| ==> IsDigit(ds[i])
    requires rest == [] || !IsDigit(rest[0])
    ensures DigitPrefix(ds + rest) == ds
  {
    if ds != [] {
      assert (ds + rest)[1..] == ds[1..] + rest;
      DigitPrefixConcat(ds[1..], rest);
    }
  }

  /** parseInt stops at the first character that is not a digit: "30 days" reads as 30. */
  lemma ParseIntPrefix(n: nat, rest: string)
    requires rest == [] || !IsDigit(rest[0])
    requires n == 0 ==> rest == [] || (rest[0] != 'x' && rest[0] != 'X')
    ensures ParseInt(NatToString(n) + rest) == Some(n)
  {
    var s := NatToString(n) + rest;
    assert SkipSpaces(s) == s;
    NatToStringLead(n);
    assert !HexLed(s);
    DigitPrefixConcat(NatToString(n), rest);
    DigitsValueOfNat(n);
  }

  /** parseInt reads back the decimal text of every natural number. */
  lemma ParseIntOfNat(n: nat)
    ensures ParseInt(NatToString(n)) == Some(n)
  {
    var s := NatToString(n);
    assert SkipSpaces(s) == s;
    NatToStringLead(n);
    assert !HexLed(s);
    DigitPrefixAll(s);
    DigitsValueOfNat(n);
  }

  /** `s.startsWith(p)`. */
  predicate StartsWith(s: string, p: string) {
    |p| <= |s| && s[..|p|] == p
  }

  /** `s.split(sep)` for a one-character separator: always at least one piece, and
      `"".split(';')` is `[""]`. */
  function Split(s: string, sep: char): (r: seq<string>)
    ensures |r| >= 1
    ensures forall i :: 0 <= i < |r| ==> sep !in r[i]
  {
    if s == [] then [[]]
    else if s[0] == sep then [[]] + Split(s[1..], sep)
    else
      var rest := Split(s[1..], sep);
      [[s[0]] + rest[0]] + rest[1..]
  }

  /** Joining the pieces with the separator gives the text back. */
  lemma {:induction false} SplitJoin(s: string, sep: char)
    ensures Join(Split(s, sep), [sep]) == s
  {
    if s != [] {
      SplitJoin(s[1..], sep);
      if s[0] != sep {
        var rest := Split(s[1..], sep);
        if |rest| > 1 {
          assert rest == [rest[0]] + rest[1..];
          assert Join(rest, [sep]) == rest[0] + [sep] + Join(rest[1..], [sep]);
        }
      }
    }
  }

  /** A piece without the separator, followed by the separator, splits off first. */
  lemma {:induction false} SplitFront(a: string, rest: string, sep: char)
    requires sep !in a
    ensures Split(a + [sep] + rest, sep) == [a] + Split(rest, sep)
  {
    var t := a + [sep] + rest;
    if a != [] {
      assert t[0] == a[0] && t[1..] == a[1..] + [sep] + rest;
      SplitFront(a[1..], rest, sep);
      assert [a[0]] + a[1..] == a;
    } else {
      assert t[0] == sep && t[1..] == rest;
    }
  }

  /** With no separator inside, the text is a single piece. */
  lemma {:induction false} SplitWhole(a: string, sep: char)
    requires sep !in a
    ensures Split(a, sep) == [a]
  {
    if a != [] {
      SplitWhole(a[1..], sep);
      assert [a[0]] + a[1..] == a;
    }
  }

  /** Splitting undoes joining when no piece holds the separator. */
  lemma {:induction false} JoinSplit(parts: seq<string>, sep: char)
    requires |parts| >= 1
    requires forall i :: 0 <= i < |parts| ==> sep !in parts[i]
    ensures Split(Join(parts, [sep]), sep) == parts
  {
    if |parts| == 1 {
      SplitWhole(parts[0], sep);
    } else {
      JoinSplit(parts[1..], sep);
      SplitFront(parts[0], Join(parts[1..], [sep]), sep);
    }
  }

  // ------------------------------------------------------------ mapping

  function Map<T, U>(s: seq<T>, f: T -> U): (r: seq<U>)
    ensures |r| == |s|
    ensures forall i :: 0 <= i < |s| ==> r[i] == f(s[i])
  {
    if s == [] then [] else Map(s[..|s| - 1], f) + [f(s[|s| - 1])]
  }

  // ------------------------------------------------------------ strings

  /** `parts.join(sep)`. */
  function Join(parts: seq<string>, sep: string): string {
    if parts == [] then ""
    else if |parts| == 1 then parts[0]
    else parts[0] + sep + Join(parts[1..], sep)
  }

  /** `s.replace(/pat/g, rep)`: occurrences are replaced left to right and the
      replacement text is not scanned again. */
  function ReplaceAll(s: string, pat: string, rep: string): string
    requires pat != []
    decreases |s|
  {
    if |s| < |pat| then s
    else if s[..|pat|] == pat then rep + ReplaceAll(s[|pat|..], pat, rep)
    else [s[0]] + ReplaceAll(s[1..], pat, rep)
  }

  /** A character that gives `$` a meaning in a replacement text. */
  predicate DollarCode(c: char) {
    c == '$' || c == '&' || c == '`' || c == '\''
  }

  /** A replacement text holding no `$$`, `$&`, `` $` `` or `$'`, so JavaScript inserts it as it is. */
  predicate Literal(rep: string) {
    forall i :: 0 <= i < |rep| - 1 && rep[i] == '$' ==> !DollarCode(rep[i + 1])
  }

  /** The text JavaScript inserts for one match `m` of a string replacement `rep`, with
      `pre` and `post` the subject text before and after the match: `$$` gives "$",
      `$&` the match, `` $` `` the text before it and `$'` the text after it. Every other
      character, `$1` and `$<` included when the pattern has no groups, is copied. */
  function Expand(rep: string, m: string, pre: string, post: string): string
    decreases |rep|
  {
    if |rep| >= 2 && rep[0] == '$' && DollarCode(rep[1]) then
      (if rep[1] == '$' then "$" else if rep[1] == '&' then m else if rep[1] == '`' then pre else post)
      + Expand(rep[2..], m, pre, post)
    else if rep == [] then []
    else [rep[0]] + Expand(rep[1..], m, pre, post)
  }

  /** A literal replacement is inserted unchanged. */
  lemma {:induction false} ExpandLiteral(rep: string, m: string, pre: string, post: string)
    requires Literal(rep)
    ensures Expand(rep, m, pre, post) == rep
    decreases |rep|
  {
    if rep != [] {
      assert !(|rep| >= 2 && rep[0] == '$' && DollarCode(rep[1]));
      assert Literal(rep[1..]) by {
        forall i | 0 <= i < |rep[1..]| - 1 && rep[1..][i] == '$' ensures !DollarCode(rep[1..][i + 1]) {
          assert rep[i + 1] == '$' && rep[1..][i + 1] == rep[i + 2];
        }
      }
      ExpandLiteral(rep[1..], m, pre, post);
      assert rep == [rep[0]] + rep[1..];
    }
  }

  lemma ExpandPlain(c: char, r: string, m: string, pre: string, post: string)
    requires c != '$'
    ensures Expand([c] + r, m, pre, post) == [c] + Expand(r, m, pre, post)
  {
    assert ([c] + r)[1..] == r;
  }

  lemma ExpandMatch(r: string, m: string, pre: string, post: string)
    ensures Expand("$&" + r, m, pre, post) == m + Expand(r, m, pre, post)
  {
    assert ("$&" + r)[2..] == r;
  }

  /** `s.replace(/pat/g, rep)` from position `i` of `s` on, with the replacement text
      expanded at each match. */
  function ReplaceFrom(s: string, pat: string, rep: string, i: nat): string
    requires pat != [] && i <= |s|
    decreases |s| - i
  {
    if |s| - i < |pat| then s[i..]
    else if s[i..i + |pat|] == pat then
      Expand(rep, pat, s[..i], s[i + |pat|..]) + ReplaceFrom(s, pat, rep, i + |pat|)
    else [s[i]] + ReplaceFrom(s, pat, rep, i + 1)
  }

  /** JavaScript's global replace with a string replacement, `$` patterns included. */
  function JsReplaceAll(s: string, pat: string, rep: string): string
    requires pat != []
  {
    ReplaceFrom(s, pat, rep, 0)
  }

  /** A subject that is exactly one match becomes the expanded replacement. */
  lemma JsReplaceWhole(pat: string, rep: string)
    requires pat != []
    ensures JsReplaceAll(pat, pat, rep) == Expand(rep, pat, [], [])
  {
    assert pat[0..0 + |pat|] == pat && pat[..0] == [] && pat[0 + |pat|..] == [];
    assert ReplaceFrom(pat, pat, rep, |pat|) == [];
    assert ReplaceFrom(pat, pat, rep, 0) == Expand(rep, pat, [], []) + ReplaceFrom(pat, pat, rep, |pat|);
  }

  lemma {:induction false} ReplaceFromLiteral(s: string, pat: string, rep: string, i: nat)
    requires pat != [] && i <= |s| && Literal(rep)
    ensures ReplaceFrom(s, pat, rep, i) == ReplaceAll(s[i..], pat, rep)
    decreases |s| - i
  {
    var t := s[i..];
    if |s| - i >= |pat| {
      assert t[..|pat|] == s[i..i + |pat|];
      if s[i..i + |pat|] == pat {
        ExpandLiteral(rep, pat, s[..i], s[i + |pat|..]);
        assert t[|pat|..] == s[i + |pat|..];
        ReplaceFromLiteral(s, pat, rep, i + |pat|);
      } else {
        assert t[0] == s[i] && t[1..] == s[i + 1..];
        ReplaceFromLiteral(s, pat, rep, i + 1);
      }
    }
  }

  /** With a literal replacement the JavaScript replace is the plain global replace. */
  lemma JsReplaceLiteral(s: string, pat: string, rep: string)
    requires pat != [] && Literal(rep)
    ensures JsReplaceAll(s, pat, rep) == ReplaceAll(s, pat, rep)
  {
    ReplaceFromLiteral(s, pat, rep, 0);
    assert s[0..] == s;
  }

  /** Text without the pattern's first character passes through unchanged. */
  lemma {:induction false} ReplaceSkip(a: string, t: string, pat: string, rep: string)
    requires pat != []
    requires forall i :: 0 <= i < |a| ==> a[i] != pat[0]
    ensures ReplaceAll(a + t, pat, rep) == a + ReplaceAll(t, pat, rep)
    decreases |a|
  {
    if a != [] {
      var s := a + t;
      assert s[0] == a[0];
      if |s| < |pat| {
        assert ReplaceAll(t, pat, rep) == t;
      } else {
        assert s[..|pat|][0] == a[0];
        assert s[1..] == a[1..] + t;
        ReplaceSkip(a[1..], t, pat, rep);
        assert a == [a[0]] + a[1..];
      }
    } else {
      assert a + t == t;
    }
  }

  /** A template whose text around the placeholders never holds the placeholder's first
      character gets every placeholder replaced and nothing else changed. */
  lemma {:induction false} ReplaceJoin(parts: seq<string>, pat: string, rep: string)
    requires pat != []
    requires forall k, i :: 0 <= k < |parts| && 0 <= i < |parts[k]| ==> parts[k][i] != pat[0]
    ensures ReplaceAll(Join(parts, pat), pat, rep) == Join(parts, rep)
    decreases |parts|
  {
    if |parts| == 1 {
      ReplaceSkip(parts[0], "", pat, rep);
      assert parts[0] + "" == parts[0];
    } else if |parts| > 1 {
      var rest := Join(parts[1..], pat);
      assert Join(parts, pat) == parts[0] + (pat + rest);
      ReplaceSkip(parts[0], pat + rest, pat, rep);
      assert (pat + rest)[..|pat|] == pat;
      assert (pat + rest)[|pat|..] == rest;
      ReplaceJoin(parts[1..], pat, rep);
      assert Join(parts, rep) == parts[0] + (rep + Join(parts[1..], rep));
    }
  }
}
