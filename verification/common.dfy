/** Values and string operations of the JavaScript runtime that the panel's
    components rely on: optional fields (null / undefined), truthiness, the
    `||` default, `toLowerCase`, `includes` and `startsWith`. */
module Common {

  /** A field that may be null or undefined. */
  datatype Option<+T> = None | Some(value: T)

  /** JavaScript truthiness of an optional string: present and not "". */
  predicate Truthy(s: Option<string>) {
    s.Some? && s.value != ""
  }

  /** `n || 0` for an optional number (null, undefined and 0 all give 0). */
  function OrZero(n: Option<int>): (r: int)
    ensures n.None? ==> r == 0
    ensures n.Some? ==> r == n.value
  {
    if n.Some? then n.value else 0
  }

  /** `a || b || c` over optional strings: the first truthy operand, else the last one. */
  function FirstTruthy(a: Option<string>, b: Option<string>, c: Option<string>): (r: Option<string>)
    ensures Truthy(a) ==> r == a
    ensures !Truthy(a) && Truthy(b) ==> r == b
    ensures !Truthy(a) && !Truthy(b) ==> r == c
  {
    if Truthy(a) then a else if Truthy(b) then b else c
  }

  /** `toLowerCase` on one character; only the ASCII letters are mapped. */
  function LowerChar(c: char): char {
    if 'A' <= c <= 'Z' then (c as int + 32) as char else c
  }

  /** `toLowerCase` on a string, character by character. */
  function Lower(s: string): (r: string)
    ensures |r| == |s|
    ensures forall i :: 0 <= i < |s| ==> r[i] == LowerChar(s[i])
  {
    seq(|s|, i requires 0 <= i < |s| => LowerChar(s[i]))
  }

  /** Lower-casing twice changes nothing more than lower-casing once. */
  lemma LowerIdempotent(s: string)
    ensures Lower(Lower(s)) == Lower(s)
  {
    assert forall i :: 0 <= i < |s| ==> LowerChar(LowerChar(s[i])) == LowerChar(s[i]);
  }

  /** `sub` occurs in `s` starting at offset `i`. */
  predicate OccursAt(s: string, sub: string, i: int) {
    0 <= i && i + |sub| <= |s| && s[i..i + |sub|] == sub
  }

  /** `s.includes(sub)`: `sub` occurs in `s` at some offset. */
  predicate Includes(s: string, sub: string) {
    exists i | 0 <= i <= |s| :: OccursAt(s, sub, i)
  }

  /** Every string includes the empty string. */
  lemma IncludesEmpty(s: string)
    ensures Includes(s, "")
  {
    assert OccursAt(s, "", 0);
  }

  /** A string includes itself, and includes nothing longer than itself. */
  lemma IncludesLength(s: string, sub: string)
    ensures Includes(s, s)
    ensures Includes(s, sub) ==> |sub| <= |s|
  {
    assert OccursAt(s, s, 0);
  }

  /** `s.startsWith(p)`. */
  predicate StartsWith(s: string, p: string) {
    p <= s
  }
}

/** The ordering used by the panel's `Array.prototype.sort` calls. Strings are
    compared by `localeCompare` in the source; here they are compared by code
    point, which like any collation is a total preorder. The sort itself is
    stable, as ECMAScript requires. */
module Sorting {

  /** A sort key: a lower-cased text or a number. */
  datatype Key = Text(s: string) | Num(n: int)

  /** Lexicographic order on strings by code point. */
  predicate LexLe(a: string, b: string) {
    if a == [] then true
    else if b == [] then false
    else if a[0] != b[0] then a[0] < b[0]
    else LexLe(a[1..], b[1..])
  }

  lemma {:induction false} LexLeTotal(a: string, b: string)
    ensures LexLe(a, b) || LexLe(b, a)
  {
    if a != [] && b != [] && a[0] == b[0] {
      LexLeTotal(a[1..], b[1..]);
    }
  }

  lemma {:induction false} LexLeTransitive(a: string, b: string, c: string)
    requires LexLe(a, b) && LexLe(b, c)
    ensures LexLe(a, c)
  {
    if a != [] && b != [] && c != [] && a[0] == b[0] && b[0] == c[0] {
      LexLeTransitive(a[1..], b[1..], c[1..]);
    }
  }

  /** Order on keys: numbers by value, texts by code point, numbers before texts. */
  predicate KeyLe(a: Key, b: Key) {
    match (a, b)
    case (Num(x), Num(y)) => x <= y
    case (Text(x), Text(y)) => LexLe(x, y)
    case (Num(_), Text(_)) => true
    case (Text(_), Num(_)) => false
  }

  lemma KeyLeTotal(a: Key, b: Key)
    ensures KeyLe(a, b) || KeyLe(b, a)
  {
    if a.Text? && b.Text? { LexLeTotal(a.s, b.s); }
  }

  lemma KeyLeTransitive(a: Key, b: Key, c: Key)
    requires KeyLe(a, b) && KeyLe(b, c)
    ensures KeyLe(a, c)
  {
    if a.Text? && b.Text? && c.Text? { LexLeTransitive(a.s, b.s, c.s); }
  }

  /** The comparator of the source: `x` may stand before `y` when its key is
      not greater (ascending) or not smaller (descending). */
  predicate Precedes<T>(x: T, y: T, key: T -> Key, asc: bool) {
    if asc then KeyLe(key(x), key(y)) else KeyLe(key(y), key(x))
  }

  lemma PrecedesTotal<T>(x: T, y: T, key: T -> Key, asc: bool)
    ensures Precedes(x, y, key, asc) || Precedes(y, x, key, asc)
  {
    KeyLeTotal(key(x), key(y));
  }

  lemma PrecedesTransitive<T>(x: T, y: T, z: T, key: T -> Key, asc: bool)
    requires Precedes(x, y, key, asc) && Precedes(y, z, key, asc)
    ensures Precedes(x, z, key, asc)
  {
    if asc { KeyLeTransitive(key(x), key(y), key(z)); }
    else { KeyLeTransitive(key(z), key(y), key(x)); }
  }

  predicate SortedBy<T>(s: seq<T>, key: T -> Key, asc: bool) {
    forall i, j :: 0 <= i < j < |s| ==> Precedes(s[i], s[j], key, asc)
  }

  /** Inserts `x` in front of the first element it may precede. */
  function Insert<T>(x: T, ys: seq<T>, key: T -> Key, asc: bool): (r: seq<T>)
    ensures multiset(r) == multiset(ys) + multiset{x}
    ensures |r| == |ys| + 1
  {
    if ys == [] then [x]
    else if Precedes(x, ys[0], key, asc) then [x] + ys
    else
      assert ys == [ys[0]] + ys[1..];
      [ys[0]] + Insert(x, ys[1..], key, asc)
  }

  /** Inserting into a sorted sequence keeps it sorted. */
  lemma {:induction false} InsertSorted<T>(x: T, ys: seq<T>, key: T -> Key, asc: bool)
    requires SortedBy(ys, key, asc)
    ensures SortedBy(Insert(x, ys, key, asc), key, asc)
  {
    var r := Insert(x, ys, key, asc);
    if ys == [] {
    } else if Precedes(x, ys[0], key, asc) {
      forall i, j | 0 <= i < j < |r| ensures Precedes(r[i], r[j], key, asc) {
        if i == 0 && j > 1 { PrecedesTransitive(x, ys[0], ys[j - 1], key, asc); }
      }
    } else {
      var rest := Insert(x, ys[1..], key, asc);
      InsertSorted(x, ys[1..], key, asc);
      PrecedesTotal(x, ys[0], key, asc);
      forall k | 0 <= k < |rest| ensures Precedes(ys[0], rest[k], key, asc) {
        assert rest[k] in multiset(rest);
        if rest[k] != x {
          assert rest[k] in multiset(ys[1..]);
          var m :| 0 <= m < |ys[1..]| && ys[1..][m] == rest[k];
          assert ys[m + 1] == rest[k];
        }
      }
      assert r == [ys[0]] + rest;
    }
  }

  /** The stable sort of `s` under the comparator given by `key` and `asc`. */
  function Sort<T>(s: seq<T>, key: T -> Key, asc: bool): (r: seq<T>)
    ensures multiset(r) == multiset(s)
    ensures |r| == |s|
    ensures SortedBy(r, key, asc)
  {
    if s == [] then []
    else
      assert s == [s[0]] + s[1..];
      var rest := Sort(s[1..], key, asc);
      InsertSorted(s[0], rest, key, asc);
      Insert(s[0], rest, key, asc)
  }

  /** Sorting keeps exactly the elements of the input. */
  lemma SortSameElements<T>(s: seq<T>, key: T -> Key, asc: bool, x: T)
    ensures x in Sort(s, key, asc) <==> x in s
  {
    var r := Sort(s, key, asc);
    assert x in r <==> x in multiset(r);
    assert x in s <==> x in multiset(s);
  }
}

/** Insertion-ordered sets and counting dictionaries, as the components build
    them with `new Set(...)`, `Set.prototype.add` and `acc[k] = (acc[k] || 0) + 1`. */
module Collections {

  /** No element occurs twice. */
  predicate Distinct<T(==, !new)>(s: seq<T>) {
    forall i, j :: 0 <= i < j < |s| ==> s[i] != s[j]
  }

  /** `set.add(x)` on an insertion-ordered set kept as a sequence. */
  function AddToSet<T(==, !new)>(s: seq<T>, x: T): (r: seq<T>)
    ensures forall y :: y in r <==> y in s || y == x
    ensures s <= r && |r| <= |s| + 1
    ensures Distinct(s) ==> Distinct(r)
  {
    if x in s then s else s + [x]
  }

  /** `[...new Set(s)]`: the distinct elements in first-occurrence order. */
  function Dedup<T(==, !new)>(s: seq<T>): (r: seq<T>)
    ensures Distinct(r)
    ensures forall x :: x in r <==> x in s
    ensures |r| <= |s|
  {
    if s == [] then [] else AddToSet(Dedup(s[..|s| - 1]), s[|s| - 1])
  }

  /** The index of the first occurrence of `x`. */
  function FirstIndex<T(==, !new)>(s: seq<T>, x: T): (i: nat)
    requires x in s
    ensures i < |s| && s[i] == x && x !in s[..i]
  {
    if s[0] == x then 0 else 1 + FirstIndex(s[1..], x)
  }

  /** A first occurrence stays first when elements are appended. */
  lemma {:induction false} FirstIndexAppend<T(!new)>(s: seq<T>, x: T, y: T)
    requires y in s
    ensures FirstIndex(s + [x], y) == FirstIndex(s, y)
  {
    if s[0] != y {
      assert (s + [x])[1..] == s[1..] + [x];
      FirstIndexAppend(s[1..], x, y);
    }
  }

  /** `Dedup` lists the elements in the order of their first occurrence. */
  lemma {:induction false} DedupOrder<T(!new)>(s: seq<T>)
    ensures forall i, j :: 0 <= i < j < |Dedup(s)| ==> FirstIndex(s, Dedup(s)[i]) < FirstIndex(s, Dedup(s)[j])
  {
    if s != [] {
      var init, x := s[..|s| - 1], s[|s| - 1];
      assert s == init + [x];
      DedupOrder(init);
      var d := Dedup(init);
      var r := Dedup(s);
      forall i, j | 0 <= i < j < |r| ensures FirstIndex(s, r[i]) < FirstIndex(s, r[j]) {
        FirstIndexAppend(init, x, r[i]);
        if j < |d| {
          FirstIndexAppend(init, x, r[j]);
        } else {
          assert r[j] == x && x !in init;
          assert FirstIndex(s, x) == |init|;
        }
      }
    }
  }

  /** The number of occurrences of `x` in `s`. */
  function Count<T(==, !new)>(s: seq<T>, x: T): (n: nat)
    ensures n <= |s|
    ensures n > 0 <==> x in s
  {
    if s == [] then 0 else Count(s[..|s| - 1], x) + (if s[|s| - 1] == x then 1 else 0)
  }

  /** Counting by occurrences agrees with the multiset of the sequence. */
  lemma {:induction false} CountMultiset<T(!new)>(s: seq<T>, x: T)
    ensures Count(s, x) == multiset(s)[x]
  {
    if s != [] {
      assert s == s[..|s| - 1] + [s[|s| - 1]];
      CountMultiset(s[..|s| - 1], x);
    }
  }

  /** An element of a sequence without repetitions occurs exactly once. */
  lemma {:induction false} CountDistinct<T(!new)>(s: seq<T>, x: T)
    requires Distinct(s)
    ensures Count(s, x) == if x in s then 1 else 0
  {
    if s != [] {
      var init := s[..|s| - 1];
      CountDistinct(init, x);
      if s[|s| - 1] == x {
        assert x !in init;
      }
    }
  }

  /** An element at two positions is counted at least twice. */
  lemma {:induction false} CountRepeated<T(!new)>(s: seq<T>, i: nat, j: nat)
    requires i < j < |s| && s[i] == s[j]
    ensures Count(s, s[i]) >= 2
  {
    var init := s[..|s| - 1];
    if j < |s| - 1 {
      CountRepeated(init, i, j);
    } else {
      assert init[i] == s[i];
    }
  }

  /** A rearrangement of a sequence without repetitions has none either. */
  lemma DistinctPermutation<T(!new)>(a: seq<T>, b: seq<T>)
    requires multiset(a) == multiset(b) && Distinct(a)
    ensures Distinct(b)
  {
    forall i, j | 0 <= i < j < |b| ensures b[i] != b[j] {
      if b[i] == b[j] {
        CountRepeated(b, i, j);
        CountMultiset(b, b[i]);
        CountMultiset(a, b[i]);
        CountDistinct(a, b[i]);
        assert false;
      }
    }
  }

  /** The counts of the keys `ks`, added up. */
  function SumCounts<T(==, !new)>(ks: seq<T>, s: seq<T>): nat {
    if ks == [] then 0 else SumCounts(ks[..|ks| - 1], s) + Count(s, ks[|ks| - 1])
  }

  lemma {:induction false} SumCountsAppend<T(!new)>(ks: seq<T>, s: seq<T>, x: T)
    ensures SumCounts(ks, s + [x]) == SumCounts(ks, s) + Count(ks, x)
  {
    assert (s + [x])[..|s|] == s;
    if ks != [] {
      SumCountsAppend(ks[..|ks| - 1], s, x);
    }
  }

  /** Counting every element under keys that cover it once each accounts for
      the whole sequence: the tallies partition it. */
  lemma {:induction false} TallyTotal<T(!new)>(ks: seq<T>, s: seq<T>)
    requires Distinct(ks)
    requires forall x :: x in s ==> x in ks
    ensures SumCounts(ks, s) == |s|
  {
    if s == [] {
      SumCountsEmpty(ks, s);
    } else {
      var init, x := s[..|s| - 1], s[|s| - 1];
      assert s == init + [x];
      TallyTotal(ks, init);
      SumCountsAppend(ks, init, x);
      CountDistinct(ks, x);
    }
  }

  lemma {:induction false} SumCountsEmpty<T(!new)>(ks: seq<T>, s: seq<T>)
    requires s == []
    ensures SumCounts(ks, s) == 0
  {
    if ks != [] {
      SumCountsEmpty(ks[..|ks| - 1], s);
    }
  }

  /** Counting one more element updates only that element's count. */
  lemma TallyAppend<T(!new)>(s: seq<T>, x: T)
    ensures Tally(s + [x]) == Tally(s)[x := (if x in Tally(s) then Tally(s)[x] else 0) + 1]
  {
    var s' := s + [x];
    assert s'[..|s'| - 1] == s;
    forall y | y in s' ensures Count(s', y) == (if y == x then (if x in s then Count(s, x) else 0) + 1 else Count(s, y)) {
    }
  }

  /** `r` is `s` read at the strictly increasing positions `idx`. */
  ghost predicate PicksAt<T>(r: seq<T>, s: seq<T>, idx: seq<int>) {
    |idx| == |r|
    && (forall k | 0 <= k < |idx| :: 0 <= idx[k] < |s| && r[k] == s[idx[k]])
    && (forall k, l | 0 <= k < l < |idx| :: idx[k] < idx[l])
  }

  /** `r` keeps some of the elements of `s`, in their order in `s`. */
  ghost predicate Subsequence<T>(r: seq<T>, s: seq<T>) {
    exists idx: seq<int> :: PicksAt(r, s, idx)
  }

  /** The empty sequence keeps nothing of the empty sequence. */
  lemma SubsequenceEmpty<T>()
    ensures Subsequence<T>([], [])
  {
    assert PicksAt<T>([], [], []);
  }

  /** Reading one more element, a filter either keeps it at the end or drops it. */
  lemma SubsequenceSnoc<T>(r: seq<T>, s: seq<T>, x: T, keep: bool)
    requires Subsequence(r, s)
    ensures Subsequence(r + (if keep then [x] else []), s + [x])
  {
    var idx :| PicksAt(r, s, idx);
    var r', s' := r + (if keep then [x] else []), s + [x];
    var idx' := idx + (if keep then [|s|] else []);
    assert PicksAt(r', s', idx');
  }

  /** The counts in the tally of `s`: `acc[x] = (acc[x] || 0) + 1` over `s`. */
  function Tally<T(==, !new)>(s: seq<T>): (m: map<T, nat>)
    ensures forall x :: x in m <==> x in s
  {
    map x | x in s :: Count(s, x)
  }
}
