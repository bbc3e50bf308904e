// Small vocabulary shared by every module: options, results, list filters and
// the stable sort that Rust's `sort_by` performs.
module Common {

  datatype Option<+T> = None | Some(value: T)

  datatype Result<+T, +E> = Ok(value: T) | Err(error: E)

  /** The unsigned bytes that Rust uses for heading levels and depths. */
  type u8 = x: nat | x < 256 witness 0

  function Min(a: int, b: int): int { if a <= b then a else b }

  function Max(a: int, b: int): int { if a >= b then a else b }

  function Take<T>(s: seq<T>, n: nat): seq<T> { if n <= |s| then s[..n] else s }

  function Filter<T(!new)>(keep: T -> bool, s: seq<T>): (r: seq<T>)
    ensures |r| <= |s|
    ensures forall x :: x in r <==> x in s && keep(x)
  {
    if s == [] then []
    else if keep(s[0]) then [s[0]] + Filter(keep, s[1..])
    else Filter(keep, s[1..])
  }

  lemma {:induction false} FilterOfSnoc<T(!new)>(keep: T -> bool, s: seq<T>, i: nat)
    requires i < |s|
    ensures Filter(keep, s[..i + 1]) == Filter(keep, s[..i]) + if keep(s[i]) then [s[i]] else []
    decreases i
  {
    if i > 0 {
      FilterOfSnoc(keep, s[1..], i - 1);
      TailOfTake(s, i);
      TailOfTake(s, i + 1);
    }
  }

  lemma {:induction false} Associates<T>(a: seq<T>, b: seq<T>, c: seq<T>)
    ensures a + b + c == a + (b + c)
  {
  }

  lemma {:induction false} TailOfTake<T>(s: seq<T>, i: nat)
    requires 0 < i <= |s|
    ensures s[..i][0] == s[0] && s[..i][1..] == s[1..][..i - 1]
  {
  }

  /** `r` is what lies at the positions `at` of `s`: at exactly those that hold a wanted element, in order. */
  ghost predicate Picks<T(!new)>(wanted: T -> bool, s: seq<T>, at: seq<nat>, r: seq<T>) {
    && |at| == |r|
    && (forall i, j :: 0 <= i < j < |at| ==> at[i] < at[j])
    && (forall i :: 0 <= i < |at| ==> at[i] < |s| && r[i] == s[at[i]] && wanted(r[i]))
    && (forall p :: 0 <= p < |s| && wanted(s[p]) ==> p in at)
  }

  /** `r` holds the wanted elements of `s` and no others, in order. */
  ghost predicate IsFiltered<T(!new)>(wanted: T -> bool, s: seq<T>, r: seq<T>) {
    exists at: seq<nat> {:trigger Picks(wanted, s, at, r)} :: Picks(wanted, s, at, r)
  }

  /** One more element: picked if it is wanted. */
  lemma {:induction false} PicksOneMore<T(!new)>(wanted: T -> bool, s: seq<T>, at: seq<nat>, r: seq<T>, x: T)
    requires Picks(wanted, s, at, r)
    ensures wanted(x) ==> Picks(wanted, s + [x], at + [|s|], r + [x])
    ensures !wanted(x) ==> Picks(wanted, s + [x], at, r)
  {
    var longer := s + [x];
    forall p | 0 <= p < |s| && wanted(longer[p]) ensures p in at { assert longer[p] == s[p]; }
  }

  lemma {:induction false} FilterPicks<T(!new)>(keep: T -> bool, wanted: T -> bool, s: seq<T>) returns (at: seq<nat>)
    requires Agree(keep, wanted, s)
    ensures Picks(wanted, s, at, Filter(keep, s))
  {
    if s == [] {
      at := [];
    } else {
      var n := |s| - 1;
      at := FilterPicks(keep, wanted, s[..n]);
      FilterOfSnoc(keep, s, n);
      PicksOneMore(wanted, s[..n], at, Filter(keep, s[..n]), s[n]);
      assert s[..n] + [s[n]] == s && s[..n + 1] == s;
      if keep(s[n]) { at := at + [n]; }
    }
  }

  /** `Filter` keeps exactly the wanted elements, in order. */
  lemma {:induction false} FilterIsFiltered<T(!new)>(keep: T -> bool, wanted: T -> bool, s: seq<T>)
    requires Agree(keep, wanted, s)
    ensures IsFiltered(wanted, s, Filter(keep, s))
  {
    var at := FilterPicks(keep, wanted, s);
  }

  lemma {:induction false} PicksWithoutLast<T(!new)>(wanted: T -> bool, s: seq<T>, at: seq<nat>, r: seq<T>)
    requires s != [] && Picks(wanted, s, at, r)
    ensures wanted(s[|s| - 1]) ==> (
      r != [] && at != [] && r[|r| - 1] == s[|s| - 1] && Picks(wanted, s[..|s| - 1], at[..|at| - 1], r[..|r| - 1]))
    ensures !wanted(s[|s| - 1]) ==> Picks(wanted, s[..|s| - 1], at, r)
  {
    var n := |s| - 1;
    if wanted(s[n]) {
      var i :| 0 <= i < |at| && at[i] == n;
      var last := |at| - 1;
      assert at[last] <= n;
      assert forall k :: 0 <= k < last ==> at[k] < at[last];
      assert i == last;
      forall p | 0 <= p < n && wanted(s[..n][p]) ensures p in at[..i] {
        var j :| 0 <= j < |at| && at[j] == p;
        assert at[..i][j] == p;
      }
    }
  }

  /** The two tests agree on what is in the list. */
  ghost predicate Agree<T(!new)>(keep: T -> bool, wanted: T -> bool, s: seq<T>) {
    forall x :: x in s ==> keep(x) == wanted(x)
  }

  lemma {:induction false} FrontAndLast<T>(s: seq<T>)
    requires s != []
    ensures s == s[..|s| - 1] + [s[|s| - 1]]
  {
  }

  lemma {:induction false} FilterOfLast<T(!new)>(keep: T -> bool, s: seq<T>)
    requires s != []
    ensures Filter(keep, s) == Filter(keep, s[..|s| - 1]) + if keep(s[|s| - 1]) then [s[|s| - 1]] else []
  {
    FilterOfSnoc(keep, s, |s| - 1);
    assert s[..|s|] == s;
  }

  /** There is only one such list. */
  lemma {:induction false} PicksIsFilter<T(!new)>(
      keep: T -> bool, wanted: T -> bool, s: seq<T>, at: seq<nat>, r: seq<T>)
    requires Picks(wanted, s, at, r) && Agree(keep, wanted, s)
    ensures r == Filter(keep, s)
    decreases |s|, 1
  {
    if s == [] {
      var first := if at == [] then 0 else at[0];
      assert at != [] ==> first < |s|;
    } else {
      PicksWithoutLast(wanted, s, at, r);
      FilterOfLast(keep, s);
      PicksOfFront(keep, wanted, s, at, r);
    }
  }

  lemma {:induction false} PicksOfFront<T(!new)>(
      keep: T -> bool, wanted: T -> bool, s: seq<T>, at: seq<nat>, r: seq<T>)
    requires s != [] && Agree(keep, wanted, s)
    requires wanted(s[|s| - 1]) ==> (
      r != [] && at != [] && r[|r| - 1] == s[|s| - 1] && Picks(wanted, s[..|s| - 1], at[..|at| - 1], r[..|r| - 1]))
    requires !wanted(s[|s| - 1]) ==> Picks(wanted, s[..|s| - 1], at, r)
    ensures r == Filter(keep, s[..|s| - 1]) + if keep(s[|s| - 1]) then [s[|s| - 1]] else []
    decreases |s|, 0
  {
    var front, x := s[..|s| - 1], s[|s| - 1];
    assert Agree(keep, wanted, front) && keep(x) == wanted(x);
    if wanted(x) {
      FrontAndLast(r);
      PicksIsFilter(keep, wanted, front, at[..|at| - 1], r[..|r| - 1]);
    } else {
      PicksIsFilter(keep, wanted, front, at, r);
    }
  }

  lemma {:induction false} FilteredIsFilter<T(!new)>(keep: T -> bool, wanted: T -> bool, s: seq<T>, r: seq<T>)
    requires IsFiltered(wanted, s, r) && Agree(keep, wanted, s)
    ensures r == Filter(keep, s)
  {
    var at: seq<nat> :| Picks(wanted, s, at, r);
    PicksIsFilter(keep, wanted, s, at, r);
  }

  function Map<T, U>(f: T -> U, s: seq<T>): (r: seq<U>)
    ensures |r| == |s|
    ensures forall i :: 0 <= i < |s| ==> r[i] == f(s[i])
  {
    if s == [] then [] else [f(s[0])] + Map(f, s[1..])
  }

  /** `lo, lo + 1, .., hi - 1`. */
  function Range(lo: nat, hi: nat): (r: seq<nat>)
    ensures |r| == if lo <= hi then hi - lo else 0
    ensures forall i :: 0 <= i < |r| ==> r[i] == lo + i
  {
    if lo <= hi then seq(hi - lo, i requires 0 <= i < hi - lo => lo + i) else []
  }

  /** Rust's `join`. */
  function Join(parts: seq<string>, separator: string): string {
    if parts == [] then ""
    else if |parts| == 1 then parts[0]
    else parts[0] + separator + Join(parts[1..], separator)
  }

  ghost predicate StandsAt(text: string, i: nat, part: string) {
    i + |part| <= |text| && text[i..i + |part|] == part
  }

  /** Part `i` stands in `text`: at its start, or behind the part before it and a separator. */
  ghost predicate StandsInLine(parts: seq<string>, separator: string, at: seq<nat>, i: nat, text: string)
    requires i < |parts| == |at|
  {
    && StandsAt(text, at[i], parts[i])
    && if i == 0 then at[i] == 0
       else at[i] == at[i - 1] + |parts[i - 1]| + |separator| && StandsAt(text, at[i] - |separator|, separator)
  }

  ghost predicate Stand(parts: seq<string>, separator: string, at: seq<nat>, text: string) {
    && |at| == |parts|
    && (forall i :: 0 <= i < |parts| ==> StandsInLine(parts, separator, at, i, text))
    && |text| == if parts == [] then 0 else at[|parts| - 1] + |parts[|parts| - 1]|
  }

  /** `text` is the parts with the separator between them, and nothing else. */
  ghost predicate IsJoined(parts: seq<string>, separator: string, text: string) {
    exists at: seq<nat> {:trigger Stand(parts, separator, at, text)} :: Stand(parts, separator, at, text)
  }

  lemma {:induction false} JoinStands(parts: seq<string>, separator: string) returns (at: seq<nat>)
    ensures Stand(parts, separator, at, Join(parts, separator))
  {
    if parts == [] {
      at := [];
    } else if |parts| == 1 {
      at := [0];
      assert StandsInLine(parts, separator, at, 0, parts[0]);
    } else {
      var rest := JoinStands(parts[1..], separator);
      at := [0] + seq(|rest|, i requires 0 <= i < |rest| => rest[i] + |parts[0]| + |separator|);
      StandsAfter(parts, separator, rest, at);
    }
  }

  lemma {:induction false} StandsAfter(parts: seq<string>, separator: string, rest: seq<nat>, at: seq<nat>)
    requires |parts| > 1 && Stand(parts[1..], separator, rest, Join(parts[1..], separator))
    requires |at| == |rest| + 1 && at[0] == 0
    requires forall i :: 0 <= i < |rest| ==> at[i + 1] == rest[i] + |parts[0]| + |separator|
    ensures Stand(parts, separator, at, Join(parts, separator))
  {
    var text := Join(parts, separator);
    forall i | 0 <= i < |parts| ensures StandsInLine(parts, separator, at, i, text) {
      if i == 0 {
        assert text[..|parts[0]|] == parts[0];
      } else {
        assert StandsInLine(parts[1..], separator, rest, i - 1, Join(parts[1..], separator));
        StandsBehind(parts, separator, rest, at, i);
      }
    }
  }

  lemma {:induction false} StandsBehind(
      parts: seq<string>, separator: string, rest: seq<nat>, at: seq<nat>, i: nat)
    requires 0 < i < |parts| == |rest| + 1
    requires StandsInLine(parts[1..], separator, rest, i - 1, Join(parts[1..], separator))
    requires |at| == |rest| + 1 && at[0] == 0
    requires forall j :: 0 <= j < |rest| ==> at[j + 1] == rest[j] + |parts[0]| + |separator|
    ensures StandsInLine(parts, separator, at, i, Join(parts, separator))
  {
    var lead, tail := parts[0] + separator, Join(parts[1..], separator);
    assert at[i - 1 + 1] == rest[i - 1] + |lead|;
    StandsFurther(lead, tail, rest[i - 1], parts[i]);
    if i == 1 {
      assert (lead + tail)[|parts[0]|..|lead|] == separator;
    } else {
      assert at[i - 2 + 1] == rest[i - 2] + |lead|;
      StandsFurther(lead, tail, rest[i - 1] - |separator|, separator);
    }
  }

  lemma {:induction false} StandsFurther(lead: string, tail: string, i: nat, part: string)
    requires StandsAt(tail, i, part)
    ensures StandsAt(lead + tail, i + |lead|, part)
  {
  }

  lemma {:induction false} JoinIsJoined(parts: seq<string>, separator: string)
    ensures IsJoined(parts, separator, Join(parts, separator))
  {
    var at := JoinStands(parts, separator);
  }

  // ---- Stable sort ------------------------------------------------------

  ghost predicate SortedBy<T>(key: T -> int, s: seq<T>) {
    forall i, j :: 0 <= i < j < |s| ==> key(s[i]) <= key(s[j])
  }

  /** Inserts `x` before the first element with a key that is not smaller. */
  function InsertBy<T>(key: T -> int, x: T, s: seq<T>): seq<T> {
    if s == [] || key(x) <= key(s[0]) then [x] + s
    else [s[0]] + InsertBy(key, x, s[1..])
  }

  /** The stable ascending sort of `s` by `key`. */
  function StableSort<T>(key: T -> int, s: seq<T>): seq<T> {
    if s == [] then [] else InsertBy(key, s[0], StableSort(key, s[1..]))
  }

  lemma {:induction false} InsertByKeeps<T>(key: T -> int, x: T, s: seq<T>)
    ensures multiset(InsertBy(key, x, s)) == multiset{x} + multiset(s)
  {
    if s != [] && key(x) > key(s[0]) {
      InsertByKeeps(key, x, s[1..]);
      assert s == [s[0]] + s[1..];
    }
  }

  lemma {:induction false} InsertBySorts<T>(key: T -> int, x: T, s: seq<T>)
    requires SortedBy(key, s)
    ensures SortedBy(key, InsertBy(key, x, s))
    ensures forall i :: 0 <= i < |InsertBy(key, x, s)| ==>
      key(InsertBy(key, x, s)[i]) >= if s == [] || key(x) <= key(s[0]) then key(x) else key(s[0])
  {
    if s != [] && key(x) > key(s[0]) {
      InsertBySorts(key, x, s[1..]);
    }
  }

  lemma {:induction false} StableSortKeeps<T>(key: T -> int, s: seq<T>)
    ensures multiset(StableSort(key, s)) == multiset(s)
  {
    if s != [] {
      StableSortKeeps(key, s[1..]);
      InsertByKeeps(key, s[0], StableSort(key, s[1..]));
      assert s == [s[0]] + s[1..];
    }
  }

  lemma {:induction false} StableSortOrders<T>(key: T -> int, s: seq<T>)
    ensures SortedBy(key, StableSort(key, s))
  {
    if s != [] {
      StableSortOrders(key, s[1..]);
      InsertBySorts(key, s[0], StableSort(key, s[1..]));
    }
  }

  lemma {:induction false} StableSortSorts<T>(key: T -> int, s: seq<T>)
    ensures SortedBy(key, StableSort(key, s))
    ensures multiset(StableSort(key, s)) == multiset(s)
    ensures |StableSort(key, s)| == |s|
  {
    StableSortOrders(key, s);
    StableSortKeeps(key, s);
    assert |multiset(StableSort(key, s))| == |multiset(s)|;
  }

  /** A stable sort leaves a list that is already in order alone. */
  lemma {:induction false} StableSortOfSorted<T>(key: T -> int, s: seq<T>)
    requires SortedBy(key, s)
    ensures StableSort(key, s) == s
  {
    if s != [] {
      StableSortOfSorted(key, s[1..]);
      assert s == [s[0]] + s[1..];
    }
  }

  /** `r` is `s` by rising key; elements with the same key are in the order they have in `s`. */
  ghost predicate IsStableSort<T(!new)>(key: T -> int, s: seq<T>, r: seq<T>) {
    && SortedBy(key, r) && multiset(r) == multiset(s)
    && forall v :: KeepsOrder(key, v, s, r)
  }

  ghost predicate KeepsOrder<T(!new)>(key: T -> int, v: int, s: seq<T>, r: seq<T>) {
    Filter(x => key(x) == v, r) == Filter(x => key(x) == v, s)
  }

  lemma {:induction false} StableSortIsThat<T(!new)>(key: T -> int, s: seq<T>)
    ensures IsStableSort(key, s, StableSort(key, s))
  {
    StableSortSorts(key, s);
    forall v ensures KeepsOrder(key, v, s, StableSort(key, s)) { StableSortIsStable(key, s, v, x => key(x) == v); }
  }

  lemma {:induction false} InsertByIsStable<T(!new)>(key: T -> int, x: T, s: seq<T>, v: int, same: T -> bool)
    requires SortedBy(key, s) && forall y :: same(y) <==> key(y) == v
    ensures Filter(same, InsertBy(key, x, s)) == (if same(x) then [x] else []) + Filter(same, s)
  {
    FilterOfCons(same, x, []);
    if s == [] || key(x) <= key(s[0]) {
      FilterOfCons(same, x, s);
    } else {
      InsertByIsStable(key, x, s[1..], v, same);
      FilterOfCons(same, s[0], InsertBy(key, x, s[1..]));
    }
  }

  lemma {:induction false} FilterOfCons<T(!new)>(keep: T -> bool, x: T, s: seq<T>)
    ensures Filter(keep, [x] + s) == (if keep(x) then [x] else []) + Filter(keep, s)
  {
    assert ([x] + s)[1..] == s;
  }

  /** Elements with the same key stay in their order. */
  lemma {:induction false} StableSortIsStable<T(!new)>(key: T -> int, s: seq<T>, v: int, same: T -> bool)
    requires forall x :: same(x) <==> key(x) == v
    ensures Filter(same, StableSort(key, s)) == Filter(same, s)
  {
    if s != [] {
      StableSortIsStable(key, s[1..], v, same);
      StableSortOrders(key, s[1..]);
      InsertByIsStable(key, s[0], StableSort(key, s[1..]), v, same);
    }
  }

  // ---- Multisets --------------------------------------------------------

  lemma {:induction false} CancelOne<T>(x: T, m: multiset<T>, n: multiset<T>)
    requires multiset{x} + m <= multiset{x} + n
    ensures m <= n
    ensures multiset{x} + m == multiset{x} + n ==> m == n
  {
    assert multiset{x} + m - multiset{x} == m && multiset{x} + n - multiset{x} == n;
  }
}
