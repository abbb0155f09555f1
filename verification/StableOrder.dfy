/** Stable sorting by a total preorder, and why it erases the order in which blocks of findings were listed. */
module StableOrder {
  ghost predicate TotalPreorder<T(!new)>(leq: (T, T) -> bool) {
    && (forall a, b :: leq(a, b) || leq(b, a))
    && (forall a, b, c :: leq(a, b) && leq(b, c) ==> leq(a, c))
  }

  predicate Tied<T>(leq: (T, T) -> bool, a: T, b: T) {
    leq(a, b) && leq(b, a)
  }

  ghost predicate Sorted<T>(leq: (T, T) -> bool, s: seq<T>) {
    forall i, j | 0 <= i < j < |s| :: leq(s[i], s[j])
  }

  // The elements tied with x, in the order they occur
  function TiedWith<T>(leq: (T, T) -> bool, s: seq<T>, x: T): (r: seq<T>) {
    if s == [] then []
    else (if Tied(leq, s[0], x) then [s[0]] else []) + TiedWith(leq, s[1..], x)
  }

  // What any stable sort promises: the result is ordered and ties keep their order
  ghost predicate StablySorted<T(!new)>(leq: (T, T) -> bool, s: seq<T>, r: seq<T>) {
    && |r| == |s|
    && Sorted(leq, r)
    && forall x :: TiedWith(leq, r, x) == TiedWith(leq, s, x)
  }

  // ---- One stable sort ----

  // x goes before the first element it may precede, so it stays ahead of its ties
  function Insert<T>(leq: (T, T) -> bool, x: T, s: seq<T>): (r: seq<T>)
    ensures |r| == |s| + 1
  {
    if s == [] || leq(x, s[0]) then [x] + s else [s[0]] + Insert(leq, x, s[1..])
  }

  function StableSort<T>(leq: (T, T) -> bool, s: seq<T>): (r: seq<T>)
    ensures |r| == |s|
  {
    if s == [] then [] else Insert(leq, s[0], StableSort(leq, s[1..]))
  }

  lemma {:induction false} InsertKeepsOrder<T(!new)>(leq: (T, T) -> bool, x: T, s: seq<T>)
    requires TotalPreorder(leq) && Sorted(leq, s)
    ensures Sorted(leq, Insert(leq, x, s))
    ensures forall y | y in Insert(leq, x, s) :: y == x || y in s
  {
    if s != [] && !leq(x, s[0]) {
      InsertKeepsOrder(leq, x, s[1..]);
      var rest := Insert(leq, x, s[1..]);
      assert leq(s[0], x);
      forall y | y in rest ensures leq(s[0], y) {
        if y != x { assert y in s[1..]; }
      }
    }
  }

  lemma {:induction false} InsertKeepsTies<T(!new)>(leq: (T, T) -> bool, x: T, s: seq<T>, y: T)
    requires TotalPreorder(leq)
    ensures TiedWith(leq, Insert(leq, x, s), y) == TiedWith(leq, [x] + s, y)
  {
    assert ([x] + s)[1..] == s;
    if s != [] && !leq(x, s[0]) {
      InsertKeepsTies(leq, x, s[1..], y);
      var r := Insert(leq, x, s);
      assert r[1..] == Insert(leq, x, s[1..]);
      assert ([x] + s[1..])[1..] == s[1..];
      assert !(Tied(leq, x, y) && Tied(leq, s[0], y));
    }
  }

  lemma {:induction false} InsertPermutes<T>(leq: (T, T) -> bool, x: T, s: seq<T>)
    ensures multiset(Insert(leq, x, s)) == multiset([x] + s)
  {
    if s != [] && !leq(x, s[0]) {
      InsertPermutes(leq, x, s[1..]);
      assert s == [s[0]] + s[1..];
    }
  }

  lemma {:induction false} StableSortPermutes<T>(leq: (T, T) -> bool, s: seq<T>)
    ensures multiset(StableSort(leq, s)) == multiset(s)
  {
    if s != [] {
      StableSortPermutes(leq, s[1..]);
      InsertPermutes(leq, s[0], StableSort(leq, s[1..]));
      assert s == [s[0]] + s[1..];
    }
  }

  // Only what ties matters
  lemma {:induction false} SameTies<T(!new)>(leq: (T, T) -> bool, other: (T, T) -> bool, s: seq<T>, x: T)
    requires forall y :: Tied(leq, y, x) <==> Tied(other, y, x)
    ensures TiedWith(leq, s, x) == TiedWith(other, s, x)
  {
    if s != [] { SameTies(leq, other, s[1..], x); }
  }

  lemma {:induction false} StableSortIsStable<T(!new)>(leq: (T, T) -> bool, s: seq<T>)
    requires TotalPreorder(leq)
    ensures StablySorted(leq, s, StableSort(leq, s))
  {
    if s != [] {
      var rest := StableSort(leq, s[1..]);
      StableSortIsStable(leq, s[1..]);
      InsertKeepsOrder(leq, s[0], rest);
      forall x ensures TiedWith(leq, StableSort(leq, s), x) == TiedWith(leq, s, x) {
        InsertKeepsTies(leq, s[0], rest, x);
        assert ([s[0]] + rest)[1..] == rest;
      }
    }
  }

  // ---- A sorted sequence is determined by its classes of ties ----

  lemma {:induction false} TiedWithMembers<T>(leq: (T, T) -> bool, s: seq<T>, x: T)
    ensures forall y :: y in TiedWith(leq, s, x) <==> y in s && Tied(leq, y, x)
  {
    if s != [] {
      TiedWithMembers(leq, s[1..], x);
      assert forall y :: y in s <==> y == s[0] || y in s[1..];
    }
  }

  // The ties of x behind the head
  ghost function Behind<T>(leq: (T, T) -> bool, s: seq<T>, x: T): seq<T>
    requires s != []
  {
    if Tied(leq, s[0], x) then TiedWith(leq, s, x)[1..] else TiedWith(leq, s, x)
  }

  lemma {:induction false} SortedIsDetermined<T(!new)>(leq: (T, T) -> bool, s: seq<T>, t: seq<T>)
    requires TotalPreorder(leq) && Sorted(leq, s) && Sorted(leq, t)
    requires forall x :: TiedWith(leq, s, x) == TiedWith(leq, t, x)
    ensures s == t
  {
    if s != [] {
      TiedWithMembers(leq, s, s[0]);
      TiedWithMembers(leq, t, s[0]);
      assert s[0] in TiedWith(leq, t, s[0]);
      TiedWithMembers(leq, t, t[0]);
      TiedWithMembers(leq, s, t[0]);
      assert t[0] in TiedWith(leq, s, t[0]);
      assert Tied(leq, s[0], t[0]);
      assert TiedWith(leq, s, s[0])[0] == s[0] && TiedWith(leq, t, s[0])[0] == t[0];
      forall x ensures TiedWith(leq, s[1..], x) == TiedWith(leq, t[1..], x) {
        assert TiedWith(leq, s, x) == TiedWith(leq, t, x);
        assert Tied(leq, s[0], x) <==> Tied(leq, t[0], x);
        assert TiedWith(leq, s[1..], x) == Behind(leq, s, x);
        assert TiedWith(leq, t[1..], x) == Behind(leq, t, x);
      }
      SortedIsDetermined(leq, s[1..], t[1..]);
    } else {
      assert forall x :: TiedWith(leq, t, x) == TiedWith(leq, s, x);
      assert t != [] ==> TiedWith(leq, t, t[0]) != [];
    }
  }

  // ---- Blocks listed in any order ----

  ghost predicate Distinct<K>(ks: seq<K>) {
    forall i, j | 0 <= i < j < |ks| :: ks[i] != ks[j]
  }

  // The blocks in the order their keys are listed; a key without a block contributes nothing
  function Concat<K, T>(blocks: map<K, seq<T>>, ks: seq<K>): seq<T> {
    if ks == [] then []
    else (if ks[0] in blocks then blocks[ks[0]] else []) + Concat(blocks, ks[1..])
  }

  // No element of one block ties with an element of another
  ghost predicate BlocksApart<K(!new), T>(leq: (T, T) -> bool, blocks: map<K, seq<T>>) {
    forall k, l, a, b | k in blocks && l in blocks && a in blocks[k] && b in blocks[l] && Tied(leq, a, b) :: k == l
  }

  lemma {:induction false} TiedWithConcat<T>(leq: (T, T) -> bool, s: seq<T>, t: seq<T>, x: T)
    ensures TiedWith(leq, s + t, x) == TiedWith(leq, s, x) + TiedWith(leq, t, x)
  {
    if s == [] {
      assert s + t == t;
    } else {
      var both := s + t;
      assert both[0] == s[0] && both[1..] == s[1..] + t;
      TiedWithConcat(leq, s[1..], t, x);
      var head := if Tied(leq, s[0], x) then [s[0]] else [];
      hide Tied;
      assert TiedWith(leq, both, x) == head + TiedWith(leq, both[1..], x);
      assert TiedWith(leq, s, x) == head + TiedWith(leq, s[1..], x);
    }
  }

  // Only the block of `home` can hold an element tied with x
  lemma {:induction false} TiesComeFromOneBlock<K(!new),
    T(!new)>(leq: (T, T) -> bool, blocks: map<K, seq<T>>, ks: seq<K>, home: K, x: T)
    requires TotalPreorder(leq) && BlocksApart(leq, blocks) && Distinct(ks)
    requires home in blocks && exists y :: y in blocks[home] && Tied(leq, y, x)
    ensures TiedWith(leq, Concat(blocks, ks), x) == if home in ks then TiedWith(leq, blocks[home], x) else []
  {
    if ks != [] {
      var b := if ks[0] in blocks then blocks[ks[0]] else [];
      TiedWithConcat(leq, b, Concat(blocks, ks[1..]), x);
      TiesComeFromOneBlock(leq, blocks, ks[1..], home, x);
      if ks[0] != home && ks[0] in blocks { NoTiesElsewhere(leq, blocks, ks[0], home, x); }
      assert ks[0] == home ==> home !in ks[1..];
      hide Tied, BlocksApart, TotalPreorder;
    }
  }

  lemma NoTiesElsewhere<K(!new), T(!new)>(leq: (T, T) -> bool, blocks: map<K, seq<T>>, k: K, home: K, x: T)
    requires TotalPreorder(leq) && BlocksApart(leq, blocks) && k in blocks && home in blocks && k != home
    requires exists y :: y in blocks[home] && Tied(leq, y, x)
    ensures TiedWith(leq, blocks[k], x) == []
  {
    var y :| y in blocks[home] && Tied(leq, y, x);
    forall a | a in blocks[k] ensures !Tied(leq, a, x) {
      assert Tied(leq, a, x) ==> Tied(leq, a, y);
    }
    NoTies(leq, blocks[k], x);
  }

  lemma {:induction false} NoTies<T>(leq: (T, T) -> bool, s: seq<T>, x: T)
    requires forall y | y in s :: !Tied(leq, y, x)
    ensures TiedWith(leq, s, x) == []
  {
    if s != [] {
      NoTies(leq, s[1..], x);
    }
  }

  lemma {:induction false} NoBlockNoTies<K(!new), T(!new)>(
    leq: (T, T) -> bool, blocks: map<K, seq<T>>, ks: seq<K>, x: T)
    requires forall k, y | k in blocks && y in blocks[k] :: !Tied(leq, y, x)
    ensures TiedWith(leq, Concat(blocks, ks), x) == []
  {
    if ks != [] {
      var b := if ks[0] in blocks then blocks[ks[0]] else [];
      TiedWithConcat(leq, b, Concat(blocks, ks[1..]), x);
      NoBlockNoTies(leq, blocks, ks[1..], x);
      NoTies(leq, b, x);
    }
  }

  // Any stable sort gives the same result for every order in which distinct blocks are listed
  lemma {:induction false} BlockOrderIsErased<K(!new), T(!new)>(
    leq: (T, T) -> bool, blocks: map<K, seq<T>>, ks: seq<K>, ls: seq<K>, r: seq<T>, s: seq<T>)
    requires TotalPreorder(leq) && BlocksApart(leq, blocks)
    requires Distinct(ks) && Distinct(ls) && forall k :: k in ks <==> k in ls
    requires StablySorted(leq, Concat(blocks, ks), r) && StablySorted(leq, Concat(blocks, ls), s)
    ensures r == s
  {
    forall x ensures TiedWith(leq, r, x) == TiedWith(leq, s, x) {
      if k, y :| k in blocks && y in blocks[k] && Tied(leq, y, x) {
        TiesComeFromOneBlock(leq, blocks, ks, k, x);
        TiesComeFromOneBlock(leq, blocks, ls, k, x);
      } else {
        NoBlockNoTies(leq, blocks, ks, x);
        NoBlockNoTies(leq, blocks, ls, x);
      }
    }
    SortedIsDetermined(leq, r, s);
  }

  lemma {:induction false} ConcatMembers<T>(blocks: map<string, seq<T>>, ks: seq<string>)
    ensures forall x :: x in Concat(blocks, ks) <==> exists k :: k in ks && k in blocks && x in blocks[k]
  {
    if ks != [] {
      ConcatMembers(blocks, ks[1..]);
      forall x ensures x in Concat(blocks, ks) <==> exists k :: k in ks && k in blocks && x in blocks[k] {
        if k :| k in ks && k in blocks && x in blocks[k] {
          assert k == ks[0] || k in ks[1..];
        }
        if x in Concat(blocks, ks[1..]) {
          var k :| k in ks[1..] && k in blocks && x in blocks[k];
          assert k in ks;
        }
      }
    }
  }

  lemma {:induction false} SomeOrder<K>(keys: set<K>) returns (order: seq<K>)
    ensures Distinct(order) && forall k :: k in order <==> k in keys
  {
    if keys == {} {
      order := [];
    } else {
      var k :| k in keys;
      var rest := SomeOrder(keys - {k});
      order := [k] + rest;
    }
  }

  // ---- Exactly when the order of the blocks is erased ----

  ghost predicate ListsKeys<V>(m: map<string, V>, ids: seq<string>) {
    Distinct(ids) && forall k :: k in ids <==> k in m
  }

  ghost predicate OrderErased<T>(leq: (T, T) -> bool, blocks: map<string, seq<T>>) {
    forall ks, ls | ListsKeys(blocks, ks) && ListsKeys(blocks, ls) ::
      StableSort(leq, Concat(blocks, ks)) == StableSort(leq, Concat(blocks, ls))
  }

  // For every two blocks and every class of ties, it makes no difference whose ties come first
  ghost predicate TiesCommute<T(!new)>(leq: (T, T) -> bool, blocks: map<string, seq<T>>) {
    forall k, l, x | k in blocks && l in blocks ::
      TiedWith(leq, blocks[k], x) + TiedWith(leq, blocks[l], x) ==
        TiedWith(leq, blocks[l], x) + TiedWith(leq, blocks[k], x)
  }

  function Without<K>(ks: seq<K>, j: nat): seq<K>
    requires j < |ks|
  {
    ks[..j] + ks[j + 1..]
  }

  lemma WithoutOne<K>(ks: seq<K>, j: nat)
    requires Distinct(ks) && j < |ks|
    ensures Distinct(Without(ks, j)) && forall k :: k in Without(ks, j) <==> k in ks && k != ks[j]
  {
    var r := Without(ks, j);
    forall k ensures k in r <==> k in ks && k != ks[j] {
      if k in ks && k != ks[j] {
        var i :| 0 <= i < |ks| && ks[i] == k;
        assert r[if i < j then i else i - 1] == k;
      }
    }
  }

  lemma ConcatFirst<T>(leq: (T, T) -> bool, blocks: map<string, seq<T>>, ks: seq<string>, x: T)
    requires ks != [] && ks[0] in blocks
    ensures TiedWith(leq, Concat(blocks, ks), x) ==
      TiedWith(leq, blocks[ks[0]], x) + TiedWith(leq, Concat(blocks, ks[1..]), x)
  {
    hide TiedWith;
    TiedWithConcat(leq, blocks[ks[0]], Concat(blocks, ks[1..]), x);
  }

  lemma SwapFront<T>(a: seq<T>, b: seq<T>, rest: seq<T>)
    requires a + b == b + a
    ensures a + (b + rest) == b + (a + rest)
  {
    assert a + (b + rest) == (a + b) + rest && b + (a + rest) == (b + a) + rest;
  }

  lemma {:induction false} PullToFront<T(!new)>(leq: (T, T) -> bool, blocks: map<string, seq<T>>, ks: seq<string>,
    j: nat, x: T)
    requires TiesCommute(leq, blocks) && j < |ks| && forall k | k in ks :: k in blocks
    ensures TiedWith(leq, Concat(blocks, ks), x) ==
            TiedWith(leq, blocks[ks[j]], x) + TiedWith(leq, Concat(blocks, Without(ks, j)), x)
  {
    hide TiedWith, Concat;
    assert ks[0] in ks && ks[j] in ks;
    ConcatFirst(leq, blocks, ks, x);
    if j == 0 {
      assert Without(ks, 0) == ks[1..];
    } else {
      var less := Without(ks, j);
      assert less[0] == ks[0] && less[1..] == Without(ks[1..], j - 1);
      assert forall k | k in ks[1..] :: k in ks;
      PullToFront(leq, blocks, ks[1..], j - 1, x);
      ConcatFirst(leq, blocks, less, x);
      SwapFront(TiedWith(leq, blocks[ks[0]], x), TiedWith(leq, blocks[ks[j]], x),
        TiedWith(leq, Concat(blocks, less[1..]), x));
    }
  }

  lemma {:induction false} CommutingTiesForgetOrder<T(!new)>(leq: (T, T) -> bool, blocks: map<string, seq<T>>,
    ks: seq<string>, ls: seq<string>, x: T)
    requires TiesCommute(leq, blocks) && Distinct(ks) && Distinct(ls)
    requires (forall k :: k in ks <==> k in ls) && forall k | k in ks :: k in blocks
    ensures TiedWith(leq, Concat(blocks, ks), x) == TiedWith(leq, Concat(blocks, ls), x)
  {
    hide TiesCommute, TiedWith, Concat, Distinct, Without;
    assert ls != [] ==> ls[0] in ks;
    if ks != [] {
      assert ks[0] in ls;
      var j :| 0 <= j < |ls| && ls[j] == ks[0];
      PullToFront(leq, blocks, ls, j, x);
      ConcatFirst(leq, blocks, ks, x);
      WithoutOne(ls, j);
      WithoutOne(ks, 0);
      assert Without(ks, 0) == ks[1..] by { WithoutFirst(ks); }
      CommutingTiesForgetOrder(leq, blocks, ks[1..], Without(ls, j), x);
    }
  }

  lemma WithoutFirst<K>(ks: seq<K>)
    requires ks != []
    ensures Without(ks, 0) == ks[1..]
  {
  }

  lemma CommutingTiesSuffice<T(!new)>(leq: (T, T) -> bool, blocks: map<string, seq<T>>)
    requires TotalPreorder(leq) && TiesCommute(leq, blocks)
    ensures OrderErased(leq, blocks)
  {
    hide TiesCommute, TotalPreorder, Sorted;
    forall ks, ls | ListsKeys(blocks, ks) && ListsKeys(blocks, ls)
      ensures StableSort(leq, Concat(blocks, ks)) == StableSort(leq, Concat(blocks, ls))
    {
      StableSortIsStable(leq, Concat(blocks, ks));
      StableSortIsStable(leq, Concat(blocks, ls));
      forall x ensures TiedWith(leq, StableSort(leq, Concat(blocks, ks)), x) ==
        TiedWith(leq, StableSort(leq, Concat(blocks, ls)), x) {
        CommutingTiesForgetOrder(leq, blocks, ks, ls, x);
      }
      SortedIsDetermined(leq, StableSort(leq, Concat(blocks, ks)), StableSort(leq, Concat(blocks, ls)));
    }
  }

  lemma TwoFirst<T(!new)>(leq: (T, T) -> bool, blocks: map<string, seq<T>>, k: string, l: string, rest: seq<string>,
      x: T)
    requires k in blocks && l in blocks
    ensures TiedWith(leq, Concat(blocks, [k, l] + rest), x) ==
            (TiedWith(leq, blocks[k], x) + TiedWith(leq, blocks[l], x)) + TiedWith(leq, Concat(blocks, rest), x)
  {
    hide TiedWith;
    assert ([k, l] + rest)[1..] == [l] + rest && ([l] + rest)[1..] == rest;
    TiedWithConcat(leq, blocks[k], Concat(blocks, [l] + rest), x);
    TiedWithConcat(leq, blocks[l], Concat(blocks, rest), x);
  }

  lemma CommutingTiesAreNeeded<T(!new)>(leq: (T, T) -> bool, blocks: map<string, seq<T>>, k: string, l: string, x: T)
    requires TotalPreorder(leq) && OrderErased(leq, blocks) && k in blocks && l in blocks
    ensures TiedWith(leq, blocks[k], x) + TiedWith(leq, blocks[l], x) ==
      TiedWith(leq, blocks[l], x) + TiedWith(leq, blocks[k], x)
  {
    hide TiedWith, TotalPreorder, Concat, StableSort, Sorted;
    if k != l {
      var rest := SomeOrder(blocks.Keys - {k, l});
      var ks, ls := [k, l] + rest, [l, k] + rest;
      FrontOfKeys(blocks, k, l, rest);
      FrontOfKeys(blocks, l, k, rest);
      SortedAlikeTiedAlike(leq, Concat(blocks, ks), Concat(blocks, ls), x);
      TwoFirst(leq, blocks, k, l, rest, x);
      TwoFirst(leq, blocks, l, k, rest, x);
      SameFront(TiedWith(leq, blocks[k], x) + TiedWith(leq, blocks[l], x),
                TiedWith(leq, blocks[l], x) + TiedWith(leq, blocks[k], x), TiedWith(leq, Concat(blocks, rest), x));
    }
  }

  lemma FrontOfKeys<V>(blocks: map<string, V>, k: string, l: string, rest: seq<string>)
    requires k in blocks && l in blocks && k != l
    requires Distinct(rest) && forall m :: m in rest <==> m in blocks.Keys - {k, l}
    ensures ListsKeys(blocks, [k, l] + rest)
  {
    var ks := [k, l] + rest;
    forall i, j | 0 <= i < j < |ks| ensures ks[i] != ks[j] {
      assert j >= 2 ==> ks[j] in rest;
      assert i >= 2 ==> ks[i] == rest[i - 2] && ks[j] == rest[j - 2];
    }
  }

  lemma SortedAlikeTiedAlike<T(!new)>(leq: (T, T) -> bool, s: seq<T>, t: seq<T>, x: T)
    requires TotalPreorder(leq) && StableSort(leq, s) == StableSort(leq, t)
    ensures TiedWith(leq, s, x) == TiedWith(leq, t, x)
  {
    hide TotalPreorder, Sorted, TiedWith, StableSort;
    StableSortIsStable(leq, s);
    StableSortIsStable(leq, t);
  }

  lemma SameFront<T>(a: seq<T>, b: seq<T>, rest: seq<T>)
    requires a + rest == b + rest && |a| == |b|
    ensures a == b
  {
    assert a == (a + rest)[..|a|] && b == (b + rest)[..|b|];
  }

  // A stable sort erases the order in which blocks were visited exactly when ties of different blocks commute
  lemma OrderErasedIff<T(!new)>(leq: (T, T) -> bool, blocks: map<string, seq<T>>)
    requires TotalPreorder(leq)
    ensures OrderErased(leq, blocks) <==> TiesCommute(leq, blocks)
  {
    hide TotalPreorder, OrderErased, TiedWith;
    if TiesCommute(leq, blocks) {
      CommutingTiesSuffice(leq, blocks);
    }
    if OrderErased(leq, blocks) {
      forall k, l, x | k in blocks && l in blocks
        ensures TiedWith(leq, blocks[k], x) + TiedWith(leq, blocks[l], x) ==
          TiedWith(leq, blocks[l], x) + TiedWith(leq, blocks[k], x)
      {
        CommutingTiesAreNeeded(leq, blocks, k, l, x);
      }
    }
  }

  lemma SortKeepsMembers<T(!new)>(leq: (T, T) -> bool, s: seq<T>, y: T)
    requires TotalPreorder(leq) && y in StableSort(leq, s)
    ensures y in s
  {
    StableSortIsStable(leq, s);
    TiedWithMembers(leq, StableSort(leq, s), y);
    TiedWithMembers(leq, s, y);
  }
}
