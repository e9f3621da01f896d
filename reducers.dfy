// The result merger `merge_rca_analyses`: worker analyses are deduplicated
// by the priority of their task, the last one seen for a priority wins, and
// the survivors come out in ascending priority order.

module Reducers {
  import opened Values
  import opened Sorting

  /**
   * The priority an analysis is filed under: its `task` entry (an empty
   * dict when missing) must be a dict whose `priority` is an integer.
   * Anything else (not a dict, a task that is not a dict, no priority) has none.
   */
  function PriorityOf(analysis: Value): Option<int>
  {
    if !analysis.Obj? then None
    else
      var task := if "task" in analysis.fields then analysis.fields["task"] else Obj(map[]);
      if task.Obj? && "priority" in task.fields && task.fields["priority"].Num? then
        Some(task.fields["priority"].n)
      else None
  }

  /**
   * The priority map after a left-to-right pass over `items`: each analysis
   * with a priority overwrites the entry for it. Every entry is filed
   * under its own priority.
   */
  function Collect(items: seq<Value>): (m: map<int, Value>)
    ensures forall p :: p in m ==> PriorityOf(m[p]) == Some(p)
  {
    if items == [] then map[]
    else
      var before := Collect(items[..|items| - 1]);
      var last := items[|items| - 1];
      match PriorityOf(last)
      case None => before
      case Some(p) => before[p := last]
  }

  predicate StrictlyAscending(s: seq<int>)
  {
    forall i, j :: 0 <= i < j < |s| ==> s[i] < s[j]
  }

  lemma HasMember(keys: set<int>)
    requires keys != {}
    ensures exists k :: k in keys
  {
    if forall k :: k !in keys {
      assert false;
    }
  }

  /** `least` is the smallest key of `keys`. */
  predicate IsLeast(least: int, keys: set<int>)
  {
    least in keys && forall k :: k in keys ==> least <= k
  }

  lemma ExtendLeast(least: int, rest: set<int>, x: int)
    requires IsLeast(least, rest)
    ensures IsLeast(if x < least then x else least, rest + {x})
  {
  }

  lemma {:induction false} HasLeast(keys: set<int>)
    requires keys != {}
    ensures exists least :: IsLeast(least, keys)
    decreases |keys|
  {
    HasMember(keys);
    var x :| x in keys;
    if keys == {x} {
      assert IsLeast(x, keys);
    } else {
      var rest := keys - {x};
      HasLeast(rest);
      var least :| IsLeast(least, rest);
      ExtendLeast(least, rest, x);
      assert keys == rest + {x};
      assert IsLeast(if x < least then x else least, keys);
    }
  }

  /** The keys of a map in ascending order, as `sorted(d.keys())` lists them. */
  ghost function AscendingKeys(keys: set<int>): (r: seq<int>)
    ensures StrictlyAscending(r)
    ensures forall k :: k in r <==> k in keys
    decreases |keys|
  {
    if keys == {} then []
    else
      HasLeast(keys);
      var least :| IsLeast(least, keys);
      var rest := AscendingKeys(keys - {least});
      assert forall k :: k in rest ==> least < k;
      [least] + rest
  }

  /** The map's analyses, read back in ascending priority order. */
  ghost function Listing(m: map<int, Value>): (r: seq<Value>)
    ensures |r| == |AscendingKeys(m.Keys)|
    ensures forall i :: 0 <= i < |r| ==> r[i] == m[AscendingKeys(m.Keys)[i]]
  {
    var ks := AscendingKeys(m.Keys);
    seq(|ks|, i requires 0 <= i < |ks| => m[ks[i]])
  }

  /** What `merge_rca_analyses(left, right)` returns. */
  ghost function Merge(left: seq<Value>, right: seq<Value>): seq<Value>
  {
    Listing(Collect(left + right))
  }

  // -----------------------------------------------------------------------
  // The loop

  predicate Distinct(s: seq<int>)
  {
    forall i, j :: 0 <= i < j < |s| ==> s[i] != s[j]
  }

  method MergeRcaAnalyses(left: seq<Value>, right: seq<Value>) returns (merged: seq<Value>)
    ensures merged == Merge(left, right)
  {
    var all := left + right;
    var priorityMap: map<int, Value> := map[];
    var order: seq<int> := [];   // the dict's key insertion order
    for i := 0 to |all|
      invariant priorityMap == Collect(all[..i])
      invariant Distinct(order)
      invariant forall k :: k in order <==> k in priorityMap
    {
      var analysis := all[i];
      assert all[..i + 1] == all[..i] + [analysis];
      CollectSnoc(all[..i], analysis);
      if analysis.Obj? {
        var task := if "task" in analysis.fields then analysis.fields["task"] else Obj(map[]);
        var priority := if task.Obj? && "priority" in task.fields then task.fields["priority"] else Null;
        if priority.Num? {
          if priority.n !in priorityMap {
            DistinctSnoc(order, priority.n);
            order := order + [priority.n];
          }
          priorityMap := priorityMap[priority.n := analysis];
        }
      }
    }
    assert all[..|all|] == all;
    var keys := SortBy(order, IntLe);
    OrderedKeys(order, priorityMap);
    merged := seq(|keys|, i requires 0 <= i < |keys| => priorityMap[keys[i]]);
  }

  lemma DistinctSnoc(order: seq<int>, k: int)
    requires Distinct(order) && k !in order
    ensures Distinct(order + [k])
  {
  }

  /** Sorting the dict's keys, kept in insertion order, gives the ascending listing of the map's keys. */
  lemma OrderedKeys(order: seq<int>, m: map<int, Value>)
    requires Distinct(order)
    requires forall k :: k in order <==> k in m
    ensures SortBy(order, IntLe) == AscendingKeys(m.Keys)
  {
    SortedKeys(order);
    var keys := set k | k in order;
    forall k
      ensures k in keys <==> k in m.Keys
    {
      assert k in order <==> k in m;
    }
    assert keys == m.Keys;
  }

  // -----------------------------------------------------------------------
  // Sorting distinct keys gives the ascending listing

  lemma {:induction false} CountAtMostOne(s: seq<int>, x: int)
    requires Distinct(s)
    ensures multiset(s)[x] <= 1
  {
    if s != [] {
      assert s == [s[0]] + s[1..];
      CountAtMostOne(s[1..], x);
      if x == s[0] {
        assert x !in s[1..];
      }
    }
  }

  lemma {:induction false} CountAtLeastTwo(s: seq<int>, i: nat, j: nat)
    requires i < j < |s| && s[i] == s[j]
    ensures multiset(s)[s[i]] >= 2
  {
    assert s == s[..i] + [s[i]] + s[i + 1..j] + [s[j]] + s[j + 1..];
  }

  lemma {:induction false} AscendingTail(a: seq<int>, x: int)
    requires StrictlyAscending(a) && a != []
    ensures x in a ==> a[0] <= x
    ensures x in a[1..] <==> x in a && x != a[0]
  {
    if x in a {
      var n :| 0 <= n < |a| && a[n] == x;
      if n > 0 {
        assert a[1..][n - 1] == x;
      }
    }
    if x in a[1..] {
      var k :| 0 <= k < |a[1..]| && a[1..][k] == x;
      assert a[k + 1] == x;
    }
  }

  lemma HeadIsMember(s: seq<int>)
    requires s != []
    ensures s[0] in s
  {
  }

  /** Two strictly ascending lists with the same members are equal. */
  lemma {:induction false} AscendingUnique(a: seq<int>, b: seq<int>)
    requires StrictlyAscending(a) && StrictlyAscending(b)
    requires forall x :: x in a <==> x in b
    ensures a == b
    decreases |a|
  {
    if a == [] {
      if b != [] {
        HeadIsMember(b);
        assert false;
      }
    } else {
      assert a[0] in a;
      assert b != [];
      assert b[0] in b;
      AscendingTail(a, b[0]);
      AscendingTail(b, a[0]);
      assert a[0] == b[0];
      forall x ensures x in a[1..] <==> x in b[1..] {
        AscendingTail(a, x);
        AscendingTail(b, x);
      }
      AscendingUnique(a[1..], b[1..]);
      assert a == [a[0]] + a[1..] && b == [b[0]] + b[1..];
    }
  }

  /** `sorted` of a list of distinct integers is the ascending listing of their set. */
  lemma {:induction false} SortedKeys(order: seq<int>)
    requires Distinct(order)
    ensures SortBy(order, IntLe) == AscendingKeys(set k | k in order)
  {
    var sorted := SortBy(order, IntLe);
    IntLeIsPreorder();
    SortBySorted(order, IntLe);
    SortByPerm(order, IntLe);
    forall i, j | 0 <= i < j < |sorted| ensures sorted[i] < sorted[j] {
      assert IntLe(sorted[i], sorted[j]);
      if sorted[i] == sorted[j] {
        CountAtLeastTwo(sorted, i, j);
        CountAtMostOne(order, sorted[i]);
      }
    }
    forall x ensures x in sorted <==> x in order {
      assert x in sorted <==> x in multiset(sorted);
      assert x in order <==> x in multiset(order);
    }
    AscendingUnique(sorted, AscendingKeys(set k | k in order));
  }

  // -----------------------------------------------------------------------
  // The priority map

  /** Every priority an input analysis carries is a key of the map. */
  lemma {:induction false} CollectHasKey(items: seq<Value>, i: nat)
    requires i < |items| && PriorityOf(items[i]).Some?
    ensures PriorityOf(items[i]).value in Collect(items)
  {
    if i < |items| - 1 {
      var init := items[..|items| - 1];
      assert init[i] == items[i];
      CollectHasKey(init, i);
    }
  }

  /** Every key of the map is the priority of some input analysis. */
  lemma {:induction false} CollectKeySource(items: seq<Value>, p: int) returns (i: nat)
    requires p in Collect(items)
    ensures i < |items| && PriorityOf(items[i]) == Some(p)
  {
    var init := items[..|items| - 1];
    if PriorityOf(items[|items| - 1]) == Some(p) {
      i := |items| - 1;
    } else {
      i := CollectKeySource(init, p);
      assert init[i] == items[i];
    }
  }

  /** A priority is a key of the map iff some input analysis carries it. */
  lemma {:induction false} CollectKeys(items: seq<Value>)
    ensures forall p :: p in Collect(items) <==> exists i :: 0 <= i < |items| && PriorityOf(items[i]) == Some(p)
  {
    forall p ensures p in Collect(items) <==> exists i :: 0 <= i < |items| && PriorityOf(items[i]) == Some(p) {
      if p in Collect(items) {
        var i := CollectKeySource(items, p);
      }
      if exists i :: 0 <= i < |items| && PriorityOf(items[i]) == Some(p) {
        var i :| 0 <= i < |items| && PriorityOf(items[i]) == Some(p);
        CollectHasKey(items, i);
      }
    }
  }

  /** The entry for a priority is the last analysis that carries it. */
  lemma {:induction false} CollectLastWins(items: seq<Value>, i: nat)
    requires i < |items| && PriorityOf(items[i]).Some?
    requires forall j :: i < j < |items| ==> PriorityOf(items[j]) != PriorityOf(items[i])
    ensures PriorityOf(items[i]).value in Collect(items)
    ensures Collect(items)[PriorityOf(items[i]).value] == items[i]
  {
    if i < |items| - 1 {
      var init := items[..|items| - 1];
      assert init[i] == items[i];
      CollectLastWins(init, i);
    }
  }

  /** The pass over `a + b` is the pass over `a` overridden by the pass over `b`. */
  lemma {:induction false} CollectAppend(a: seq<Value>, b: seq<Value>)
    ensures Collect(a + b) == Collect(a) + Collect(b)
    decreases |b|
  {
    if b == [] {
      assert a + b == a;
    } else {
      var init, last := b[..|b| - 1], b[|b| - 1];
      CollectAppend(a, init);
      assert b == init + [last];
      assert a + b == (a + init) + [last];
      CollectSnoc(a + init, last);
      CollectSnoc(init, last);
      if PriorityOf(last).Some? {
        UpdateUnion(Collect(a), Collect(init), PriorityOf(last).value, last);
      }
    }
  }

  /** One more analysis overwrites the entry for its priority, if it has one. */
  lemma CollectSnoc(items: seq<Value>, last: Value)
    ensures PriorityOf(last).None? ==> Collect(items + [last]) == Collect(items)
    ensures PriorityOf(last).Some? ==> Collect(items + [last]) == Collect(items)[PriorityOf(last).value := last]
  {
    assert (items + [last])[..|items|] == items;
  }

  lemma UpdateUnion(m: map<int, Value>, n: map<int, Value>, p: int, v: Value)
    ensures (m + n)[p := v] == m + n[p := v]
  {
  }

  lemma UnionTwice(m: map<int, Value>, n: map<int, Value>)
    ensures m + n + n == m + n
  {
  }

  /** Every entry of the map is one of the input analyses. */
  lemma {:induction false} CollectFromInput(items: seq<Value>)
    ensures forall p :: p in Collect(items) ==> Collect(items)[p] in items
  {
    if items != [] {
      var init := items[..|items| - 1];
      CollectFromInput(init);
      assert forall v :: v in init ==> v in items;
    }
  }

  /** An analysis without a priority changes nothing. */
  lemma {:induction false} CollectSkipsUnfiled(items: seq<Value>, analysis: Value)
    requires PriorityOf(analysis).None?
    ensures Collect(items + [analysis]) == Collect(items)
  {
    assert (items + [analysis])[..|items|] == items;
  }

  /** Analyses without a priority, however many, leave the map unchanged. */
  lemma {:induction false} CollectDropsUnfiled(items: seq<Value>, more: seq<Value>)
    requires forall i :: 0 <= i < |more| ==> PriorityOf(more[i]).None?
    ensures Collect(items + more) == Collect(items)
  {
    if more == [] {
      assert items + more == items;
    } else {
      var n := |more| - 1;
      var init := more[..n];
      assert forall i :: 0 <= i < n ==> init[i] == more[i];
      CollectDropsUnfiled(items, init);
      assert items + more == (items + init) + [more[n]];
      CollectSkipsUnfiled(items + init, more[n]);
    }
  }

  /** Reading a well-formed map back in order and collecting it again gives the map. */
  lemma {:induction false} ListingRoundTrip(m: map<int, Value>)
    requires forall p :: p in m ==> PriorityOf(m[p]) == Some(p)
    ensures Collect(Listing(m)) == m
  {
    var c := Collect(Listing(m));
    forall p
      ensures (p in c <==> p in m) && (p in m ==> c[p] == m[p])
    {
      ListingKey(m, p);
    }
    SameMap(c, m);
  }

  lemma SameMap(c: map<int, Value>, m: map<int, Value>)
    requires forall p :: p in c <==> p in m
    requires forall p :: p in m ==> c[p] == m[p]
    ensures c == m
  {
    assert forall p :: p in c.Keys <==> p in m.Keys;
    assert c.Keys == m.Keys;
    assert forall p :: p in c ==> c[p] == m[p];
  }

  lemma ListingKey(m: map<int, Value>, p: int)
    requires forall p :: p in m ==> PriorityOf(m[p]) == Some(p)
    ensures p in Collect(Listing(m)) <==> p in m
    ensures p in m ==> Collect(Listing(m))[p] == m[p]
  {
    if p in m {
      var ks := AscendingKeys(m.Keys);
      assert p in ks;
      var i :| 0 <= i < |ks| && ks[i] == p;
      ListingLastWins(m, i);
    }
    if p in Collect(Listing(m)) {
      ListedKeyInMap(m, p);
    }
  }

  lemma ListedKeyInMap(m: map<int, Value>, p: int)
    requires forall p :: p in m ==> PriorityOf(m[p]) == Some(p)
    requires p in Collect(Listing(m))
    ensures p in m
  {
    var ks := AscendingKeys(m.Keys);
    ListingPriorities(m);
    var i := CollectKeySource(Listing(m), p);
    assert ks[i] in ks;
  }

  lemma ListingPriorities(m: map<int, Value>)
    requires forall p :: p in m ==> PriorityOf(m[p]) == Some(p)
    ensures forall i :: 0 <= i < |Listing(m)| ==> PriorityOf(Listing(m)[i]) == Some(AscendingKeys(m.Keys)[i])
  {
    var ks := AscendingKeys(m.Keys);
    forall i | 0 <= i < |Listing(m)|
      ensures PriorityOf(Listing(m)[i]) == Some(ks[i])
    {
      assert ks[i] in ks;
    }
  }

  lemma ListingLastWins(m: map<int, Value>, i: nat)
    requires forall p :: p in m ==> PriorityOf(m[p]) == Some(p)
    requires i < |AscendingKeys(m.Keys)|
    ensures var p := AscendingKeys(m.Keys)[i]; p in m && p in Collect(Listing(m)) && Collect(Listing(m))[p] == m[p]
  {
    var ks := AscendingKeys(m.Keys);
    var l := Listing(m);
    ListingPriorities(m);
    assert ks[i] in ks;
    forall j | i < j < |l| ensures PriorityOf(l[j]) != PriorityOf(l[i]) {
      assert ks[i] < ks[j];
    }
    CollectLastWins(l, i);
  }

  // -----------------------------------------------------------------------
  // What the merger promises

  /**
   * Every output analysis comes from the input and has a priority; the
   * priorities ascend strictly, so there is at most one analysis for each;
   * and every priority found in the input is represented.
   */
  lemma {:induction false} MergeShape(left: seq<Value>, right: seq<Value>)
    ensures forall i :: 0 <= i < |Merge(left, right)| ==> Merge(left, right)[i] in left + right
    ensures forall i :: 0 <= i < |Merge(left, right)| ==> PriorityOf(Merge(left, right)[i]).Some?
    ensures forall i, j :: 0 <= i < j < |Merge(left, right)| ==>
              PriorityOf(Merge(left, right)[i]).value < PriorityOf(Merge(left, right)[j]).value
    ensures forall v :: v in left + right && PriorityOf(v).Some? ==>
              exists i :: 0 <= i < |Merge(left, right)| && PriorityOf(Merge(left, right)[i]) == PriorityOf(v)
  {
    var all := left + right;
    var m := Collect(all);
    var ks := AscendingKeys(m.Keys);
    var r := Merge(left, right);
    assert forall i :: 0 <= i < |r| ==> PriorityOf(r[i]) == Some(ks[i]);
    CollectFromInput(all);
    forall i | 0 <= i < |r| ensures r[i] in all {
      assert ks[i] in ks;
    }
    forall v | v in all && PriorityOf(v).Some?
      ensures exists i :: 0 <= i < |r| && PriorityOf(r[i]) == PriorityOf(v)
    {
      var n :| 0 <= n < |all| && all[n] == v;
      var p := PriorityOf(v).value;
      CollectHasKey(all, n);
      var i :| 0 <= i < |ks| && ks[i] == p;
      assert PriorityOf(r[i]) == Some(p);
    }
  }

  /**
   * For a priority that `right` carries, the output holds the last analysis
   * of `right` with that priority: new analyses override existing ones.
   */
  lemma {:induction false} RightOverrides(left: seq<Value>, right: seq<Value>, j: nat)
    requires j < |right| && PriorityOf(right[j]).Some?
    requires forall k :: j < k < |right| ==> PriorityOf(right[k]) != PriorityOf(right[j])
    ensures right[j] in Merge(left, right)
  {
    var all := left + right;
    var n := |left| + j;
    assert all[n] == right[j];
    forall k | n < k < |all| ensures PriorityOf(all[k]) != PriorityOf(all[n]) {
      assert all[k] == right[k - |left|];
    }
    CollectLastWins(all, n);
    var m := Collect(all);
    var ks := AscendingKeys(m.Keys);
    var p := PriorityOf(right[j]).value;
    var i :| 0 <= i < |ks| && ks[i] == p;
    assert Merge(left, right)[i] == right[j];
  }

  /** Analyses without a priority (not a dict, task not a dict, no integer priority) are dropped. */
  lemma {:induction false} UnfiledDropped(left: seq<Value>, right: seq<Value>, analysis: Value)
    requires PriorityOf(analysis).None?
    ensures Merge(left, right + [analysis]) == Merge(left, right)
  {
    assert left + (right + [analysis]) == (left + right) + [analysis];
    CollectSkipsUnfiled(left + right, analysis);
  }

  /** Merging the same new analyses again changes nothing. */
  lemma {:induction false} MergeIdempotent(left: seq<Value>, right: seq<Value>)
    ensures Merge(Merge(left, right), right) == Merge(left, right)
  {
    var once := Merge(left, right);
    CollectAppend(once, right);
    ListingRoundTrip(Collect(left + right));
    CollectAppend(left, right);
    UnionTwice(Collect(left), Collect(right));
  }
}
