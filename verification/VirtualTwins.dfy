/** Catalogue plans grouped by machine and hourly rate: of each group the cheapest stays, and whatever
    is sold in a region it is not. */
module VirtualTwins {
  import opened Optional
  import opened Strings

  /** Rates that could not be read as numbers are `None`. */
  datatype Price = Price(location: string, hourly: Option<real>, monthly: Option<real>)

  datatype Size = Size(
    sku: string, cores: nat, memory: nat, disk: nat, cpuType: Option<string>, architecture: Option<string>,
    bareMetal: bool, prices: seq<Price>)

  /** The lowest rate above zero, if there is any. */
  function Cheapest(rates: seq<Option<real>>): Option<real> {
    if rates == [] then None
    else
      var earlier, last := Cheapest(rates[..|rates| - 1]), rates[|rates| - 1];
      if last.None? || last.value <= 0.0 then earlier
      else if earlier.None? || last.value < earlier.value then last
      else earlier
  }

  function Hourly(s: Size): Option<real> {
    Cheapest(seq(|s.prices|, i requires 0 <= i < |s.prices| => s.prices[i].hourly))
  }

  function Monthly(s: Size): Option<real> {
    Cheapest(seq(|s.prices|, i requires 0 <= i < |s.prices| => s.prices[i].monthly))
  }

  /** No rate at all is the dearest of all. */
  predicate NoMore(x: Option<real>, y: Option<real>) {
    match (x, y)
    case (_, None) => true
    case (None, Some(_)) => false
    case (Some(a), Some(b)) => a <= b
  }

  predicate NoDearer(a: Size, b: Size) { NoMore(Monthly(a), Monthly(b)) }

  function Regions(s: Size): set<string> {
    set p | p in s.prices :: Lower(p.location)
  }

  predicate Covers(a: Size, b: Size) { Regions(b) <= Regions(a) }

  /** The shape of the machine and its hourly rate to four decimals, halves rounded up. */
  datatype Key = Key(cores: nat, memory: nat, disk: nat, cpuType: Option<string>, architecture: Option<string>, hourly: Option<int>)

  function KeyOf(s: Size): Key {
    Key(s.cores, s.memory, s.disk, s.cpuType, s.architecture,
        match Hourly(s) case None => None case Some(h) => Some((h * 10000.0 + 0.5).Floor))
  }

  /******* Groups *******/

  function Metal(sizes: seq<Size>): seq<Size> {
    if sizes == [] then []
    else
      var last := sizes[|sizes| - 1];
      Metal(sizes[..|sizes| - 1]) + if last.bareMetal then [last] else []
  }

  function Group(sizes: seq<Size>, k: Key): seq<Size> {
    if sizes == [] then []
    else
      var last := sizes[|sizes| - 1];
      Group(sizes[..|sizes| - 1], k) + if !last.bareMetal && KeyOf(last) == k then [last] else []
  }

  /** The keys of the virtual machines, in the order they first appear. */
  function Keys(sizes: seq<Size>): seq<Key> {
    if sizes == [] then []
    else
      var earlier, last := Keys(sizes[..|sizes| - 1]), sizes[|sizes| - 1];
      if last.bareMetal || KeyOf(last) in earlier then earlier else earlier + [KeyOf(last)]
  }

  /** Puts a plan behind all that are no dearer: a stable sort, one insertion at a time. */
  function Insert(sorted: seq<Size>, s: Size): seq<Size> {
    if sorted == [] then [s]
    else if NoDearer(sorted[|sorted| - 1], s) then sorted + [s]
    else Insert(sorted[..|sorted| - 1], s) + [sorted[|sorted| - 1]]
  }

  function Sort(group: seq<Size>): seq<Size> {
    if group == [] then [] else Insert(Sort(group[..|group| - 1]), group[|group| - 1])
  }

  function Uncovered(best: Size, twins: seq<Size>): seq<Size> {
    if twins == [] then []
    else
      var last := twins[|twins| - 1];
      Uncovered(best, twins[..|twins| - 1]) + if Covers(best, last) then [] else [last]
  }

  /** The cheapest of a group, and the twins with a region it does not serve. */
  function Keep(group: seq<Size>): seq<Size> {
    var sorted := Sort(group);
    if |group| <= 1 || sorted == [] then group else [sorted[0]] + Uncovered(sorted[0], sorted[1..])
  }

  function Blocks(sizes: seq<Size>, keys: seq<Key>): seq<Size> {
    if keys == [] then [] else Blocks(sizes, keys[..|keys| - 1]) + Keep(Group(sizes, keys[|keys| - 1]))
  }

  function Dedupe(sizes: seq<Size>): seq<Size> {
    Metal(sizes) + Blocks(sizes, Keys(sizes))
  }

  lemma {:induction false} KeysAre(sizes: seq<Size>)
    ensures forall k :: k in Keys(sizes) <==> exists s :: s in sizes && !s.bareMetal && KeyOf(s) == k
    ensures forall i, j :: 0 <= i < j < |Keys(sizes)| ==> Keys(sizes)[i] != Keys(sizes)[j]
  {
    if sizes != [] {
      var n := |sizes| - 1;
      KeysAre(sizes[..n]);
      assert sizes == sizes[..n] + [sizes[n]];
      forall k ensures k in Keys(sizes) <==> exists s :: s in sizes && !s.bareMetal && KeyOf(s) == k {
        if s :| s in sizes[..n] && !s.bareMetal && KeyOf(s) == k { assert s in sizes; }
      }
    }
  }

  lemma {:induction false} GroupIs(sizes: seq<Size>, k: Key)
    ensures forall s :: s in Group(sizes, k) <==> s in sizes && !s.bareMetal && KeyOf(s) == k
  {
    if sizes != [] {
      var n := |sizes| - 1;
      GroupIs(sizes[..n], k);
      assert sizes == sizes[..n] + [sizes[n]];
    }
  }

  lemma {:induction false} GroupEmpty(sizes: seq<Size>, k: Key)
    requires k !in Keys(sizes)
    ensures Group(sizes, k) == []
  {
    GroupIs(sizes, k);
    KeysAre(sizes);
    if Group(sizes, k) != [] { assert Group(sizes, k)[0] in Group(sizes, k); }
  }

  /** The groups of the plans seen so far, under their keys. */
  ghost predicate Grouping(sizes: seq<Size>, keys: seq<Key>, groups: map<Key, seq<Size>>) {
    keys == Keys(sizes) && (forall k :: k in groups <==> k in keys) && forall k :: k in groups ==> groups[k] == Group(sizes, k)
  }

  lemma OneMoreGroup(sizes: seq<Size>, s: Size, k: Key)
    ensures Group(sizes + [s], k) == Group(sizes, k) + if !s.bareMetal && KeyOf(s) == k then [s] else []
  {
    assert (sizes + [s])[..|sizes|] == sizes;
  }

  lemma OneMoreKey(sizes: seq<Size>, s: Size)
    ensures Keys(sizes + [s]) == if s.bareMetal || KeyOf(s) in Keys(sizes) then Keys(sizes) else Keys(sizes) + [KeyOf(s)]
    ensures Metal(sizes + [s]) == Metal(sizes) + if s.bareMetal then [s] else []
  {
    assert (sizes + [s])[..|sizes|] == sizes;
  }

  lemma GroupingMetal(sizes: seq<Size>, s: Size, keys: seq<Key>, groups: map<Key, seq<Size>>)
    requires Grouping(sizes, keys, groups) && s.bareMetal
    ensures Grouping(sizes + [s], keys, groups)
  {
    OneMoreKey(sizes, s);
    forall k | k in groups ensures groups[k] == Group(sizes + [s], k) { OneMoreGroup(sizes, s, k); }
  }

  lemma GroupingKnown(sizes: seq<Size>, s: Size, keys: seq<Key>, groups: map<Key, seq<Size>>, more: map<Key, seq<Size>>)
    requires Grouping(sizes, keys, groups) && !s.bareMetal && KeyOf(s) in groups
    requires more == groups[KeyOf(s) := groups[KeyOf(s)] + [s]]
    ensures Grouping(sizes + [s], keys, more)
  {
    OneMoreKey(sizes, s);
    forall k | k in more ensures more[k] == Group(sizes + [s], k) { OneMoreGroup(sizes, s, k); }
  }

  lemma GroupingNew(sizes: seq<Size>, s: Size, keys: seq<Key>, groups: map<Key, seq<Size>>, more: map<Key, seq<Size>>)
    requires Grouping(sizes, keys, groups) && !s.bareMetal && KeyOf(s) !in groups
    requires more == groups[KeyOf(s) := [s]]
    ensures Grouping(sizes + [s], keys + [KeyOf(s)], more)
  {
    OneMoreKey(sizes, s);
    FirstOfGroup(sizes, s);
    forall k | k in more ensures more[k] == Group(sizes + [s], k) { OneMoreGroup(sizes, s, k); }
  }

  lemma FirstOfGroup(sizes: seq<Size>, s: Size)
    requires !s.bareMetal && KeyOf(s) !in Keys(sizes)
    ensures Group(sizes + [s], KeyOf(s)) == [s]
  {
    GroupEmpty(sizes, KeyOf(s));
    OneMoreGroup(sizes, s, KeyOf(s));
  }

  method GroupTwins(sizes: seq<Size>) returns (metal: seq<Size>, keys: seq<Key>, groups: map<Key, seq<Size>>)
    ensures metal == Metal(sizes) && keys == Keys(sizes)
    ensures forall k :: k in groups <==> k in keys
    ensures forall k :: k in groups ==> groups[k] == Group(sizes, k)
  {
    metal, keys, groups := [], [], map[];
    var i := 0;
    while i < |sizes|
      invariant 0 <= i <= |sizes| && metal == Metal(sizes[..i]) && Grouping(sizes[..i], keys, groups)
    {
      var s := sizes[i];
      assert sizes[..i + 1] == sizes[..i] + [s];
      OneMoreKey(sizes[..i], s);
      if s.bareMetal {
        GroupingMetal(sizes[..i], s, keys, groups);
        metal := metal + [s];
      } else {
        var k := KeyOf(s);
        if k !in groups {
          GroupingNew(sizes[..i], s, keys, groups, groups[k := [s]]);
          keys, groups := keys + [k], groups[k := [s]];
        } else {
          GroupingKnown(sizes[..i], s, keys, groups, groups[k := groups[k] + [s]]);
          groups := groups[k := groups[k] + [s]];
        }
      }
      i := i + 1;
    }
    assert sizes[..|sizes|] == sizes;
  }

  lemma {:induction false} OneMoreTwin(best: Size, sorted: seq<Size>, j: nat)
    requires 1 <= j < |sorted|
    ensures Uncovered(best, sorted[1..j + 1]) == Uncovered(best, sorted[1..j]) + if Covers(best, sorted[j]) then [] else [sorted[j]]
  {
    assert sorted[1..j + 1][..j - 1] == sorted[1..j];
  }

  method UncoveredTwins(sorted: seq<Size>) returns (twins: seq<Size>)
    requires sorted != []
    ensures twins == Uncovered(sorted[0], sorted[1..])
  {
    twins := [];
    var j := 1;
    while j < |sorted|
      invariant 1 <= j <= |sorted| && twins == Uncovered(sorted[0], sorted[1..j])
    {
      OneMoreTwin(sorted[0], sorted, j);
      if !Covers(sorted[0], sorted[j]) { twins := twins + [sorted[j]]; }
      j := j + 1;
    }
    assert sorted[1..|sorted|] == sorted[1..];
  }

  method KeepBest(group: seq<Size>) returns (kept: seq<Size>)
    requires |group| > 1
    ensures kept == Keep(group)
  {
    var sorted := Sort(group);
    SortIs(group);
    var twins := UncoveredTwins(sorted);
    kept := [sorted[0]] + twins;
  }

  lemma NextKey(sizes: seq<Size>, keys: seq<Key>, i: nat)
    requires i < |keys|
    ensures Blocks(sizes, keys[..i + 1]) == Blocks(sizes, keys[..i]) + Keep(Group(sizes, keys[i]))
    ensures |Group(sizes, keys[i])| <= 1 ==> Keep(Group(sizes, keys[i])) == Group(sizes, keys[i])
  {
    assert keys[..i + 1][..i] == keys[..i];
  }

  method DedupeVirtualTwins(sizes: seq<Size>) returns (kept: seq<Size>)
    ensures kept == Dedupe(sizes)
  {
    var metal, keys, groups := GroupTwins(sizes);
    var chosen := [];
    var i := 0;
    while i < |keys|
      invariant 0 <= i <= |keys| && chosen == Blocks(sizes, keys[..i])
    {
      NextKey(sizes, keys, i);
      assert keys[i] in groups;
      var group := groups[keys[i]];
      if |group| > 1 { group := KeepBest(group); }
      chosen := chosen + group;
      i := i + 1;
    }
    assert keys[..|keys|] == keys;
    kept := metal + chosen;
  }

  /******* Within one group *******/

  predicate Sorted(sizes: seq<Size>) {
    forall i, j :: 0 <= i < j < |sizes| ==> NoDearer(sizes[i], sizes[j])
  }

  lemma {:induction false} InsertKeeps(sorted: seq<Size>, s: Size)
    ensures multiset(Insert(sorted, s)) == multiset(sorted) + multiset{s} && |Insert(sorted, s)| == |sorted| + 1
    ensures forall x :: x in Insert(sorted, s) <==> x in sorted || x == s
  {
    if sorted != [] {
      var n := |sorted| - 1;
      assert sorted == sorted[..n] + [sorted[n]];
      if !NoDearer(sorted[n], s) { InsertKeeps(sorted[..n], s); }
    }
  }

  predicate NoneDearer(sizes: seq<Size>, s: Size) {
    forall x :: x in sizes ==> NoDearer(x, s)
  }

  lemma {:induction false} SortedSnoc(sizes: seq<Size>, s: Size)
    requires Sorted(sizes) && NoneDearer(sizes, s)
    ensures Sorted(sizes + [s])
  {
    forall i | 0 <= i < |sizes| ensures NoDearer(sizes[i], s) { assert sizes[i] in sizes; }
  }

  lemma {:induction false} InsertSorted(sorted: seq<Size>, s: Size)
    requires Sorted(sorted)
    ensures Sorted(Insert(sorted, s))
  {
    if sorted != [] {
      var n := |sorted| - 1;
      forall x | x in sorted[..n] ensures NoDearer(x, sorted[n]) { BeforeIsNoDearer(sorted, x); }
      if NoDearer(sorted[n], s) {
        assert NoneDearer(sorted, s) by { assert sorted == sorted[..n] + [sorted[n]]; }
        SortedSnoc(sorted, s);
      } else {
        InsertSorted(sorted[..n], s);
        InsertKeeps(sorted[..n], s);
        SortedSnoc(Insert(sorted[..n], s), sorted[n]);
      }
    }
  }

  predicate SortOf(sorted: seq<Size>, group: seq<Size>) {
    Sorted(sorted) && multiset(sorted) == multiset(group) && |sorted| == |group|
  }

  lemma InsertIs(sorted: seq<Size>, group: seq<Size>, s: Size)
    requires SortOf(sorted, group)
    ensures SortOf(Insert(sorted, s), group + [s])
  {
    InsertSorted(sorted, s);
    InsertKeeps(sorted, s);
  }

  lemma SortNext(group: seq<Size>, s: Size)
    ensures Sort(group + [s]) == Insert(Sort(group), s)
  {
    assert (group + [s])[..|group|] == group;
  }

  lemma {:induction false} SortIs(group: seq<Size>)
    ensures Sorted(Sort(group)) && multiset(Sort(group)) == multiset(group) && |Sort(group)| == |group|
  {
    if group != [] {
      var earlier, last := group[..|group| - 1], group[|group| - 1];
      assert group == earlier + [last];
      SortIs(earlier);
      InsertIs(Sort(earlier), earlier, last);
      SortNext(earlier, last);
    }
  }

  /** A stable sort leaves what is in order as it is. */
  lemma {:induction false} SortedStays(group: seq<Size>)
    requires Sorted(group)
    ensures Sort(group) == group
  {
    if group != [] {
      var n := |group| - 1;
      SortedStays(group[..n]);
      assert group == group[..n] + [group[n]];
      if n > 0 { assert NoDearer(group[n - 1], group[n]); }
    }
  }

  lemma {:induction false} UncoveredIs(best: Size, twins: seq<Size>)
    ensures forall s :: s in Uncovered(best, twins) <==> s in twins && !Covers(best, s)
  {
    if twins != [] {
      var n := |twins| - 1;
      UncoveredIs(best, twins[..n]);
      assert twins == twins[..n] + [twins[n]];
    }
  }

  lemma {:induction false} UncoveredStays(best: Size, twins: seq<Size>)
    requires forall s :: s in twins ==> !Covers(best, s)
    ensures Uncovered(best, twins) == twins
  {
    if twins != [] {
      var n := |twins| - 1;
      assert twins == twins[..n] + [twins[n]] && twins[n] in twins;
      UncoveredStays(best, twins[..n]);
    }
  }

  lemma {:induction false} UncoveredSorted(best: Size, twins: seq<Size>)
    requires Sorted(twins)
    ensures Sorted(Uncovered(best, twins))
  {
    if twins != [] {
      var n := |twins| - 1;
      UncoveredSorted(best, twins[..n]);
      UncoveredIs(best, twins[..n]);
      forall s | s in Uncovered(best, twins[..n]) ensures NoDearer(s, twins[n]) { BeforeIsNoDearer(twins, s); }
    }
  }

  lemma {:induction false} BeforeIsNoDearer(sizes: seq<Size>, s: Size)
    requires Sorted(sizes) && sizes != [] && s in sizes[..|sizes| - 1]
    ensures NoDearer(s, sizes[|sizes| - 1])
  {
    var i :| 0 <= i < |sizes| - 1 && sizes[i] == s;
  }

  lemma {:induction false} FirstIsBest(sizes: seq<Size>, s: Size)
    requires Sorted(sizes) && sizes != [] && s in sizes[1..]
    ensures NoDearer(sizes[0], s)
  {
    var i :| 0 <= i < |sizes[1..]| && sizes[1..][i] == s;
    assert sizes[i + 1] == s;
  }

  lemma {:induction false} SortedTail(sizes: seq<Size>)
    requires Sorted(sizes) && sizes != []
    ensures Sorted(sizes[1..])
  {
    forall i, j | 0 <= i < j < |sizes[1..]| ensures NoDearer(sizes[1..][i], sizes[1..][j]) { assert NoDearer(sizes[i + 1], sizes[j + 1]); }
  }

  lemma {:induction false} SortKeepsMembers(group: seq<Size>, s: Size)
    ensures s in group <==> s in Sort(group)
  {
    SortIs(group);
    assert s in group <==> s in multiset(group);
    assert s in Sort(group) <==> s in multiset(Sort(group));
  }

  /** Of a group: something stays; what stays was in it; what goes has a twin that stays, serves all
      its regions and is no dearer. */
  lemma {:induction false} KeepIs(group: seq<Size>)
    requires group != []
    ensures Keep(group) != [] && forall s :: s in Keep(group) ==> s in group
    ensures forall s :: s in group && s !in Keep(group) ==> Covers(Keep(group)[0], s) && NoDearer(Keep(group)[0], s)
  {
    if |group| > 1 {
      SortIs(group);
      forall s ensures s in group <==> s in Sort(group) { SortKeepsMembers(group, s); }
      BestAndUncovered(Sort(group));
    }
  }

  lemma BestAndUncovered(sorted: seq<Size>)
    requires Sorted(sorted) && sorted != []
    ensures var kept := [sorted[0]] + Uncovered(sorted[0], sorted[1..]);
            && (forall s :: s in kept ==> s in sorted)
            && (forall s :: s in sorted && s !in kept ==> Covers(sorted[0], s) && NoDearer(sorted[0], s))
  {
    UncoveredIs(sorted[0], sorted[1..]);
    assert sorted == [sorted[0]] + sorted[1..];
    forall s | s in sorted[1..] ensures NoDearer(sorted[0], s) { FirstIsBest(sorted, s); }
  }

  lemma {:induction false} KeepAgain(group: seq<Size>)
    requires group != []
    ensures Keep(Keep(group)) == Keep(group)
  {
    if |group| > 1 {
      SortIs(group);
      var sorted := Sort(group);
      var best, twins := sorted[0], Uncovered(sorted[0], sorted[1..]);
      UncoveredIs(best, sorted[1..]);
      UncoveredStays(best, twins);
      SortedTail(sorted);
      UncoveredSorted(best, sorted[1..]);
      forall t | t in twins ensures NoDearer(best, t) { FirstIsBest(sorted, t); }
      SortedCons(best, twins);
      KeepSorted(best, twins);
    }
  }

  lemma SortedCons(best: Size, twins: seq<Size>)
    requires Sorted(twins) && forall t :: t in twins ==> NoDearer(best, t)
    ensures Sorted([best] + twins)
  {
  }

  lemma KeepSorted(best: Size, twins: seq<Size>)
    requires Sorted([best] + twins)
    ensures Keep([best] + twins) == [best] + Uncovered(best, twins)
  {
    var group := [best] + twins;
    SortedStays(group);
    assert group[1..] == twins;
  }

  /******* The whole list *******/

  lemma {:induction false} BlocksHave(sizes: seq<Size>, keys: seq<Key>, k: Key)
    requires k in keys
    ensures forall s :: s in Keep(Group(sizes, k)) ==> s in Blocks(sizes, keys)
  {
    var n := |keys| - 1;
    if keys[n] != k { BlocksHave(sizes, keys[..n], k); }
  }

  lemma {:induction false} BlocksFrom(sizes: seq<Size>, keys: seq<Key>)
    requires forall k :: k in keys ==> Group(sizes, k) != []
    ensures forall s :: s in Blocks(sizes, keys) ==> s in sizes && !s.bareMetal && KeyOf(s) in keys
  {
    if keys != [] {
      var n := |keys| - 1;
      BlocksFrom(sizes, keys[..n]);
      GroupIs(sizes, keys[n]);
      KeepIs(Group(sizes, keys[n]));
    }
  }

  lemma {:induction false} GroupsNonempty(sizes: seq<Size>)
    ensures forall k :: k in Keys(sizes) ==> Group(sizes, k) != []
  {
    KeysAre(sizes);
    forall k | k in Keys(sizes) ensures Group(sizes, k) != [] {
      GroupIs(sizes, k);
      var s :| s in sizes && !s.bareMetal && KeyOf(s) == k;
      assert s in Group(sizes, k);
    }
  }

  lemma {:induction false} MetalIs(sizes: seq<Size>)
    ensures forall s :: s in Metal(sizes) <==> s in sizes && s.bareMetal
  {
    if sizes != [] {
      var n := |sizes| - 1;
      MetalIs(sizes[..n]);
      assert sizes == sizes[..n] + [sizes[n]];
    }
  }

  /** Nothing is invented, and every dropped plan has a kept twin of the same machine and hourly rate
      that serves all its regions and is no dearer by the month. */
  lemma {:induction false} DroppedHasTwin(sizes: seq<Size>, s: Size)
    ensures s in Dedupe(sizes) ==> s in sizes
    ensures s in sizes && s !in Dedupe(sizes) ==>
      !s.bareMetal && exists t :: t in Dedupe(sizes) && IsTwin(t, s) && Covers(t, s) && NoDearer(t, s)
  {
    KeysAre(sizes);
    GroupsNonempty(sizes);
    BlocksFrom(sizes, Keys(sizes));
    MetalIs(sizes);
    if s in sizes && s !in Dedupe(sizes) {
      var k := KeyOf(s);
      GroupIs(sizes, k);
      BlocksHave(sizes, Keys(sizes), k);
      KeepIs(Group(sizes, k));
      var t := Keep(Group(sizes, k))[0];
      assert t in Dedupe(sizes) && IsTwin(t, s);
    }
  }

  predicate IsTwin(a: Size, b: Size) {
    !a.bareMetal && !b.bareMetal && KeyOf(a) == KeyOf(b)
  }

  /** Every region offered for a machine and rate is still offered for it. */
  lemma {:induction false} RegionsStay(sizes: seq<Size>, s: Size, region: string)
    requires s in sizes && region in Regions(s)
    ensures exists t :: t in Dedupe(sizes) && (t == s || IsTwin(t, s)) && region in Regions(t)
  {
    DroppedHasTwin(sizes, s);
  }

  /******* Region by region *******/

  /** The lowest monthly rate of the plan in one region. */
  function MonthlyIn(s: Size, region: string): Option<real> {
    Cheapest(seq(|s.prices|, i requires 0 <= i < |s.prices| => if Lower(s.prices[i].location) == region then s.prices[i].monthly else None))
  }

  lemma {:induction false} CheapestIs(rates: seq<Option<real>>)
    ensures forall r :: r in rates && r.Some? && r.value > 0.0 ==> NoMore(Cheapest(rates), r)
    ensures Cheapest(rates).Some? ==> Cheapest(rates) in rates && Cheapest(rates).value > 0.0
  {
    if rates != [] {
      CheapestIs(rates[..|rates| - 1]);
      assert rates == rates[..|rates| - 1] + [rates[|rates| - 1]];
    }
  }

  /** In no region is a plan cheaper than by its cheapest rate. */
  lemma CheapestAnywhere(s: Size, region: string)
    ensures NoMore(Monthly(s), MonthlyIn(s, region))
  {
    var all := seq(|s.prices|, i requires 0 <= i < |s.prices| => s.prices[i].monthly);
    var here := seq(|s.prices|, i requires 0 <= i < |s.prices| => if Lower(s.prices[i].location) == region then s.prices[i].monthly else None);
    CheapestIs(all);
    CheapestIs(here);
    if Cheapest(here).Some? {
      var i :| 0 <= i < |here| && here[i] == Cheapest(here);
      assert all[i] == here[i] && all[i] in all;
    }
  }

  /** The plan is sold at its cheapest rate in each of its regions. */
  predicate OneRate(s: Size) {
    forall region :: region in Regions(s) ==> MonthlyIn(s, region) == Monthly(s)
  }

  /** Where every kept plan has one rate, a dropped plan has a kept twin that is no dearer in any of its
      regions. */
  lemma {:induction false} NoDearerAnywhere(sizes: seq<Size>, s: Size)
    requires s in sizes && s !in Dedupe(sizes)
    requires forall t :: t in Dedupe(sizes) && IsTwin(t, s) ==> OneRate(t)
    ensures exists t :: t in Dedupe(sizes) && IsTwin(t, s) && Covers(t, s)
                        && forall region :: region in Regions(s) ==> NoMore(MonthlyIn(t, region), MonthlyIn(s, region))
  {
    DroppedHasTwin(sizes, s);
    var t :| t in Dedupe(sizes) && IsTwin(t, s) && Covers(t, s) && NoDearer(t, s);
    forall region | region in Regions(s) ensures NoMore(MonthlyIn(t, region), MonthlyIn(s, region)) {
      CheapestAnywhere(s, region);
    }
  }

  lemma PairOf(t: Size, s: Size)
    requires !t.bareMetal
    ensures Metal([t, s]) == (if s.bareMetal then [s] else [])
    ensures Keys([t, s]) == (if s.bareMetal || KeyOf(s) == KeyOf(t) then [KeyOf(t)] else [KeyOf(t), KeyOf(s)])
    ensures Group([t, s], KeyOf(t)) == (if !s.bareMetal && KeyOf(s) == KeyOf(t) then [t, s] else [t])
  {
    var pair := [t, s];
    assert pair[..1] == [t] && [t][..0] == [];
    assert Metal([t]) == [] && Keys([t]) == [KeyOf(t)] && Group([t], KeyOf(t)) == [t];
  }

  lemma PairKept(t: Size, s: Size)
    ensures Keep([t, s]) ==
      if NoDearer(t, s) then (if Covers(t, s) then [t] else [t, s]) else (if Covers(s, t) then [s] else [s, t])
  {
    var pair := [t, s];
    assert pair[..1] == [t] && [t][..0] == [];
    assert Sort([t]) == [t];
    assert Sort(pair) == Insert([t], s);
    assert [t][..0] == [] && Insert([], s) == [s];
    var sorted := Sort(pair);
    assert sorted == if NoDearer(t, s) then [t, s] else [s, t];
    assert sorted[1..] == [sorted[1]];
    OneTwin(sorted[0], sorted[1]);
  }

  lemma OneTwin(best: Size, twin: Size)
    ensures Uncovered(best, [twin]) == if Covers(best, twin) then [] else [twin]
  {
    assert [twin][..0] == [] && Uncovered(best, []) == [];
  }

  /** Of two plans the second goes exactly when it is a twin that the first covers and does not exceed. */
  lemma PairDropped(t: Size, s: Size)
    requires !t.bareMetal && s != t
    ensures Dedupe([t, s]) == [t] <==> IsTwin(t, s) && Covers(t, s) && NoDearer(t, s)
  {
    var pair, keys := [t, s], Keys([t, s]);
    PairOf(t, s);
    if s.bareMetal {
      assert Dedupe(pair)[0] == s;
    } else if KeyOf(s) == KeyOf(t) {
      assert keys[..0] == [];
      assert Blocks(pair, keys) == [] + Keep(Group(pair, keys[0]));
      PairKept(t, s);
    } else {
      DroppedHasTwin(pair, s);
    }
  }

  /** A plan that is `t` in all but its name and its prices: one price, in one region. */
  function Promo(t: Size, location: string): Size {
    t.(sku := t.sku + "+", prices := [Price(location, Hourly(t), Monthly(t))])
  }

  lemma One(rate: Option<real>)
    requires rate.Some? ==> rate.value > 0.0
    ensures Cheapest([rate]) == rate
  {
    assert [rate][..0] == [] && Cheapest([]) == None;
  }

  lemma PromoIs(t: Size, location: string)
    requires Lower(location) in Regions(t) && !t.bareMetal
    ensures var s := Promo(t, location);
            && s != t && IsTwin(t, s) && Covers(t, s) && NoDearer(t, s)
            && Lower(location) in Regions(s) && MonthlyIn(s, Lower(location)) == Monthly(t)
  {
    var s := Promo(t, location);
    CheapestIs(seq(|t.prices|, i requires 0 <= i < |t.prices| => t.prices[i].hourly));
    CheapestIs(seq(|t.prices|, i requires 0 <= i < |t.prices| => t.prices[i].monthly));
    One(Hourly(t));
    One(Monthly(t));
    assert seq(1, i requires 0 <= i < 1 => s.prices[i].hourly) == [Hourly(t)];
    assert seq(1, i requires 0 <= i < 1 => s.prices[i].monthly) == [Monthly(t)];
    assert seq(1, i requires 0 <= i < 1 => if Lower(s.prices[i].location) == Lower(location) then s.prices[i].monthly else None) == [Monthly(t)];
    assert s.prices[0] in s.prices;
    assert |s.sku| == |t.sku| + 1;
    assert forall r :: r in Regions(s) ==> r == Lower(location);
  }

  /** In a region a plan is no dearer than whatever may be dropped for it if and only if its rate there
      is its cheapest: by the cheapest rates alone a plan can go that was cheaper somewhere. */
  lemma NoDearerThereIff(t: Size, region: string)
    requires !t.bareMetal && region in Regions(t)
    ensures (forall s :: s != t && region in Regions(s) && Dedupe([t, s]) == [t] ==> NoMore(MonthlyIn(t, region), MonthlyIn(s, region)))
            <==> MonthlyIn(t, region) == Monthly(t)
  {
    if MonthlyIn(t, region) == Monthly(t) {
      forall s | s != t && region in Regions(s) && Dedupe([t, s]) == [t] ensures NoMore(MonthlyIn(t, region), MonthlyIn(s, region)) {
        NoDearerThere(t, s, region);
      }
    } else {
      var s := CheaperThere(t, region);
    }
  }

  lemma NoDearerThere(t: Size, s: Size, region: string)
    requires !t.bareMetal && s != t && Dedupe([t, s]) == [t] && MonthlyIn(t, region) == Monthly(t)
    ensures NoMore(MonthlyIn(t, region), MonthlyIn(s, region))
  {
    PairDropped(t, s);
    CheapestAnywhere(s, region);
  }

  lemma LessIsNotMore(x: Option<real>, y: Option<real>)
    requires NoMore(x, y) && x != y
    ensures !NoMore(y, x)
  {
  }

  lemma CheaperAt(t: Size, location: string)
    requires !t.bareMetal && Lower(location) in Regions(t) && MonthlyIn(t, Lower(location)) != Monthly(t)
    ensures var s, region := Promo(t, location), Lower(location);
            s != t && region in Regions(s) && Dedupe([t, s]) == [t] && !NoMore(MonthlyIn(t, region), MonthlyIn(s, region))
  {
    PromoIs(t, location);
    PairDropped(t, Promo(t, location));
    CheapestAnywhere(t, Lower(location));
    LessIsNotMore(Monthly(t), MonthlyIn(t, Lower(location)));
  }

  lemma CheaperThere(t: Size, region: string) returns (s: Size)
    requires !t.bareMetal && region in Regions(t) && MonthlyIn(t, region) != Monthly(t)
    ensures s != t && region in Regions(s) && Dedupe([t, s]) == [t] && !NoMore(MonthlyIn(t, region), MonthlyIn(s, region))
  {
    var price :| price in t.prices && Lower(price.location) == region;
    s := Promo(t, price.location);
    CheaperAt(t, price.location);
  }

  lemma {:induction false} MetalSplit(a: seq<Size>, b: seq<Size>)
    ensures Metal(a + b) == Metal(a) + Metal(b)
  {
    if b == [] {
      assert a + b == a;
    } else {
      var n := |b| - 1;
      assert (a + b)[..|a + b| - 1] == a + b[..n];
      MetalSplit(a, b[..n]);
    }
  }

  lemma {:induction false} GroupSplit(a: seq<Size>, b: seq<Size>, k: Key)
    ensures Group(a + b, k) == Group(a, k) + Group(b, k)
  {
    if b == [] {
      assert a + b == a;
    } else {
      var n := |b| - 1;
      assert (a + b)[..|a + b| - 1] == a + b[..n];
      GroupSplit(a, b[..n], k);
    }
  }

  lemma {:induction false} AllMetal(metal: seq<Size>)
    requires forall s :: s in metal ==> s.bareMetal
    ensures Metal(metal) == metal && Keys(metal) == [] && forall k :: Group(metal, k) == []
  {
    if metal != [] {
      var n := |metal| - 1;
      assert metal == metal[..n] + [metal[n]] && metal[n] in metal;
      AllMetal(metal[..n]);
    }
  }

  lemma {:induction false} OneBlock(block: seq<Size>, k: Key, other: Key)
    requires forall s :: s in block ==> !s.bareMetal && KeyOf(s) == k
    ensures Group(block, other) == if other == k then block else []
  {
    if block != [] {
      var n := |block| - 1;
      assert block == block[..n] + [block[n]] && block[n] in block;
      OneBlock(block[..n], k, other);
    }
  }

  lemma {:induction false} BlockAddsKey(before: seq<Size>, block: seq<Size>, k: Key)
    requires block != [] && k !in Keys(before) && forall s :: s in block ==> !s.bareMetal && KeyOf(s) == k
    ensures Keys(before + block) == Keys(before) + [k]
  {
    var n := |block| - 1;
    assert (before + block)[..|before + block| - 1] == before + block[..n];
    assert block[n] in block;
    if n == 0 {
      assert before + block[..n] == before;
    } else {
      BlockAddsKey(before, block[..n], k);
    }
  }

  predicate DistinctKeys(keys: seq<Key>) {
    forall i, j :: 0 <= i < j < |keys| ==> keys[i] != keys[j]
  }

  lemma {:induction false} KeptBlock(sizes: seq<Size>, k: Key)
    requires Group(sizes, k) != []
    ensures Keep(Group(sizes, k)) != [] && forall s :: s in Keep(Group(sizes, k)) ==> !s.bareMetal && KeyOf(s) == k
  {
    GroupIs(sizes, k);
    KeepIs(Group(sizes, k));
  }

  predicate Grouped(sizes: seq<Size>, keys: seq<Key>) {
    DistinctKeys(keys) && forall k :: k in keys ==> Group(sizes, k) != []
  }

  lemma {:induction false} FewerGrouped(sizes: seq<Size>, keys: seq<Key>, n: nat)
    requires Grouped(sizes, keys) && n == |keys| - 1
    ensures Grouped(sizes, keys[..n]) && keys[n] !in keys[..n] && Group(sizes, keys[n]) != []
    ensures forall k :: k in keys <==> k in keys[..n] || k == keys[n]
  {
    assert keys == keys[..n] + [keys[n]];
  }

  lemma {:induction false} LastBlock(metal: seq<Size>, sizes: seq<Size>, keys: seq<Key>, n: nat)
    requires n == |keys| - 1
    ensures metal + Blocks(sizes, keys) == (metal + Blocks(sizes, keys[..n])) + Keep(Group(sizes, keys[n]))
  {
  }

  lemma {:induction false} NextBlock(whole: seq<Size>, before: seq<Size>, block: seq<Size>, keys: seq<Key>, n: nat)
    requires n == |keys| - 1 && whole == before + block && Keys(before) == keys[..n] && keys[n] !in keys[..n]
    requires block != [] && forall s :: s in block ==> !s.bareMetal && KeyOf(s) == keys[n]
    ensures Keys(whole) == keys
  {
    BlockAddsKey(before, block, keys[n]);
    assert keys[..n] + [keys[n]] == keys;
  }

  /** Laid out block by block, the kept plans have the same keys in the same order. */
  lemma {:induction false} BlocksKeys(metal: seq<Size>, sizes: seq<Size>, keys: seq<Key>)
    requires (forall s :: s in metal ==> s.bareMetal) && Grouped(sizes, keys)
    ensures Keys(metal + Blocks(sizes, keys)) == keys
  {
    if keys == [] {
      AllMetal(metal);
      assert metal + [] == metal;
    } else {
      var n := |keys| - 1;
      FewerGrouped(sizes, keys, n);
      BlocksKeys(metal, sizes, keys[..n]);
      KeptBlock(sizes, keys[n]);
      LastBlock(metal, sizes, keys, n);
      NextBlock(metal + Blocks(sizes, keys), metal + Blocks(sizes, keys[..n]), Keep(Group(sizes, keys[n])), keys, n);
    }
  }

  lemma {:induction false} NoMetal(sizes: seq<Size>)
    requires forall s :: s in sizes ==> !s.bareMetal
    ensures Metal(sizes) == []
  {
    if sizes != [] {
      var n := |sizes| - 1;
      assert sizes == sizes[..n] + [sizes[n]] && sizes[n] in sizes;
      NoMetal(sizes[..n]);
    }
  }

  lemma {:induction false} BlocksMetal(metal: seq<Size>, sizes: seq<Size>, keys: seq<Key>)
    requires (forall s :: s in metal ==> s.bareMetal) && Grouped(sizes, keys)
    ensures Metal(metal + Blocks(sizes, keys)) == metal
  {
    BlocksFrom(sizes, keys);
    AllMetal(metal);
    NoMetal(Blocks(sizes, keys));
    MetalSplit(metal, Blocks(sizes, keys));
  }

  lemma {:induction false} BlocksGroup(metal: seq<Size>, sizes: seq<Size>, keys: seq<Key>, k: Key)
    requires (forall s :: s in metal ==> s.bareMetal) && Grouped(sizes, keys)
    ensures Group(metal + Blocks(sizes, keys), k) == if k in keys then Keep(Group(sizes, k)) else []
  {
    if keys == [] {
      AllMetal(metal);
      assert metal + [] == metal;
    } else {
      var n := |keys| - 1;
      FewerGrouped(sizes, keys, n);
      BlocksGroup(metal, sizes, keys[..n], k);
      KeptBlock(sizes, keys[n]);
      LastBlock(metal, sizes, keys, n);
      GroupSplit(metal + Blocks(sizes, keys[..n]), Keep(Group(sizes, keys[n])), k);
      OneBlock(Keep(Group(sizes, keys[n])), keys[n], k);
    }
  }

  lemma {:induction false} SameBlocks(sizes: seq<Size>, again: seq<Size>, keys: seq<Key>)
    requires forall k :: k in keys ==> Group(sizes, k) != [] && Group(again, k) == Keep(Group(sizes, k))
    ensures Blocks(again, keys) == Blocks(sizes, keys)
  {
    if keys != [] {
      var n := |keys| - 1;
      SameBlocks(sizes, again, keys[..n]);
      assert keys[n] in keys;
      KeepAgain(Group(sizes, keys[n]));
    }
  }

  /** Bare metal passes through untouched and in order, in front; and collapsing a second time
      changes nothing, not even the order. */
  lemma {:induction false} DedupeSettles(sizes: seq<Size>)
    ensures Metal(Dedupe(sizes)) == Metal(sizes) && Metal(sizes) <= Dedupe(sizes)
    ensures Dedupe(Dedupe(sizes)) == Dedupe(sizes)
  {
    var metal, keys, once := Metal(sizes), Keys(sizes), Dedupe(sizes);
    KeysAre(sizes);
    GroupsNonempty(sizes);
    MetalIs(sizes);
    BlocksKeys(metal, sizes, keys);
    BlocksMetal(metal, sizes, keys);
    forall k | k in keys ensures Group(once, k) == Keep(Group(sizes, k)) { BlocksGroup(metal, sizes, keys, k); }
    SameBlocks(sizes, once, keys);
  }
}
