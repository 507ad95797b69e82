/** Where the collation ties two keys of one object the value no longer determines the text: some
    value that means the same prints otherwise. */
module KeyTies {
  import opened CanonicalJson
  import opened JsonReading
  import opened CanonicalForm

  /** Whatever means the same prints the same. */
  ghost predicate PrintsOneWay(le: (Text, Text) -> bool, v: Json) {
    forall w :: WellFormed(w) && Meaning(w) == Meaning(v) ==> Print(le, w) == Print(le, v)
  }

  /******* One item or member exchanged for another *******/

  lemma NothingBefore(a: Text, after: Text)
    ensures a + after == [] + a + after
  {
  }

  lemma Surround(first: Text, rest: Text, before: Text, a: Text, after: Text)
    requires rest == [COMMA] + (before + a + after)
    ensures first + rest == (first + [COMMA] + before) + a + after
  {
  }

  /** What is printed after the first of `items`. */
  function RestItems(le: (Text, Text) -> bool, items: seq<Json>): Text
    requires items != []
  {
    if |items| == 1 then [] else [COMMA] + PrintItems(le, items[1..])
  }

  lemma FirstItem(le: (Text, Text) -> bool, items: seq<Json>)
    requires items != []
    ensures PrintItems(le, items) == Print(le, items[0]) + RestItems(le, items)
  {
    if |items| > 1 { Associate(Print(le, items[0]), [COMMA], PrintItems(le, items[1..])); }
  }

  lemma ItemsBehind(le: (Text, Text) -> bool, items: seq<Json>, b: Text, x: Text, a: Text)
    requires |items| > 1 && PrintItems(le, items[1..]) == b + x + a
    ensures PrintItems(le, items) == (Print(le, items[0]) + [COMMA] + b) + x + a
  {
    FirstItem(le, items);
    Surround(Print(le, items[0]), RestItems(le, items), b, x, a);
  }

  lemma {:induction false} ItemAround(le: (Text, Text) -> bool, items: seq<Json>, i: nat, x: Json) returns (before: Text, after: Text)
    requires i < |items|
    ensures PrintItems(le, items) == before + Print(le, items[i]) + after
    ensures PrintItems(le, items[i := x]) == before + Print(le, x) + after
  {
    var changed := items[i := x];
    if i == 0 {
      assert changed[1..] == items[1..];
      FirstItem(le, items);
      FirstItem(le, changed);
      before, after := [], RestItems(le, items);
      NothingBefore(Print(le, items[0]), after);
      NothingBefore(Print(le, x), after);
    } else {
      assert changed[1..] == items[1..][i - 1 := x];
      var b, a := ItemAround(le, items[1..], i - 1, x);
      ItemsBehind(le, items, b, Print(le, items[i]), a);
      ItemsBehind(le, changed, b, Print(le, x), a);
      before, after := Print(le, items[0]) + [COMMA] + b, a;
    }
  }

  /** What is printed after the first of `ms`. */
  function RestMembers(le: (Text, Text) -> bool, ms: seq<Member>): Text
    requires ms != []
  {
    if |ms| == 1 then [] else [COMMA] + PrintMembers(le, ms[1..])
  }

  lemma FirstMember(le: (Text, Text) -> bool, ms: seq<Member>)
    requires ms != []
    ensures PrintMembers(le, ms) == PrintMember(le, ms[0]) + RestMembers(le, ms)
  {
    if |ms| > 1 {
      PrintMembersNext(le, ms);
      Associate(PrintMember(le, ms[0]), [COMMA], PrintMembers(le, ms[1..]));
    }
  }

  lemma MembersBehind(le: (Text, Text) -> bool, ms: seq<Member>, b: Text, x: Text, a: Text)
    requires |ms| > 1 && PrintMembers(le, ms[1..]) == b + x + a
    ensures PrintMembers(le, ms) == (PrintMember(le, ms[0]) + [COMMA] + b) + x + a
  {
    FirstMember(le, ms);
    Surround(PrintMember(le, ms[0]), RestMembers(le, ms), b, x, a);
  }

  lemma {:induction false} MemberAround(le: (Text, Text) -> bool, ms: seq<Member>, i: nat, m: Member) returns (before: Text, after: Text)
    requires i < |ms|
    ensures PrintMembers(le, ms) == before + PrintMember(le, ms[i]) + after
    ensures PrintMembers(le, ms[i := m]) == before + PrintMember(le, m) + after
  {
    var changed := ms[i := m];
    if i == 0 {
      assert changed[1..] == ms[1..];
      FirstMember(le, ms);
      FirstMember(le, changed);
      before, after := [], RestMembers(le, ms);
      NothingBefore(PrintMember(le, ms[0]), after);
      NothingBefore(PrintMember(le, m), after);
    } else {
      assert changed[1..] == ms[1..][i - 1 := m];
      var b, a := MemberAround(le, ms[1..], i - 1, m);
      MembersBehind(le, ms, b, PrintMember(le, ms[i]), a);
      MembersBehind(le, changed, b, PrintMember(le, m), a);
      before, after := PrintMember(le, ms[0]) + [COMMA] + b, a;
    }
  }

  lemma CancelAround(before: Text, a: Text, b: Text, after: Text)
    requires before + a + after == before + b + after
    ensures a == b
  {
    var s := before + a + after;
    assert |a| == |b|;
    assert s[|before|..|before| + |a|] == a && s[|before|..|before| + |a|] == b;
  }

  lemma ItemReplaced(items: seq<Json>, i: nat, x: Json)
    requires i < |items| && Meaning(x) == Meaning(items[i])
    ensures ItemsMeaning(items[i := x]) == ItemsMeaning(items)
  {
    forall k | 0 <= k < |items| ensures ItemsMeaning(items[i := x])[k] == ItemsMeaning(items)[k] {
      ItemMeaning(items, k);
      ItemMeaning(items[i := x], k);
    }
  }

  lemma {:induction false} MemberReplaced(ms: seq<Member>, i: nat, x: Json)
    requires i < |ms| && !ms[i].value.Undefined? && !x.Undefined? && Meaning(x) == Meaning(ms[i].value)
    ensures MembersMeaning(ms[i := Member(ms[i].key, x)]) == MembersMeaning(ms)
  {
    var changed := ms[i := Member(ms[i].key, x)];
    if i == 0 {
      assert changed[1..] == ms[1..];
    } else {
      assert changed[1..] == ms[1..][i - 1 := Member(ms[i].key, x)];
      MemberReplaced(ms[1..], i - 1, x);
    }
  }

  /******* Members already in printing order *******/

  predicate AllDefined(ms: seq<Member>) {
    forall m :: m in ms ==> !m.value.Undefined?
  }

  lemma InsertFirst(le: (Text, Text) -> bool, ms: seq<Member>)
    requires ms != [] && Ascending(le, ms)
    ensures Insert(le, ms[0], ms[1..]) == ms
  {
    assert ms == [ms[0]] + ms[1..];
    if |ms| > 1 { assert le(ms[0].key, ms[1].key); }
  }

  lemma AscendingTail(le: (Text, Text) -> bool, ms: seq<Member>)
    requires ms != [] && Ascending(le, ms)
    ensures Ascending(le, ms[1..])
  {
    forall i, j | 0 <= i < j < |ms[1..]| ensures le(ms[1..][i].key, ms[1..][j].key) { assert le(ms[i + 1].key, ms[j + 1].key); }
  }

  lemma {:induction false} SortSorted(le: (Text, Text) -> bool, ms: seq<Member>)
    requires Ascending(le, ms)
    ensures Sort(le, ms) == ms
  {
    if ms != [] {
      AscendingTail(le, ms);
      SortSorted(le, ms[1..]);
      InsertFirst(le, ms);
    }
  }

  lemma {:induction false} DefinedAll(ms: seq<Member>)
    requires AllDefined(ms)
    ensures Defined(ms) == ms
  {
    if ms != [] {
      assert ms[0] in ms && forall m :: m in ms[1..] ==> m in ms;
      DefinedAll(ms[1..]);
      assert ms == [ms[0]] + ms[1..];
    }
  }

  lemma PrintSorted(le: (Text, Text) -> bool, ms: seq<Member>)
    requires Ascending(le, ms) && AllDefined(ms)
    ensures Print(le, Obj(ms)) == [OPEN_BRACE] + PrintMembers(le, ms) + [CLOSE_BRACE]
  {
    DefinedAll(ms);
    SortSorted(le, ms);
  }

  /** The members of `v` in the order they print. */
  lemma InOrder(le: (Text, Text) -> bool, members: seq<Member>) returns (ms: seq<Member>)
    requires Collation(le) && WellFormed(Obj(members))
    ensures DistinctKeys(ms) && Ascending(le, ms) && AllDefined(ms)
    ensures MembersMeaning(ms) == MembersMeaning(members)
    ensures Print(le, Obj(members)) == [OPEN_BRACE] + PrintMembers(le, ms) + [CLOSE_BRACE]
    ensures forall m :: m in ms <==> m in members && !m.value.Undefined?
  {
    ms := Sort(le, Defined(members));
    PrintedMembers(le, members);
    DefinedMeaning(members);
    SortDistinct(le, Defined(members));
    SortAscending(le, Defined(members));
  }

  /******* Two neighbours swapped *******/

  function Swapped(ms: seq<Member>, k: nat): (r: seq<Member>)
    requires k + 1 < |ms|
    ensures |r| == |ms|
  {
    ms[k := ms[k + 1]][k + 1 := ms[k]]
  }

  lemma SwapTail(ms: seq<Member>, k: nat)
    requires 0 < k && k + 1 < |ms|
    ensures Swapped(ms, k)[0] == ms[0] && Swapped(ms, k)[1..] == Swapped(ms[1..], k - 1)
  {
  }

  lemma SwapFirst(ms: seq<Member>)
    requires 1 < |ms|
    ensures var t := Swapped(ms, 0); t[0] == ms[1] && t[1..][0] == ms[0] && t[1..][1..] == ms[1..][1..]
  {
    assert Swapped(ms, 0)[2..] == ms[2..] && Swapped(ms, 0)[1..][1..] == Swapped(ms, 0)[2..] && ms[1..][1..] == ms[2..];
  }

  lemma {:induction false} SwapMeaning(ms: seq<Member>, k: nat)
    requires k + 1 < |ms| && ms[k].key != ms[k + 1].key && AllDefined(ms)
    ensures MembersMeaning(Swapped(ms, k)) == MembersMeaning(ms)
  {
    assert ms[0] in ms && ms[1] in ms;
    MembersMeaningNext(ms);
    MembersMeaningNext(ms[1..]);
    if k == 0 {
      SwapFirst(ms);
      MembersMeaningNext(Swapped(ms, 0));
      MembersMeaningNext(Swapped(ms, 0)[1..]);
    } else {
      SwapTail(ms, k);
      MembersMeaningNext(Swapped(ms, k));
      assert forall m :: m in ms[1..] ==> m in ms;
      SwapMeaning(ms[1..], k - 1);
    }
  }

  /** The text of an object's members tells the key it starts with. */
  lemma FirstKeyText(le: (Text, Text) -> bool, ms: seq<Member>) returns (rest: Text)
    requires 1 < |ms|
    ensures PrintMembers(le, ms) == [QUOTE] + (Escape(ms[0].key) + [QUOTE] + rest)
  {
    PrintMembersNext(le, ms);
    var after := [COMMA] + PrintMembers(le, ms[1..]);
    rest := [COLON] + (Print(le, ms[0].value) + after);
    PrintedMember(le, ms[0], after);
    Associate(PrintMember(le, ms[0]), [COMMA], PrintMembers(le, ms[1..]));
    Associate(Escape(ms[0].key), [QUOTE], rest);
  }

  lemma {:induction false} SwapText(le: (Text, Text) -> bool, ms: seq<Member>, k: nat)
    requires k + 1 < |ms| && ms[k].key != ms[k + 1].key
    ensures PrintMembers(le, Swapped(ms, k)) != PrintMembers(le, ms)
  {
    var t := Swapped(ms, k);
    if PrintMembers(le, t) == PrintMembers(le, ms) {
      if k == 0 {
        var r := FirstKeyText(le, ms);
        var s := FirstKeyText(le, t);
        CancelPrefix([QUOTE], Escape(ms[0].key) + [QUOTE] + r, Escape(t[0].key) + [QUOTE] + s);
        StringRoundTrip(ms[0].key, r);
        StringRoundTrip(t[0].key, s);
      } else {
        SwapTail(ms, k);
        PrintMembersNext(le, ms);
        PrintMembersNext(le, t);
        CancelPrefix(PrintMember(le, ms[0]) + [COMMA], PrintMembers(le, ms[1..]), PrintMembers(le, t[1..]));
        SwapText(le, ms[1..], k - 1);
      }
    }
  }

  lemma SwapOrder(le: (Text, Text) -> bool, ms: seq<Member>, k: nat)
    requires Ascending(le, ms) && DistinctKeys(ms) && AllDefined(ms) && k + 1 < |ms| && Ties(le, ms[k].key, ms[k + 1].key)
    ensures Ascending(le, Swapped(ms, k)) && DistinctKeys(Swapped(ms, k)) && AllDefined(Swapped(ms, k))
    ensures forall m :: m in Swapped(ms, k) ==> m in ms
  {
  }

  lemma NeighboursTie(le: (Text, Text) -> bool, ms: seq<Member>, p: nat, q: nat)
    requires Collation(le) && Ascending(le, ms) && p < q < |ms| && Ties(le, ms[p].key, ms[q].key)
    ensures Ties(le, ms[p].key, ms[p + 1].key)
  {
    assert le(ms[p + 1].key, ms[q].key);
  }

  lemma Index(ms: seq<Member>, m: Member) returns (i: nat)
    requires m in ms
    ensures i < |ms| && ms[i] == m
  {
    i :| i < |ms| && ms[i] == m;
  }

  lemma TiedNeighbours(le: (Text, Text) -> bool, members: seq<Member>, ms: seq<Member>) returns (k: nat)
    requires Collation(le) && DistinctKeys(members) && !UntiedKeys(le, members)
    requires Ascending(le, ms) && forall m :: m in ms <==> m in members && !m.value.Undefined?
    ensures k + 1 < |ms| && Ties(le, ms[k].key, ms[k + 1].key)
  {
    var i, j :| 0 <= i < j < |members| && !members[i].value.Undefined? && !members[j].value.Undefined? && Ties(le, members[i].key, members[j].key);
    var p := Index(ms, members[i]);
    var q := Index(ms, members[j]);
    if p < q {
      NeighboursTie(le, ms, p, q);
      k := p;
    } else {
      NeighboursTie(le, ms, q, p);
      k := q;
    }
  }

  /******* A value that means the same and prints otherwise *******/

  predicate Rival(le: (Text, Text) -> bool, v: Json, w: Json) {
    WellFormed(w) && Meaning(w) == Meaning(v) && Print(le, w) != Print(le, v) && !w.Undefined?
  }

  lemma ItemRival(le: (Text, Text) -> bool, items: seq<Json>, i: nat, x: Json)
    requires WellFormed(Arr(items)) && i < |items| && Rival(le, items[i], x)
    ensures Rival(le, Arr(items), Arr(items[i := x]))
  {
    ItemReplaced(items, i, x);
    var before, after := ItemAround(le, items, i, x);
    if PrintItems(le, items) == PrintItems(le, items[i := x]) {
      CancelAround(before, Print(le, items[i]), Print(le, x), after);
    }
    var a, b := PrintItems(le, items), PrintItems(le, items[i := x]);
    if [OPEN_BRACKET] + a + [CLOSE_BRACKET] == [OPEN_BRACKET] + b + [CLOSE_BRACKET] {
      CancelAround([OPEN_BRACKET], a, b, [CLOSE_BRACKET]);
    }
    forall item | item in items[i := x] ensures WellFormed(item) {
      if item != x { assert item in items; }
    }
  }

  /** An object with its members in order, and another that prints them otherwise. */
  lemma MembersRival(le: (Text, Text) -> bool, members: seq<Member>, ms: seq<Member>, other: seq<Member>)
    requires Print(le, Obj(members)) == [OPEN_BRACE] + PrintMembers(le, ms) + [CLOSE_BRACE]
    requires MembersMeaning(other) == MembersMeaning(members) && PrintMembers(le, other) != PrintMembers(le, ms)
    requires Ascending(le, other) && AllDefined(other) && WellFormed(Obj(other))
    ensures Rival(le, Obj(members), Obj(other))
  {
    PrintSorted(le, other);
    var a, b := PrintMembers(le, ms), PrintMembers(le, other);
    if [OPEN_BRACE] + a + [CLOSE_BRACE] == [OPEN_BRACE] + b + [CLOSE_BRACE] {
      CancelAround([OPEN_BRACE], a, b, [CLOSE_BRACE]);
    }
  }

  lemma TiedRival(le: (Text, Text) -> bool, members: seq<Member>) returns (w: Json)
    requires Collation(le) && WellFormed(Obj(members)) && !UntiedKeys(le, members)
    ensures Rival(le, Obj(members), w)
  {
    var ms := InOrder(le, members);
    var k := TiedNeighbours(le, members, ms);
    var other := Swapped(ms, k);
    SwapOrder(le, ms, k);
    SwapMeaning(ms, k);
    SwapText(le, ms, k);
    MembersRival(le, members, ms, other);
    w := Obj(other);
  }

  lemma ValueReplaced(le: (Text, Text) -> bool, ms: seq<Member>, i: nat, x: Json)
    requires Ascending(le, ms) && AllDefined(ms) && WellFormed(Obj(ms)) && i < |ms| && Rival(le, ms[i].value, x)
    ensures var other := ms[i := Member(ms[i].key, x)];
            Ascending(le, other) && AllDefined(other) && WellFormed(Obj(other)) && PrintMembers(le, other) != PrintMembers(le, ms)
  {
    var m := Member(ms[i].key, x);
    var other := ms[i := m];
    forall y | y in other ensures !y.value.Undefined? && WellFormed(y.value) {
      if y != m { assert y in ms; }
    }
    var before, after := MemberAround(le, ms, i, m);
    if PrintMembers(le, other) == PrintMembers(le, ms) {
      CancelAround(before, PrintMember(le, ms[i]), PrintMember(le, m), after);
      CancelPrefix(Quote(ms[i].key) + [COLON], Print(le, ms[i].value), Print(le, x));
    }
  }

  lemma MemberRival(le: (Text, Text) -> bool, members: seq<Member>, m: Member, x: Json) returns (w: Json)
    requires Collation(le) && WellFormed(Obj(members)) && m in members && !m.value.Undefined? && Rival(le, m.value, x)
    ensures Rival(le, Obj(members), w)
  {
    var ms := InOrder(le, members);
    assert m in ms;
    var i :| 0 <= i < |ms| && ms[i] == m;
    assert WellFormed(Obj(ms));
    MemberReplaced(ms, i, x);
    ValueReplaced(le, ms, i, x);
    MembersRival(le, members, ms, ms[i := Member(m.key, x)]);
    w := Obj(ms[i := Member(m.key, x)]);
  }

  lemma {:induction false} TieHasRival(le: (Text, Text) -> bool, v: Json) returns (w: Json)
    requires Collation(le) && WellFormed(v) && !Untied(le, v)
    ensures Rival(le, v, w)
    decreases v
  {
    match v
    case Arr(items) =>
      var item :| item in items && !Untied(le, item);
      var i :| 0 <= i < |items| && items[i] == item;
      var x := TieHasRival(le, items[i]);
      ItemRival(le, items, i, x);
      w := Arr(items[i := x]);
    case Obj(members) =>
      if !UntiedKeys(le, members) {
        w := TiedRival(le, members);
      } else {
        var m :| m in members && !Untied(le, m.value);
        var x := TieHasRival(le, m.value);
        w := MemberRival(le, members, m, x);
      }
  }

  /** Key order is erased exactly when the collation tells apart the defined keys of every object
      inside the value: then, and only then, all values with its meaning print the same. */
  lemma PrintsOneWayIff(le: (Text, Text) -> bool, v: Json)
    requires Collation(le) && WellFormed(v)
    ensures PrintsOneWay(le, v) <==> Untied(le, v)
  {
    if Untied(le, v) {
      forall w | WellFormed(w) && Meaning(w) == Meaning(v) ensures Print(le, w) == Print(le, v) { PrintDetermined(le, v, w); }
    } else {
      var w := TieHasRival(le, v);
      assert WellFormed(w);
    }
  }
}
