/** The value determines the canonical text, as far as the collation tells keys apart. */
module CanonicalForm {
  import opened CanonicalJson
  import opened JsonReading

  /******* The value determines the text *******/

  ghost predicate Collation(le: (Text, Text) -> bool) {
    && (forall a, b :: le(a, b) || le(b, a))
    && (forall a, b, c :: le(a, b) && le(b, c) ==> le(a, c))
  }

  predicate Ties(le: (Text, Text) -> bool, a: Text, b: Text) {
    le(a, b) && le(b, a)
  }

  /** No two defined members have keys the collation cannot tell apart; undefined ones never print. */
  predicate UntiedKeys(le: (Text, Text) -> bool, ms: seq<Member>) {
    forall i, j :: 0 <= i < j < |ms| && !ms[i].value.Undefined? && !ms[j].value.Undefined? ==> !Ties(le, ms[i].key, ms[j].key)
  }

  /** ... in any object anywhere inside `v`. */
  predicate Untied(le: (Text, Text) -> bool, v: Json) {
    match v
    case Arr(items) => forall item :: item in items ==> Untied(le, item)
    case Obj(members) => UntiedKeys(le, members) && forall m :: m in members ==> Untied(le, m.value)
    case _ => true
  }

  predicate Ascending(le: (Text, Text) -> bool, ms: seq<Member>) {
    forall i, j :: 0 <= i < j < |ms| ==> le(ms[i].key, ms[j].key)
  }

  lemma {:induction false} InsertAscending(le: (Text, Text) -> bool, m: Member, ms: seq<Member>)
    requires Collation(le) && Ascending(le, ms)
    ensures Ascending(le, Insert(le, m, ms))
  {
    var r := Insert(le, m, ms);
    if ms == [] {
    } else if le(m.key, ms[0].key) {
      forall i, j | 0 <= i < j < |r| ensures le(r[i].key, r[j].key) {
        if i == 0 && j > 1 { assert le(ms[0].key, ms[j - 1].key); }
      }
    } else {
      assert Ascending(le, ms[1..]);
      InsertAscending(le, m, ms[1..]);
      var tail := Insert(le, m, ms[1..]);
      forall i, j | 0 <= i < j < |r| ensures le(r[i].key, r[j].key) {
        if i == 0 {
          assert r[j] in multiset(tail);
          if r[j] != m { assert r[j] in ms[1..]; }
        }
      }
    }
  }

  lemma {:induction false} SortAscending(le: (Text, Text) -> bool, ms: seq<Member>)
    requires Collation(le)
    ensures Ascending(le, Sort(le, ms))
  {
    if ms != [] {
      SortAscending(le, ms[1..]);
      InsertAscending(le, ms[0], Sort(le, ms[1..]));
    }
  }

  /** The order an object's members print in, when no two of its keys tie. */
  ghost predicate StrictlyAscending(le: (Text, Text) -> bool, ms: seq<Member>) {
    forall i, j :: 0 <= i < j < |ms| ==> !le(ms[j].key, ms[i].key)
  }

  lemma {:induction false} SortStrict(le: (Text, Text) -> bool, ms: seq<Member>)
    requires Collation(le) && DistinctKeys(ms) && UntiedKeys(le, ms)
    ensures StrictlyAscending(le, Sort(le, Defined(ms)))
  {
    var r := Sort(le, Defined(ms));
    DefinedMeaning(ms);
    SortAscending(le, Defined(ms));
    SortDistinct(le, Defined(ms));
    forall i, j | 0 <= i < j < |r| ensures !le(r[j].key, r[i].key) {
      assert r[i] in multiset(r) && r[j] in multiset(r);
      assert r[i] in Defined(ms) && r[j] in Defined(ms);
      var p :| 0 <= p < |ms| && ms[p] == r[i];
      var q :| 0 <= q < |ms| && ms[q] == r[j];
      assert p != q;
      assert !Ties(le, ms[if p < q then p else q].key, ms[if p < q then q else p].key);
    }
  }

  lemma {:induction false} SortDistinct(le: (Text, Text) -> bool, ms: seq<Member>)
    requires DistinctKeys(ms)
    ensures DistinctKeys(Sort(le, ms))
  {
    if ms != [] {
      assert forall i, j :: 0 <= i < j < |ms[1..]| ==> ms[1..][i].key != ms[1..][j].key;
      SortDistinct(le, ms[1..]);
      var tail := Sort(le, ms[1..]);
      forall x | x in tail ensures x.key != ms[0].key {
        assert x in multiset(tail) && x in multiset(ms[1..]);
        var k :| 0 <= k < |ms[1..]| && ms[1..][k] == x;
        assert ms[k + 1] == x;
      }
      InsertDistinct(le, ms[0], tail);
    }
  }

  lemma {:induction false} InsertDistinct(le: (Text, Text) -> bool, m: Member, ms: seq<Member>)
    requires DistinctKeys(ms)
    requires forall x :: x in ms ==> x.key != m.key
    ensures DistinctKeys(Insert(le, m, ms))
  {
    if ms != [] && !le(m.key, ms[0].key) {
      assert forall i, j :: 0 <= i < j < |ms[1..]| ==> ms[1..][i].key != ms[1..][j].key;
      InsertDistinct(le, m, ms[1..]);
      var tail := Insert(le, m, ms[1..]);
      var r := [ms[0]] + tail;
      forall i, j | 0 <= i < j < |r| ensures r[i].key != r[j].key {
        if i == 0 {
          assert r[j] in multiset(tail);
          if r[j] != m { assert r[j] in ms[1..]; }
        }
      }
    }
  }

  lemma {:induction false} MemberMeaning(ms: seq<Member>, i: nat)
    requires DistinctKeys(ms) && i < |ms|
    ensures ms[i].key in MembersMeaning(ms) <==> !ms[i].value.Undefined?
    ensures ms[i].key in MembersMeaning(ms) ==> MembersMeaning(ms)[ms[i].key] == Meaning(ms[i].value)
  {
    if i == 0 {
      MembersMeaningKeys(ms[1..], ms[0].key);
    } else {
      assert forall j, k :: 0 <= j < k < |ms[1..]| ==> ms[1..][j].key != ms[1..][k].key;
      MemberMeaning(ms[1..], i - 1);
    }
  }

  lemma {:induction false} ItemMeaning(items: seq<Json>, i: nat)
    requires i < |items|
    ensures ItemsMeaning(items)[i] == Meaning(items[i])
  {
    if i > 0 { ItemMeaning(items[1..], i - 1); }
  }

  /** A defined member of one object, found in another that means the same. */
  lemma MemberOf(a: seq<Member>, b: seq<Member>, j: nat) returns (i: nat)
    requires DistinctKeys(a) && DistinctKeys(b) && MembersMeaning(a) == MembersMeaning(b)
    requires j < |b| && !b[j].value.Undefined?
    ensures i < |a| && a[i].key == b[j].key && !a[i].value.Undefined? && Meaning(a[i].value) == Meaning(b[j].value)
  {
    MemberMeaning(b, j);
    MembersMeaningKeys(a, b[j].key);
    i :| 0 <= i < |a| && a[i].key == b[j].key && !a[i].value.Undefined?;
    MemberMeaning(a, i);
  }

  lemma UntiedKeysSame(le: (Text, Text) -> bool, a: seq<Member>, b: seq<Member>)
    requires DistinctKeys(a) && DistinctKeys(b) && MembersMeaning(a) == MembersMeaning(b) && UntiedKeys(le, a)
    ensures UntiedKeys(le, b)
  {
    forall i, j | 0 <= i < j < |b| && !b[i].value.Undefined? && !b[j].value.Undefined? ensures !Ties(le, b[i].key, b[j].key) {
      var p := MemberOf(a, b, i);
      var q := MemberOf(a, b, j);
      assert p != q;
      if p < q { assert !Ties(le, a[p].key, a[q].key); } else { assert !Ties(le, a[q].key, a[p].key); }
    }
  }

  /** Whether keys tie inside a value depends on no more than what the value means. */
  lemma {:induction false} UntiedSame(le: (Text, Text) -> bool, a: Json, b: Json)
    requires WellFormed(a) && WellFormed(b) && Meaning(a) == Meaning(b) && Untied(le, a)
    ensures Untied(le, b)
    decreases a
  {
    match b
    case Arr(items) =>
      forall item | item in items ensures Untied(le, item) {
        var i :| 0 <= i < |items| && items[i] == item;
        ItemMeaning(items, i);
        ItemMeaning(a.items, i);
        UntiedSame(le, a.items[i], item);
      }
    case Obj(members) =>
      UntiedKeysSame(le, a.members, members);
      forall m | m in members ensures Untied(le, m.value) {
        if !m.value.Undefined? {
          var j :| 0 <= j < |members| && members[j] == m;
          var i := MemberOf(a.members, members, j);
          assert a.members[i] in a.members;
          UntiedSame(le, a.members[i].value, m.value);
        }
      }
    case _ =>
  }

  /** Two values that mean the same print the same. */
  lemma {:induction false} PrintDetermined(le: (Text, Text) -> bool, a: Json, b: Json)
    requires Collation(le)
    requires WellFormed(a) && WellFormed(b) && Meaning(a) == Meaning(b) && Untied(le, a)
    ensures Print(le, a) == Print(le, b)
    decreases Size(a), 0
  {
    UntiedSame(le, a, b);
    match a
    case Arr(items) =>
      ItemsDetermined(le, items, b.items);
    case Obj(members) =>
      var x, y := Sort(le, Defined(members)), Sort(le, Defined(b.members));
      PrintedMembers(le, members);
      PrintedMembers(le, b.members);
      SortStrict(le, members);
      SortStrict(le, b.members);
      MembersDetermined(le, x, y);
    case _ =>
  }

  lemma {:induction false} ItemsDetermined(le: (Text, Text) -> bool, a: seq<Json>, b: seq<Json>)
    requires Collation(le)
    requires forall v :: v in a ==> WellFormed(v) && Untied(le, v)
    requires forall v :: v in b ==> WellFormed(v) && Untied(le, v)
    requires ItemsMeaning(a) == ItemsMeaning(b)
    ensures PrintItems(le, a) == PrintItems(le, b)
    decreases ItemsSize(a), 1
  {
    if a != [] {
      ItemSmaller(a);
      assert ItemsMeaning(a)[0] == ItemsMeaning(b)[0];
      assert ItemsMeaning(a)[1..] == ItemsMeaning(a[1..]) && ItemsMeaning(b)[1..] == ItemsMeaning(b[1..]);
      PrintDetermined(le, a[0], b[0]);
      ItemsDetermined(le, a[1..], b[1..]);
    }
  }

  ghost predicate Printable(le: (Text, Text) -> bool, ms: seq<Member>) {
    && StrictlyAscending(le, ms)
    && forall m :: m in ms ==> WellFormed(m.value) && Untied(le, m.value) && !m.value.Undefined?
  }

  lemma FirstKeyLeast(le: (Text, Text) -> bool, a: seq<Member>, b: seq<Member>)
    requires Collation(le) && Printable(le, a) && Printable(le, b)
    requires a != [] && MembersMeaning(a) == MembersMeaning(b)
    ensures b != [] && a[0].key == b[0].key
  {
    MembersMeaningKeys(a, a[0].key);
    assert a[0] in a;
    MembersMeaningKeys(b, a[0].key);
    var i :| 0 <= i < |b| && b[i].key == a[0].key;
    assert b[0] in b;
    MembersMeaningKeys(b, b[0].key);
    MembersMeaningKeys(a, b[0].key);
    var j :| 0 <= j < |a| && a[j].key == b[0].key;
    if i > 0 && j > 0 {
      assert false;
    }
  }

  lemma TailMeaning(le: (Text, Text) -> bool, a: seq<Member>)
    requires Collation(le) && Printable(le, a) && a != []
    ensures MembersMeaning(a[1..]) == MembersMeaning(a) - {a[0].key}
    ensures MembersMeaning(a)[a[0].key] == Meaning(a[0].value)
  {
    assert a[0] in a;
    MembersMeaningKeys(a[1..], a[0].key);
    forall i | 0 <= i < |a[1..]| ensures a[1..][i].key != a[0].key {
      assert a[1..][i] == a[i + 1] && !le(a[i + 1].key, a[0].key);
    }
  }

  lemma {:induction false} MembersDetermined(le: (Text, Text) -> bool, a: seq<Member>, b: seq<Member>)
    requires Collation(le) && Printable(le, a) && Printable(le, b)
    requires MembersMeaning(a) == MembersMeaning(b)
    ensures PrintMembers(le, a) == PrintMembers(le, b)
    decreases MembersSize(a), 1
  {
    if a == [] {
      if b != [] { FirstKeyLeast(le, b, a); }
    } else {
      FirstKeyLeast(le, a, b);
      TailMeaning(le, a);
      TailMeaning(le, b);
      assert a[0] in a && b[0] in b;
      PrintDetermined(le, a[0].value, b[0].value);
      MembersDetermined(le, a[1..], b[1..]);
      if |a| == 1 && |b| > 1 { FirstKeyLeast(le, b[1..], a[1..]); }
      if |b| == 1 && |a| > 1 { FirstKeyLeast(le, a[1..], b[1..]); }
    }
  }

  /** Two values print to the same text exactly when they are equal up to key order and dropped
      undefined entries, at every nesting depth. */
  lemma PrintCanonical(le: (Text, Text) -> bool, a: Json, b: Json)
    requires Collation(le)
    requires WellFormed(a) && WellFormed(b) && Untied(le, a)
    ensures Print(le, a) == Print(le, b) <==> Meaning(a) == Meaning(b)
  {
    if Print(le, a) == Print(le, b) { PrintInjective(le, a, b); }
    if Meaning(a) == Meaning(b) { PrintDetermined(le, a, b); }
  }

  /******* Records and hashes *******/

  /** Two records with the same field names that mean the same agree field by field. */
  lemma RecordFields(a: seq<Member>, b: seq<Member>)
    requires DistinctKeys(a) && |a| == |b|
    requires forall i :: 0 <= i < |a| ==> a[i].key == b[i].key
    requires Meaning(Obj(a)) == Meaning(Obj(b))
    ensures forall i :: 0 <= i < |a| ==> SameField(a[i].value, b[i].value)
  {
    assert DistinctKeys(b) by {
      forall i, j | 0 <= i < j < |b| ensures b[i].key != b[j].key {
        assert a[i].key != a[j].key;
      }
    }
    forall i | 0 <= i < |a| ensures SameField(a[i].value, b[i].value) {
      MemberMeaning(a, i);
      MemberMeaning(b, i);
    }
  }

  lemma HashDeterminesValue(digest: Text -> Text, le: (Text, Text) -> bool, a: Json, b: Json)
    requires Injective(digest)
    requires WellFormed(a) && WellFormed(b)
    requires Hash(digest, le, a) == Hash(digest, le, b)
    ensures Meaning(a) == Meaning(b)
  {
    PrintInjective(le, a, b);
  }
}
