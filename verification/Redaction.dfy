/** Secret redaction as a tree rewrite. The regular expressions are the two parameters of a
    `Scrubber`: which keys name a secret, and how one string is scrubbed. */
module Redaction {
  import opened CanonicalJson
  import opened CanonicalForm

  datatype Scrubber = Scrubber(sensitive: Text -> bool, scrub: Text -> Text)

  /** Scrubbing text that has already been scrubbed changes nothing. */
  ghost predicate Idempotent(scrubber: Scrubber) {
    forall t :: scrubber.scrub(scrubber.scrub(t)) == scrubber.scrub(t)
  }

  const REDACTED: Text := [91, 82, 69, 68, 65, 67, 84, 69, 68, 93]

  function Redact(scrubber: Scrubber, v: Json): Json {
    match v
    case Str(s) => Str(scrubber.scrub(s))
    case Arr(items) => Arr(RedactItems(scrubber, items))
    case Obj(members) => Obj(RedactMembers(scrubber, members))
    case _ => v
  }

  function RedactItems(scrubber: Scrubber, items: seq<Json>): (r: seq<Json>)
    ensures |r| == |items|
  {
    if items == [] then [] else [Redact(scrubber, items[0])] + RedactItems(scrubber, items[1..])
  }

  /** The whole value under a sensitive key is replaced. */
  function RedactMembers(scrubber: Scrubber, ms: seq<Member>): (r: seq<Member>)
    ensures |r| == |ms| && forall i :: 0 <= i < |ms| ==> r[i].key == ms[i].key
  {
    if ms == [] then []
    else
      var value :=
        if ms[0].key != [] && scrubber.sensitive(ms[0].key) then Str(REDACTED)
        else Redact(scrubber, ms[0].value);
      [Member(ms[0].key, value)] + RedactMembers(scrubber, ms[1..])
  }

  /** The `applied` flag: a sensitive key was met, or some string was changed. */
  predicate Applied(scrubber: Scrubber, v: Json) {
    match v
    case Str(s) => scrubber.scrub(s) != s
    case Arr(items) => exists i :: 0 <= i < |items| && Applied(scrubber, items[i])
    case Obj(members) =>
      exists i :: 0 <= i < |members| &&
        ((members[i].key != [] && scrubber.sensitive(members[i].key)) || Applied(scrubber, members[i].value))
    case _ => false
  }

  predicate ContainsSecretLikeField(scrubber: Scrubber, v: Json) {
    match v
    case Arr(items) => exists i :: 0 <= i < |items| && ContainsSecretLikeField(scrubber, items[i])
    case Obj(members) =>
      exists i :: 0 <= i < |members| &&
        (scrubber.sensitive(members[i].key) || ContainsSecretLikeField(scrubber, members[i].value))
    case _ => false
  }

  /** Storing a redacted record and redacting it again on the way to disk writes the same record. */
  lemma {:induction false} RedactIdempotent(scrubber: Scrubber, v: Json)
    requires Idempotent(scrubber)
    ensures Redact(scrubber, Redact(scrubber, v)) == Redact(scrubber, v)
    decreases v, 0
  {
    match v
    case Arr(items) => RedactItemsIdempotent(scrubber, items);
    case Obj(members) => RedactMembersIdempotent(scrubber, members);
    case _ =>
  }

  lemma {:induction false} RedactItemsIdempotent(scrubber: Scrubber, items: seq<Json>)
    requires Idempotent(scrubber)
    ensures RedactItems(scrubber, RedactItems(scrubber, items)) == RedactItems(scrubber, items)
    decreases items, 1
  {
    if items != [] {
      RedactIdempotent(scrubber, items[0]);
      RedactItemsIdempotent(scrubber, items[1..]);
      assert RedactItems(scrubber, items)[1..] == RedactItems(scrubber, items[1..]);
    }
  }

  lemma {:induction false} RedactMembersIdempotent(scrubber: Scrubber, ms: seq<Member>)
    requires Idempotent(scrubber)
    ensures RedactMembers(scrubber, RedactMembers(scrubber, ms)) == RedactMembers(scrubber, ms)
    decreases ms, 1
  {
    if ms != [] {
      RedactIdempotent(scrubber, ms[0].value);
      RedactMembersIdempotent(scrubber, ms[1..]);
      assert RedactMembers(scrubber, ms)[1..] == RedactMembers(scrubber, ms[1..]);
    }
  }

  lemma {:induction false} RedactWellFormed(scrubber: Scrubber, v: Json)
    requires WellFormed(v)
    ensures WellFormed(Redact(scrubber, v))
    decreases v, 0
  {
    match v
    case Arr(items) => RedactItemsWellFormed(scrubber, items);
    case Obj(members) => RedactMembersWellFormed(scrubber, members);
    case _ =>
  }

  lemma {:induction false} RedactItemsWellFormed(scrubber: Scrubber, items: seq<Json>)
    requires forall item :: item in items ==> WellFormed(item)
    ensures forall item :: item in RedactItems(scrubber, items) ==> WellFormed(item)
    decreases items, 1
  {
    if items != [] {
      RedactWellFormed(scrubber, items[0]);
      RedactItemsWellFormed(scrubber, items[1..]);
    }
  }

  lemma {:induction false} RedactMembersWellFormed(scrubber: Scrubber, ms: seq<Member>)
    requires forall m :: m in ms ==> WellFormed(m.value)
    ensures forall m :: m in RedactMembers(scrubber, ms) ==> WellFormed(m.value)
    decreases ms, 1
  {
    if ms != [] {
      assert ms[0] in ms;
      RedactWellFormed(scrubber, ms[0].value);
      RedactMembersWellFormed(scrubber, ms[1..]);
    }
  }

  /** A value the redactor did not flag is stored exactly as it is. */
  lemma {:induction false} UnflaggedUnchanged(scrubber: Scrubber, v: Json)
    requires !Applied(scrubber, v)
    ensures Redact(scrubber, v) == v
    decreases v, 0
  {
    match v
    case Arr(items) => UnflaggedItems(scrubber, items);
    case Obj(members) => UnflaggedMembers(scrubber, members);
    case _ =>
  }

  lemma {:induction false} UnflaggedItems(scrubber: Scrubber, items: seq<Json>)
    requires forall i :: 0 <= i < |items| ==> !Applied(scrubber, items[i])
    ensures RedactItems(scrubber, items) == items
    decreases items, 1
  {
    if items != [] {
      UnflaggedUnchanged(scrubber, items[0]);
      UnflaggedItems(scrubber, items[1..]);
    }
  }

  lemma {:induction false} UnflaggedMembers(scrubber: Scrubber, ms: seq<Member>)
    requires forall i :: 0 <= i < |ms| ==>
      !Applied(scrubber, ms[i].value) && (ms[i].key == [] || !scrubber.sensitive(ms[i].key))
    ensures RedactMembers(scrubber, ms) == ms
    decreases ms, 1
  {
    if ms != [] {
      UnflaggedUnchanged(scrubber, ms[0].value);
      UnflaggedMembers(scrubber, ms[1..]);
    }
  }

  lemma {:induction false} RedactedItem(scrubber: Scrubber, items: seq<Json>, i: nat)
    requires i < |items|
    ensures RedactItems(scrubber, items)[i] == Redact(scrubber, items[i])
  {
    if i > 0 { RedactedItem(scrubber, items[1..], i - 1); }
  }

  lemma {:induction false} RedactedMember(scrubber: Scrubber, ms: seq<Member>, i: nat)
    requires i < |ms| && (ms[i].key == [] || !scrubber.sensitive(ms[i].key))
    ensures RedactMembers(scrubber, ms)[i] == Member(ms[i].key, Redact(scrubber, ms[i].value))
  {
    if i > 0 { RedactedMember(scrubber, ms[1..], i - 1); }
  }

  lemma ChangedItem(scrubber: Scrubber, items: seq<Json>, i: nat)
    requires i < |items| && Meaning(Redact(scrubber, items[i])) != Meaning(items[i])
    ensures Meaning(Redact(scrubber, Arr(items))) != Meaning(Arr(items))
  {
    RedactedItem(scrubber, items, i);
    ItemMeaning(items, i);
    ItemMeaning(RedactItems(scrubber, items), i);
  }

  lemma RedactedDistinct(scrubber: Scrubber, ms: seq<Member>)
    requires DistinctKeys(ms)
    ensures DistinctKeys(RedactMembers(scrubber, ms))
  {
    var redacted := RedactMembers(scrubber, ms);
    forall j, k | 0 <= j < k < |redacted| ensures redacted[j].key != redacted[k].key { assert ms[j].key != ms[k].key; }
  }

  lemma ChangedMember(scrubber: Scrubber, ms: seq<Member>, i: nat)
    requires DistinctKeys(ms) && i < |ms| && !scrubber.sensitive(ms[i].key) && !ms[i].value.Undefined?
    requires Meaning(Redact(scrubber, ms[i].value)) != Meaning(ms[i].value)
    ensures Meaning(Redact(scrubber, Obj(ms))) != Meaning(Obj(ms))
  {
    var redacted := RedactMembers(scrubber, ms);
    RedactedMember(scrubber, ms, i);
    RedactedDistinct(scrubber, ms);
    MemberMeaning(ms, i);
    MemberMeaning(redacted, i);
    assert MembersMeaning(redacted)[ms[i].key] != MembersMeaning(ms)[ms[i].key];
  }

  lemma FlaggedItem(scrubber: Scrubber, items: seq<Json>) returns (i: nat)
    requires WellFormed(Arr(items)) && !ContainsSecretLikeField(scrubber, Arr(items)) && Applied(scrubber, Arr(items))
    ensures i < |items| && Applied(scrubber, items[i]) && WellFormed(items[i]) && !ContainsSecretLikeField(scrubber, items[i])
  {
    i :| i < |items| && Applied(scrubber, items[i]);
    assert items[i] in items;
  }

  lemma FlaggedMember(scrubber: Scrubber, ms: seq<Member>) returns (i: nat)
    requires WellFormed(Obj(ms)) && !ContainsSecretLikeField(scrubber, Obj(ms)) && Applied(scrubber, Obj(ms))
    ensures i < |ms| && Applied(scrubber, ms[i].value) && WellFormed(ms[i].value) && !ContainsSecretLikeField(scrubber, ms[i].value)
    ensures DistinctKeys(ms) && !scrubber.sensitive(ms[i].key)
  {
    i :| i < |ms| && ((ms[i].key != [] && scrubber.sensitive(ms[i].key)) || Applied(scrubber, ms[i].value));
    assert ms[i] in ms;
  }

  /** A flagged value without secret-like fields no longer means what it meant. */
  lemma {:induction false} FlaggedMeansOtherwise(scrubber: Scrubber, v: Json)
    requires WellFormed(v) && !ContainsSecretLikeField(scrubber, v) && Applied(scrubber, v)
    ensures Meaning(Redact(scrubber, v)) != Meaning(v)
    decreases v
  {
    match v
    case Arr(items) =>
      var i := FlaggedItem(scrubber, items);
      FlaggedMeansOtherwise(scrubber, items[i]);
      ChangedItem(scrubber, items, i);
    case Obj(members) =>
      var i := FlaggedMember(scrubber, members);
      FlaggedMeansOtherwise(scrubber, members[i].value);
      ChangedMember(scrubber, members, i);
    case Str(_) =>
  }

  /** A record that is hashed first and stored redacted: if it holds no secret-like field, it still
      matches its hash exactly when the redactor did not flag it. */
  lemma StoredRecordKeepsHash(digest: Text -> Text, le: (Text, Text) -> bool, scrubber: Scrubber, v: Json)
    requires Injective(digest) && WellFormed(v) && !ContainsSecretLikeField(scrubber, v)
    ensures Hash(digest, le, Redact(scrubber, v)) == Hash(digest, le, v) <==> !Applied(scrubber, v)
  {
    if Applied(scrubber, v) {
      FlaggedMeansOtherwise(scrubber, v);
      RedactWellFormed(scrubber, v);
      if Hash(digest, le, Redact(scrubber, v)) == Hash(digest, le, v) {
        HashDeterminesValue(digest, le, Redact(scrubber, v), v);
      }
    } else {
      UnflaggedUnchanged(scrubber, v);
    }
  }
}
