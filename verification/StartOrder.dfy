/** The order in which the containers of an app are started: dependencies first, cycles all at once. */
module StartOrder {

  datatype Component = Component(name: string, container: string, dependsOn: seq<string>)

  datatype Entry = Entry(name: string, deps: set<string>)

  function Names(entries: seq<Entry>): set<string> {
    set e | e in entries :: e.name
  }

  function NamesInOrder(entries: seq<Entry>): (names: seq<string>)
    ensures |names| == |entries| && forall i :: 0 <= i < |names| ==> names[i] == entries[i].name
  {
    seq(|entries|, i requires 0 <= i < |entries| => entries[i].name)
  }

  predicate Unique(entries: seq<Entry>) {
    forall i, j :: 0 <= i < j < |entries| ==> entries[i].name != entries[j].name
  }

  /** A later component of the same name takes the place of the earlier one. */
  function Insert(entries: seq<Entry>, e: Entry): seq<Entry> {
    if entries == [] then [e]
    else if entries[0].name == e.name then [e] + entries[1..]
    else [entries[0]] + Insert(entries[1..], e)
  }

  function Dependencies(components: seq<Component>): seq<Entry> {
    if components == [] then []
    else
      var last := components[|components| - 1];
      Insert(Dependencies(components[..|components| - 1]), Entry(last.name, set d | d in last.dependsOn))
  }

  /** Nothing it depends on is still waiting. */
  predicate IsReady(e: Entry, waiting: set<string>) {
    e.deps !! waiting
  }

  function Ready(entries: seq<Entry>, waiting: set<string>): seq<Entry> {
    if entries == [] then []
    else (if IsReady(entries[0], waiting) then [entries[0]] else []) + Ready(entries[1..], waiting)
  }

  function Without(entries: seq<Entry>, names: set<string>): seq<Entry> {
    if entries == [] then []
    else (if entries[0].name in names then [] else [entries[0]]) + Without(entries[1..], names)
  }

  function Batch(remaining: seq<Entry>): seq<Entry> {
    var ready := Ready(remaining, Names(remaining));
    if ready != [] then ready else remaining
  }

  function Order(remaining: seq<Entry>): seq<string>
    decreases |remaining|
  {
    if remaining == [] then []
    else
      BatchShrinks(remaining);
      NamesInOrder(Batch(remaining)) + Order(Without(remaining, Names(Batch(remaining))))
  }

  lemma {:induction false} ReadyIs(entries: seq<Entry>, waiting: set<string>)
    ensures forall e :: e in Ready(entries, waiting) <==> e in entries && IsReady(e, waiting)
    ensures Unique(entries) ==> Unique(Ready(entries, waiting))
  {
    if entries != [] {
      ReadyIs(entries[1..], waiting);
      assert entries == [entries[0]] + entries[1..];
      if Unique(entries) {
        assert Unique(entries[1..]);
        forall e | e in Ready(entries[1..], waiting) ensures e.name != entries[0].name {
          var i :| 0 <= i < |entries[1..]| && entries[1..][i] == e;
          assert entries[i + 1] == e;
        }
      }
    }
  }

  lemma {:induction false} WithoutIs(entries: seq<Entry>, names: set<string>)
    ensures forall e :: e in Without(entries, names) <==> e in entries && e.name !in names
    ensures |Without(entries, names)| <= |entries|
    ensures (exists e :: e in entries && e.name in names) ==> |Without(entries, names)| < |entries|
    ensures Unique(entries) ==> Unique(Without(entries, names))
  {
    if entries != [] {
      WithoutIs(entries[1..], names);
      assert entries == [entries[0]] + entries[1..];
      if Unique(entries) {
        assert Unique(entries[1..]);
        forall e | e in Without(entries[1..], names) ensures e.name != entries[0].name {
          var i :| 0 <= i < |entries[1..]| && entries[1..][i] == e;
          assert entries[i + 1] == e;
        }
      }
    }
  }

  lemma {:induction false} BatchShrinks(remaining: seq<Entry>)
    requires remaining != []
    ensures Batch(remaining) != [] && forall e :: e in Batch(remaining) ==> e in remaining
    ensures |Without(remaining, Names(Batch(remaining)))| < |remaining|
  {
    ReadyIs(remaining, Names(remaining));
    var e := Batch(remaining)[0];
    assert e in remaining && e.name in Names(Batch(remaining));
    WithoutIs(remaining, Names(Batch(remaining)));
  }

  function ContainerOf(components: seq<Component>, name: string): string {
    if components == [] then ""
    else if components[0].name == name then components[0].container
    else ContainerOf(components[1..], name)
  }

  function Services(components: seq<Component>, order: seq<string>): seq<string> {
    seq(|order|, i requires 0 <= i < |order| => ContainerOf(components, order[i]) + ".service")
  }

  method Waiting(components: seq<Component>) returns (remaining: seq<Entry>)
    ensures remaining == Dependencies(components)
  {
    remaining := [];
    var i := 0;
    while i < |components|
      invariant 0 <= i <= |components| && remaining == Dependencies(components[..i])
    {
      assert components[..i + 1][..i] == components[..i];
      remaining := Insert(remaining, Entry(components[i].name, set d | d in components[i].dependsOn));
      i := i + 1;
    }
    assert components[..|components|] == components;
  }

  lemma {:induction false} OneRound(order: seq<string>, remaining: seq<Entry>, batch: seq<Entry>)
    requires remaining != [] && batch == Batch(remaining)
    ensures order + Order(remaining) == (order + NamesInOrder(batch)) + Order(Without(remaining, Names(batch)))
  {
    BatchShrinks(remaining);
  }

  /** Starts every component whose dependencies all started; when there is none left to start that
      way, starts the rest together. */
  method OrderServices(components: seq<Component>) returns (services: seq<string>)
    ensures services == Services(components, Order(Dependencies(components)))
  {
    var remaining := Waiting(components);
    ghost var whole := Order(remaining);
    var order := [];
    while remaining != []
      invariant order + Order(remaining) == whole
      decreases |remaining|
    {
      BatchShrinks(remaining);
      var ready := Ready(remaining, Names(remaining));
      var batch := if ready != [] then ready else remaining;
      OneRound(order, remaining, batch);
      order := order + NamesInOrder(batch);
      remaining := Without(remaining, Names(batch));
    }
    services := Services(components, order);
  }

  /******* Every component exactly once *******/

  lemma {:induction false} TailUnique(entries: seq<Entry>)
    requires Unique(entries) && entries != []
    ensures Unique(entries[1..]) && entries[0].name !in Names(entries[1..])
    ensures Names(entries) == {entries[0].name} + Names(entries[1..])
  {
    forall e | e in entries[1..] ensures e.name != entries[0].name {
      var i :| 0 <= i < |entries[1..]| && entries[1..][i] == e;
      assert entries[i + 1] == e;
    }
    assert entries == [entries[0]] + entries[1..];
  }

  lemma {:induction false} ConsUnique(e: Entry, rest: seq<Entry>)
    requires Unique(rest) && e.name !in Names(rest)
    ensures Unique([e] + rest) && Names([e] + rest) == {e.name} + Names(rest)
  {
    forall i | 0 <= i < |rest| ensures rest[i].name != e.name { assert rest[i].name in Names(rest); }
  }

  lemma {:induction false} InsertIs(entries: seq<Entry>, e: Entry)
    requires Unique(entries)
    ensures Unique(Insert(entries, e)) && Names(Insert(entries, e)) == Names(entries) + {e.name}
  {
    if entries == [] {
    } else if entries[0].name == e.name {
      TailUnique(entries);
      ConsUnique(e, entries[1..]);
    } else {
      TailUnique(entries);
      InsertIs(entries[1..], e);
      ConsUnique(entries[0], Insert(entries[1..], e));
    }
  }

  lemma {:induction false} DependenciesUnique(components: seq<Component>)
    ensures Unique(Dependencies(components))
    ensures Names(Dependencies(components)) == set c | c in components :: c.name
  {
    if components != [] {
      var n := |components| - 1;
      DependenciesUnique(components[..n]);
      InsertIs(Dependencies(components[..n]), Entry(components[n].name, set d | d in components[n].dependsOn));
      assert components == components[..n] + [components[n]];
    }
  }

  predicate NoRepeats(names: seq<string>) {
    forall i, j :: 0 <= i < j < |names| ==> names[i] != names[j]
  }

  lemma {:induction false} OrderComplete(remaining: seq<Entry>)
    requires Unique(remaining)
    ensures NoRepeats(Order(remaining))
    ensures forall name :: name in Order(remaining) <==> name in Names(remaining)
    decreases |remaining|
  {
    if remaining != [] {
      BatchShrinks(remaining);
      var batch := Batch(remaining);
      var rest := Without(remaining, Names(batch));
      ReadyIs(remaining, Names(remaining));
      WithoutIs(remaining, Names(batch));
      OrderComplete(rest);
      BatchThenRest(NamesInOrder(batch), Order(rest));
      forall name ensures name in Order(remaining) <==> name in Names(remaining) {
        assert name in NamesInOrder(batch) <==> name in Names(batch);
      }
    }
  }

  lemma {:induction false} BatchThenRest(a: seq<string>, b: seq<string>)
    requires NoRepeats(a) && NoRepeats(b) && forall name :: name in b ==> name !in a
    ensures NoRepeats(a + b)
  {
    forall i, j | 0 <= i < j < |a + b| ensures (a + b)[i] != (a + b)[j] {
      if i < |a| <= j { assert (a + b)[j] == b[j - |a|] && b[j - |a|] in b && a[i] in a; }
    }
  }

  /** Every component name is started, and started once. */
  lemma {:induction false} StartsEachOnce(components: seq<Component>)
    ensures NoRepeats(Order(Dependencies(components)))
    ensures forall name :: name in Order(Dependencies(components)) <==> exists c :: c in components && c.name == name
  {
    DependenciesUnique(components);
    OrderComplete(Dependencies(components));
    forall name ensures name in Names(Dependencies(components)) <==> exists c :: c in components && c.name == name {
    }
  }

  /******* Dependencies first *******/

  /** Every way down the dependencies of `name` ends within `k` steps. */
  predicate FoundedAt(plan: seq<Entry>, name: string, k: nat)
    decreases k
  {
    name in Names(plan) ==> k > 0 && forall e :: e in plan && e.name == name ==> forall d :: d in e.deps ==> FoundedAt(plan, d, k - 1)
  }

  predicate Edge(plan: seq<Entry>, name: string, dependency: string) {
    exists e :: e in plan && e.name == name && dependency in e.deps
  }

  /** A walk down the dependencies inside the plan. */
  predicate Walk(plan: seq<Entry>, path: seq<string>) {
    && (forall i :: 0 <= i < |path| ==> path[i] in Names(plan))
    && (forall i, j :: 0 <= i && j == i + 1 < |path| ==> Edge(plan, path[i], path[j]))
  }

  /** No walk from `name` comes by the same component twice. */
  ghost predicate ReachesNoCycle(plan: seq<Entry>, name: string) {
    forall path :: path != [] && path[0] == name && Walk(plan, path) ==> NoRepeats(path)
  }

  lemma {:induction false} LongWalk(plan: seq<Entry>, name: string, k: nat) returns (path: seq<string>)
    requires !FoundedAt(plan, name, k)
    ensures |path| == k + 1 && path[0] == name && Walk(plan, path)
    decreases k
  {
    if k == 0 {
      path := [name];
    } else {
      var e, d :| e in plan && e.name == name && d in e.deps && !FoundedAt(plan, d, k - 1);
      var rest := LongWalk(plan, d, k - 1);
      path := [name] + rest;
      forall i, j | 0 <= i && j == i + 1 < |path| ensures Edge(plan, path[i], path[j]) {
        if i > 0 { assert Edge(plan, rest[i - 1], rest[j - 1]); }
      }
    }
  }

  lemma {:induction false} Pigeonhole(names: seq<string>, pool: set<string>)
    requires NoRepeats(names) && forall name :: name in names ==> name in pool
    ensures |names| <= |pool|
  {
    if names != [] {
      var n := |names| - 1;
      forall name | name in names[..n] ensures name in pool - {names[n]} {
        var i :| 0 <= i < n && names[i] == name;
      }
      Pigeonhole(names[..n], pool - {names[n]});
    }
  }

  lemma {:induction false} NamesBounded(entries: seq<Entry>)
    ensures |Names(entries)| <= |entries|
  {
    if entries != [] {
      var n := |entries| - 1;
      NamesBounded(entries[..n]);
      assert entries == entries[..n] + [entries[n]];
      assert Names(entries) == Names(entries[..n]) + {entries[n].name};
    }
  }

  /** A walk that never repeats is no longer than the plan, so what reaches no cycle is founded. */
  lemma {:induction false} NoCycleFounded(plan: seq<Entry>, name: string)
    requires ReachesNoCycle(plan, name)
    ensures FoundedAt(plan, name, |plan|)
  {
    if !FoundedAt(plan, name, |plan|) {
      var path := LongWalk(plan, name, |plan|);
      NamesBounded(plan);
      Pigeonhole(path, Names(plan));
      assert false;
    }
  }

  lemma {:induction false} FewerStayFounded(plan: seq<Entry>, fewer: seq<Entry>, name: string, k: nat)
    requires FoundedAt(plan, name, k) && forall e :: e in fewer ==> e in plan
    ensures FoundedAt(fewer, name, k)
    decreases k
  {
    if name in Names(fewer) {
      forall e | e in fewer && e.name == name ensures forall d :: d in e.deps ==> FoundedAt(fewer, d, k - 1) {
        forall d | d in e.deps ensures FoundedAt(fewer, d, k - 1) { FewerStayFounded(plan, fewer, d, k - 1); }
      }
    }
  }

  /** As long as something founded is waiting, something is ready. */
  lemma {:induction false} FoundedMeansReady(remaining: seq<Entry>, e: Entry, k: nat)
    requires e in remaining && FoundedAt(remaining, e.name, k)
    ensures Ready(remaining, Names(remaining)) != []
    decreases k
  {
    ReadyIs(remaining, Names(remaining));
    if IsReady(e, Names(remaining)) {
      assert e in Ready(remaining, Names(remaining));
    } else {
      var d :| d in e.deps && d in Names(remaining);
      var f :| f in remaining && f.name == d;
      assert FoundedAt(remaining, d, k - 1);
      FoundedMeansReady(remaining, f, k - 1);
    }
  }

  /** A founded component with a dependency still waiting starts in a later round. */
  lemma {:induction false} NotThisRound(remaining: seq<Entry>, e: Entry, d: string, k: nat, j: nat)
    requires Unique(remaining) && e in remaining && FoundedAt(remaining, e.name, k) && d in e.deps && d in Names(remaining)
    requires j < |Order(remaining)| && Order(remaining)[j] == e.name
    ensures j >= |Batch(remaining)| && e in Without(remaining, Names(Batch(remaining)))
  {
    OrderSplits(remaining);
    FoundedMeansReady(remaining, e, k);
    NotInBatch(remaining, e, d);
    WithoutIs(remaining, Names(Batch(remaining)));
  }

  lemma {:induction false} OrderSplits(remaining: seq<Entry>)
    requires remaining != []
    ensures |Without(remaining, Names(Batch(remaining)))| < |remaining|
    ensures Order(remaining) == NamesInOrder(Batch(remaining)) + Order(Without(remaining, Names(Batch(remaining))))
  {
    BatchShrinks(remaining);
  }

  lemma {:induction false} LaterRounds(remaining: seq<Entry>, rest: seq<Entry>, i: nat)
    requires Unique(remaining) && remaining != [] && rest == Without(remaining, Names(Batch(remaining)))
    requires |Batch(remaining)| <= i < |Order(remaining)|
    ensures |rest| < |remaining| && Unique(rest) && forall e :: e in rest ==> e in remaining
    ensures i - |Batch(remaining)| < |Order(rest)| && Order(remaining)[i] == Order(rest)[i - |Batch(remaining)|]
    ensures Order(remaining)[i] in Names(rest)
  {
    OrderSplits(remaining);
    WithoutIs(remaining, Names(Batch(remaining)));
    OrderComplete(rest);
    assert Order(rest)[i - |Batch(remaining)|] in Order(rest);
  }

  predicate StartsAt(order: seq<string>, i: nat, name: string) {
    i < |order| && order[i] == name
  }

  ghost predicate StartsBefore(order: seq<string>, earlier: string, later: string) {
    forall i: nat, j: nat :: StartsAt(order, i, earlier) && StartsAt(order, j, later) ==> i < j
  }

  function Rest(remaining: seq<Entry>): seq<Entry>
    requires remaining != []
  {
    Without(remaining, Names(Batch(remaining)))
  }

  lemma {:induction false} LaterRound(remaining: seq<Entry>, i: nat, name: string)
    requires Unique(remaining) && remaining != [] && StartsAt(Order(remaining), i, name) && |Batch(remaining)| <= i
    ensures StartsAt(Order(Rest(remaining)), i - |Batch(remaining)|, name)
  {
    LaterRounds(remaining, Rest(remaining), i);
  }

  /** What holds from the next round on holds from this one. */
  lemma {:induction false} RoundBefore(remaining: seq<Entry>, e: Entry, d: string, k: nat)
    requires Unique(remaining) && e in remaining && FoundedAt(remaining, e.name, k) && d in e.deps && d in Names(remaining)
    requires StartsBefore(Order(Rest(remaining)), d, e.name)
    ensures StartsBefore(Order(remaining), d, e.name)
  {
    forall i: nat, j: nat | StartsAt(Order(remaining), i, d) && StartsAt(Order(remaining), j, e.name) ensures i < j {
      NotThisRound(remaining, e, d, k, j);
      if |Batch(remaining)| <= i {
        LaterRound(remaining, i, d);
        LaterRound(remaining, j, e.name);
      }
    }
  }

  lemma {:induction false} NextRound(remaining: seq<Entry>, e: Entry, d: string, k: nat)
    requires Unique(remaining) && e in remaining && FoundedAt(remaining, e.name, k) && d in e.deps && d in Names(remaining)
    ensures |Rest(remaining)| < |remaining| && Unique(Rest(remaining)) && e in Rest(remaining) && FoundedAt(Rest(remaining), e.name, k)
  {
    OrderSplits(remaining);
    FoundedMeansReady(remaining, e, k);
    NotInBatch(remaining, e, d);
    WithoutIs(remaining, Names(Batch(remaining)));
    FewerStayFounded(remaining, Rest(remaining), e.name, k);
  }

  lemma NeverStarts(order: seq<string>, name: string)
    requires name !in order
    ensures forall i: nat :: !StartsAt(order, i, name)
  {
  }

  /** A founded component starts after its dependency, round by round. */
  lemma {:induction false} FoundedAfterDeps(remaining: seq<Entry>, e: Entry, d: string, k: nat)
    requires Unique(remaining) && e in remaining && FoundedAt(remaining, e.name, k) && d in e.deps
    ensures StartsBefore(Order(remaining), d, e.name)
    decreases |remaining|
  {
    if d in Names(remaining) {
      NextRound(remaining, e, d, k);
      FoundedAfterDeps(Rest(remaining), e, d, k);
      RoundBefore(remaining, e, d, k);
    } else {
      OrderComplete(remaining);
      NeverStarts(Order(remaining), d);
    }
  }

  lemma {:induction false} NotInBatch(remaining: seq<Entry>, e: Entry, d: string)
    requires Unique(remaining) && e in remaining && d in e.deps && d in Names(remaining)
    requires Ready(remaining, Names(remaining)) != []
    ensures e.name !in Names(Batch(remaining))
  {
    ReadyIs(remaining, Names(remaining));
    forall f | f in Batch(remaining) ensures f.name != e.name {
      var x :| 0 <= x < |remaining| && remaining[x] == e;
      var y :| 0 <= y < |remaining| && remaining[y] == f;
    }
  }

  /** A component that reaches no cycle starts after everything it depends on. */
  lemma {:induction false} DependenciesFirst(components: seq<Component>, e: Entry, d: string, i: nat, j: nat)
    requires var plan := Dependencies(components);
             && e in plan && ReachesNoCycle(plan, e.name) && d in e.deps && d in Names(plan)
             && i < |Order(plan)| && j < |Order(plan)| && Order(plan)[i] == d && Order(plan)[j] == e.name
    ensures i < j
  {
    var plan := Dependencies(components);
    DependenciesUnique(components);
    NoCycleFounded(plan, e.name);
    FoundedAfterDeps(plan, e, d, |plan|);
    assert StartsAt(Order(plan), i, d) && StartsAt(Order(plan), j, e.name);
  }

  ghost predicate Acyclic(plan: seq<Entry>) {
    forall name :: name in Names(plan) ==> ReachesNoCycle(plan, name)
  }

  predicate Topological(plan: seq<Entry>, order: seq<string>) {
    forall e, i, j :: e in plan && 0 <= i < |order| && 0 <= j < |order| && order[j] == e.name && order[i] in e.deps ==> i < j
  }

  /** The order is a topological one exactly when the plan has no cycle. */
  lemma {:induction false} TopologicalIffAcyclic(components: seq<Component>)
    ensures var plan := Dependencies(components); Topological(plan, Order(plan)) <==> Acyclic(plan)
  {
    var plan := Dependencies(components);
    DependenciesUnique(components);
    OrderComplete(plan);
    if Acyclic(plan) {
      forall e, i, j | e in plan && 0 <= i < |Order(plan)| && 0 <= j < |Order(plan)| && Order(plan)[j] == e.name && Order(plan)[i] in e.deps
        ensures i < j
      {
        assert e.name in Names(plan);
        DependenciesFirst(components, e, Order(plan)[i], i, j);
      }
    }
    if Topological(plan, Order(plan)) {
      forall name | name in Names(plan) ensures ReachesNoCycle(plan, name) {
        forall path | path != [] && path[0] == name && Walk(plan, path) ensures NoRepeats(path) {
          WalkDescends(plan, Order(plan), path);
        }
      }
    }
  }

  function IndexOf(order: seq<string>, name: string): (i: nat)
    requires name in order
    ensures i < |order| && order[i] == name
  {
    if order[0] == name then 0 else 1 + IndexOf(order[1..], name)
  }

  /** Along a walk the positions in a topological order go down, so the walk never repeats. */
  lemma {:induction false} WalkDescends(plan: seq<Entry>, order: seq<string>, path: seq<string>)
    requires Topological(plan, order) && Walk(plan, path) && forall name :: name in Names(plan) ==> name in order
    ensures NoRepeats(path)
  {
    forall i, j | 0 <= i < j < |path| ensures path[i] != path[j] {
      WalkDescendsBy(plan, order, path, i, j);
    }
  }

  lemma {:induction false} WalkDescendsBy(plan: seq<Entry>, order: seq<string>, path: seq<string>, i: nat, j: nat)
    requires Topological(plan, order) && Walk(plan, path) && forall name :: name in Names(plan) ==> name in order
    requires i < j < |path|
    ensures IndexOf(order, path[j]) < IndexOf(order, path[i])
    decreases j
  {
    if i < j - 1 { WalkDescendsBy(plan, order, path, i, j - 1); }
    assert Edge(plan, path[j - 1], path[j]);
    var e :| e in plan && e.name == path[j - 1] && path[j] in e.deps;
  }
}
