/**
 * The dependency scheduler of the sync engine: the ten entity kinds, the
 * static graph of which kinds must be synced before which, the one-level
 * expansion of a requested list by its direct dependencies, and the
 * depth-first topological sort that orders a list so that every kind
 * comes after the dependencies it shares the list with.
 */
module Scheduler {
  import Seqs

  datatype EntityType =
    | Spaces
    | Boards
    | Columns
    | Lanes
    | Users
    | CardTypes
    | PropertyDefinitions
    | Tags
    | Cards
    | TimeLogs

  /** The kind's name: its table name and its key in the graph. */
  function Name(e: EntityType): string {
    match e
    case Spaces => "spaces"
    case Boards => "boards"
    case Columns => "columns"
    case Lanes => "lanes"
    case Users => "users"
    case CardTypes => "card_types"
    case PropertyDefinitions => "property_definitions"
    case Tags => "tags"
    case Cards => "cards"
    case TimeLogs => "time_logs"
  }

  /** `DEPENDENCY_GRAPH[e]`: the kinds that must be synced before `e`. */
  function Deps(e: EntityType): seq<EntityType> {
    match e
    case Spaces => []
    case Users => []
    case CardTypes => []
    case PropertyDefinitions => []
    case Tags => []
    case Boards => [Spaces, Users]
    case Columns => [Boards]
    case Lanes => [Boards]
    case Cards => [Boards, Columns, Lanes, Users, CardTypes]
    case TimeLogs => [Cards, Users]
  }

  /** `Object.keys(DEPENDENCY_GRAPH)`: the graph's keys in the order the literal lists them. */
  const GraphKeys: seq<EntityType> := [Spaces, Users, CardTypes, PropertyDefinitions, Tags, Boards, Columns, Lanes, Cards, TimeLogs]

  /** The kinds whose failure stops a run: `['spaces', 'boards', 'columns', 'lanes']`. */
  predicate Foundational(e: EntityType) {
    e in [Spaces, Boards, Columns, Lanes]
  }

  /** The length of the longest dependency chain below a kind. */
  function Rank(e: EntityType): nat {
    match e
    case Spaces => 0
    case Users => 0
    case CardTypes => 0
    case PropertyDefinitions => 0
    case Tags => 0
    case Boards => 1
    case Columns => 2
    case Lanes => 2
    case Cards => 3
    case TimeLogs => 4
  }

  /** The graph is acyclic: every dependency has a smaller rank than its dependent. */
  lemma DepsLowerRank(e: EntityType)
    ensures forall d :: d in Deps(e) ==> Rank(d) < Rank(e)
  {
  }

  /** The graph's keys are all ten kinds, each once, and the names are distinct. */
  lemma GraphKeysComplete()
    ensures forall e :: e in GraphKeys
    ensures Seqs.NoDup(GraphKeys)
    ensures forall a, b :: Name(a) == Name(b) ==> a == b
  {
    forall e ensures e in GraphKeys {
      var k := match e
        case Spaces => 0 case Users => 1 case CardTypes => 2 case PropertyDefinitions => 3 case Tags => 4
        case Boards => 5 case Columns => 6 case Lanes => 7 case Cards => 8 case TimeLogs => 9;
      assert GraphKeys[k] == e;
    }
  }

  /** Two different kinds have different names. */
  lemma NameInjective(a: EntityType, b: EntityType)
    requires a != b
    ensures Name(a) != Name(b)
  {
    GraphKeysComplete();
  }

  // ---------------------------------------------------------------------
  // resolveDependencies

  /** The direct dependencies of every kind of the list, one list after another. */
  function AllDeps(es: seq<EntityType>): seq<EntityType> {
    if es == [] then [] else AllDeps(es[..|es| - 1]) + Deps(es[|es| - 1])
  }

  lemma {:induction false} AllDepsMembers(es: seq<EntityType>)
    ensures forall x :: x in AllDeps(es) <==> exists e :: e in es && x in Deps(e)
  {
    if es != [] {
      var init := es[..|es| - 1];
      AllDepsMembers(init);
      assert es == init + [es[|es| - 1]];
    }
  }

  /** `new Set(entities)` with every direct dependency added, in insertion order. */
  function Resolved(entities: seq<EntityType>): seq<EntityType> {
    Seqs.AddAll(Seqs.Distinct(entities), AllDeps(entities))
  }

  /**
   * The resolved list holds every requested kind and every direct
   * dependency of one, each once; the requested kinds come first, in the
   * order of their first occurrence.
   */
  lemma ResolvedProperties(entities: seq<EntityType>)
    ensures Seqs.NoDup(Resolved(entities))
    ensures forall x :: x in Resolved(entities) <==> x in entities || exists e :: e in entities && x in Deps(e)
    ensures |Seqs.Distinct(entities)| <= |Resolved(entities)|
    ensures Resolved(entities)[..|Seqs.Distinct(entities)|] == Seqs.Distinct(entities)
  {
    Seqs.DistinctProperties(entities);
    Seqs.AddAllNoDup(Seqs.Distinct(entities), AllDeps(entities));
    AllDepsMembers(entities);
  }

  /** The expansion is one level deep: `time_logs` brings `cards` and `users`, not what `cards` needs. */
  lemma ResolveTimeLogs()
    ensures Resolved([TimeLogs]) == [TimeLogs, Cards, Users]
  {
    assert [TimeLogs][..0] == [];
    assert AllDeps([TimeLogs]) == [Cards, Users];
    assert Seqs.Distinct([TimeLogs]) == [TimeLogs];
  }

  /** `resolveDependencies(entities)`: the `Set` filled by the two nested `forEach` loops. */
  method ResolveDependencies(entities: seq<EntityType>) returns (r: seq<EntityType>)
    ensures r == Resolved(entities)
  {
    var start := Seqs.Distinct(entities);
    var resolved := start;
    var i := 0;
    assert entities[..0] == [];
    while i < |entities|
      invariant 0 <= i <= |entities|
      invariant resolved == Seqs.AddAll(start, AllDeps(entities[..i]))
    {
      resolved := AddDeps(start, AllDeps(entities[..i]), Deps(entities[i]), resolved);
      assert entities[..i + 1][..i] == entities[..i];
      i := i + 1;
    }
    assert entities[..i] == entities;
    r := resolved;
  }

  /** `deps.forEach(dep => resolved.add(dep))` on a set that already holds `before`'s additions. */
  method AddDeps(start: seq<EntityType>, before: seq<EntityType>, deps: seq<EntityType>, resolved: seq<EntityType>)
    returns (r: seq<EntityType>)
    requires resolved == Seqs.AddAll(start, before)
    ensures r == Seqs.AddAll(start, before + deps)
  {
    r := resolved;
    var j := 0;
    assert before + deps[..0] == before;
    while j < |deps|
      invariant 0 <= j <= |deps|
      invariant r == Seqs.AddAll(start, before + deps[..j])
    {
      AddDepStep(start, before, deps, j);
      if deps[j] !in r {
        r := r + [deps[j]];
      }
      j := j + 1;
    }
    assert deps[..j] == deps;
  }

  /** One more dependency of the inner loop: kept when already present, appended otherwise. */
  lemma AddDepStep(start: seq<EntityType>, before: seq<EntityType>, deps: seq<EntityType>, j: nat)
    requires j < |deps|
    ensures var r := Seqs.AddAll(start, before + deps[..j]);
      Seqs.AddAll(start, before + deps[..j + 1]) == if deps[j] in r then r else r + [deps[j]]
  {
    assert before + deps[..j + 1] == (before + deps[..j]) + [deps[j]];
    Seqs.AddAllOne(start, before + deps[..j], deps[j]);
  }

  // ---------------------------------------------------------------------
  // topologicalSort

  /** Every dependency of a listed kind that is also in `entities` is listed before it. */
  ghost predicate DepsBefore(entities: seq<EntityType>, sorted: seq<EntityType>) {
    forall i, d :: 0 <= i < |sorted| && d in Deps(sorted[i]) && d in entities ==> d in sorted[..i]
  }

  /**
   * The state of the sort between two steps: `sorted` has no repetitions
   * and respects the dependencies, everything sorted has been visited,
   * and everything visited is from the input.
   */
  ghost predicate SortState(entities: seq<EntityType>, visited: set<EntityType>, sorted: seq<EntityType>) {
    && Seqs.NoDup(sorted)
    && (forall x :: x in sorted ==> x in visited)
    && (forall x :: x in visited ==> x in entities)
    && DepsBefore(entities, sorted)
  }

  lemma DepsBeforeSnoc(entities: seq<EntityType>, sorted: seq<EntityType>, e: EntityType)
    requires DepsBefore(entities, sorted)
    requires forall d :: d in Deps(e) && d in entities ==> d in sorted
    ensures DepsBefore(entities, sorted + [e])
  {
    var s := sorted + [e];
    forall i, d | 0 <= i < |s| && d in Deps(s[i]) && d in entities ensures d in s[..i] {
      if i < |sorted| {
        assert s[..i] == sorted[..i];
      } else {
        assert s[..i] == sorted;
      }
    }
  }

  /** The first `j` dependencies that are in the input have been pushed. */
  ghost predicate Covers(entities: seq<EntityType>, deps: seq<EntityType>, j: nat, sorted: seq<EntityType>) {
    forall k :: 0 <= k < j && k < |deps| && deps[k] in entities ==> deps[k] in sorted
  }

  /** The inner loop of `visit` keeps what it pushed and adds dependency `j` when it is in the input. */
  lemma CoversStep(entities: seq<EntityType>, deps: seq<EntityType>, j: nat, mid: seq<EntityType>, sorted: seq<EntityType>)
    requires j < |deps| && Covers(entities, deps, j, mid)
    requires forall x :: x in mid ==> x in sorted
    requires deps[j] in entities ==> deps[j] in sorted
    ensures Covers(entities, deps, j + 1, sorted)
  {
  }

  /**
   * `visit(e)`: a visited kind is skipped; otherwise it is marked, its
   * dependencies that are in the input are visited first, and it is
   * pushed. The kinds marked but not yet pushed are the ones whose visit
   * is in progress; they all rank above `e`, so the recursion never meets
   * one of them again.
   */
  method Visit(entities: seq<EntityType>, e: EntityType, visited: set<EntityType>, sorted: seq<EntityType>)
    returns (visited': set<EntityType>, sorted': seq<EntityType>)
    requires e in entities && SortState(entities, visited, sorted)
    requires forall x :: x in visited && x !in sorted ==> Rank(x) > Rank(e)
    ensures SortState(entities, visited', sorted')
    ensures e in sorted'
    ensures |sorted| <= |sorted'| && sorted'[..|sorted|] == sorted
    ensures visited <= visited'
    ensures forall x :: x in visited' && x !in sorted' <==> x in visited && x !in sorted
    decreases Rank(e)
  {
    if e in visited {
      return visited, sorted;
    }
    visited' := visited + {e};
    sorted' := sorted;
    var deps := Deps(e);
    DepsLowerRank(e);
    var j := 0;
    while j < |deps|
      invariant 0 <= j <= |deps|
      invariant SortState(entities, visited', sorted')
      invariant e in visited' && e !in sorted'
      invariant |sorted| <= |sorted'| && sorted'[..|sorted|] == sorted
      invariant visited <= visited'
      invariant forall x :: x in visited' && x !in sorted' <==> (x in visited && x !in sorted) || x == e
      invariant Covers(entities, deps, j, sorted')
    {
      ghost var mid := sorted';
      if deps[j] in entities {
        visited', sorted' := Visit(entities, deps[j], visited', sorted');
        assert sorted'[..|sorted|] == mid[..|sorted|];
        assert forall x :: x in mid ==> x in sorted';
      }
      CoversStep(entities, deps, j, mid, sorted');
      j := j + 1;
    }
    assert forall d :: d in deps && d in entities ==> d in sorted';
    DepsBeforeSnoc(entities, sorted', e);
    assert (sorted' + [e])[..|sorted|] == sorted'[..|sorted|];
    sorted' := sorted' + [e];
  }

  /**
   * `topologicalSort(entities)`: each input kind exactly once, nothing
   * else, and every dependency that is also in the input before its
   * dependent.
   */
  method TopologicalSort(entities: seq<EntityType>) returns (sorted: seq<EntityType>)
    ensures Seqs.NoDup(sorted)
    ensures forall x :: x in sorted <==> x in entities
    ensures multiset(sorted) == multiset(Seqs.Distinct(entities))
    ensures DepsBefore(entities, sorted)
  {
    var visited: set<EntityType> := {};
    sorted := [];
    var i := 0;
    while i < |entities|
      invariant 0 <= i <= |entities|
      invariant SortState(entities, visited, sorted)
      invariant forall x :: x in visited <==> x in sorted
      invariant forall k :: 0 <= k < i ==> entities[k] in sorted
    {
      ghost var before := sorted;
      visited, sorted := Visit(entities, entities[i], visited, sorted);
      assert forall x :: x in before ==> x in sorted by {
        forall x | x in before ensures x in sorted {
          var k :| 0 <= k < |before| && before[k] == x;
          assert sorted[..|before|][k] == x;
        }
      }
      i := i + 1;
    }
    Seqs.DistinctProperties(entities);
    Seqs.NoDupSameElements(sorted, Seqs.Distinct(entities));
  }
}
