/** Choosing a codec from the struct tags of a type: a depth-first search over a graph of types, which may
    be cyclic, with a set of seen types shared by the whole search. */
module StructTags {
  import opened Wrappers

  type TypeId = nat

  /** A tag that is absent reads as the empty string. */
  datatype Field = Field(tags: map<string, string>, typ: TypeId)

  datatype Type = Struct(fields: seq<Field>) | Pointer(elem: TypeId) | Other

  type Graph = map<TypeId, Type>

  predicate Closed(g: Graph) {
    forall t :: t in g ==>
      match g[t]
      case Struct(fields) => forall i :: 0 <= i < |fields| ==> fields[i].typ in g
      case Pointer(elem) => elem in g
      case Other => true
  }

  predicate HasTag(f: Field, tag: string) {
    tag in f.tags && f.tags[tag] != ""
  }

  predicate Tagged(g: Graph, t: TypeId, tag: string) {
    t in g && g[t].Struct? && exists i :: 0 <= i < |g[t].fields| && HasTag(g[t].fields[i], tag)
  }

  // ----- reachability through struct and pointer fields -----

  predicate Edge(g: Graph, a: TypeId, b: TypeId) {
    && a in g
    && match g[a]
       case Struct(fields) => exists i :: 0 <= i < |fields| && fields[i].typ == b
       case Pointer(elem) => elem == b
       case Other => false
  }

  ghost predicate ReachesIn(g: Graph, a: TypeId, b: TypeId, steps: nat)
    decreases steps
  {
    if steps == 0 then a == b else exists m :: Edge(g, a, m) && ReachesIn(g, m, b, steps - 1)
  }

  ghost predicate Reaches(g: Graph, a: TypeId, b: TypeId) {
    exists steps :: ReachesIn(g, a, b, steps)
  }

  lemma {:induction false} ReachesInTrans(g: Graph, a: TypeId, b: TypeId, c: TypeId, m: nat, n: nat)
    requires ReachesIn(g, a, b, m) && ReachesIn(g, b, c, n)
    ensures ReachesIn(g, a, c, m + n)
    decreases m
  {
    if m > 0 {
      var x :| Edge(g, a, x) && ReachesIn(g, x, b, m - 1);
      ReachesInTrans(g, x, b, c, m - 1, n);
    }
  }

  lemma ReachesTrans(g: Graph, a: TypeId, b: TypeId, c: TypeId)
    requires Reaches(g, a, b) && Reaches(g, b, c)
    ensures Reaches(g, a, c)
  {
    var m: nat :| ReachesIn(g, a, b, m);
    var n: nat :| ReachesIn(g, b, c, n);
    ReachesInTrans(g, a, b, c, m, n);
  }

  lemma ReachesSelf(g: Graph, a: TypeId)
    ensures Reaches(g, a, a)
  {
    assert ReachesIn(g, a, a, 0);
  }

  lemma ReachesEdge(g: Graph, a: TypeId, b: TypeId)
    requires Edge(g, a, b)
    ensures Reaches(g, a, b)
  {
    assert ReachesIn(g, b, b, 0);
    assert ReachesIn(g, a, b, 1);
  }

  /** The answer the search is for. */
  ghost predicate TagReachable(g: Graph, t: TypeId, tag: string) {
    exists s :: Reaches(g, t, s) && Tagged(g, s, tag)
  }

  // ----- stripping pointers -----

  function Deref(g: Graph, t: TypeId, n: nat): TypeId
    decreases n
  {
    if n == 0 || t !in g || !g[t].Pointer? then t else Deref(g, g[t].elem, n - 1)
  }

  predicate IsPointer(g: Graph, t: TypeId) {
    t in g && g[t].Pointer?
  }

  ghost predicate Ends(g: Graph, t: TypeId) {
    exists n :: !IsPointer(g, Deref(g, t, n))
  }

  /** No type is a pointer to a pointer and so on for ever, as `type T *T` is; `NoCyclesExactly` says when. */
  ghost predicate NoPointerCycles(g: Graph) {
    forall t :: t in g ==> Ends(g, t)
  }

  ghost function Base(g: Graph, t: TypeId): TypeId
    requires Ends(g, t)
  {
    var n :| !IsPointer(g, Deref(g, t, n));
    Deref(g, t, n)
  }

  lemma {:induction false} DerefStops(g: Graph, t: TypeId, n: nat, m: nat)
    requires !IsPointer(g, Deref(g, t, n)) && !IsPointer(g, Deref(g, t, m))
    ensures Deref(g, t, n) == Deref(g, t, m)
    decreases n
  {
    if n > 0 && m > 0 && IsPointer(g, t) {
      DerefStops(g, g[t].elem, n - 1, m - 1);
    }
  }

  lemma BaseOfPointer(g: Graph, t: TypeId)
    requires Ends(g, t)
    ensures if IsPointer(g, t) then Ends(g, g[t].elem) && Base(g, t) == Base(g, g[t].elem) else Base(g, t) == t
  {
    var n: nat :| !IsPointer(g, Deref(g, t, n)) && Base(g, t) == Deref(g, t, n);
    if IsPointer(g, t) {
      assert Deref(g, t, n) == Deref(g, g[t].elem, n - 1);
      var m: nat :| !IsPointer(g, Deref(g, g[t].elem, m)) && Base(g, g[t].elem) == Deref(g, g[t].elem, m);
      DerefStops(g, g[t].elem, n - 1, m);
    }
  }

  lemma {:induction false} DerefAdds(g: Graph, t: TypeId, n: nat, m: nat)
    ensures Deref(g, t, n + m) == Deref(g, Deref(g, t, n), m)
    decreases n
  {
    if n > 0 && IsPointer(g, t) {
      DerefAdds(g, g[t].elem, n - 1, m);
    }
  }

  /** A pointer that leads back to itself. */
  ghost predicate OnPointerCycle(g: Graph, t: TypeId) {
    IsPointer(g, t) && exists n: nat :: n > 0 && Deref(g, t, n) == t
  }

  lemma {:induction false} AroundTheCycle(g: Graph, t: TypeId, n: nat, m: nat)
    requires n > 0 && Deref(g, t, n) == t && IsPointer(g, t)
    ensures IsPointer(g, Deref(g, t, m))
    decreases m
  {
    if m > n {
      DerefAdds(g, t, n, m - n);
      AroundTheCycle(g, t, n, m - n);
    } else {
      DerefAdds(g, t, m, n - m);
    }
  }

  /** Stripping never ends for a type on a cycle of pointers. */
  lemma CycleNeverEnds(g: Graph, t: TypeId)
    requires OnPointerCycle(g, t)
    ensures !Ends(g, t)
  {
    var n: nat :| n > 0 && Deref(g, t, n) == t;
    forall m: nat
      ensures IsPointer(g, Deref(g, t, m))
    {
      AroundTheCycle(g, t, n, m);
    }
  }

  lemma {:induction false} Pigeonhole(types: set<TypeId>, chain: seq<TypeId>) returns (i: nat, j: nat)
    requires |chain| > |types| && forall k :: 0 <= k < |chain| ==> chain[k] in types
    ensures i < j < |chain| && chain[i] == chain[j]
    decreases |chain|
  {
    if j' :| 0 < j' < |chain| && chain[j'] == chain[0] {
      i, j := 0, j';
    } else {
      i, j := Pigeonhole(types - {chain[0]}, chain[1..]);
      i, j := i + 1, j + 1;
    }
  }

  /** On a finite graph, a chain of pointers that never ends runs into a cycle. */
  lemma EndlessRunsIntoCycle(g: Graph, t: TypeId) returns (u: TypeId)
    requires !Ends(g, t)
    ensures OnPointerCycle(g, u) && exists n: nat :: Deref(g, t, n) == u
  {
    hide Deref;
    var chain := seq(|g.Keys| + 1, k requires 0 <= k => Deref(g, t, k));
    forall k | 0 <= k < |chain|
      ensures chain[k] in g.Keys
    {
      assert IsPointer(g, Deref(g, t, k));
    }
    var i, j := Pigeonhole(g.Keys, chain);
    u := Deref(g, t, i);
    DerefAdds(g, t, i, j - i);
    assert IsPointer(g, Deref(g, t, i));
  }

  /** Stripping ends for every type of a graph exactly when no type is on a cycle of pointers. */
  lemma NoCyclesExactly(g: Graph)
    requires Closed(g)
    ensures NoPointerCycles(g) <==> forall t :: t in g ==> !OnPointerCycle(g, t)
  {
    hide Ends;
    hide OnPointerCycle;
    if t :| t in g && !Ends(g, t) {
      var u := EndlessRunsIntoCycle(g, t);
      OnCycleInGraph(g, u);
    }
    if t :| t in g && OnPointerCycle(g, t) {
      CycleNeverEnds(g, t);
    }
  }

  lemma OnCycleInGraph(g: Graph, t: TypeId)
    requires OnPointerCycle(g, t)
    ensures t in g
  {}

  // ----- what a search that found nothing has seen -----

  ghost predicate Settled(g: Graph, t: TypeId, seen: set<TypeId>)
    requires Ends(g, t)
  {
    Base(g, t) in g && g[Base(g, t)].Struct? ==> Base(g, t) in seen
  }

  predicate IsStruct(g: Graph, t: TypeId) {
    t in g && g[t].Struct?
  }

  /** The first fields of a struct carry no tag and their types have been looked at. */
  ghost predicate CleanTo(g: Graph, t: TypeId, tag: string, seen: set<TypeId>, n: nat)
    requires Closed(g) && NoPointerCycles(g) && IsStruct(g, t) && n <= |g[t].fields|
  {
    forall i :: 0 <= i < n ==> !HasTag(g[t].fields[i], tag) && Settled(g, g[t].fields[i].typ, seen)
  }

  ghost predicate Clean(g: Graph, t: TypeId, tag: string, seen: set<TypeId>)
    requires Closed(g) && NoPointerCycles(g)
  {
    IsStruct(g, t) && CleanTo(g, t, tag, seen, |g[t].fields|)
  }

  ghost predicate AllClean(g: Graph, types: set<TypeId>, tag: string, seen: set<TypeId>)
    requires Closed(g) && NoPointerCycles(g)
  {
    forall t :: t in types ==> Clean(g, t, tag, seen)
  }

  lemma CleanMore(g: Graph, types: set<TypeId>, tag: string, seen: set<TypeId>, more: set<TypeId>)
    requires Closed(g) && NoPointerCycles(g) && AllClean(g, types, tag, seen) && seen <= more
    ensures AllClean(g, types, tag, more)
  {
    hide Ends;
    hide Base;
    forall t | t in types
      ensures Clean(g, t, tag, more)
    {
      assert Clean(g, t, tag, seen);
    }
  }

  lemma SettledStep(g: Graph, tag: string, seen: set<TypeId>, a: TypeId, b: TypeId)
    requires Closed(g) && NoPointerCycles(g) && AllClean(g, seen, tag, seen)
    requires a in g && Edge(g, a, b) && Settled(g, a, seen)
    ensures b in g && Settled(g, b, seen)
  {
    hide Ends;
    hide Base;
    BaseOfPointer(g, a);
    if IsStruct(g, a) {
      assert Clean(g, a, tag, seen);
    }
  }

  lemma {:induction false} SettledReach(g: Graph, tag: string, seen: set<TypeId>, a: TypeId, b: TypeId, steps: nat)
    requires Closed(g) && NoPointerCycles(g) && AllClean(g, seen, tag, seen)
    requires a in g && Settled(g, a, seen) && ReachesIn(g, a, b, steps)
    ensures b in g && Settled(g, b, seen)
    decreases steps
  {
    hide Ends;
    hide Settled;
    hide Closed;
    hide AllClean;
    if steps > 0 {
      var m :| Edge(g, a, m) && ReachesIn(g, m, b, steps - 1);
      SettledStep(g, tag, seen, a, m);
      SettledReach(g, tag, seen, m, b, steps - 1);
    }
  }

  lemma SettledIsUntagged(g: Graph, t: TypeId, tag: string, seen: set<TypeId>)
    requires Closed(g) && NoPointerCycles(g) && t in g && AllClean(g, seen, tag, seen) && Settled(g, t, seen)
    ensures !Tagged(g, t, tag)
  {
    BaseOfPointer(g, t);
    if IsStruct(g, t) {
      assert Clean(g, t, tag, seen);
    }
  }

  /** A set of seen types that is clean and closed leaves no tag to be found. */
  lemma NothingToFind(g: Graph, t: TypeId, tag: string, seen: set<TypeId>)
    requires Closed(g) && NoPointerCycles(g) && t in g && AllClean(g, seen, tag, seen) && Settled(g, t, seen)
    ensures !TagReachable(g, t, tag)
  {
    if TagReachable(g, t, tag) {
      var s :| Reaches(g, t, s) && Tagged(g, s, tag);
      var steps: nat :| ReachesIn(g, t, s, steps);
      SettledReach(g, tag, seen, t, s, steps);
      SettledIsUntagged(g, s, tag, seen);
    }
  }

  lemma FoundBelow(g: Graph, t: TypeId, u: TypeId, tag: string)
    requires Reaches(g, t, u) && TagReachable(g, u, tag)
    ensures TagReachable(g, t, tag)
  {
    var s :| Reaches(g, u, s) && Tagged(g, s, tag);
    ReachesTrans(g, t, u, s);
  }

  // ----- the search -----

  /** The pointer-stripping loop of the search and of the inference. */
  method Strip(g: Graph, t: TypeId) returns (u: TypeId)
    requires Closed(g) && NoPointerCycles(g) && t in g
    ensures u in g && !g[u].Pointer? && u == Base(g, t) && Reaches(g, t, u)
  {
    hide Ends;
    hide Base;
    u := t;
    ghost var n := Steps(g, t);
    ReachesSelf(g, t);
    while g[u].Pointer?
      invariant u in g && Base(g, u) == Base(g, t) && Reaches(g, t, u)
      invariant !IsPointer(g, Deref(g, u, n))
      decreases n
    {
      BaseOfPointer(g, u);
      ReachesEdge(g, u, g[u].elem);
      ReachesTrans(g, t, u, g[u].elem);
      assert n > 0 && Deref(g, u, n) == Deref(g, g[u].elem, n - 1);
      u := g[u].elem;
      n := n - 1;
    }
    BaseOfPointer(g, u);
  }

  ghost function Steps(g: Graph, t: TypeId): (n: nat)
    requires Ends(g, t)
    ensures !IsPointer(g, Deref(g, t, n))
  {
    var n :| !IsPointer(g, Deref(g, t, n));
    n
  }

  /** The map the calls of one search share. */
  class Seen {
    var types: set<TypeId>

    constructor ()
      ensures types == {}
    {
      types := {};
    }
  }

  method HasStructTag(g: Graph, t: TypeId, tag: string, seen: Seen) returns (found: bool)
    requires Closed(g) && NoPointerCycles(g) && t in g && seen.types <= g.Keys
    modifies seen
    ensures old(seen.types) <= seen.types <= g.Keys
    ensures found ==> TagReachable(g, t, tag)
    ensures !found ==> AllClean(g, seen.types - old(seen.types), tag, seen.types)
    ensures !found && g[t].Struct? ==> t in seen.types
    decreases g.Keys - seen.types
  {
    if !g[t].Struct? {
      return false;
    }
    if t in seen.types {
      return false;
    }
    ghost var before := seen.types;
    seen.types := seen.types + {t};
    var fields := g[t].fields;
    var i := 0;
    while i < |fields|
      invariant i <= |fields|
      invariant before + {t} <= seen.types <= g.Keys
      invariant CleanTo(g, t, tag, seen.types, i)
      invariant AllClean(g, seen.types - before - {t}, tag, seen.types)
    {
      ReachesSelf(g, t);
      if HasTag(fields[i], tag) {
        return true;
      }
      ghost var now := seen.types;
      ReachesEdge(g, t, fields[i].typ);
      var ft := Strip(g, fields[i].typ);
      ReachesTrans(g, t, fields[i].typ, ft);
      var below := HasStructTag(g, ft, tag, seen);
      if below {
        FoundBelow(g, t, ft, tag);
        return true;
      }
      CleanMore(g, now - before - {t}, tag, now, seen.types);
      i := i + 1;
    }
    return false;
  }

  // ----- choosing the codec -----

  datatype CodecType = CodecMsgpack | CodecJson | CodecYaml | CodecStream | CodecUnknown

  /** `streams` tells whether the type, or a pointer to it, is a reader or a stream source. */
  method InferCodecType(g: Graph, t: Option<TypeId>, streams: bool) returns (codec: CodecType)
    requires Closed(g) && NoPointerCycles(g) && (t.Some? ==> t.value in g)
    ensures codec == CodecStream <==> t.Some? && streams
    ensures codec == CodecMsgpack <==> t.Some? && !streams && TagReachable(g, t.value, "msgpack")
    ensures codec == CodecJson <==>
              && t.Some? && !streams && TagReachable(g, t.value, "json") && !TagReachable(g, t.value, "msgpack")
    ensures codec == CodecYaml <==>
              && t.Some? && !streams && TagReachable(g, t.value, "yaml")
              && !TagReachable(g, t.value, "json") && !TagReachable(g, t.value, "msgpack")
  {
    if t == None {
      return CodecUnknown;
    }
    if streams {
      return CodecStream;
    }
    var u := Strip(g, t.value);
    var found := Search(g, t.value, u, "msgpack");
    if found {
      return CodecMsgpack;
    }
    found := Search(g, t.value, u, "json");
    if found {
      return CodecJson;
    }
    found := Search(g, t.value, u, "yaml");
    if found {
      return CodecYaml;
    }
    return CodecUnknown;
  }

  lemma TagInField(g: Graph, t: TypeId, tag: string)
    ensures TagReachable(g, t, tag) <==>
              exists x, i ::
                && Reaches(g, t, x) && x in g && g[x].Struct? && 0 <= i < |g[x].fields|
                && tag in g[x].fields[i].tags && g[x].fields[i].tags[tag] != ""
  {
    hide Reaches;
    if TagReachable(g, t, tag) {
      var x :| Reaches(g, t, x) && Tagged(g, x, tag);
      var i :| 0 <= i < |g[x].fields| && HasTag(g[x].fields[i], tag);
      assert tag in g[x].fields[i].tags;
    }
    if x, i :| Reaches(g, t, x) && x in g && g[x].Struct? && 0 <= i < |g[x].fields|
               && tag in g[x].fields[i].tags && g[x].fields[i].tags[tag] != "" {
      assert HasTag(g[x].fields[i], tag);
      assert Tagged(g, x, tag);
    }
  }

  /** One search, with a map of its own, from a type whose pointers have been stripped. */
  method Search(g: Graph, t: TypeId, u: TypeId, tag: string) returns (found: bool)
    requires Closed(g) && NoPointerCycles(g) && t in g && u in g
    requires u == Base(g, t) && !g[u].Pointer? && Reaches(g, t, u)
    ensures found <==> TagReachable(g, t, tag)
    ensures found <==>
              exists x, i ::
                && Reaches(g, t, x) && x in g && g[x].Struct? && 0 <= i < |g[x].fields|
                && tag in g[x].fields[i].tags && g[x].fields[i].tags[tag] != ""
  {
    TagInField(g, t, tag);
    var seen := new Seen();
    found := HasStructTag(g, u, tag, seen);
    if found {
      FoundBelow(g, t, u, tag);
    } else {
      assert seen.types - {} == seen.types;
      NothingToFind(g, t, tag, seen.types);
    }
  }
}
