/** Event dispatch of the client: the handler for an event is looked for in the tables registered for the class of the
    object and its bases, with a worklist. */
module Dispatch {
  import opened Wrappers

  // A class with its bases, left to right.
  datatype Class = Class(name: string, bases: seq<Class>)

  datatype Handler = Handler(method_: string, parameters: seq<string>)

  // REGISTERED_METHODS: class, then event.
  type Registry = map<Class, map<string, Handler>>

  // A class without a table, or with an empty one, is passed over together with its bases.
  predicate Registered(registry: Registry, c: Class) {
    c in registry && registry[c] != map[]
  }

  // Left-to-right search in pre-order.
  function Find(registry: Registry, c: Class, event: string): Option<Handler> {
    if !Registered(registry, c) then None
    else if event in registry[c] then Some(registry[c][event])
    else FindFirst(registry, c.bases, event)
  }

  function FindFirst(registry: Registry, classes: seq<Class>, event: string): Option<Handler> {
    if classes == [] then None
    else
      var found := Find(registry, classes[0], event);
      if found.Some? then found else FindFirst(registry, classes[1..], event)
  }

  lemma {:induction false} FindFirstConcat(registry: Registry, a: seq<Class>, b: seq<Class>, event: string)
    ensures FindFirst(registry, a + b, event) ==
            if FindFirst(registry, a, event).Some? then FindFirst(registry, a, event) else FindFirst(registry, b, event)
  {
    if a == [] {
      assert a + b == b;
    } else {
      assert (a + b)[0] == a[0] && (a + b)[1..] == a[1..] + b;
      FindFirstConcat(registry, a[1..], b, event);
    }
  }

  // ----- what the search finds -----

  // A chain from a class up to a base, through classes that all have a table, to one that knows the event.
  ghost predicate Chain(registry: Registry, path: seq<Class>, c: Class, event: string) {
    && path != [] && path[0] == c
    && (forall i :: 0 <= i < |path| - 1 ==> path[i + 1] in path[i].bases)
    && (forall i :: 0 <= i < |path| ==> path[i] in registry && registry[path[i]] != map[])
    && event in registry[path[|path| - 1]]
  }

  lemma {:induction false} FoundHasChain(registry: Registry, c: Class, event: string) returns (path: seq<Class>)
    requires Find(registry, c, event).Some?
    ensures Chain(registry, path, c, event)
    ensures Find(registry, c, event) == Some(registry[path[|path| - 1]][event])
    decreases c
  {
    path := [c];
    if event !in registry[c] {
      var i := FirstFound(registry, c.bases, event);
      assert c.bases[i] in c.bases;
      var rest := FoundHasChain(registry, c.bases[i], event);
      path := [c] + rest;
    }
  }

  lemma {:induction false} FirstFound(registry: Registry, classes: seq<Class>, event: string) returns (i: nat)
    requires FindFirst(registry, classes, event).Some?
    ensures i < |classes| && FindFirst(registry, classes, event) == Find(registry, classes[i], event)
    ensures forall j :: 0 <= j < i ==> Find(registry, classes[j], event) == None
  {
    if Find(registry, classes[0], event).Some? {
      i := 0;
    } else {
      var k := FirstFound(registry, classes[1..], event);
      i := k + 1;
      forall j | 0 <= j < i ensures Find(registry, classes[j], event) == None {
        if j > 0 {
          assert classes[j] == classes[1..][j - 1];
        }
      }
    }
  }

  lemma {:induction false} FoundInList(registry: Registry, classes: seq<Class>, i: nat, event: string)
    requires i < |classes| && Find(registry, classes[i], event).Some?
    ensures FindFirst(registry, classes, event).Some?
  {
    if i > 0 {
      FoundInList(registry, classes[1..], i - 1, event);
    }
  }

  lemma {:induction false} ChainIsFound(registry: Registry, path: seq<Class>, c: Class, event: string)
    requires Chain(registry, path, c, event)
    ensures Find(registry, c, event).Some?
    decreases |path|
  {
    if |path| > 1 {
      ChainIsFound(registry, path[1..], path[1], event);
      var i :| 0 <= i < |c.bases| && c.bases[i] == path[1];
      FoundInList(registry, c.bases, i, event);
    }
  }

  // A handler is found exactly when some class that knows the event can be reached through registered classes only.
  lemma FoundExactly(registry: Registry, c: Class, event: string)
    ensures Find(registry, c, event).Some? <==> exists path :: Chain(registry, path, c, event)
  {
    if Find(registry, c, event).Some? {
      var path := FoundHasChain(registry, c, event);
    }
    if path :| Chain(registry, path, c, event) {
      ChainIsFound(registry, path, c, event);
    }
  }

  // ----- which one it finds -----

  ghost predicate NoChain(registry: Registry, c: Class, event: string) {
    forall path :: !Chain(registry, path, c, event)
  }

  // A class goes before its bases, and a base before those to its right: no class before the last knows the event, and
  // no base to the left of the one taken leads to a class that does.
  ghost predicate FirstChain(registry: Registry, path: seq<Class>, c: Class, event: string) {
    && Chain(registry, path, c, event)
    && forall i :: 0 <= i < |path| - 1 ==>
                     event !in registry[path[i]] && TakesFirst(registry, path[i], path[i + 1], event)
  }

  ghost predicate TakesFirst(registry: Registry, c: Class, base: Class, event: string) {
    exists j :: 0 <= j < |c.bases| && c.bases[j] == base &&
                forall k :: 0 <= k < j ==> NoChain(registry, c.bases[k], event)
  }

  lemma {:induction false} FoundIsFirst(registry: Registry, c: Class, event: string) returns (path: seq<Class>)
    requires Find(registry, c, event).Some?
    ensures FirstChain(registry, path, c, event)
    ensures Find(registry, c, event) == Some(registry[path[|path| - 1]][event])
    decreases c
  {
    path := [c];
    if event !in registry[c] {
      var j := FirstFound(registry, c.bases, event);
      assert c.bases[j] in c.bases;
      forall k | 0 <= k < j ensures NoChain(registry, c.bases[k], event) {
        FoundExactly(registry, c.bases[k], event);
      }
      assert TakesFirst(registry, c, c.bases[j], event);
      var rest := FoundIsFirst(registry, c.bases[j], event);
      path := [c] + rest;
    }
  }

  // There is no more than one such path.
  lemma {:induction false} FirstIsUnique(registry: Registry, p: seq<Class>, q: seq<Class>, c: Class, event: string)
    requires FirstChain(registry, p, c, event) && FirstChain(registry, q, c, event)
    ensures p == q
    decreases |p|
  {
    if event in registry[c] {
      assert |p| == 1 && |q| == 1;
    } else {
      SameBase(registry, c, p[1..], q[1..], event);
      FirstIsUnique(registry, p[1..], q[1..], p[1], event);
      assert p == [c] + p[1..] && q == [c] + q[1..];
    }
  }

  lemma SameBase(registry: Registry, c: Class, p: seq<Class>, q: seq<Class>, event: string)
    requires p != [] && Chain(registry, p, p[0], event) && q != [] && Chain(registry, q, q[0], event)
    requires TakesFirst(registry, c, p[0], event) && TakesFirst(registry, c, q[0], event)
    ensures p[0] == q[0]
  {
    var i :| 0 <= i < |c.bases| && c.bases[i] == p[0] &&
             forall k :: 0 <= k < i ==> NoChain(registry, c.bases[k], event);
    var j :| 0 <= j < |c.bases| && c.bases[j] == q[0] &&
             forall k :: 0 <= k < j ==> NoChain(registry, c.bases[k], event);
    assert !NoChain(registry, c.bases[i], event) && !NoChain(registry, c.bases[j], event);
  }

  // ----- the program -----

  // The number of visits the worklist needs at most; classes reachable in several ways are visited several times.
  function Visits(classes: seq<Class>): nat {
    if classes == [] then 0 else 1 + Visits(classes[0].bases) + Visits(classes[1..])
  }

  lemma {:induction false} VisitsConcat(a: seq<Class>, b: seq<Class>)
    ensures Visits(a + b) == Visits(a) + Visits(b)
  {
    if a == [] {
      assert a + b == b;
    } else {
      assert (a + b)[0] == a[0] && (a + b)[1..] == a[1..] + b;
      VisitsConcat(a[1..], b);
    }
  }

  // The search of handleEvent. It ends on every class graph, since no class is among its own bases.
  method HandleEvent(registry: Registry, cls: Class, event: string) returns (attr: Option<Handler>)
    ensures attr == Find(registry, cls, event)
    ensures attr.Some? ==>
              exists path :: FirstChain(registry, path, cls, event) && attr == Some(registry[path[|path| - 1]][event])
    ensures attr.None? ==> NoChain(registry, cls, event)
  {
    var search := [cls];
    attr := None;
    assert search[1..] == [];
    while search != []
      invariant attr == None
      invariant FindFirst(registry, search, event) == Find(registry, cls, event)
      decreases Visits(search)
    {
      var type_ := search[0];
      search := search[1..];
      if type_ !in registry || registry[type_] == map[] {
        continue;
      }
      if event in registry[type_] {
        attr := Some(registry[type_][event]);
        break;
      }
      ghost var rest := search;
      var i := |type_.bases|;
      while i > 0
        invariant 0 <= i <= |type_.bases| && search == type_.bases[i..] + rest
      {
        i := i - 1;
        search := [type_.bases[i]] + search;
      }
      assert search == type_.bases + rest;
      FindFirstConcat(registry, type_.bases, rest, event);
      VisitsConcat(type_.bases, rest);
    }
    if attr.Some? {
      ghost var path := FoundIsFirst(registry, cls, event);
    } else {
      FoundExactly(registry, cls, event);
    }
  }
}
