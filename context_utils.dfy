/** The request-context store of `context_utils.ts`: a map from an async
    execution unit's id to the context of the request it works for. The
    async_hooks runtime decides when its hooks run; here every hook is a
    method that takes the unit ids it concerns as arguments. */
module ContextUtils {
  import opened Wrappers

  /** The id async_hooks gives an execution unit. */
  type AsyncId = int

  /** `RequestContext`: what every unit working for one request shares. */
  datatype RequestContext = RequestContext(requestId: string)

  type Store = map<AsyncId, RequestContext>

  /** One call into the store. */
  datatype HookEvent =
    | Attach(unit: AsyncId, context: RequestContext)    // createRequestContext, run in `unit`
    | Init(asyncId: AsyncId, triggerAsyncId: AsyncId)   // the `init` hook: `asyncId` created by `triggerAsyncId`
    | Destroy(asyncId: AsyncId)                         // the `destroy` hook

  /** `store.get(id)`: absent ids give `undefined`. */
  function Lookup(store: Store, id: AsyncId): Option<RequestContext>
  {
    if id in store then Some(store[id]) else None
  }

  /** The store after one event. */
  function Step(store: Store, e: HookEvent): Store
  {
    match e
    case Attach(unit, context) => store[unit := context]
    case Init(asyncId, trigger) => if trigger in store then store[asyncId := store[trigger]] else store
    case Destroy(asyncId) => if asyncId in store then store - {asyncId} else store
  }

  /** The store after a sequence of events, in order. */
  function Run(store: Store, es: seq<HookEvent>): Store
    decreases |es|
  {
    if es == [] then store else Run(Step(store, es[0]), es[1..])
  }

  /** The id whose entry an event may set or remove, if any. */
  predicate Writes(e: HookEvent, id: AsyncId)
  {
    match e
    case Attach(unit, _) => unit == id
    case Init(asyncId, _) => asyncId == id
    case Destroy(asyncId) => asyncId == id
  }

  /** The store itself: `const store = new Map()` and the functions over it. */
  class ContextStore {
    var store: Store

    constructor ()
      ensures store == map[]
    {
      store := map[];
    }

    /** The `init` hook: a unit created by a unit that has a context gets the
        very same context; otherwise nothing changes. */
    method OnInit(asyncId: AsyncId, triggerAsyncId: AsyncId)
      modifies this
      ensures store == Step(old(store), Init(asyncId, triggerAsyncId))
      ensures triggerAsyncId in old(store) ==> store == old(store)[asyncId := old(store)[triggerAsyncId]]
      ensures triggerAsyncId !in old(store) ==> store == old(store)
    {
      if triggerAsyncId in store {
        store := store[asyncId := store[triggerAsyncId]];
      }
    }

    /** The `destroy` hook: the unit's entry goes, every other entry stays. */
    method OnDestroy(asyncId: AsyncId)
      modifies this
      ensures store == Step(old(store), Destroy(asyncId))
      ensures store == old(store) - {asyncId}
      ensures Lookup(store, asyncId) == None
    {
      if asyncId in store {
        store := store - {asyncId};
      }
    }

    /** `createRequestContext`: binds the context to the running unit and
        hands the same context back. */
    method CreateRequestContext(executionAsyncId: AsyncId, requestContext: RequestContext)
      returns (r: RequestContext)
      modifies this
      ensures r == requestContext
      ensures store == Step(old(store), Attach(executionAsyncId, requestContext))
      ensures store == old(store)[executionAsyncId := requestContext]
    {
      store := store[executionAsyncId := requestContext];
      r := requestContext;
    }

    /** `getRequestContext`: the running unit's context, absent when it has none. */
    method GetRequestContext(executionAsyncId: AsyncId) returns (r: Option<RequestContext>)
      ensures r.Some? <==> executionAsyncId in store
      ensures r.Some? ==> r.value == store[executionAsyncId]
    {
      if executionAsyncId in store {
        r := Some(store[executionAsyncId]);
      } else {
        r := None;
      }
    }
  }

  /** The family of a root: the root, and every unit later created by a member
      of the family, less the members destroyed since. */
  function Family(family: set<AsyncId>, e: HookEvent): set<AsyncId>
  {
    match e
    case Init(asyncId, trigger) => if trigger in family then family + {asyncId} else family
    case Destroy(asyncId) => family - {asyncId}
    case Attach(_, _) => family
  }

  function FamilyAfter(family: set<AsyncId>, es: seq<HookEvent>): set<AsyncId>
    decreases |es|
  {
    if es == [] then family else FamilyAfter(Family(family, es[0]), es[1..])
  }

  /** No event re-attaches a family member, or re-creates one from outside
      the family; members may be destroyed at any time. */
  predicate Undisturbed(family: set<AsyncId>, es: seq<HookEvent>)
    decreases |es|
  {
    es == [] ||
    (((es[0].Init? && es[0].triggerAsyncId in family) || es[0].Destroy? ||
      (forall id :: id in family ==> !Writes(es[0], id))) &&
     Undisturbed(Family(family, es[0]), es[1..]))
  }

  /** Propagation is transitive: once every member of a family holds context
      `c`, every unit the family goes on to create holds `c` too, though each
      creation consults only the immediate creator, and even after that
      creator's ancestors are destroyed. */
  lemma {:induction false} DescendantsInherit(store: Store, family: set<AsyncId>, c: RequestContext, es: seq<HookEvent>)
    requires forall id :: id in family ==> Lookup(store, id) == Some(c)
    requires Undisturbed(family, es)
    ensures forall id :: id in FamilyAfter(family, es) ==> Lookup(Run(store, es), id) == Some(c)
    decreases |es|
  {
    if es != [] {
      var next := Step(store, es[0]);
      var family' := Family(family, es[0]);
      forall id | id in family'
        ensures Lookup(next, id) == Some(c)
      {
        if id !in family {
          assert es[0].Init? && es[0].triggerAsyncId in family && id == es[0].asyncId;
        } else if es[0].Destroy? {
          assert id != es[0].asyncId;
        }
      }
      DescendantsInherit(next, family', c, es[1..]);
    }
  }

  /** A chain of nested units whose root is attached once: every unit of the
      chain sees the root's context. */
  lemma ChainInherits(store: Store, root: AsyncId, c: RequestContext, chain: seq<AsyncId>)
    ensures forall i :: 0 <= i < |chain| ==>
      Lookup(Run(store, [Attach(root, c)] + ChainEvents(root, chain)), chain[i]) == Some(c)
  {
    var s := Step(store, Attach(root, c));
    var es := ChainEvents(root, chain);
    ChainUndisturbed(root, chain, {root});
    ChainFamily(root, chain, {root});
    DescendantsInherit(s, {root}, c, es);
    assert ([Attach(root, c)] + es)[1..] == es;
  }

  /** `Init(chain[0], root), Init(chain[1], chain[0]), ...` */
  function ChainEvents(parent: AsyncId, chain: seq<AsyncId>): seq<HookEvent>
    decreases |chain|
  {
    if chain == [] then [] else [Init(chain[0], parent)] + ChainEvents(chain[0], chain[1..])
  }

  lemma {:induction false} ChainUndisturbed(parent: AsyncId, chain: seq<AsyncId>, family: set<AsyncId>)
    requires parent in family
    ensures Undisturbed(family, ChainEvents(parent, chain))
    decreases |chain|
  {
    if chain != [] {
      var es := ChainEvents(parent, chain);
      assert es[0] == Init(chain[0], parent);
      assert es[1..] == ChainEvents(chain[0], chain[1..]);
      ChainUndisturbed(chain[0], chain[1..], family + {chain[0]});
    }
  }

  lemma {:induction false} ChainFamily(parent: AsyncId, chain: seq<AsyncId>, family: set<AsyncId>)
    requires parent in family
    ensures forall i :: 0 <= i < |chain| ==> chain[i] in FamilyAfter(family, ChainEvents(parent, chain))
    decreases |chain|
  {
    if chain != [] {
      var es := ChainEvents(parent, chain);
      assert es[0] == Init(chain[0], parent);
      assert es[1..] == ChainEvents(chain[0], chain[1..]);
      ChainFamily(chain[0], chain[1..], family + {chain[0]});
      ChainEventsCreate(chain[0], chain[1..]);
      FamilyKeepsSurvivors(family + {chain[0]}, es[1..], chain[0]);
      forall i | 1 <= i < |chain|
        ensures chain[i] in FamilyAfter(family, es)
      {
        assert chain[i] == chain[1..][i - 1];
      }
    }
  }

  /** A family loses a member only by destroying it. */
  lemma {:induction false} FamilyKeepsSurvivors(family: set<AsyncId>, es: seq<HookEvent>, id: AsyncId)
    requires id in family
    requires forall k :: 0 <= k < |es| ==> es[k] != Destroy(id)
    ensures id in FamilyAfter(family, es)
    decreases |es|
  {
    if es != [] {
      assert es[0] != Destroy(id);
      FamilyKeepsSurvivors(Family(family, es[0]), es[1..], id);
    }
  }

  /** A chain is created, never destroyed. */
  lemma {:induction false} ChainEventsCreate(parent: AsyncId, chain: seq<AsyncId>)
    ensures forall k :: 0 <= k < |ChainEvents(parent, chain)| ==> ChainEvents(parent, chain)[k].Init?
    decreases |chain|
  {
    if chain != [] {
      ChainEventsCreate(chain[0], chain[1..]);
      var es := ChainEvents(parent, chain);
      forall k | 1 <= k < |es| ensures es[k].Init? {
        assert es[k] == ChainEvents(chain[0], chain[1..])[k - 1];
      }
    }
  }

  /** An entry changes only through an event that names its id. */
  lemma {:induction false} EntryStable(store: Store, id: AsyncId, es: seq<HookEvent>)
    requires forall k :: 0 <= k < |es| ==> !Writes(es[k], id)
    ensures Lookup(Run(store, es), id) == Lookup(store, id)
    decreases |es|
  {
    if es != [] {
      assert !Writes(es[0], id);
      EntryStable(Step(store, es[0]), id, es[1..]);
    }
  }

  /** A unit created while its creator has no context never inherits one: the
      store is consulted only at creation time, so attaching the creator
      afterwards does not reach it. */
  lemma LateChildNeverInherits(store: Store, child: AsyncId, trigger: AsyncId, es: seq<HookEvent>)
    requires trigger !in store && child !in store
    requires forall k :: 0 <= k < |es| ==> !Writes(es[k], child)
    ensures Lookup(Run(store, [Init(child, trigger)] + es), child) == None
  {
    assert ([Init(child, trigger)] + es)[1..] == es;
    EntryStable(store, child, es);
  }

  /** Running two traces one after the other is running their concatenation. */
  lemma {:induction false} RunAppend(store: Store, a: seq<HookEvent>, b: seq<HookEvent>)
    ensures Run(store, a + b) == Run(Run(store, a), b)
    decreases |a|
  {
    if a == [] {
      assert a + b == b;
    } else {
      assert (a + b)[0] == a[0] && (a + b)[1..] == a[1..] + b;
      RunAppend(Step(store, a[0]), a[1..], b);
    }
  }

  /** Re-attaching a unit overwrites only its own entry: a unit it created
      earlier keeps the old context, whatever happens in between that does not
      touch that child. */
  lemma ReattachKeepsChildren(store: Store, root: AsyncId, child: AsyncId, c1: RequestContext, c2: RequestContext,
                              between: seq<HookEvent>)
    requires child != root
    requires forall k :: 0 <= k < |between| ==> !Writes(between[k], child)
    ensures var s := Run(store, [Attach(root, c1), Init(child, root)] + between + [Attach(root, c2)]);
      Lookup(s, child) == Some(c1) && Lookup(s, root) == Some(c2)
  {
    var start := [Attach(root, c1), Init(child, root)];
    var s1 := Step(store, start[0]);
    var s2 := Step(s1, start[1]);
    assert start[1..] == [start[1]] && [start[1]][1..] == [];
    assert Run(store, start) == Run(s1, [start[1]]) == Run(s2, []) == s2;
    assert Lookup(s2, child) == Some(c1);
    RunAppend(store, start, between);
    EntryStable(s2, child, between);
    var s3 := Run(s2, between);
    RunAppend(store, start + between, [Attach(root, c2)]);
    assert Run(s3, [Attach(root, c2)]) == Step(s3, Attach(root, c2));
  }

  /** A creator's destruction does not cut its descendants off: a grandchild
      created after its grandparent is gone still inherits the context. */
  lemma OrphanedChildInherits(store: Store, root: AsyncId, a: AsyncId, b: AsyncId, c: RequestContext)
    requires a != root
    ensures Lookup(Run(store, [Attach(root, c), Init(a, root), Destroy(root), Init(b, a)]), b) == Some(c)
  {
    var e3 := [Init(b, a)];
    var e2 := [Destroy(root)] + e3;
    var es := [Init(a, root)] + e2;
    assert e3[1..] == [] && e2[1..] == e3 && es[1..] == e2;
    var s := Step(store, Attach(root, c));
    assert Family({a}, e3[0]) == {a, b};
    assert Family({root, a}, e2[0]) == {a};
    assert Family({root}, es[0]) == {root, a};
    assert Undisturbed({a}, e3) && Undisturbed({root, a}, e2) && Undisturbed({root}, es);
    assert FamilyAfter({a}, e3) == {a, b};
    assert FamilyAfter({root}, es) == FamilyAfter({root, a}, e2) == FamilyAfter({a}, e3);
    DescendantsInherit(s, {root}, c, es);
    var whole := [Attach(root, c), Init(a, root), Destroy(root), Init(b, a)];
    assert whole == [Attach(root, c)] + es && whole[1..] == es;
    assert Run(store, whole) == Run(s, es);
  }

  /** `Destroy` for each id, in order. */
  function Destroys(ids: seq<AsyncId>): seq<HookEvent>
  {
    seq(|ids|, k requires 0 <= k < |ids| => Destroy(ids[k]))
  }

  /** Once every unit of a chain is destroyed the store holds no entry for any
      of them, and every other entry is as it was. */
  lemma {:induction false} DestroyingAllLeavesNothing(store: Store, ids: seq<AsyncId>)
    ensures Run(store, Destroys(ids)) == store - set k | 0 <= k < |ids| :: ids[k]
    decreases |ids|
  {
    if ids != [] {
      var es := Destroys(ids);
      assert es[1..] == Destroys(ids[1..]);
      DestroyingAllLeavesNothing(Step(store, es[0]), ids[1..]);
      var rest := set k | 0 <= k < |ids[1..]| :: ids[1..][k];
      var all := set k | 0 <= k < |ids| :: ids[k];
      assert all == {ids[0]} + rest by {
        forall x | x in all ensures x in {ids[0]} + rest {
          var k :| 0 <= k < |ids| && ids[k] == x;
          if k > 0 { assert ids[1..][k - 1] == x; }
        }
        forall x | x in rest ensures x in all {
          var k :| 0 <= k < |ids[1..]| && ids[1..][k] == x;
          assert ids[k + 1] == x;
        }
      }
    }
  }
}
