/** Dependency tracking of Vue 2.5.16: watchers and deps point at each other, and evaluating a watcher keeps both sides equal. */
module VueDeps {
  import opened Common

  class Dep {
    const id: int
    var subs: seq<Watcher>

    constructor (id: int)
      ensures this.id == id && subs == []
    {
      this.id, subs := id, [];
    }

    method AddSub(w: Watcher)
      modifies this
      ensures subs == old(subs) + [w]
    {
      subs := subs + [w];
    }

    /** `remove` from the subscriber list: the first occurrence is spliced out. */
    method RemoveSub(w: Watcher)
      modifies this
      ensures multiset(subs) == multiset(old(subs)) - multiset{w}
    {
      var i := 0;
      while i < |subs| && subs[i] != w
        invariant 0 <= i <= |subs| && w !in subs[..i]
      {
        i := i + 1;
      }
      Spliced(subs, i, w);
      if i < |subs| {
        subs := subs[..i] + subs[i + 1..];
      }
    }
  }

  /** Splicing the first occurrence out takes one occurrence away; without an occurrence nothing changes. */
  lemma Spliced<T>(s: seq<T>, i: nat, x: T)
    requires i <= |s| && x !in s[..i] && (i < |s| ==> s[i] == x)
    ensures i < |s| ==> multiset(s[..i] + s[i + 1..]) == multiset(s) - multiset{x}
    ensures i == |s| ==> multiset(s) == multiset(s) - multiset{x}
  {
    if i < |s| {
      assert s == s[..i] + [x] + s[i + 1..];
    } else {
      assert s[..i] == s && x !in multiset(s);
    }
  }

  /** How often the watcher is subscribed. */
  function Times(d: Dep, w: Watcher): nat
    reads d
  {
    multiset(d.subs)[w]
  }

  /** The subscriptions of all other watchers. */
  function Others(d: Dep, w: Watcher): multiset<Watcher>
    reads d
  {
    multiset(d.subs)[w := 0]
  }

  function Ids(deps: seq<Dep>): set<int> {
    set d | d in deps :: d.id
  }

  ghost predicate DistinctIds(ds: set<Dep>) {
    forall d, e :: d in ds && e in ds && d.id == e.id ==> d == e
  }

  class Watcher {
    var active: bool
    var deps: seq<Dep>
    var newDeps: seq<Dep>
    var depIds: set<int>
    var newDepIds: set<int>

    constructor ()
      ensures active && deps == [] && newDeps == [] && depIds == {} && newDepIds == {}
    {
      active, deps, newDeps, depIds, newDepIds := true, [], [], {}, {};
    }

    /** The four collections of the watcher agree with each other. */
    ghost predicate Lists(ds: set<Dep>)
      reads this
    {
      && Elements(deps) <= ds && Elements(newDeps) <= ds && NoRepeat(deps) && NoRepeat(newDeps)
      && depIds == Ids(deps) && newDepIds == Ids(newDeps)
    }

    /** And with the subscriber lists: an active watcher is subscribed once to each dep it knows, to no other, and not at all
        after its teardown. */
    ghost predicate Subscribed(ds: set<Dep>)
      reads this, ds
    {
      forall d :: d in ds ==> Times(d, this) == if active && (d in deps || d in newDeps) then 1 else 0
    }

    /** addDep */
    method AddDep(d: Dep, ghost ds: set<Dep>)
      requires d in ds && DistinctIds(ds) && Lists(ds) && Subscribed(ds) && active
      modifies this, d
      ensures Lists(ds) && Subscribed(ds) && active
      ensures deps == old(deps) && Elements(newDeps) == old(Elements(newDeps)) + {d}
      ensures Others(d, this) == old(Others(d, this))
    {
      if d.id !in newDepIds {
        IdMeans(newDeps, d, ds);
        IdMeans(deps, d, ds);
        newDepIds := newDepIds + {d.id};
        newDeps := newDeps + [d];
        if d.id !in depIds {
          d.AddSub(this);
        }
      } else {
        IdMeans(newDeps, d, ds);
      }
    }

    static lemma IdMeans(s: seq<Dep>, d: Dep, ds: set<Dep>)
      requires DistinctIds(ds) && d in ds && Elements(s) <= ds
      ensures d.id in Ids(s) <==> d in s
      ensures d !in s && NoRepeat(s) ==> NoRepeat(s + [d])
      ensures Ids(s + [d]) == Ids(s) + {d.id} && Elements(s + [d]) == Elements(s) + {d}
    {
      if d.id in Ids(s) {
        var e :| e in s && e.id == d.id;
        assert e in Elements(s);
      }
    }

    /** The loop of cleanupDeps: unsubscribe from what was not touched. */
    method DropUntouched(ghost ds: set<Dep>)
      requires DistinctIds(ds) && Lists(ds) && Subscribed(ds) && active
      modifies ds
      ensures forall d :: d in ds ==> Times(d, this) == if d in newDeps then 1 else 0
      ensures forall d :: d in ds ==> Others(d, this) == old(Others(d, this))
    {
      var i := |deps|;
      while i > 0
        invariant 0 <= i <= |deps|
        invariant forall d :: d in ds ==> Times(d, this) == if d in newDeps || d in deps[..i] then 1 else 0
        invariant forall d :: d in ds ==> Others(d, this) == old(Others(d, this))
      {
        i := i - 1;
        var dep := deps[i];
        assert deps[..i + 1] == deps[..i] + [dep];
        assert dep in Elements(deps);
        IdMeans(newDeps, dep, ds);
        assert dep !in deps[..i];
        hide Ids, NoRepeat, DistinctIds;
        if dep.id !in newDepIds {
          dep.RemoveSub(this);
        }
      }
    }

    /** cleanupDeps: after dropping the untouched deps the new lists become the current ones. */
    method CleanupDeps(ghost ds: set<Dep>)
      requires DistinctIds(ds) && Lists(ds) && Subscribed(ds) && active
      modifies this, ds
      ensures Lists(ds) && Subscribed(ds) && active
      ensures deps == old(newDeps) && newDeps == [] && newDepIds == {}
      ensures forall d :: d in ds ==> Others(d, this) == old(Others(d, this))
    {
      DropUntouched(ds);
      deps, newDeps := newDeps, [];
      depIds, newDepIds := newDepIds, {};
    }

    /** The loop of teardown. */
    method Unsubscribe(ghost ds: set<Dep>)
      requires Lists(ds) && Subscribed(ds) && newDeps == [] && active
      modifies ds
      ensures forall d :: d in ds ==> Times(d, this) == 0
      ensures forall d :: d in ds ==> Others(d, this) == old(Others(d, this))
    {
      var i := |deps|;
      while i > 0
        invariant 0 <= i <= |deps|
        invariant forall d :: d in ds ==> Times(d, this) == if d in deps[..i] then 1 else 0
        invariant forall d :: d in ds ==> Others(d, this) == old(Others(d, this))
      {
        i := i - 1;
        var dep := deps[i];
        assert deps[..i + 1] == deps[..i] + [dep];
        assert dep in Elements(deps);
        assert dep !in deps[..i];
        hide Ids, NoRepeat;
        dep.RemoveSub(this);
      }
    }

    /** teardown: no dep has the watcher any more. */
    method Teardown(ghost ds: set<Dep>)
      requires Lists(ds) && Subscribed(ds) && newDeps == []
      modifies this, ds
      ensures !active && deps == old(deps) && newDeps == [] && Lists(ds) && Subscribed(ds)
      ensures forall d :: d in ds ==> this !in d.subs
      ensures forall d :: d in ds ==> Others(d, this) == old(Others(d, this))
    {
      if active {
        Unsubscribe(ds);
        active := false;
      }
      forall d | d in ds
        ensures this !in d.subs
      {
        assert Times(d, this) == 0;
        assert this !in multiset(d.subs);
      }
    }
  }

  // ---------------------------------------------------------- evaluation

  /** What a getter does while its watcher is the target: touch a dep, or evaluate another watcher first. */
  datatype Action = Touch(dep: Dep) | Nested(watcher: Watcher, script: seq<Action>)

  /** The deps a getter touches itself. */
  function Touched(script: seq<Action>): set<Dep> {
    if script == [] then {}
    else
      var last := script[|script| - 1];
      Touched(script[..|script| - 1]) + if last.Touch? then {last.dep} else {}
  }

  /** The watchers evaluated on the way, at any depth. */
  function Evaluated(script: seq<Action>): set<Watcher> {
    if script == [] then {}
    else
      var last := script[|script| - 1];
      Evaluated(script[..|script| - 1]) + if last.Nested? then {last.watcher} + Evaluated(last.script) else {}
  }

  /** The script stays inside the system and evaluates no watcher that is being evaluated already. */
  ghost predicate Fit(script: seq<Action>, ds: set<Dep>, ws: set<Watcher>, stack: set<Watcher>)
    decreases script
  {
    forall a :: a in script ==>
      match a
      case Touch(d) => d in ds
      case Nested(w, inner) => w in ws && w !in stack && Fit(inner, ds, ws, stack + {w})
  }

  /** All watchers and deps agree; only watchers under evaluation have collected anything new. */
  ghost predicate System(ds: set<Dep>, ws: set<Watcher>, stack: set<Watcher>)
    reads ds, ws
  {
    && DistinctIds(ds)
    && (forall w :: w in ws ==> w.Lists(ds) && w.Subscribed(ds))
    && (forall w :: w in ws && w !in stack ==> w.newDeps == [])
  }

  /** A dep touched while the watcher is the target. */
  method TouchOne(w: Watcher, d: Dep, ghost ds: set<Dep>, ghost ws: set<Watcher>, ghost stack: set<Watcher>)
    requires System(ds, ws, stack) && w in ws && w in stack && w.active && d in ds
    modifies w, d
    ensures System(ds, ws, stack) && w.active
    ensures w.deps == old(w.deps) && Elements(w.newDeps) == old(Elements(w.newDeps)) + {d}
  {
    hide Elements;
    w.AddDep(d, ds);
    forall v | v in ws && v != w
      ensures v.Lists(ds) && v.Subscribed(ds)
    {
      forall e | e in ds
        ensures Times(e, v) == old(Times(e, v))
      {
        assert Times(e, v) == Others(e, w)[v];
        assert old(Times(e, v)) == old(Others(e, w))[v];
      }
    }
  }

  /** The end of `get`. */
  method CleanOne(w: Watcher, ghost ds: set<Dep>, ghost ws: set<Watcher>, ghost stack: set<Watcher>)
    requires System(ds, ws, stack + {w}) && w in ws && w !in stack && w.active
    modifies w, ds
    ensures System(ds, ws, stack) && w.active && w.deps == old(w.newDeps)
  {
    hide Elements;
    w.CleanupDeps(ds);
    forall v | v in ws && v != w
      ensures v.Lists(ds) && v.Subscribed(ds)
    {
      forall e | e in ds
        ensures Times(e, v) == old(Times(e, v))
      {
        assert Times(e, v) == Others(e, w)[v];
        assert old(Times(e, v)) == old(Others(e, w))[v];
      }
    }
  }

  lemma Prefixes(script: seq<Action>, k: nat)
    requires k < |script|
    ensures Touched(script[..k + 1]) == Touched(script[..k]) + if script[k].Touch? then {script[k].dep} else {}
    ensures Evaluated(script[..k + 1]) ==
      Evaluated(script[..k]) + if script[k].Nested? then {script[k].watcher} + Evaluated(script[k].script) else {}
  {
    assert script[..k + 1][..k] == script[..k];
  }

  lemma {:induction false} EvaluatedGrows(script: seq<Action>, k: nat)
    requires k <= |script|
    ensures Evaluated(script[..k]) <= Evaluated(script)
    decreases |script| - k
  {
    if k < |script| {
      Prefixes(script, k);
      EvaluatedGrows(script, k + 1);
    } else {
      assert script[..k] == script;
    }
  }

  /** Watcher.get of an active watcher that is not being evaluated. Afterwards its deps are exactly those touched, it is
      subscribed to exactly those, once each, and whoever was not evaluated on the way is as before. */
  method Get(w: Watcher, script: seq<Action>, ghost ds: set<Dep>, ghost ws: set<Watcher>, ghost stack: set<Watcher>)
    requires System(ds, ws, stack) && w in ws && w !in stack && stack <= ws && w.active
    requires Fit(script, ds, ws, stack + {w}) && forall v :: v in Evaluated(script) ==> v in ws && v.active
    modifies ds, ws - stack
    ensures System(ds, ws, stack)
    ensures Elements(w.deps) == Touched(script) && w.active
    ensures forall v :: v in ws && v != w && v !in Evaluated(script) ==> unchanged(v)
    ensures forall v :: v in ws ==> v.active == old(v.active)
    decreases script
  {
    hide Elements, Touched, Evaluated;
    Nothing();
    assert System(ds, ws, stack + {w});
    hide System;
    NewDepsEmpty(w, ds, ws, stack);
    for k := 0 to |script|
      invariant System(ds, ws, stack + {w}) && w.active
      invariant w.deps == old(w.deps) && Elements(w.newDeps) == Touched(script[..k])
      invariant forall v :: v in ws && v != w && v !in Evaluated(script[..k]) ==> unchanged(v)
      invariant forall v :: v in ws ==> v.active == old(v.active)
    {
      Prefixes(script, k);
      EvaluatedGrows(script, k + 1);
      assert script[k] in script;
      match script[k] {
        case Touch(d) =>
          TouchOne(w, d, ds, ws, stack + {w});
        case Nested(v, inner) =>
          Get(v, inner, ds, ws, stack + {w});
      }
    }
    assert script[..|script|] == script;
    CleanOne(w, ds, ws, stack);
  }

  lemma Nothing()
    ensures Touched([]) == {} && Evaluated([]) == {} && Elements<Dep>([]) == {}
  {
  }

  lemma NewDepsEmpty(w: Watcher, ds: set<Dep>, ws: set<Watcher>, stack: set<Watcher>)
    requires System(ds, ws, stack) && w in ws && w !in stack
    ensures w.newDeps == []
  {
  }

  /** After an evaluation: the dep was touched, is known to the watcher by its id, and has it as a subscriber, exactly once,
      all together or not at all. */
  lemma SubscribedIffTouched(w: Watcher, d: Dep, script: seq<Action>, ds: set<Dep>, ws: set<Watcher>, stack: set<Watcher>)
    requires System(ds, ws, stack) && w in ws && w !in stack && w.active && d in ds && Elements(w.deps) == Touched(script)
    ensures d in Touched(script) <==> d.id in w.depIds
    ensures Times(d, w) == if d in Touched(script) then 1 else 0
    ensures w.newDeps == [] && w.newDepIds == {}
  {
    Watcher.IdMeans(w.deps, d, ds);
    assert d in w.deps <==> d in Elements(w.deps);
  }
}
