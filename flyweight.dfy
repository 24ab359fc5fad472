/** The flyweight metaclass and the flyweight class decorator of snippets/flyweight.py.
    Both build a key from the call's arguments and call `cache.setdefault(key, cls(...))`:
    the argument of setdefault is evaluated first, so an instance is built on EVERY call
    and thrown away when the key is already present. */
module Flyweight {
  import opened Python
  import Cache

  /** One element of `kwargs.items()`: the pair `(name, value)`. */
  function Item(kv: (string, PyValue)): PyValue
  {
    Tuple([Str(kv.0), kv.1])
  }

  /** `tuple(kwargs.items())`, in the order the keywords were passed. */
  function KwargsItems(kwargs: seq<(string, PyValue)>): (r: seq<PyValue>)
    ensures |r| == |kwargs|
    ensures forall i :: 0 <= i < |kwargs| ==> r[i] == Item(kwargs[i])
  {
    if kwargs == [] then [] else [Item(kwargs[0])] + KwargsItems(kwargs[1..])
  }

  /** The key of `FlyweightMeta.__call__`: `(*args, tuple(kwargs.items()))`. */
  function MetaKey(args: seq<PyValue>, kwargs: seq<(string, PyValue)>): PyValue
  {
    Tuple(args + [Tuple(KwargsItems(kwargs))])
  }

  /** The key of `flyweight.__call__`: `(args, tuple(kargs.items()))`. */
  function DecoratorKey(args: seq<PyValue>, kwargs: seq<(string, PyValue)>): PyValue
  {
    Tuple([Tuple(args), Tuple(KwargsItems(kwargs))])
  }

  /** Keyword items determine the keywords, order included. */
  lemma {:induction false} KwargsItemsInjective(k1: seq<(string, PyValue)>, k2: seq<(string, PyValue)>)
    ensures KwargsItems(k1) == KwargsItems(k2) <==> k1 == k2
    decreases |k1|
  {
    if KwargsItems(k1) == KwargsItems(k2) && k1 != [] && k2 != [] {
      assert KwargsItems(k1)[0] == KwargsItems(k2)[0];
      assert KwargsItems(k1[1..]) == KwargsItems(k1)[1..];
      assert KwargsItems(k2[1..]) == KwargsItems(k2)[1..];
      KwargsItemsInjective(k1[1..], k2[1..]);
      assert k1 == [k1[0]] + k1[1..];
      assert k2 == [k2[0]] + k2[1..];
    }
  }

  /** Two metaclass calls hit the same entry exactly when they pass equal positional
      arguments and equal keywords in the same order: no two different calls collide,
      and the same keywords in another order miss. */
  lemma MetaKeyInjective(a1: seq<PyValue>, k1: seq<(string, PyValue)>, a2: seq<PyValue>, k2: seq<(string, PyValue)>)
    ensures MetaKey(a1, k1) == MetaKey(a2, k2) <==> a1 == a2 && k1 == k2
  {
    if MetaKey(a1, k1) == MetaKey(a2, k2) {
      var s1, s2 := a1 + [Tuple(KwargsItems(k1))], a2 + [Tuple(KwargsItems(k2))];
      assert s1 == s2;
      assert a1 == s1[..|a1|] && a2 == s2[..|a2|];
      assert s1[|a1|] == s2[|a2|];
      KwargsItemsInjective(k1, k2);
    }
  }

  /** The same for the decorator's nested key. */
  lemma DecoratorKeyInjective(a1: seq<PyValue>, k1: seq<(string, PyValue)>, a2: seq<PyValue>, k2: seq<(string, PyValue)>)
    ensures DecoratorKey(a1, k1) == DecoratorKey(a2, k2) <==> a1 == a2 && k1 == k2
  {
    KwargsItemsInjective(k1, k2);
  }

  /** `C(x=1, y=2)` and `C(y=2, x=1)` are different keys. */
  lemma KeywordOrderMatters()
    ensures MetaKey([], [("x", Int(1)), ("y", Int(2))]) != MetaKey([], [("y", Int(2)), ("x", Int(1))])
    ensures DecoratorKey([], [("x", Int(1)), ("y", Int(2))]) != DecoratorKey([], [("y", Int(2)), ("x", Int(1))])
  {
    MetaKeyInjective([], [("x", Int(1)), ("y", Int(2))], [], [("y", Int(2)), ("x", Int(1))]);
    DecoratorKeyInjective([], [("x", Int(1)), ("y", Int(2))], [], [("y", Int(2)), ("x", Int(1))]);
  }

  /** A class created by FlyweightMeta, with the `cache` attribute that
      `FlyweightMeta.__new__` gives it. */
  class FlyweightClass {
    const cls: PyClass
    var cache: map<PyValue, PyObject>
    /** How many instances `super().__call__` has built for this class. */
    var constructions: nat

    /** Every cached instance belongs to this class and was built from exactly the
        arguments its key was made of. */
    ghost predicate Valid()
      reads this
    {
      forall k :: k in cache ==> cache[k].cls == cls && MetaKey(cache[k].args, cache[k].kwargs) == k
    }

    /** `FlyweightMeta.__new__`: every new class gets a new, empty cache of its own. */
    constructor (cls: PyClass)
      ensures Valid() && this.cls == cls && cache == map[] && constructions == 0
    {
      this.cls := cls;
      cache := map[];
      constructions := 0;
    }

    /** `FlyweightMeta.__call__(cls, *args, **kwargs)`. */
    method Call(args: seq<PyValue>, kwargs: seq<(string, PyValue)>) returns (r: PyObject)
      requires Valid()
      modifies this
      ensures Valid()
      ensures (cache, r) == Cache.SetDefault(old(cache), MetaKey(args, kwargs), r)
      ensures constructions == old(constructions) + 1
      ensures r.cls == cls && r.args == args && r.kwargs == kwargs
      ensures MetaKey(args, kwargs) !in old(cache) ==> fresh(r)
    {
      var key := MetaKey(args, kwargs);
      var built := new PyObject(cls, args, kwargs);
      constructions := constructions + 1;
      var (cache', value) := Cache.SetDefault(cache, key, built);
      cache, r := cache', value;
      if key in old(cache) {
        MetaKeyInjective(r.args, r.kwargs, args, kwargs);
      }
    }
  }

  /** Instances cached by two different classes are never the same object, even for
      equal arguments. */
  lemma SeparateCaches(a: FlyweightClass, b: FlyweightClass, ka: PyValue, kb: PyValue)
    requires a.Valid() && b.Valid() && a.cls != b.cls
    requires ka in a.cache && kb in b.cache
    ensures a.cache[ka] != b.cache[kb]
  {
  }

  /** An object built by `flyweight(cls)`: the wrapped class and its `_instances`. */
  class FlyweightDecorator {
    const cls: PyClass
    var instances: map<PyValue, PyObject>
    var constructions: nat

    ghost predicate Valid()
      reads this
    {
      forall k :: k in instances ==> instances[k].cls == cls && DecoratorKey(instances[k].args, instances[k].kwargs) == k
    }

    /** `flyweight.__init__(self, cls)`. */
    constructor (cls: PyClass)
      ensures Valid() && this.cls == cls && instances == map[] && constructions == 0
    {
      this.cls := cls;
      instances := map[];
      constructions := 0;
    }

    /** `flyweight.__call__(self, *args, **kargs)`. */
    method Call(args: seq<PyValue>, kwargs: seq<(string, PyValue)>) returns (r: PyObject)
      requires Valid()
      modifies this
      ensures Valid()
      ensures (instances, r) == Cache.SetDefault(old(instances), DecoratorKey(args, kwargs), r)
      ensures constructions == old(constructions) + 1
      ensures r.cls == cls && r.args == args && r.kwargs == kwargs
      ensures DecoratorKey(args, kwargs) !in old(instances) ==> fresh(r)
    {
      var key := DecoratorKey(args, kwargs);
      var built := new PyObject(cls, args, kwargs);
      constructions := constructions + 1;
      var (instances', value) := Cache.SetDefault(instances, key, built);
      instances, r := instances', value;
      if key in old(instances) {
        DecoratorKeyInjective(r.args, r.kwargs, args, kwargs);
      }
    }
  }

  /** Two equal calls: the second builds an instance, discards it and returns the
      object the first call returned. */
  method RepeatedCall(c: FlyweightClass, args: seq<PyValue>, kwargs: seq<(string, PyValue)>)
      returns (first: PyObject, second: PyObject)
    requires c.Valid()
    modifies c
    ensures c.Valid()
    ensures second == first
    ensures c.constructions == old(c.constructions) + 2
    ensures |c.cache.Keys - old(c.cache.Keys)| <= 1
  {
    first := c.Call(args, kwargs);
    second := c.Call(args, kwargs);
  }
}
