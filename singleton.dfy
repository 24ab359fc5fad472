/** The two singleton metaclasses of snippets/singleton.py. Each keeps one dictionary
    from a class to an instance; a call first tests the key and builds an instance only
    when it is missing, so the arguments of every later call are ignored. */
module Singleton {
  import opened Python
  import Cache

  /** `SingletonMeta._instances`: one dictionary shared by every class whose metaclass
      is SingletonMeta, keyed by the class itself. */
  class SingletonMeta {
    var instances: map<ClassId, PyObject>
    /** How many times `super().__call__` has built an instance. */
    var constructions: nat

    /** Each entry is an instance of the class it is stored under, and every
        instance ever built is still in the dictionary. */
    ghost predicate Valid()
      reads this
    {
      && (forall c :: c in instances ==> instances[c].cls.id == c)
      && |instances| == constructions
    }

    constructor ()
      ensures Valid() && instances == map[]
    {
      instances := map[];
      constructions := 0;
    }

    /** `SingletonMeta.__call__(cls, *args, **kwargs)`. */
    method Call(cls: PyClass, args: seq<PyValue>, kwargs: seq<(string, PyValue)>) returns (r: PyObject)
      requires Valid()
      modifies this
      ensures Valid()
      ensures (instances, r) == Cache.SetDefault(old(instances), cls.id, r)
      ensures cls.id in old(instances) ==> constructions == old(constructions)
      ensures cls.id !in old(instances) ==>
                && fresh(r) && r.cls == cls && r.args == args && r.kwargs == kwargs
                && constructions == old(constructions) + 1
    {
      if cls.id !in instances {
        var instance := new PyObject(cls, args, kwargs);
        constructions := constructions + 1;
        instances := instances[cls.id := instance];
      }
      r := instances[cls.id];
    }
  }

  /** The module-level `_singleton_instances`, which ParentSingletonMeta keys by the
      LAST declared base of the requesting class, so that every class sharing that base
      shares one instance. */
  class ParentSingletonMeta {
    var instances: map<ClassId, PyObject>
    var constructions: nat

    /** Each entry is an instance of some class whose last base is its key, and every
        instance ever built is still in the dictionary. */
    ghost predicate Valid()
      reads this
    {
      && (forall p :: p in instances ==> instances[p].cls.bases != [] && LastBase(instances[p].cls) == p)
      && |instances| == constructions
    }

    constructor ()
      ensures Valid() && instances == map[]
    {
      instances := map[];
      constructions := 0;
    }

    /** `ParentSingletonMeta.__call__(cls, *args, **kwargs)`. */
    method Call(cls: PyClass, args: seq<PyValue>, kwargs: seq<(string, PyValue)>) returns (r: PyObject)
      requires Valid() && cls.bases != []
      modifies this
      ensures Valid()
      ensures (instances, r) == Cache.SetDefault(old(instances), LastBase(cls), r)
      ensures LastBase(cls) in old(instances) ==> constructions == old(constructions)
      ensures LastBase(cls) !in old(instances) ==>
                && fresh(r) && r.cls == cls && r.args == args && r.kwargs == kwargs
                && constructions == old(constructions) + 1
    {
      var parent := LastBase(cls);
      if parent !in instances {
        var instance := new PyObject(cls, args, kwargs);
        constructions := constructions + 1;
        instances := instances[parent := instance];
      }
      r := instances[parent];
    }
  }

  /** Two requests for one class: the second returns the first instance, built from the
      FIRST arguments, and builds nothing. */
  method RepeatedRequest(meta: SingletonMeta, cls: PyClass, args1: seq<PyValue>, args2: seq<PyValue>)
      returns (first: PyObject, second: PyObject)
    requires meta.Valid() && cls.id !in meta.instances
    modifies meta
    ensures meta.Valid()
    ensures second == first && second.args == args1
    ensures meta.constructions == old(meta.constructions) + 1
    ensures meta.instances == old(meta.instances)[cls.id := first]
  {
    first := meta.Call(cls, args1, []);
    second := meta.Call(cls, args2, []);
  }

  /** Siblings `a` and `b` with the same last base share the instance built for whichever
      asked first (`a`); `c`, with another last base, gets its own. */
  method FamilyRequests(meta: ParentSingletonMeta, a: PyClass, b: PyClass, c: PyClass)
      returns (ra: PyObject, rb: PyObject, rc: PyObject)
    requires meta.Valid() && meta.instances == map[]
    requires a.bases != [] && b.bases != [] && c.bases != []
    requires LastBase(a) == LastBase(b) && LastBase(c) != LastBase(a)
    modifies meta
    ensures meta.Valid()
    ensures ra == rb && rb.cls == a
    ensures rc != ra && rc.cls == c
    ensures meta.instances.Keys == {LastBase(a), LastBase(c)} && meta.constructions == 2
  {
    ra := meta.Call(a, [], []);
    rb := meta.Call(b, [], []);
    rc := meta.Call(c, [], []);
  }
}
