/** `Singleton` (pilot/singleton.py): the class-keyed table of instances
    behind `Config`, `Context` and `Logger`. Classes are named by strings;
    whether a subclass's `_initialize` raises is an input. */
module Singleton {
  import opened Wrappers

  /** An object `Singleton.__new__` created: its class and the argument
      lists `_initialize` was called with. */
  class Instance {
    const cls: string
    var initCalls: seq<seq<string>>

    constructor (cls: string)
      ensures this.cls == cls && initCalls == []
    {
      this.cls := cls;
      initCalls := [];
    }
  }

  class Registry {
    /** `Singleton._instances`, keyed by class. */
    var instances: map<string, Instance>

    /** Each class's entry is an instance of that class. */
    ghost predicate Valid()
      reads this
    {
      forall c :: c in instances ==> instances[c].cls == c
    }

    constructor ()
      ensures instances == map[] && Valid()
    {
      instances := map[];
    }

    /** `Singleton.__new__(cls, *args)`. The first construction of a class
        creates an instance, registers it and then calls `_initialize` with
        the arguments once; if that raises, the error reaches the caller but
        the instance stays registered. Later constructions return the stored
        instance and call nothing. No entry is ever replaced or removed. */
    method New(cls: string, args: seq<string>, initialize: Outcome) returns (r: Result<Instance, Exc>)
      requires Valid()
      modifies this
      ensures Valid()
      ensures forall c :: c in old(instances) ==> c in instances && instances[c] == old(instances)[c]
      ensures cls in old(instances) ==>
        && instances == old(instances)
        && r == Ok(instances[cls])
        && instances[cls].initCalls == old(instances[cls].initCalls)
      ensures cls !in old(instances) ==>
        && cls in instances && fresh(instances[cls])
        && instances.Keys == old(instances).Keys + {cls}
        && instances[cls].initCalls == [args]
        && (initialize.Pass? ==> r == Ok(instances[cls]))
        && (initialize.Fail? ==> r == Err(initialize.error))
      ensures forall c1, c2 :: c1 in instances && c2 in instances && c1 != c2 ==> instances[c1] != instances[c2]
    {
      if cls !in instances {
        var instance := new Instance(cls);
        instances := instances[cls := instance];
        instance.initCalls := instance.initCalls + [args];
        if initialize.Fail? {
          return Err(initialize.error);
        }
      }
      return Ok(instances[cls]);
    }
  }
}
