/**
 * Runtime classes and instances (LoxClass.js, LoxInstance.js).
 *
 * A class keeps only its name: the source's constructor takes one argument,
 * so the superclass and the method table its caller passes are dropped.
 * Neither object has a field that changes after construction.
 */
module Objects {

  class LoxClass {
    const name: string

    /** Stores the class name. */
    constructor(name: string)
      ensures this.name == name
    {
      this.name := name;
    }

    /** Ignores the arguments and makes a new instance of this class. */
    method Call<A>(args: seq<A>) returns (instance: LoxInstance)
      ensures fresh(instance) && instance.klass == this
      ensures instance.ToString() == name + " instance"
    {
      instance := new LoxInstance(this);
    }

    /** A class takes no arguments. */
    function Arity(): (n: nat)
      ensures n == 0
    {
      0
    }

    /** A class displays as its name. */
    function ToString(): (s: string)
      ensures s == name
    {
      name
    }
  }

  class LoxInstance {
    const klass: LoxClass

    /** Stores the class reference unchanged. */
    constructor(klass: LoxClass)
      ensures this.klass == klass
    {
      this.klass := klass;
    }

    /** `<class name> instance`; it reads only the class's name and changes nothing. */
    function ToString(): (s: string)
      ensures s == klass.name + " instance"
      ensures |s| == |klass.name| + 9 && s[..|klass.name|] == klass.name
    {
      klass.name + " instance"
    }
  }

  /** Two calls of the same class yield two distinct instances of it. */
  method TwoInstances(c: LoxClass) returns (a: LoxInstance, b: LoxInstance)
    ensures a != b && a.klass == c && b.klass == c
  {
    a := c.Call<int>([]);
    b := c.Call<int>([1, 2]);
  }
}
