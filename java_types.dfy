/**
 * Java's runtime class lattice, enough of it to model `Class.isAssignableFrom`.
 * A class is given with its direct supertypes (superclass and implemented
 * interfaces); the hierarchy is acyclic, which the inductive datatype enforces.
 */
module JavaTypes {

  datatype ClassType = ClassType(name: string, supertypes: seq<ClassType>)

  /**
   * `target.isAssignableFrom(source)`: `source` is `target` itself or reaches
   * it through its supertypes.
   */
  predicate IsAssignableFrom(target: ClassType, source: ClassType)
    decreases source
  {
    source == target || exists s :: s in source.supertypes && IsAssignableFrom(target, s)
  }

  /** Assignability is transitive: a subclass of a subclass of T is a subclass of T. */
  lemma {:induction false} AssignableTransitive(a: ClassType, b: ClassType, c: ClassType)
    requires IsAssignableFrom(a, b) && IsAssignableFrom(b, c)
    ensures IsAssignableFrom(a, c)
    decreases c
  {
    if c != b {
      var s :| s in c.supertypes && IsAssignableFrom(b, s);
      AssignableTransitive(a, b, s);
    }
  }
}
