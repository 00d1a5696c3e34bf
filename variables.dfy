/**
 * The fields of a LogicVariable and its structural equality.
 */
module Variables {

  import opened Wrappers

  /** A reference to a LogicVariable object: its index in the network. */
  type VarId = nat

  /** A reference to a LogicGate object: its index in the network. */
  type GateId = nat

  /**
   * The three fields of a LogicVariable. `value` is the boxed Boolean, absent
   * when the one-argument constructor was used; `calculatedBy` is the gate
   * driving the variable, absent (null) for a free input.
   */
  datatype Variable = Variable(name: string, value: Option<bool>, calculatedBy: Option<GateId>)

  /**
   * LogicVariable.equals: same name and same stored value, where two absent
   * values are the same. The driving gate is not compared. The Java version
   * compares the boxed values with !=, which compares the values because
   * autoboxing always yields the canonical Boolean.TRUE or Boolean.FALSE.
   */
  predicate Equals(a: Variable, b: Variable)
  {
    a.name == b.name && a.value == b.value
  }

  /** equals is reflexive (the this == obj shortcut gives true, and so does the field comparison). */
  lemma EqualsReflexive(a: Variable)
    ensures Equals(a, a)
  {
  }

  /** equals is an equivalence relation on the stored fields. */
  lemma EqualsEquivalence(a: Variable, b: Variable, c: Variable)
    ensures Equals(a, b) ==> Equals(b, a)
    ensures Equals(a, b) && Equals(b, c) ==> Equals(a, c)
  {
  }

  /** Two variables built without a value under the same name are equal, whatever drives them. */
  lemma UnsetSameNameEqual(n: string, g1: Option<GateId>, g2: Option<GateId>)
    ensures Equals(Variable(n, None, g1), Variable(n, None, g2))
    ensures !Equals(Variable(n, None, g1), Variable(n, Some(false), g2))
  {
  }
}
