/**
 * The three concrete gate classes: what distinguishes GateAnd, GateOr and
 * GateNot is their symbol, the number of inputs their constructor passes to
 * the LogicGate base constructor, and the boolean function of those inputs
 * (the last lives with the evaluation in module Graph).
 */
module Gates {

  datatype Kind = And | Or | Not

  /** getSymbol of each gate class. */
  function Symbol(k: Kind): (s: string)
    ensures s == "AND" <==> k == And
    ensures s == "OR" <==> k == Or
    ensures s == "NOT" <==> k == Not
  {
    match k
    case And => "AND"
    case Or => "OR"
    case Not => "NOT"
  }

  /** How many inputs the constructor of each gate class hands to the base class. */
  function Arity(k: Kind): (n: nat)
    ensures n == 1 <==> k == Not
    ensures n == 2 <==> k != Not
  {
    if k == Not then 1 else 2
  }

  /** Different gate classes have different symbols, so a formula names its gate kind. */
  lemma SymbolInjective(k1: Kind, k2: Kind)
    ensures Symbol(k1) == Symbol(k2) ==> k1 == k2
  {
  }
}
