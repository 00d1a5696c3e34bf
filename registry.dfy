/**
 * CombinatorialCircuit: a registry of variables keyed by name. It is
 * independent of the wiring; it only reads a variable's name.
 */
module Registry {

  import opened Wrappers
  import opened Variables
  import opened Objects

  class CombinatorialCircuit {
    /** The HashMap from names to the variables added under them. */
    var lv: map<string, VarId>

    constructor ()
      ensures lv == map[]
    {
      lv := map[];
    }

    /** getVariableByName: the variable added under the name, or null. */
    function GetVariableByName(lvName: string): (r: Option<VarId>)
      reads this
      ensures r.Some? <==> lvName in lv
      ensures r.Some? ==> r.value == lv[lvName]
    {
      if lvName in lv then Some(lv[lvName]) else None
    }

    /**
     * addVariable: inserts the variable under its name and answers true, or
     * answers false and changes nothing when some variable already has that
     * name (whatever its stored value).
     */
    method AddVariable(net: Network, newLv: VarId) returns (added: bool)
      requires newLv < |net.vars|
      modifies this
      ensures added <==> net.vars[newLv].name !in old(lv)
      ensures lv == if added then old(lv)[net.vars[newLv].name := newLv] else old(lv)
      ensures GetVariableByName(net.vars[newLv].name) ==
        if added then Some(newLv) else old(GetVariableByName(net.vars[newLv].name))
      ensures old(lv).Keys <= lv.Keys && |lv.Keys| <= |old(lv).Keys| + 1
      ensures forall n :: n in old(lv) ==> lv[n] == old(lv)[n]
    {
      var name := net.vars[newLv].name;
      if name in lv {
        return false;
      }
      lv := lv[name := newLv];
      assert lv.Keys == old(lv).Keys + {name};
      return true;
    }
  }

  /** The variables of the registry test: new LogicVariable("x1") twice, in the given network. */
  method AddTwoNamedX1(net: Network) returns (a: VarId, b: VarId)
    requires net.Valid()
    modifies net
    ensures a < |net.vars| && b < |net.vars| && a != b
    ensures net.vars[a].name == "x1" && net.vars[b].name == "x1"
  {
    a := net.NewVariable("x1", None);
    b := net.NewVariable("x1", None);
  }

  /**
   * The registry test: two unset variables named x1; the first is added, the
   * second is refused, x1 finds the first, x2 finds nothing.
   */
  method DuplicateNameScenario() returns (a: VarId, b: VarId, first: bool, second: bool, found: Option<VarId>, missing: Option<VarId>)
    ensures a != b && first && !second && found == Some(a) && missing == None
  {
    var net := new Network();
    a, b := AddTwoNamedX1(net);
    var c := new CombinatorialCircuit();
    first := c.AddVariable(net, a);
    second := c.AddVariable(net, b);
    found := c.GetVariableByName("x1");
    missing := c.GetVariableByName("x2");
  }
}
