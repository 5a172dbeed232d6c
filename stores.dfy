/** The two views of `Global` the evaluators use. Global.java and
    Runtime.java are not part of this model: each view is a class holding
    the map the evaluator reads and rewrites, with the operations AST.java
    calls on it. */
module Stores {
  import opened Wrappers
  import opened Values

  /** The untyped view: a name maps to a value (`null` until assigned). */
  class ValueStore {
    var values: map<string, Obj>

    constructor ()
      ensures values == map[]
    {
      values := map[];
    }

    /** Global.exists. */
    predicate Exists(name: string)
      reads this
    {
      name in values
    }

    /** Global.get, called only once `Exists` holds. */
    method Get(name: string) returns (v: Obj)
      requires Exists(name)
      ensures v == values[name]
    {
      v := values[name];
    }

    /** Global.put(name, value): declare or overwrite. */
    method Put(name: string, v: Obj)
      modifies this
      ensures values == old(values)[name := v]
    {
      values := values[name := v];
    }
  }

  /** The typed view: a name maps to a variable record. */
  class VariableStore {
    var vars: map<string, Variable>

    constructor ()
      ensures vars == map[]
    {
      vars := map[];
    }

    /** Global.local: the variable of that name, if any. */
    method Local(name: string) returns (r: Option<Variable>)
      ensures r.Some? <==> name in vars
      ensures r.Some? ==> r.value == vars[name]
    {
      if name in vars {
        r := Some(vars[name]);
      } else {
        r := None;
      }
    }

    /** Runtime.declare_variable: a fresh variable without a value,
        replacing any earlier one of that name. */
    method DeclareVariable(name: string, t: VType, mutable: bool) returns (v: Variable)
      modifies this
      ensures v == Variable(t, mutable, Null) && vars == old(vars)[name := v]
    {
      v := Variable(t, mutable, Null);
      vars := vars[name := v];
    }

    /** Global.put(name, variable, value): the variable now holds `value`. */
    method Put(name: string, variable: Variable, value: Obj)
      modifies this
      ensures vars == old(vars)[name := variable.(value := value)]
    {
      vars := vars[name := variable.(value := value)];
    }
  }
}
