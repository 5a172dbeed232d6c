/** The pure helpers of Utils.java that the parser and evaluators use. */
module Utils {
  import opened Wrappers
  import opened Values
  import Identifiers

  /** EOL: the index just past a line break that starts at `start`
      ("\r\n" or "\n"), or -1 when none starts there. */
  function EOL(source: string, start: int): (r: int)
    requires 0 <= start < |source|
    ensures r == -1 || start < r <= start + 2
    ensures r == start + 2 <==> start + 2 <= |source| && source[start..start + 2] == "\r\n"
    ensures r == start + 1 <==> source[start] == '\n'
  {
    if start + 1 < |source| && source[start] == '\r' && source[start + 1] == '\n' then
      start + 2
    else if source[start] == '\n' then
      start + 1
    else
      -1
  }

  predicate IsEOL(source: string, start: int)
    requires 0 <= start < |source|
  {
    EOL(source, start) != -1
  }

  /** isEOL holds exactly where a line break starts; a carriage return on
      its own is not one. */
  lemma IsEOLIffLineBreak(source: string, start: int)
    requires 0 <= start < |source|
    ensures IsEOL(source, start) <==>
      source[start] == '\n' || (start + 2 <= |source| && source[start..start + 2] == "\r\n")
    ensures source[start] == '\r' && (start + 1 == |source| || source[start + 1] != '\n')
      ==> EOL(source, start) == -1
  {
  }

  /** is_mutable: "let" declares a mutable variable, "val" an immutable
      one, any other keyword throws (`None`). */
  function IsMutable(declaration: string): (r: Option<bool>)
    ensures r == Some(true) <==> declaration == Identifiers.VarDeclaration
    ensures r == Some(false) <==> declaration == Identifiers.ConstDeclaration
    ensures r.None? <==> declaration !in {Identifiers.VarDeclaration, Identifiers.ConstDeclaration}
  {
    if declaration == Identifiers.ConstDeclaration then Some(false)
    else if declaration == Identifiers.VarDeclaration then Some(true)
    else None
  }

  /** get_obj_type: a named variable has its own type; strings, characters,
      integers, booleans and doubles have the matching builtin type; null
      and anything else throw (`None`). */
  function ObjType(o: Obj): (r: Option<VType>)
    ensures o.Named? ==> r == Some(o.variable.vtype)
    ensures o.Str? ==> r == Some(StringType)
    ensures o.CharObj? ==> r == Some(CharType)
    ensures o.IntObj? ==> r == Some(IntType)
    ensures o.BoolObj? ==> r == Some(BooleanType)
    ensures o.DoubleObj? ==> r == Some(DoubleType)
    ensures r.None? <==> o.Null? || o.LiteralObj?
  {
    match o
    case Named(_, v) => Some(v.vtype)
    case Str(_) => Some(StringType)
    case CharObj(_) => Some(CharType)
    case IntObj(_) => Some(IntType)
    case BoolObj(_) => Some(BooleanType)
    case DoubleObj(_) => Some(DoubleType)
    case _ => None
  }

  /** The enum constant name of a builtin type. */
  function TypeName(t: VType): string {
    match t
    case StringType => "String"
    case CharType => "Char"
    case IntType => "Int"
    case BooleanType => "Boolean"
    case DoubleType => "Double"
  }

  /** to_type: `BuiltinType.valueOf`, which rejects a null name and any
      name that is not a constant of the enum. */
  function ToType(name: Option<string>): (r: Option<VType>)
    ensures r.Some? ==> name == Some(TypeName(r.value))
  {
    match name
    case None => None
    case Some(n) =>
      if n == "String" then Some(StringType)
      else if n == "Char" then Some(CharType)
      else if n == "Int" then Some(IntType)
      else if n == "Boolean" then Some(BooleanType)
      else if n == "Double" then Some(DoubleType)
      else None
  }

  lemma ToTypeOfTypeName(t: VType)
    ensures ToType(Some(TypeName(t))) == Some(t)
  {
  }

  /** eq / gt / lt over an `Ordering` whose `compare` is `compare`. */
  predicate Eq<T>(compare: (T, T) -> int, a: T, b: T) {
    compare(a, b) == 0
  }

  predicate Gt<T>(compare: (T, T) -> int, a: T, b: T) {
    compare(a, b) > 0
  }

  predicate Lt<T>(compare: (T, T) -> int, a: T, b: T) {
    compare(a, b) < 0
  }

  /** For any pair exactly one of eq, gt and lt holds. */
  lemma ExactlyOneOrdering<T>(compare: (T, T) -> int, a: T, b: T)
    ensures Eq(compare, a, b) || Gt(compare, a, b) || Lt(compare, a, b)
    ensures !(Eq(compare, a, b) && Gt(compare, a, b))
    ensures !(Eq(compare, a, b) && Lt(compare, a, b))
    ensures !(Gt(compare, a, b) && Lt(compare, a, b))
  {
  }

  /** variable_with_name: an adapter that answers `name()` itself and
      hands everything else to the wrapped variable. */
  function VariableWithName(name: string, variable: Variable): Obj {
    Named(name, variable)
  }

  /** The adapter's `setValue`, on the value model of a variable. */
  function SetValue(named: Obj, value: Obj): Obj
    requires named.Named?
  {
    Named(named.name, named.variable.(value := value))
  }

  /** With variables as values, delegation means the adapter's fields are
      the wrapped variable's own, and `setValue` is the wrapped variable
      with the new value. */
  lemma VariableWithNameDelegates(name: string, variable: Variable, value: Obj)
    ensures VariableWithName(name, variable).name == name
    ensures VariableWithName(name, variable).variable.vtype == variable.vtype
    ensures VariableWithName(name, variable).variable.value == variable.value
    ensures VariableWithName(name, variable).variable.mutable == variable.mutable
    ensures SetValue(VariableWithName(name, variable), value)
      == VariableWithName(name, variable.(value := value))
  {
  }
}
