/** The equation layer's function registry (`ManagerFunctions`): two tables
    from names to operation factories, one for functions of a single input
    and one for functions of a list of inputs, plus the dispatch of operator
    tokens to fixed operations.

    The Java object is mutable; here a registry is a value and every
    mutator returns the registry it leaves behind. */
module Equation {
  import opened Wrappers
  import opened Operation

  /** The exceptions the registry and its built-in factories raise. */
  datatype Error =
    | UnknownOperation(op: string)   // an operator token with no operation
    | TwoInputsExpected              // `kron` given other than two inputs
    | Raised(message: string)        // raised by a user-supplied factory

  /** The text of the exception each error stands for. */
  function Message(e: Error): string
  {
    match e
    case UnknownOperation(op) => "Unknown operation " + op
    case TwoInputsExpected => "Two inputs expected"
    case Raised(m) => m
  }

  /** What a `create` call produces: an exception (Failure), null
      (Success(None)) or an operation (Success(Some(info))). */
  type Created = Result<Option<Info>, Error>

  /** A factory for a single-input function: a built-in one calls a fixed
      operation constructor, a user-supplied one is arbitrary code. */
  datatype Input1 =
    | Unary(kind: Kind)
    | Custom1(make: Variable -> Created)

  /** A factory for a function of a list of inputs: `Pair` insists on
      exactly two inputs (as `kron` does), `Listed` passes the whole list
      on (as `catV`, `catH` and `extract` do). */
  datatype InputN =
    | Pair(kind: Kind)
    | Listed(kind: Kind)
    | CustomN(make: seq<Variable> -> Created)

  /** The binary operator tokens handed to `create(Symbol, left, right)`.
      Every other constant of the tokenizer's symbol enumeration is
      `OtherSymbol`, carrying the constant's name; that name is meant to
      range over the OTHER constants only, never "PLUS" and the rest of the
      six named here (see `WellFormedSymbol`). */
  datatype Symbol =
    | Plus | Minus | Times | Divide | ElementDivide | ElementTimes
    | OtherSymbol(name: string)

  /** The names of the six arithmetic constants. */
  const ArithmeticNames: set<string> :=
    {"PLUS", "MINUS", "TIMES", "DIVIDE", "ELEMENT_DIVIDE", "ELEMENT_TIMES"}

  /** A symbol the Java enumeration can actually hold: an `OtherSymbol`
      never reuses the name of one of the six arithmetic constants. */
  predicate WellFormedSymbol(op: Symbol)
  {
    op.OtherSymbol? ==> op.name !in ArithmeticNames
  }

  /** The registry's state: both tables and the temporary-variable manager
      (None while it is null). */
  datatype ManagerFunctions = ManagerFunctions(
    input1: map<string, Input1>,
    inputN: map<string, InputN>,
    managerTemp: Option<TempManager>)

  /** Every name the registry knows, in either table. */
  function Names(m: ManagerFunctions): set<string>
  {
    m.input1.Keys + m.inputN.Keys
  }

  /** The single-input built-ins. */
  const BuiltIn1: map<string, Input1> :=
    map["inv" := Unary(Inv), "pinv" := Unary(Pinv), "eye" := Unary(Eye),
        "det" := Unary(Det), "normF" := Unary(NormF), "trace" := Unary(Trace)]

  /** The N-input built-ins. */
  const BuiltInN: map<string, InputN> :=
    map["kron" := Pair(Kron), "catV" := Listed(CatV), "catH" := Listed(CatH),
        "extract" := Listed(Extract)]

  /** The constructor: both tables hold the built-ins and nothing else, and
      no temporary-variable manager has been set. */
  function New(): (m: ManagerFunctions)
    ensures m.input1.Keys == {"inv", "pinv", "eye", "det", "normF", "trace"}
    ensures m.inputN.Keys == {"kron", "catV", "catH", "extract"}
    ensures m.managerTemp == None
  {
    ManagerFunctions(BuiltIn1, BuiltInN, None)
  }

  /** `isFunctionName`: the single-input table is consulted first, then the
      N-input table. */
  function IsFunctionName(m: ManagerFunctions, s: string): (b: bool)
    ensures b <==> s in Names(m)
  {
    s in m.input1 || s in m.inputN
  }

  /** Runs a single-input factory; built-ins read the registry's current
      temporary-variable manager. */
  function Apply1(f: Input1, var0: Variable, temp: Option<TempManager>): Created
  {
    match f
    case Unary(kind) => Success(Some(Info(kind, [var0], temp)))
    case Custom1(make) => make(var0)
  }

  /** Runs an N-input factory. */
  function ApplyN(f: InputN, vars: seq<Variable>, temp: Option<TempManager>): Created
  {
    match f
    case Pair(kind) =>
      if |vars| != 2 then Failure(TwoInputsExpected)
      else Success(Some(Info(kind, [vars[0], vars[1]], temp)))
    case Listed(kind) => Success(Some(Info(kind, vars, temp)))
    case CustomN(make) => make(vars)
  }

  /** `create(name, var0)`: looks only in the single-input table; null when
      the name is not there. */
  function Create1(m: ManagerFunctions, name: string, var0: Variable): (r: Created)
    ensures name !in m.input1 ==> r == Success(None)
    ensures name in m.input1 && m.input1[name].Unary? ==>
              r == Success(Some(Info(m.input1[name].kind, [var0], m.managerTemp)))
    ensures name in m.input1 && m.input1[name].Custom1? ==> r == m.input1[name].make(var0)
  {
    if name in m.input1 then Apply1(m.input1[name], var0, m.managerTemp)
    else Success(None)
  }

  /** `create(name, vars)`: looks only in the N-input table; null when the
      name is not there. A `Pair` factory raises unless given two inputs. */
  function CreateN(m: ManagerFunctions, name: string, vars: seq<Variable>): (r: Created)
    ensures name !in m.inputN ==> r == Success(None)
    ensures name in m.inputN && m.inputN[name].Pair? ==>
              (r.Failure? <==> |vars| != 2) &&
              (r.Failure? ==> r.error == TwoInputsExpected) &&
              (r.Success? ==> r == Success(Some(Info(m.inputN[name].kind, vars, m.managerTemp))))
    ensures name in m.inputN && m.inputN[name].Listed? ==>
              r == Success(Some(Info(m.inputN[name].kind, vars, m.managerTemp)))
    ensures name in m.inputN && m.inputN[name].CustomN? ==> r == m.inputN[name].make(vars)
  {
    if name in m.inputN then
      assert |vars| == 2 ==> [vars[0], vars[1]] == vars;
      ApplyN(m.inputN[name], vars, m.managerTemp)
    else Success(None)
  }

  /** `create(char, input)`: only the transpose character has an operation. */
  function CreateUnaryOp(m: ManagerFunctions, op: char, input: Variable): (r: Created)
    ensures r.Success? <==> op == '\''
    ensures r.Success? ==> r == Success(Some(Info(Transpose, [input], m.managerTemp)))
    ensures r.Failure? ==> r.error == UnknownOperation([op])
  {
    match op
    case '\'' => Success(Some(Info(Transpose, [input], m.managerTemp)))
    case _ => Failure(UnknownOperation([op]))
  }

  /** The operation each arithmetic symbol stands for; None for the rest. */
  function BinaryKind(op: Symbol): Option<Kind>
  {
    match op
    case Plus => Some(Add)
    case Minus => Some(Subtract)
    case Times => Some(Multiply)
    case Divide => Some(Kind.Divide)
    case ElementDivide => Some(ElementDivision)
    case ElementTimes => Some(ElementMult)
    case OtherSymbol(_) => None
  }

  /** The name of a symbol's enumeration constant, as Java prints it. */
  function SymbolName(op: Symbol): string
  {
    match op
    case Plus => "PLUS"
    case Minus => "MINUS"
    case Times => "TIMES"
    case Divide => "DIVIDE"
    case ElementDivide => "ELEMENT_DIVIDE"
    case ElementTimes => "ELEMENT_TIMES"
    case OtherSymbol(name) => name
  }

  /** `create(Symbol, left, right)`: the six arithmetic symbols build their
      operation on (left, right) in that order; any other symbol raises. */
  function CreateBinaryOp(m: ManagerFunctions, op: Symbol, left: Variable, right: Variable): (r: Created)
    ensures r.Success? <==> !op.OtherSymbol?
    ensures r.Success? ==> r.value.Some? && r.value.value.operands == [left, right]
                           && r.value.value.temp == m.managerTemp
    ensures r.Failure? ==> r.error == UnknownOperation(op.name)
  {
    match BinaryKind(op)
    case Some(kind) => Success(Some(Info(kind, [left, right], m.managerTemp)))
    case None => Failure(UnknownOperation(op.name))
  }

  /** `setManagerTemp`: only the manager changes. */
  function SetManagerTemp(m: ManagerFunctions, temp: Option<TempManager>): (r: ManagerFunctions)
    ensures r.input1 == m.input1 && r.inputN == m.inputN
  {
    m.(managerTemp := temp)
  }

  /** `getManagerTemp`. */
  function GetManagerTemp(m: ManagerFunctions): (t: Option<TempManager>)
    ensures SetManagerTemp(m, t) == m
  {
    m.managerTemp
  }

  /** `add(name, Input1)`: puts or overwrites one entry of the single-input
      table; the N-input table and the manager are untouched. */
  function Add1(m: ManagerFunctions, name: string, f: Input1): (r: ManagerFunctions)
    ensures r.input1.Keys == m.input1.Keys + {name}
    ensures r.inputN == m.inputN && r.managerTemp == m.managerTemp
  {
    m.(input1 := m.input1[name := f])
  }

  /** `add(name, InputN)`: puts or overwrites one entry of the N-input
      table; the single-input table and the manager are untouched. */
  function AddN(m: ManagerFunctions, name: string, f: InputN): (r: ManagerFunctions)
    ensures r.inputN.Keys == m.inputN.Keys + {name}
    ensures r.input1 == m.input1 && r.managerTemp == m.managerTemp
  {
    m.(inputN := m.inputN[name := f])
  }

  // ---------------------------------------------------------------------
  // Properties of the registry

  /** A fresh registry recognises exactly the ten built-in names. */
  lemma NewRecognisesBuiltIns(s: string)
    ensures IsFunctionName(New(), s) <==>
              s in {"inv", "pinv", "eye", "det", "normF", "trace",
                    "kron", "catV", "catH", "extract"}
  {
  }

  /** The ten built-in names are distinct, six single-input and four
      N-input, with no name in both tables. */
  lemma NewHoldsTenNames()
    ensures New().input1.Keys !! New().inputN.Keys
    ensures |Names(New())| == 10
  {
    var a: set<string> := {"inv", "pinv", "eye", "det", "normF", "trace"};
    var b: set<string> := {"kron", "catV", "catH", "extract"};
    assert |a| == 6;
    assert |b| == 4;
    assert a !! b;
    assert Names(New()) == a + b;
  }

  /** A fresh registry holds the built-in factory under each built-in name:
      `kron` checks for two inputs, the other N-input built-ins take a list. */
  lemma NewFactories()
    ensures New().input1["inv"] == Unary(Inv) && New().input1["pinv"] == Unary(Pinv)
    ensures New().input1["eye"] == Unary(Eye) && New().input1["det"] == Unary(Det)
    ensures New().input1["normF"] == Unary(NormF) && New().input1["trace"] == Unary(Trace)
    ensures New().inputN["kron"] == Pair(Kron)
    ensures New().inputN["catV"] == Listed(CatV) && New().inputN["catH"] == Listed(CatH)
    ensures New().inputN["extract"] == Listed(Extract)
  {
  }

  /** Each single-input built-in builds its own operation on its one input,
      with the manager current at the time of the call. */
  lemma BuiltIn1Operations(m: ManagerFunctions, v: Variable)
    ensures "inv" in m.input1 && m.input1["inv"] == Unary(Inv) ==>
              Create1(m, "inv", v) == Success(Some(Info(Inv, [v], m.managerTemp)))
    ensures "pinv" in m.input1 && m.input1["pinv"] == Unary(Pinv) ==>
              Create1(m, "pinv", v) == Success(Some(Info(Pinv, [v], m.managerTemp)))
    ensures "eye" in m.input1 && m.input1["eye"] == Unary(Eye) ==>
              Create1(m, "eye", v) == Success(Some(Info(Eye, [v], m.managerTemp)))
    ensures "det" in m.input1 && m.input1["det"] == Unary(Det) ==>
              Create1(m, "det", v) == Success(Some(Info(Det, [v], m.managerTemp)))
    ensures "normF" in m.input1 && m.input1["normF"] == Unary(NormF) ==>
              Create1(m, "normF", v) == Success(Some(Info(NormF, [v], m.managerTemp)))
    ensures "trace" in m.input1 && m.input1["trace"] == Unary(Trace) ==>
              Create1(m, "trace", v) == Success(Some(Info(Trace, [v], m.managerTemp)))
  {
  }

  /** The single-input `create` never looks at the N-input table: on a fresh
      registry `kron` is a function name, yet creating it with one input
      gives null. */
  lemma KronIsNotSingleInput(v: Variable)
    ensures IsFunctionName(New(), "kron")
    ensures Create1(New(), "kron", v) == Success(None)
  {
  }

  /** Symmetrically, the N-input `create` never looks at the single-input
      table. */
  lemma InvIsNotMultiInput(vars: seq<Variable>)
    ensures IsFunctionName(New(), "inv")
    ensures CreateN(New(), "inv", vars) == Success(None)
  {
  }

  /** The result of `create(name, var0)` depends only on the single-input
      table and the manager. */
  lemma Create1ReadsOnlyInput1(m: ManagerFunctions, m': ManagerFunctions, name: string, v: Variable)
    requires m.input1 == m'.input1 && m.managerTemp == m'.managerTemp
    ensures Create1(m, name, v) == Create1(m', name, v)
  {
  }

  /** The result of `create(name, vars)` depends only on the N-input table
      and the manager. */
  lemma CreateNReadsOnlyInputN(m: ManagerFunctions, m': ManagerFunctions, name: string, vars: seq<Variable>)
    requires m.inputN == m'.inputN && m.managerTemp == m'.managerTemp
    ensures CreateN(m, name, vars) == CreateN(m', name, vars)
  {
  }

  /** The built-in `kron` raises exactly when not given two inputs, and
      otherwise combines the two in order. */
  lemma KronArity(m: ManagerFunctions, vars: seq<Variable>)
    requires "kron" in m.inputN && m.inputN["kron"] == Pair(Kron)
    ensures CreateN(m, "kron", vars).Failure? <==> |vars| != 2
    ensures |vars| != 2 ==> CreateN(m, "kron", vars) == Failure(TwoInputsExpected)
    ensures |vars| == 2 ==> CreateN(m, "kron", vars) == Success(Some(Info(Kron, vars, m.managerTemp)))
  {
  }

  /** `catV`, `catH` and `extract` accept any number of inputs, even none,
      and pass the whole list on. */
  lemma ConcatAndExtractTakeAnyCount(m: ManagerFunctions, vars: seq<Variable>)
    ensures "catV" in m.inputN && m.inputN["catV"] == Listed(CatV) ==>
              CreateN(m, "catV", vars) == Success(Some(Info(CatV, vars, m.managerTemp)))
    ensures "catH" in m.inputN && m.inputN["catH"] == Listed(CatH) ==>
              CreateN(m, "catH", vars) == Success(Some(Info(CatH, vars, m.managerTemp)))
    ensures "extract" in m.inputN && m.inputN["extract"] == Listed(Extract) ==>
              CreateN(m, "extract", vars) == Success(Some(Info(Extract, vars, m.managerTemp)))
  {
  }

  /** After `add(name, f)` the name is a function name, `create(name, v)`
      runs `f`, and every other name creates what it did before; the
      N-input side is unchanged for every name. */
  lemma Add1Effect(m: ManagerFunctions, name: string, f: Input1, other: string, v: Variable, vars: seq<Variable>)
    requires other != name
    ensures IsFunctionName(Add1(m, name, f), name)
    ensures Create1(Add1(m, name, f), name, v) == Apply1(f, v, m.managerTemp)
    ensures Create1(Add1(m, name, f), other, v) == Create1(m, other, v)
    ensures IsFunctionName(Add1(m, name, f), other) == IsFunctionName(m, other)
    ensures CreateN(Add1(m, name, f), other, vars) == CreateN(m, other, vars)
    ensures CreateN(Add1(m, name, f), name, vars) == CreateN(m, name, vars)
  {
  }

  /** The mirror image of `Add1Effect` for the N-input table. */
  lemma AddNEffect(m: ManagerFunctions, name: string, f: InputN, other: string, v: Variable, vars: seq<Variable>)
    requires other != name
    ensures IsFunctionName(AddN(m, name, f), name)
    ensures CreateN(AddN(m, name, f), name, vars) == ApplyN(f, vars, m.managerTemp)
    ensures CreateN(AddN(m, name, f), other, vars) == CreateN(m, other, vars)
    ensures IsFunctionName(AddN(m, name, f), other) == IsFunctionName(m, other)
    ensures Create1(AddN(m, name, f), other, v) == Create1(m, other, v)
    ensures Create1(AddN(m, name, f), name, v) == Create1(m, name, v)
  {
  }

  /** Adding a built-in name again replaces the built-in: overwriting is
      last-writer-wins. */
  lemma AddOverwrites(m: ManagerFunctions, name: string, f: Input1, g: Input1, v: Variable)
    ensures Create1(Add1(Add1(m, name, f), name, g), name, v) == Apply1(g, v, m.managerTemp)
    ensures Names(Add1(Add1(m, name, f), name, g)) == Names(m) + {name}
  {
  }

  /** `getManagerTemp` returns what `setManagerTemp` stored, and operations
      created afterwards carry that manager. */
  lemma ManagerTempRoundTrip(m: ManagerFunctions, temp: Option<TempManager>, name: string, nameN: string,
                             v: Variable, w: Variable, vars: seq<Variable>, op: Symbol)
    ensures GetManagerTemp(SetManagerTemp(m, temp)) == temp
    ensures Names(SetManagerTemp(m, temp)) == Names(m)
    ensures name in m.input1 && m.input1[name].Unary? ==>
              Create1(SetManagerTemp(m, temp), name, v).value.value.temp == temp
    ensures nameN in m.inputN && m.inputN[nameN].Listed? ==>
              CreateN(SetManagerTemp(m, temp), nameN, vars).value.value.temp == temp
    ensures nameN in m.inputN && m.inputN[nameN].Pair? && |vars| == 2 ==>
              CreateN(SetManagerTemp(m, temp), nameN, vars).value.value.temp == temp
    ensures CreateUnaryOp(SetManagerTemp(m, temp), '\'', v).value.value.temp == temp
    ensures CreateBinaryOp(SetManagerTemp(m, temp), op, v, w).Success? ==>
              CreateBinaryOp(SetManagerTemp(m, temp), op, v, w).value.value.temp == temp
  {
  }

  /** On symbols the enumeration can hold, `create(Symbol, ...)` succeeds
      exactly when the symbol's name is one of the six arithmetic names. */
  lemma BinaryOpSucceedsOnArithmeticNames(m: ManagerFunctions, op: Symbol, l: Variable, r: Variable)
    requires WellFormedSymbol(op)
    ensures CreateBinaryOp(m, op, l, r).Success? <==> SymbolName(op) in ArithmeticNames
  {
  }

  /** Each arithmetic symbol maps to its own operation: two different
      symbols never build the same kind, and the kinds are the six
      expected ones. */
  lemma BinaryOperationsDistinct(m: ManagerFunctions, a: Symbol, b: Symbol, l: Variable, r: Variable)
    requires CreateBinaryOp(m, a, l, r).Success? && CreateBinaryOp(m, b, l, r).Success?
    requires a != b
    ensures CreateBinaryOp(m, a, l, r).value.value.kind != CreateBinaryOp(m, b, l, r).value.value.kind
  {
  }

  /** The six symbols and their operations. */
  lemma BinaryOperationTable(m: ManagerFunctions, l: Variable, r: Variable)
    ensures CreateBinaryOp(m, Plus, l, r) == Success(Some(Info(Add, [l, r], m.managerTemp)))
    ensures CreateBinaryOp(m, Minus, l, r) == Success(Some(Info(Subtract, [l, r], m.managerTemp)))
    ensures CreateBinaryOp(m, Times, l, r) == Success(Some(Info(Multiply, [l, r], m.managerTemp)))
    ensures CreateBinaryOp(m, Symbol.Divide, l, r) == Success(Some(Info(Kind.Divide, [l, r], m.managerTemp)))
    ensures CreateBinaryOp(m, ElementDivide, l, r) == Success(Some(Info(ElementDivision, [l, r], m.managerTemp)))
    ensures CreateBinaryOp(m, ElementTimes, l, r) == Success(Some(Info(ElementMult, [l, r], m.managerTemp)))
  {
  }
}
