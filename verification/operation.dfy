/** Opaque stand-ins for the equation layer's variables and for the
    descriptors (`Operation.Info`) that its operation constructors return.
    Only which operation was requested, on which operands and with which
    temporary-variable manager is recorded; the matrix computation itself
    is not part of this model. */
module Operation {
  import opened Wrappers

  /** A variable of an equation, known here only by its name. */
  datatype Variable = Variable(name: string)

  /** Identity of a temporary-variable manager (`ManagerTempVariables`). */
  datatype TempManager = TempManager(id: nat)

  /** The operation constructors the function registry can call. */
  datatype Kind =
    | Transpose
    | Add | Subtract | Multiply | Divide | ElementDivision | ElementMult
    | Inv | Pinv | Eye | Det | NormF | Trace
    | Kron | CatV | CatH | Extract

  /** A created operation: its kind, its operands in order, and the
      temporary-variable manager it was given (None when that was null). */
  datatype Info = Info(kind: Kind, operands: seq<Variable>, temp: Option<TempManager>)
}
