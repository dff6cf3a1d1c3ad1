# EJML function registry and eigen-decomposition wrapper, in Dafny

This project models two small pieces of the Efficient Java Matrix Library
(EJML) and proves properties of them:

- **`ManagerFunctions`**, the equation layer's function registry. It holds two
  tables from names to operation factories. One is for functions of a single
  input and the other is for functions of a list of inputs. It starts with ten
  built-ins. It answers whether a string names a function, builds operations by
  name, and maps operator tokens to fixed operations.
  (`manager_functions.dfy`, module `Equation`; the operation descriptors it
  returns are opaque records in `operation.dfy`, module `Operation`.)
- **`SimpleEVD`**, the wrapper around an eigen-decomposition. The model covers
  its constructor's fail-fast check, the collection of all eigenvalues in index
  order, and the first-occurrence arg-max / arg-min scans over squared
  magnitudes. (`simple_evd.dfy`, module `Simple`; the reference definitions of
  first maximum and first minimum are in `extremes.dfy`, module `Extremes`.)

`wrappers.dfy` defines `Option` and `Result`. `Option` stands for a Java
reference that may be null. `Result` stands for a call that either returns a
value or raises an exception.

Modelling choices:

- The Java registry is a mutable object. Here it is an immutable value, and
  `add`, `setManagerTemp` and the constructor return the registry they
  produce.
- A `create` call yields a `Result<Option<Info>, Error>`. `Failure` is the
  `RuntimeException`, `Success(None)` is the null return, and
  `Success(Some(info))` is a created operation.
- A factory is either a built-in (`Unary`, `Pair`, `Listed`) or a user-supplied
  one (`Custom1`, `CustomN`). A user-supplied factory holds a total function
  that stands for arbitrary code the registry cannot see.
- The foreign eigenvalue algorithm is a constructor parameter of type
  `Matrix -> Option<nat -> Complex>`. None means `decompose` returned false.
  Otherwise it gives the eigenvalue at each index. The decomposition object
  keeps the algorithm it runs, and a valid wrapper's decomposition holds that
  algorithm's result on the wrapper's own matrix.
- Squared magnitudes are exact `real`s.

## Model

| member | source | states |
|---|---|---|
| `Equation.New` | main/equation/src/org/ejml/equation/ManagerFunctions.java:40-42 | a fresh registry has exactly inv, pinv, eye, det, normF, trace in the single-input table and exactly kron, catV, catH, extract in the N-input table, and no temporary-variable manager |
| `Equation.NewRecognisesBuiltIns` | main/equation/src/org/ejml/equation/ManagerFunctions.java:160-228 | on a fresh registry `isFunctionName(s)` holds exactly for the ten built-in names |
| `Equation.NewHoldsTenNames` | main/equation/src/org/ejml/equation/ManagerFunctions.java:160-229 | the built-in names are ten distinct names, and no name is in both tables |
| `Equation.NewFactories` | main/equation/src/org/ejml/equation/ManagerFunctions.java:161-228 | a fresh registry holds under each built-in name its own factory: six single-input operations, `kron` with its two-input check, and `catV`, `catH`, `extract` taking a list |
| `Equation.BuiltIn1Operations` | main/equation/src/org/ejml/equation/ManagerFunctions.java:161-201 | in any registry still holding a single-input built-in under its name, creating it builds that operation on the one input, using the manager current at call time |
| `Equation.IsFunctionName` | main/equation/src/org/ejml/equation/ManagerFunctions.java:47-54 | true exactly when the name is a key of either table |
| `Equation.Create1` | main/equation/src/org/ejml/equation/ManagerFunctions.java:62-67 | null when the name is absent from the single-input table; otherwise the registered factory's result on the input |
| `Equation.KronIsNotSingleInput` | main/equation/src/org/ejml/equation/ManagerFunctions.java:62-66 | `kron` is a function name, yet the single-input `create` of it is null |
| `Equation.Create1ReadsOnlyInput1` | main/equation/src/org/ejml/equation/ManagerFunctions.java:63-65 | the single-input `create` depends only on the single-input table and the manager |
| `Equation.CreateN` | main/equation/src/org/ejml/equation/ManagerFunctions.java:75-80 | null when the name is absent from the N-input table; a two-input factory raises exactly when not given two inputs; a list factory passes all inputs on |
| `Equation.InvIsNotMultiInput` | main/equation/src/org/ejml/equation/ManagerFunctions.java:75-79 | `inv` is a function name, yet the N-input `create` of it is null |
| `Equation.CreateNReadsOnlyInputN` | main/equation/src/org/ejml/equation/ManagerFunctions.java:76-78 | the N-input `create` depends only on the N-input table and the manager |
| `Equation.KronArity` | main/equation/src/org/ejml/equation/ManagerFunctions.java:203-209 | in any registry still holding the built-in `kron`, creating it raises "Two inputs expected" exactly when the input count is not 2, and otherwise combines the two inputs in order |
| `Equation.ConcatAndExtractTakeAnyCount` | main/equation/src/org/ejml/equation/ManagerFunctions.java:211-228 | in any registry still holding the built-in `catV`, `catH` or `extract`, it accepts any number of inputs, even zero, and passes the whole list on |
| `Equation.CreateUnaryOp` | main/equation/src/org/ejml/equation/ManagerFunctions.java:88-95 | succeeds exactly for the transpose character, with a transpose of the input; every other character raises "Unknown operation" |
| `Equation.CreateBinaryOp` | main/equation/src/org/ejml/equation/ManagerFunctions.java:105-127 | succeeds exactly for the six arithmetic symbols, with operands (left, right) in that order; any other symbol raises "Unknown operation" |
| `Equation.BinaryOperationTable` | main/equation/src/org/ejml/equation/ManagerFunctions.java:107-123 | PLUS, MINUS, TIMES, DIVIDE, ELEMENT_DIVIDE and ELEMENT_TIMES map to add, subtract, multiply, divide, element division and element multiplication |
| `Equation.BinaryOperationsDistinct` | main/equation/src/org/ejml/equation/ManagerFunctions.java:106-124 | two different symbols never build the same operation kind |
| `Equation.BinaryOpSucceedsOnArithmeticNames` | main/equation/src/org/ejml/equation/ManagerFunctions.java:106-126 | for any symbol the enumeration can hold, `create(Symbol, …)` succeeds exactly when the symbol is one of PLUS, MINUS, TIMES, DIVIDE, ELEMENT_DIVIDE, ELEMENT_TIMES |
| `Equation.SetManagerTemp` | main/equation/src/org/ejml/equation/ManagerFunctions.java:135-137 | setting the manager leaves both tables unchanged |
| `Equation.GetManagerTemp` | main/equation/src/org/ejml/equation/ManagerFunctions.java:231-233 | the manager returned is the one stored: setting it back leaves the registry unchanged |
| `Equation.ManagerTempRoundTrip` | main/equation/src/org/ejml/equation/ManagerFunctions.java:135-137 | `getManagerTemp` returns what `setManagerTemp` stored, and every built-in operation created afterwards carries that manager: the single-input built-ins, `kron` given two inputs, `catV`/`catH`/`extract`, transpose and the six binary operators |
| `Equation.Add1` | main/equation/src/org/ejml/equation/ManagerFunctions.java:144-146 | adds the name to the single-input table's keys; the N-input table and the manager are unchanged |
| `Equation.Add1Effect` | main/equation/src/org/ejml/equation/ManagerFunctions.java:145 | after `add(name, f)` the name is a function name and creating it runs `f`; every other name, and the whole N-input side, behaves as before |
| `Equation.AddOverwrites` | main/equation/src/org/ejml/equation/ManagerFunctions.java:144-146 | adding the same name twice keeps the last factory and adds the name once |
| `Equation.AddN` | main/equation/src/org/ejml/equation/ManagerFunctions.java:153-155 | adds the name to the N-input table's keys; the single-input table and the manager are unchanged |
| `Equation.AddNEffect` | main/equation/src/org/ejml/equation/ManagerFunctions.java:154 | after `add(name, f)` the name is a function name and creating it runs `f`; every other name, and the whole single-input side, behaves as before |
| `Simple.New` | main/simple/src/org/ejml/simple/SimpleEVD.java:45-58 | construction fails exactly when `decompose` reports failure; a constructed wrapper is decomposed and sized by the matrix's column count |
| `Simple.NewReportsAlgorithm` | main/simple/src/org/ejml/simple/SimpleEVD.java:47-57 | a constructed wrapper reports one eigenvalue per column, each the algorithm's eigenvalue at that index |
| `Simple.GetNumberOfEigenvalues` | main/simple/src/org/ejml/simple/SimpleEVD.java:82-89 | the eigenvalue count equals the matrix's column count |
| `Simple.GetEigenvalue` | main/simple/src/org/ejml/simple/SimpleEVD.java:106-108 | on the 64-bit path the eigenvalue at an index is the one the decomposition's algorithm computed for the wrapper's own matrix, passed through without conversion |
| `Simple.GetEigenvalues` | main/simple/src/org/ejml/simple/SimpleEVD.java:63-80 | the list has one element per eigenvalue, and its i-th element is eigenvalue i |
| `Simple.GetIndexMax` | main/simple/src/org/ejml/simple/SimpleEVD.java:163-177 | with at least one eigenvalue, the result is in range, no squared magnitude exceeds the one there, every earlier one is strictly smaller, and it equals `Extremes.ArgMax` |
| `Simple.GetIndexMin` | main/simple/src/org/ejml/simple/SimpleEVD.java:184-198 | with at least one eigenvalue, the result is in range, no squared magnitude is below the one there, every earlier one is strictly larger, and it equals `Extremes.ArgMin` |
| `Extremes.ArgMax` | main/simple/src/org/ejml/simple/SimpleEVD.java:165-174 | a reference first arg-max: a maximum, with every earlier element strictly smaller |
| `Extremes.ArgMin` | main/simple/src/org/ejml/simple/SimpleEVD.java:186-195 | a reference first arg-min: a minimum, with every earlier element strictly larger |
| `Extremes.FirstMaxUnique` | main/simple/src/org/ejml/simple/SimpleEVD.java:170 | the strict comparison makes the first maximum unique |
| `Extremes.FirstMinUnique` | main/simple/src/org/ejml/simple/SimpleEVD.java:191 | the strict comparison makes the first minimum unique |
| `Extremes.ExtremesCoincide` | main/simple/src/org/ejml/simple/SimpleEVD.java:163-198 | the max and min indices coincide exactly when all magnitudes are equal, and then both are 0 |

## Left out

- The `Operation.*` constructors (`inv`, `kron`, `transpose`, `add`, …) are not part of this model. Each created operation is recorded as an opaque `Info(kind, operands, temp)`. Any checks or exceptions inside those constructors are not modelled.
- The rule that `setManagerTemp` must be called before any other method is not checked, in Java or here. A registry whose manager was never set passes a null manager (`None`) on to every operation it creates, as the Java built-ins pass `null` to the operation constructors.
- `ManagerTempVariables` is not part of this model. It is an opaque identity (`TempManager`), and null is represented as `None`.
- The `Symbol` enumeration is not part of this model. Its six arithmetic constants are modelled, and every other constant is `OtherSymbol(name)`.
- The registry's mutable object identity and aliasing are not modelled. It is modelled as a value.
- Passing a null factory to `add` is not modelled. In Java that leaves a name for which `isFunctionName` holds but `create` returns null.
- User-supplied factories are arbitrary code. They are modelled as total functions, and the model does not say what they compute.
- `SimpleEVD.quality()`, `getEigenVector` and `getEVD` are left out. They are foreign numerics or a plain accessor to the foreign object.
- The choice of decomposition factory and the eigenvalue algorithm itself are foreign. The algorithm is a constructor parameter.
- The 32-bit branch, including its `Complex32F` conversion, is left out. Only the 64-bit path is modelled.
- IEEE-754 behaviour of `getMagnitude2` (rounding, NaN, overflow) is not modelled. Squared magnitudes are exact reals.
- Simple.GetNumberOfEigenvalues: returns the size the decomposition was created with, standing in for the foreign `eig.getNumberOfEigenvalues()`. That this size is the matrix dimension is taken from the method's documentation, not from code shown, so "count equals column count" holds by construction.
- Null arguments are not modelled, because the Dafny types exclude them. In Java a null `Symbol` raises a NullPointerException at the `switch`, `kron` given a null list raises at its size check, and `catV`, `catH` and `extract` pass a null list on to the operation constructor.
- Java `char` and `String` are UTF-16 code units. A Dafny `char` cannot hold a lone surrogate, so a `create(char, …)` call with such a character has no counterpart here (it raises "Unknown operation" in Java, like every non-transpose character).
- The model admits `OtherSymbol` values named like one of the six arithmetic constants, which the Java enumeration cannot produce. Such values are failures here; `WellFormedSymbol` names the symbols Java can hold, and `BinaryOpSucceedsOnArithmeticNames` is stated over those.
- Simple.GetEigenvalue: requires an index in range. The out-of-range behaviour belongs to the foreign decomposition.
- Simple.GetIndexMax: requires at least one eigenvalue. With none, the Java code asks the foreign decomposition for eigenvalue 0, and what happens then is not shown.
- Simple.GetIndexMin: requires at least one eigenvalue, for the same reason as `GetIndexMax`.
