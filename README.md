# SPIR-V instruction node

A Dafny model of the in-memory SPIR-V instruction node of the LLVM/SPIR-V
translator (`SPRVInstruction`, `lib/SPIRV/libSPIRV/SPRVInstruction.cpp`).
The node is a value of a module. It has a word count, an opcode, an optional
result type, an optional result id and a back-reference to its owning basic
block. The model covers:

- the five construction shapes, and the function-call shape
  (`SPRVFunctionCall`). Each one ends with the validation step;
- the parent-binding state machine. `setParent` binds the block once, is
  a no-op when the same block is set again, and forbids rebinding to
  another block. `setScope` first checks that the scope is an `OpLabel`
  entry, then defers to `setParent`;
- operand-type resolution (`getOperandTypes`). It is an order-preserving map
  over the operands: a function operand contributes its declared signature,
  and any other operand contributes its own result type.

Files:

- `entry.dfy` (module `SprvEntry`): the collaborators the node observes.
  These are 32-bit words and ids, opcodes, types and function signatures, the
  opaque module, basic blocks, and the entries that can be operands or
  scopes. An entry is a datatype whose constructor matches its opcode tag:
  `Label` (`OpLabel`), `Function` (`OpFunction`), and `Plain` for every other
  opcode. So when the source casts an `OpLabel` entry to a block, or an
  `OpFunction` entry to a function, the model reads a datatype field.
- `instruction.dfy` (module `SprvInstruction`): operand-type resolution as
  the functions `OperandType`/`OperandTypes` and their lemmas; the
  parent-binding state machine as pure functions and lemmas; and the
  `Instruction` class. Its `bb` field changes in place. Every other field
  except the ghost counter `validations` is a `const`. `validations` goes up
  by one on each `Validate` call.

Modelling conventions:

- Pointer arguments that the source dereferences or asserts non-null are
  non-null by their Dafny type. This covers the block of `setParent`, the
  scope of `setScope`, the block of the four shapes that ask the block for its
  module, and the callee of a call. The explicit-module shape never
  dereferences its block (`SPRVInstruction.cpp:56`), so that block is an
  `Option`. That shape's explicit module is passed on to the value base class
  without a check. It is taken as non-null because the value base class,
  which is not part of this model, needs a module.
- Each instruction class should override `getOperands`, as the to-do note at
  `SPRVInstruction.cpp:107` says, but not every class does yet. A class that
  does not override it reaches the base version, which asserts "not
  supported" (`SPRVInstruction.cpp:111`). The node therefore carries
  `operands: Option<seq<Entry>>`: the list the instruction's class
  enumerates, or `None` when the class does not override the method. Each
  constructor takes this list as an extra parameter. `GetOperands` and
  `GetOperandTypes` require `operands.Some?`, which is the model of that
  assertion.
- For a function call, the operands are its arguments. The callee is kept
  only as its id (`functionId`) and is not an operand. The call's opcode is
  `OpFunctionCall`.
- A function's own `getType()` is its return type, which is the result type
  of an `OpFunction`. That is why a function operand's signature differs
  from the function's own type (`FunctionOperandIsSignature`).
- The validation step is the ghost counter `validations`. The generic step
  makes no structural check. Each of the five instruction shapes runs it once.
  A call runs it twice: once in the instruction constructor that the generic
  call base delegates to, and once at `SPRVInstruction.cpp:99`. In C++, a
  virtual call made inside a base-class constructor runs the base-class
  version. So the per-opcode check runs only if the most-derived constructor
  calls `validate()` again, as `SPRVFunctionCall` does.

## Model

| member | source | states |
|---|---|---|
| `SprvInstruction.Instruction.WithTypeAndId` | lib/SPIRV/libSPIRV/SPRVInstruction.cpp:46-52 | The (type, id) shape records word count, opcode, `Some` type, `Some` id and the block. Its module is the block's module. Validation has run exactly once. |
| `SprvInstruction.Instruction.WithTypeAndIdInModule` | lib/SPIRV/libSPIRV/SPRVInstruction.cpp:54-58 | The same shape with an explicit module, which becomes the owner. The block may be absent and is stored as given. Validation has run exactly once. |
| `SprvInstruction.Instruction.WithId` | lib/SPIRV/libSPIRV/SPRVInstruction.cpp:60-65 | The id-only shape: the type reads as absent (`None`), the id is present, and the owner is the block's module. Validation has run once. |
| `SprvInstruction.Instruction.Bare` | lib/SPIRV/libSPIRV/SPRVInstruction.cpp:66-71 | The shape with neither: type and id both read as absent. Validation has run once. |
| `SprvInstruction.Instruction.WithType` | lib/SPIRV/libSPIRV/SPRVInstruction.cpp:72-77 | The type-only shape: the type is present and the id reads as absent. Validation has run once. |
| `SprvInstruction.Instruction.Validate` | lib/SPIRV/libSPIRV/SPRVInstruction.cpp:102-105 | The validation hook runs one more time and changes nothing else in the node. |
| `SprvInstruction.Instruction.FunctionCall` | lib/SPIRV/libSPIRV/SPRVInstruction.cpp:94-100 | The call's result type is the callee's declared return type. The callee is recorded only by its id. Both are `const`, so both stay fixed. Opcode `OpFunctionCall`; the operands are the arguments; the block is bound. |
| `SprvInstruction.Instruction.SetParent` | lib/SPIRV/libSPIRV/SPRVInstruction.cpp:79-86 | Callable only when no block is bound or the same block is bound; a different bound block violates the precondition. Afterwards the block is the argument. Setting the same block again changes nothing. |
| `SprvInstruction.Instruction.SetScope` | lib/SPIRV/libSPIRV/SPRVInstruction.cpp:88-92 | Requires the scope's opcode to be `OpLabel`, plus the `setParent` precondition for its block. The effect is exactly that of `setParent` on that block. |
| `SprvInstruction.Instruction.GetOperands` | lib/SPIRV/libSPIRV/SPRVInstruction.cpp:107-113 | Only an instruction whose class enumerates its operands may be asked; then it returns that list. The generic node is not supported. |
| `SprvInstruction.Instruction.GetOperandTypes` | lib/SPIRV/libSPIRV/SPRVInstruction.cpp:115-128 | The loop returns one type per operand, in operand order: the signature for an `OpFunction` operand, the operand's own type otherwise. The result equals `OperandTypes` of the operands. |
| `SprvInstruction.OperandTypesParallel` | lib/SPIRV/libSPIRV/SPRVInstruction.cpp:117-127 | The specification `OperandTypes` has the operands' length. At every position it holds the signature of a function operand, or the type of any other operand. |
| `SprvInstruction.OperandTypesConcat` | lib/SPIRV/libSPIRV/SPRVInstruction.cpp:118-126 | Each operand is resolved on its own, so the result for a concatenation is the concatenation of the results (order is preserved). |
| `SprvInstruction.FunctionOperandIsSignature` | lib/SPIRV/libSPIRV/SPRVInstruction.cpp:119-123 | A function operand contributes its signature, which differs from the function's own result type. |
| `SprvEntry.CodeIdentifiesKind` | lib/SPIRV/libSPIRV/SPRVInstruction.cpp:90-91 | The opcode `OpLabel` holds exactly for block entries, and `OpFunction` exactly for function entries. This is why the casts after those opcode tests are sound. |
| `SprvInstruction.ParentAfterSet` | lib/SPIRV/libSPIRV/SPRVInstruction.cpp:82-85 | After an allowed `setParent(B)` the parent is `B`; when the parent was already `B` it is unchanged. |
| `SprvInstruction.SetParentIdempotent` | lib/SPIRV/libSPIRV/SPRVInstruction.cpp:82-83 | A second `setParent(B)` right after the first is allowed and leaves the parent as it was. |
| `SprvInstruction.NoReparenting` | lib/SPIRV/libSPIRV/SPRVInstruction.cpp:84 | When the node is bound to `B1`, `setParent(B2)` with `B2 != B1` is never allowed. |
| `SprvInstruction.RunBindsOnce` | lib/SPIRV/libSPIRV/SPRVInstruction.cpp:79-86 | A run of `setParent` calls is allowed if and only if every call names the same block, and that block is the one already bound when there is one. After the run, that block is the parent. |

## Left out

- Module side effects of construction: registering the id and checking that the type is registered belong to the value base class, which is not part of this model. The module is an opaque object; only its identity is recorded.
- Per-opcode validation: the `validate()` overrides and the generic call validation (`SPRVFunctionCallGeneric::validate`) are not part of this model. The validation step only counts how often it runs. No word-count or arity rule is stated, so a zero word count is not rejected.
- The generic call base (`SPRVFunctionCallGeneric`): its own constructor is not part of this model. The call's word count is a constructor parameter instead of being computed from the argument count.
- `SprvInstruction.Instruction.GetOperands`: the model has no operand list for the generic node. Each construction shape is given the list its concrete class would enumerate, or `None`.
- `SprvInstruction.Instruction.FunctionCall`: the generic call base constructor is not part of this model. The count `validations == 2` covers only the `validate()` calls in this file. One is line 51, assumed reached because the generic base delegates to the (type, id, block) shape. The other is line 99. Any `validate()` call the generic base constructor makes itself is not counted. The same assumption gives `owner == theBB.owner`.
- Changing the callee's signature after a call is built: functions are values here, so the model cannot show a later change. The call's result type is a `const` fixed at construction.
- Binary encoding, printing and translation from or to LLVM IR are outside this file.
