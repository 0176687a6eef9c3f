/**
 * The collaborators an SPIR-V instruction node talks to: opcodes, types,
 * the owning module, basic blocks, and the entries (values) that appear as
 * operands or as scopes. Only what the instruction node observes of them is
 * modelled here.
 */
module SprvEntry {

  /** An unsigned 32-bit machine word, as `unsigned` and `SPRVId` are. */
  newtype u32 = x: int | 0 <= x < 0x1_0000_0000

  /** A result identifier (`SPRVId`). */
  type Id = u32

  datatype Option<+T> = None | Some(value: T)

  /**
   * The instruction opcodes the node distinguishes. Every other opcode of the
   * catalogue is `OpOther(code)`; distinct codes stand for distinct opcodes.
   */
  datatype OpCode = OpLabel | OpFunction | OpFunctionCall | OpOther(code: nat)

  /** The opcode of an entry that is neither a basic block nor a function. */
  type PlainOpCode = op: OpCode | !op.OpLabel? && !op.OpFunction? witness OpFunctionCall

  /** A type registered in the module (`SPRVType`). */
  datatype Type =
    | TypeVoid
    | TypeBool
    | TypeInt(width: nat, signed: bool)
    | TypeFloat(width: nat)
    | TypeFunction(returnType: Type, paramTypes: seq<Type>)
    | TypeOther(typeId: Id)

  /** A function signature (`SPRVTypeFunction`): a return type and parameter types. */
  type FunctionType = t: Type | t.TypeFunction? witness TypeFunction(TypeVoid, [])

  /** The owning module (`SPRVModule`), kept opaque: only its identity matters. */
  class Module {
    constructor () { }
  }

  /** A basic block (`SPRVBasicBlock`): its identity and its owning module. */
  class BasicBlock {
    const owner: Module

    constructor (theModule: Module)
      ensures owner == theModule
    {
      owner := theModule;
    }
  }

  /**
   * An entry of the module (`SPRVEntry` / `SPRVValue`) as seen through its
   * opcode tag: a block is the `OpLabel` entry, a function the `OpFunction`
   * entry, and everything else a plain value with an optional type.
   */
  datatype Entry =
    | Label(block: BasicBlock)
    | Function(functionId: Id, functionType: FunctionType)
    | Plain(opCode: PlainOpCode, plainType: Option<Type>)
  {
    /** `getOpCode()`. */
    function Code(): OpCode {
      match this
      case Label(_) => OpLabel
      case Function(_, _) => OpFunction
      case Plain(op, _) => op
    }

    /**
     * `getType()`. A label carries no type; a function's own result type is
     * its return type, as the result type of an `OpFunction` is.
     */
    function GetType(): Option<Type> {
      match this
      case Label(_) => None
      case Function(_, ft) => Some(ft.returnType)
      case Plain(_, t) => t
    }
  }

  /**
   * The opcode tag identifies the kind of an entry, so casting an `OpLabel`
   * entry to a block and an `OpFunction` entry to a function is sound.
   */
  lemma CodeIdentifiesKind(e: Entry)
    ensures e.Code() == OpLabel <==> e.Label?
    ensures e.Code() == OpFunction <==> e.Function?
  {
  }
}
