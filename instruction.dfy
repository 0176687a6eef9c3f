/**
 * The in-memory SPIR-V instruction node (`SPRVInstruction`): its fields, its
 * construction shapes, the once-only binding to its owning basic block, and
 * the resolution of its operands into their types. The function-call
 * instruction (`SPRVFunctionCall`) is one more construction shape of the same
 * node that also records the callee's id.
 */
module SprvInstruction {
  import opened SprvEntry

  // ---------------------------------------------------------------------------
  // Operand-type resolution

  /**
   * The type an operand contributes: a function contributes its declared
   * signature, every other entry its own result type.
   */
  function OperandType(e: Entry): (r: Option<Type>) {
    if e.Code() == OpFunction then Some(e.functionType) else e.GetType()
  }

  /** The types of an operand list, one per operand, in operand order. */
  function OperandTypes(ops: seq<Entry>): (r: seq<Option<Type>>) {
    if ops == [] then [] else [OperandType(ops[0])] + OperandTypes(ops[1..])
  }

  /**
   * The operand types are parallel to the operands: same length, and at each
   * position the signature of a function operand or the type of any other.
   */
  lemma {:induction false} OperandTypesParallel(ops: seq<Entry>)
    ensures |OperandTypes(ops)| == |ops|
    ensures forall k :: 0 <= k < |ops| ==>
      OperandTypes(ops)[k] ==
        if ops[k].Code() == OpFunction then Some(ops[k].functionType) else ops[k].GetType()
  {
    if ops != [] {
      OperandTypesParallel(ops[1..]);
      forall k | 0 < k < |ops|
        ensures OperandTypes(ops)[k] == OperandType(ops[k])
      {
        assert ops[1..][k - 1] == ops[k];
      }
    }
  }

  /** Resolution maps each operand on its own, so it distributes over concatenation. */
  lemma {:induction false} OperandTypesConcat(a: seq<Entry>, b: seq<Entry>)
    ensures OperandTypes(a + b) == OperandTypes(a) + OperandTypes(b)
  {
    if a == [] {
      assert a + b == b;
    } else {
      assert (a + b)[1..] == a[1..] + b;
      OperandTypesConcat(a[1..], b);
    }
  }

  /**
   * The special rule matters: a function operand contributes its signature,
   * which differs from the function's own result type (its return type).
   */
  lemma FunctionOperandIsSignature(e: Entry)
    requires e.Function?
    ensures OperandType(e) == Some(e.functionType)
    ensures OperandType(e) != e.GetType()
  {
  }

  // ---------------------------------------------------------------------------
  // Parent binding as a state machine over the optional owning block

  /** `setParent(theBB)` is allowed when no block is bound yet or the same one is. */
  predicate CanSetParent(current: Option<BasicBlock>, theBB: BasicBlock) {
    current.None? || current == Some(theBB)
  }

  /** The owning block after an allowed `setParent(theBB)`. */
  function ParentAfterSet(current: Option<BasicBlock>, theBB: BasicBlock): (r: Option<BasicBlock>)
    requires CanSetParent(current, theBB)
    ensures r == Some(theBB)
    ensures current == Some(theBB) ==> r == current
  {
    if current == Some(theBB) then current else Some(theBB)
  }

  /** Setting the same parent twice is allowed and the second call changes nothing. */
  lemma SetParentIdempotent(current: Option<BasicBlock>, theBB: BasicBlock)
    requires CanSetParent(current, theBB)
    ensures CanSetParent(ParentAfterSet(current, theBB), theBB)
    ensures ParentAfterSet(ParentAfterSet(current, theBB), theBB) == ParentAfterSet(current, theBB)
  {
  }

  /** A bound parent is never replaced by a different block. */
  lemma NoReparenting(current: Option<BasicBlock>, b1: BasicBlock, b2: BasicBlock)
    requires current == Some(b1) && b1 != b2
    ensures !CanSetParent(current, b2)
  {
  }

  /** Every call of a run of `setParent` calls is allowed, one after the other. */
  predicate RunAllowed(current: Option<BasicBlock>, bs: seq<BasicBlock>)
    decreases |bs|
  {
    bs == [] || (CanSetParent(current, bs[0]) && RunAllowed(ParentAfterSet(current, bs[0]), bs[1..]))
  }

  /** The owning block after an allowed run of `setParent` calls. */
  function ParentAfterRun(current: Option<BasicBlock>, bs: seq<BasicBlock>): (r: Option<BasicBlock>)
    requires RunAllowed(current, bs)
    decreases |bs|
  {
    if bs == [] then current else ParentAfterRun(ParentAfterSet(current, bs[0]), bs[1..])
  }

  /**
   * The block is bound at most once: a run of `setParent` calls is allowed
   * exactly when every call names the same block, which is the block already
   * bound if there is one; the run leaves that block bound.
   */
  lemma {:induction false} RunBindsOnce(current: Option<BasicBlock>, bs: seq<BasicBlock>)
    ensures RunAllowed(current, bs) <==>
      forall k :: 0 <= k < |bs| ==> CanSetParent(current, bs[k]) && bs[k] == bs[0]
    ensures RunAllowed(current, bs) && bs != [] ==> ParentAfterRun(current, bs) == Some(bs[0])
    decreases |bs|
  {
    if bs != [] {
      var next := Some(bs[0]);
      RunBindsOnce(next, bs[1..]);
      if CanSetParent(current, bs[0]) {
        assert ParentAfterSet(current, bs[0]) == next;
        if forall k :: 0 <= k < |bs| ==> CanSetParent(current, bs[k]) && bs[k] == bs[0] {
          forall k | 0 <= k < |bs[1..]|
            ensures CanSetParent(next, bs[1..][k]) && bs[1..][k] == bs[1..][0]
          {
            assert bs[1..][k] == bs[k + 1];
          }
        }
        if RunAllowed(current, bs) {
          forall k | 0 < k < |bs|
            ensures CanSetParent(current, bs[k]) && bs[k] == bs[0]
          {
            assert bs[1..][k - 1] == bs[k];
          }
        }
      }
    }
  }

  // ---------------------------------------------------------------------------
  // The instruction node

  class Instruction {
    /** The owning module, taken from the block unless given explicitly. */
    const owner: Module
    const wordCount: u32
    const opCode: OpCode
    /** The result type; `None` when the construction shape has none. */
    const ty: Option<Type>
    /** The result id; `None` when the construction shape has none. */
    const id: Option<Id>
    /**
     * The operands the concrete instruction class enumerates, or `None` when
     * its class does not override operand enumeration.
     */
    const operands: Option<seq<Entry>>
    /** For a function call, the callee's id; `None` for every other instruction. */
    const functionId: Option<Id>
    /** The owning basic block (a non-owning back-reference). */
    var bb: Option<BasicBlock>
    /** How many times the validation step has run on this node. */
    ghost var validations: nat

    /**
     * The validation step every constructor ends with. The generic step makes
     * no structural check of its own; the checks belong to the per-opcode
     * overrides.
     */
    method Validate()
      modifies this`validations
      ensures validations == old(validations) + 1
    {
      validations := validations + 1;
    }

    /** Shape (type, id): the module is the block's. */
    constructor WithTypeAndId(theWordCount: u32, theOC: OpCode, theType: Type, theId: Id,
                              theBB: BasicBlock, theOperands: Option<seq<Entry>>)
      ensures owner == theBB.owner && wordCount == theWordCount && opCode == theOC
      ensures ty == Some(theType) && id == Some(theId) && bb == Some(theBB)
      ensures operands == theOperands && functionId == None
      ensures validations == 1
    {
      owner, wordCount, opCode := theBB.owner, theWordCount, theOC;
      ty, id, bb := Some(theType), Some(theId), Some(theBB);
      operands, functionId := theOperands, None;
      validations := 0;
      new;
      Validate();
    }

    /**
     * Shape (type, id) with an explicit module, for when the block's module
     * cannot be asked yet; the block may still be absent.
     */
    constructor WithTypeAndIdInModule(theWordCount: u32, theOC: OpCode, theType: Type, theId: Id,
                                      theBB: Option<BasicBlock>, theBM: Module,
                                      theOperands: Option<seq<Entry>>)
      ensures owner == theBM && wordCount == theWordCount && opCode == theOC
      ensures ty == Some(theType) && id == Some(theId) && bb == theBB
      ensures operands == theOperands && functionId == None
      ensures validations == 1
    {
      owner, wordCount, opCode := theBM, theWordCount, theOC;
      ty, id, bb := Some(theType), Some(theId), theBB;
      operands, functionId := theOperands, None;
      validations := 0;
      new;
      Validate();
    }

    /** Shape (id only): no result type. */
    constructor WithId(theWordCount: u32, theOC: OpCode, theId: Id,
                       theBB: BasicBlock, theOperands: Option<seq<Entry>>)
      ensures owner == theBB.owner && wordCount == theWordCount && opCode == theOC
      ensures ty == None && id == Some(theId) && bb == Some(theBB)
      ensures operands == theOperands && functionId == None
      ensures validations == 1
    {
      owner, wordCount, opCode := theBB.owner, theWordCount, theOC;
      ty, id, bb := None, Some(theId), Some(theBB);
      operands, functionId := theOperands, None;
      validations := 0;
      new;
      Validate();
    }

    /** Shape (neither): no result type and no result id. */
    constructor Bare(theWordCount: u32, theOC: OpCode,
                     theBB: BasicBlock, theOperands: Option<seq<Entry>>)
      ensures owner == theBB.owner && wordCount == theWordCount && opCode == theOC
      ensures ty == None && id == None && bb == Some(theBB)
      ensures operands == theOperands && functionId == None
      ensures validations == 1
    {
      owner, wordCount, opCode := theBB.owner, theWordCount, theOC;
      ty, id, bb := None, None, Some(theBB);
      operands, functionId := theOperands, None;
      validations := 0;
      new;
      Validate();
    }

    /** Shape (type only): no result id. */
    constructor WithType(theWordCount: u32, theOC: OpCode, theType: Type,
                         theBB: BasicBlock, theOperands: Option<seq<Entry>>)
      ensures owner == theBB.owner && wordCount == theWordCount && opCode == theOC
      ensures ty == Some(theType) && id == None && bb == Some(theBB)
      ensures operands == theOperands && functionId == None
      ensures validations == 1
    {
      owner, wordCount, opCode := theBB.owner, theWordCount, theOC;
      ty, id, bb := Some(theType), None, Some(theBB);
      operands, functionId := theOperands, None;
      validations := 0;
      new;
      Validate();
    }

    /**
     * A call of `theFunction` with `theArgs` (`SPRVFunctionCall`). The result
     * type is the callee's declared return type and the callee is recorded by
     * its id only, both fixed for the life of the node. The operands are the
     * arguments. The word count is the one the generic call base computes.
     * Validation runs twice: in the instruction constructor the generic call
     * base delegates to, and again at the end of this one.
     */
    constructor FunctionCall(theId: Id, theFunction: Entry, theArgs: seq<Entry>,
                             theBB: BasicBlock, theWordCount: u32)
      requires theFunction.Function?
      ensures owner == theBB.owner && wordCount == theWordCount && opCode == OpFunctionCall
      ensures ty == Some(theFunction.functionType.returnType) && id == Some(theId)
      ensures bb == Some(theBB)
      ensures operands == Some(theArgs) && functionId == Some(theFunction.functionId)
      ensures validations == 2
    {
      owner, wordCount, opCode := theBB.owner, theWordCount, OpFunctionCall;
      ty, id, bb := Some(theFunction.functionType.returnType), Some(theId), Some(theBB);
      operands, functionId := Some(theArgs), Some(theFunction.functionId);
      validations := 0;
      new;
      Validate();
      Validate();
    }

    /**
     * `setParent(theBB)`: binds the owning block if none is bound, does
     * nothing if it is already `theBB`, and may not rebind another block.
     */
    method SetParent(theBB: BasicBlock)
      requires CanSetParent(bb, theBB)
      modifies this`bb
      ensures bb == ParentAfterSet(old(bb), theBB)
      ensures bb == Some(theBB)
      ensures old(bb) == Some(theBB) ==> unchanged(this)
    {
      if bb == Some(theBB) {
        return;
      }
      bb := Some(theBB);
    }

    /** `setScope(scope)`: the scope must be a label, and is then set as the parent. */
    method SetScope(scope: Entry)
      requires scope.Code() == OpLabel
      requires CanSetParent(bb, scope.block)
      modifies this`bb
      ensures bb == ParentAfterSet(old(bb), scope.block)
      ensures bb == Some(scope.block)
    {
      SetParent(scope.block);
    }

    /**
     * `getOperands()`: only an instruction whose class enumerates its
     * operands can be asked; the generic node does not support it.
     */
    method GetOperands() returns (ops: seq<Entry>)
      requires operands.Some?
      ensures ops == operands.value
    {
      ops := operands.value;
    }

    /**
     * `getOperandTypes()`: the types of the operands, one per operand in
     * operand order, a function operand contributing its signature.
     */
    method GetOperandTypes() returns (tys: seq<Option<Type>>)
      requires operands.Some?
      ensures |tys| == |operands.value|
      ensures forall k :: 0 <= k < |tys| ==>
        tys[k] == if operands.value[k].Code() == OpFunction
                  then Some(operands.value[k].functionType)
                  else operands.value[k].GetType()
      ensures tys == OperandTypes(operands.value)
    {
      var ops := GetOperands();
      tys := [];
      var i := 0;
      while i < |ops|
        invariant 0 <= i <= |ops|
        invariant tys == OperandTypes(ops[..i])
      {
        var ty: Option<Type>;
        if ops[i].Code() == OpFunction {
          ty := Some(ops[i].functionType);
        } else {
          ty := ops[i].GetType();
        }
        OperandTypesConcat(ops[..i], [ops[i]]);
        assert ops[..i + 1] == ops[..i] + [ops[i]];
        tys := tys + [ty];
        i := i + 1;
      }
      assert ops[..i] == ops;
      OperandTypesParallel(ops);
    }
  }

  /**
   * A client: a function of signature `() -> i32` called with no arguments
   * from block `b`, its call then re-parented to the same block.
   */
  method CallScenario()
  {
    var m := new Module();
    var b := new BasicBlock(m);
    var i32 := TypeInt(32, true);
    var f := Function(5, TypeFunction(i32, []));
    var call := new Instruction.FunctionCall(10, f, [], b, 4);
    assert call.ty == Some(i32) && call.functionId == Some(5) && call.bb == Some(b);
    var tys := call.GetOperandTypes();
    assert tys == [];
    call.SetParent(b);
    call.SetScope(Label(b));
    assert call.ty == Some(i32) && call.bb == Some(b);
  }
}
