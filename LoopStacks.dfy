/**
 * The loop-context stacks of the code generator's context: the blocks `break` jumps to
 * and the blocks `continue` jumps to, one stack each. LLVM basic blocks are opaque
 * here; a null block pointer is `None`.
 */
module LoopStacks {
  import opened Wrappers

  /** An LLVM basic block, known only by identity. */
  type BasicBlock = nat

  /** The push of one stack: a null block is not pushed. */
  function PushIfPresent(stack: seq<BasicBlock>, b: Option<BasicBlock>): (r: seq<BasicBlock>)
    ensures b.None? ==> r == stack
    ensures b.Some? ==> r == stack + [b.value]
  {
    if b.Some? then stack + [b.value] else stack
  }

  /** The pop of one stack: an empty stack stays empty. */
  function PopIfAny(stack: seq<BasicBlock>): (r: seq<BasicBlock>)
    ensures stack == [] ==> r == []
    ensures stack != [] ==> r == stack[..|stack| - 1] && |r| == |stack| - 1
  {
    if stack != [] then stack[..|stack| - 1] else stack
  }

  /** The top of one stack, or null when it is empty. */
  function Top(stack: seq<BasicBlock>): (r: Option<BasicBlock>)
    ensures r.None? <==> stack == []
    ensures r.Some? ==> r.value == stack[|stack| - 1]
  {
    if stack == [] then None else Some(stack[|stack| - 1])
  }

  /** Pushing a block makes it the top; popping then restores the stack as it was. */
  lemma PushThenPop(stack: seq<BasicBlock>, b: BasicBlock)
    ensures Top(PushIfPresent(stack, Some(b))) == Some(b)
    ensures PopIfAny(PushIfPresent(stack, Some(b))) == stack
  {
    assert (stack + [b])[..|stack|] == stack;
  }

  /**
   * A loop context pushed with a null end block and then popped: the condition stack
   * is restored, but the end stack, which never grew, loses the enclosing loop's block.
   * Inside, `break` still goes to the enclosing loop's end, and the two heights have
   * moved one further apart.
   */
  lemma PushNullThenPop(condStack: seq<BasicBlock>, endStack: seq<BasicBlock>, cond: BasicBlock)
    requires endStack != []
    ensures Top(PushIfPresent(endStack, None)) == Top(endStack)
    ensures |PushIfPresent(condStack, Some(cond))| - |PushIfPresent(endStack, None)| == |condStack| - |endStack| + 1
    ensures PopIfAny(PushIfPresent(condStack, Some(cond))) == condStack
    ensures PopIfAny(PushIfPresent(endStack, None)) == endStack[..|endStack| - 1] != endStack
  {
    PushThenPop(condStack, cond);
  }

  class LoopStacks {
    /** The `break` targets, innermost loop last. */
    var loopEndBlocks: seq<BasicBlock>
    /** The `continue` targets, innermost loop last. */
    var loopCondBlocks: seq<BasicBlock>

    constructor ()
      ensures loopEndBlocks == [] && loopCondBlocks == []
    {
      loopEndBlocks := [];
      loopCondBlocks := [];
    }

    /** `pushLoopContext`: each block is pushed onto its own stack unless it is null. */
    method PushLoopContext(condBlock: Option<BasicBlock>, endBlock: Option<BasicBlock>)
      modifies this
      ensures loopCondBlocks == PushIfPresent(old(loopCondBlocks), condBlock)
      ensures loopEndBlocks == PushIfPresent(old(loopEndBlocks), endBlock)
    {
      if condBlock.Some? {
        loopCondBlocks := loopCondBlocks + [condBlock.value];
      }
      if endBlock.Some? {
        loopEndBlocks := loopEndBlocks + [endBlock.value];
      }
    }

    /** `popLoopContext`: each non-empty stack loses its top; empty stacks are left alone. */
    method PopLoopContext()
      modifies this
      ensures loopCondBlocks == PopIfAny(old(loopCondBlocks))
      ensures loopEndBlocks == PopIfAny(old(loopEndBlocks))
    {
      if loopCondBlocks != [] {
        loopCondBlocks := loopCondBlocks[..|loopCondBlocks| - 1];
      }
      if loopEndBlocks != [] {
        loopEndBlocks := loopEndBlocks[..|loopEndBlocks| - 1];
      }
    }

    /** `getCurrentLoopEndBlock`: where `break` goes, or null outside every loop. */
    function CurrentLoopEndBlock(): (r: Option<BasicBlock>)
      reads this
      ensures r == Top(loopEndBlocks)
      ensures r.None? <==> loopEndBlocks == []
    {
      if loopEndBlocks == [] then None else Some(loopEndBlocks[|loopEndBlocks| - 1])
    }

    /** `getCurrentLoopCondBlock`: where `continue` goes, or null outside every loop. */
    function CurrentLoopCondBlock(): (r: Option<BasicBlock>)
      reads this
      ensures r == Top(loopCondBlocks)
      ensures r.None? <==> loopCondBlocks == []
    {
      if loopCondBlocks == [] then None else Some(loopCondBlocks[|loopCondBlocks| - 1])
    }
  }
}
