/**
 * ConvolutionThunk: runs one cuDNN convolution on a stream. It fills the
 * runner's input/filter/output slots from its stored slices according to the
 * convolution's kind, launches the runner, reads back the slot that holds the
 * produced tensor, and writes the two-pointer tuple [result, scratch] into
 * its tuple-result slice.
 */
module ConvThunk {
  import opened Device
  import opened CudnnConv
  import opened StreamExecutor

  /** The HloCustomCallInstruction a thunk was built for. */
  type Instruction(==)

  /** The stored slices that feed the runner's three slots. */
  datatype StoredBuffer = Operand0 | Operand1 | ResultBuffer

  /**
   * Reference table: the slot each stored slice fills, per kind. A forward
   * convolution reads x and w and writes y; a backward-input one reads dy
   * (the y slot) and w and writes dx (the x slot); a backward-filter one
   * reads x and dy and writes dw (the w slot).
   */
  function SlotOf(kind: ConvKind, b: StoredBuffer): Slot
  {
    match (kind, b)
    case (Forward, Operand0) => Input
    case (Forward, Operand1) => Filter
    case (Forward, ResultBuffer) => Output
    case (BackwardInput, Operand0) => Output
    case (BackwardInput, Operand1) => Filter
    case (BackwardInput, ResultBuffer) => Input
    case (BackwardFilter, Operand0) => Input
    case (BackwardFilter, Operand1) => Output
    case (BackwardFilter, ResultBuffer) => Filter
  }

  /**
   * The first switch of ExecuteOnStream: operand 0, operand 1 and the result
   * slice (already resolved to addresses) placed into the slots of the
   * parameter record. Each stored buffer lands in the slot the reference
   * table gives it, so the three of them are used exactly once.
   */
  function AssignBuffers(kind: ConvKind, config: ConvConfig, op0: Address, op1: Address, result: Address)
    : (p: CudnnConvParams)
    ensures p.kind == kind && p.config == config
    ensures p.Buf(SlotOf(kind, Operand0)) == op0
    ensures p.Buf(SlotOf(kind, Operand1)) == op1
    ensures p.Buf(SlotOf(kind, ResultBuffer)) == result
    ensures multiset{p.inputBuf, p.filterBuf, p.outputBuf} == multiset{op0, op1, result}
  {
    match kind
    case Forward => CudnnConvParams(kind, config, op0, op1, result)
    case BackwardInput => CudnnConvParams(kind, config, result, op1, op0)
    case BackwardFilter => CudnnConvParams(kind, config, op0, result, op1)
  }

  /**
   * The second switch of ExecuteOnStream: the slot that holds the tensor the
   * convolution produced. It reads back exactly the slot the first switch put
   * the result slice into.
   */
  function SelectResult(p: CudnnConvParams): (r: Address)
    ensures r == p.Buf(SlotOf(p.kind, ResultBuffer))
  {
    match p.kind
    case Forward => p.outputBuf
    case BackwardInput => p.inputBuf
    case BackwardFilter => p.filterBuf
  }

  /** The message of the error reported when the stream is in error at the end. */
  const ExecuteFailedMessage := "ConvolutionThunk::ExecuteOnStream failed."

  /**
   * The external collaborators of one ExecuteOnStream call:
   * PopulateCudnnConvParams as a function of the custom call,
   * RunCudnnConvolution as a function of the parameters and scratch address,
   * and whether the device accepts the tuple copy.
   */
  datatype Collaborators = Collaborators(
    populate: Instruction -> Populated,
    run: (CudnnConvParams, Address) -> RunnerOutcome,
    memcpyAccepted: bool)

  /** What one execution returns, the work it enqueues, and the stream's final error flag. */
  datatype Execution = Execution(status: Status, enqueued: seq<Event>, streamOk: bool)

  /**
   * The parameter record ExecuteOnStream hands to the runner once population
   * has succeeded: operand 0, operand 1 and the result slice resolved and
   * placed by kind.
   */
  function LaunchParams(populated: Populated, operands: seq<Slice>, result: Slice,
                        allocations: BufferAllocations): CudnnConvParams
    requires |operands| >= 2
  {
    AssignBuffers(populated.kind, populated.config,
      allocations.GetDeviceAddress(operands[0]), allocations.GetDeviceAddress(operands[1]),
      allocations.GetDeviceAddress(result))
  }

  /**
   * The whole of ExecuteOnStream as a function of the thunk's stored slices,
   * the arena, the collaborators and the stream's error flag on entry.
   * Operand slices 0 and 1 are read only once population has succeeded, and
   * nothing checks that they exist.
   */
  function Execute(
    call: Instruction, operands: seq<Slice>, result: Slice, scratch: Slice, tupleResult: Slice,
    allocations: BufferAllocations, collab: Collaborators, streamOk: bool): (x: Execution)
    requires collab.populate(call).status.Ok? ==> |operands| >= 2
    // A population failure is returned as is, before anything is enqueued.
    ensures !collab.populate(call).status.Ok? ==>
      x.status == collab.populate(call).status && x.enqueued == [] && x.streamOk == streamOk
    // Otherwise the runner is launched first, on the slots the kind dictates.
    ensures collab.populate(call).status.Ok? ==>
      var populated := collab.populate(call);
      var scratchAddr := allocations.GetDeviceAddress(scratch);
      var params := LaunchParams(populated, operands, result, allocations);
      var launch := collab.run(params, scratchAddr);
      && 1 <= |x.enqueued| <= 2
      && x.enqueued[0] == ConvolutionLaunch(params, scratchAddr)
      // A runner failure is returned as is, and the tuple is not written.
      && (!launch.status.Ok? ==> x.status == launch.status && |x.enqueued| == 1)
      // After a successful launch the tuple [result, scratch] goes to the tuple slice.
      && (launch.status.Ok? ==>
            && x.enqueued[1..] == [MemcpyH2D(allocations.GetDeviceAddress(tupleResult),
                                             [allocations.GetDeviceAddress(result), scratchAddr])]
            && (x.status.Ok? <==> x.streamOk)
            && (!x.status.Ok? ==> x.status == InternalError(ExecuteFailedMessage)))
      // The stream stays healthy only if it was, the runner left it healthy
      // and, when the tuple copy was requested, the device accepted it.
      && x.streamOk == (streamOk && launch.streamOk && (launch.status.Ok? ==> collab.memcpyAccepted))
    // Success means both pieces of work were enqueued on a healthy stream.
    ensures x.status.Ok? ==> |x.enqueued| == 2 && x.streamOk
    // A stream in error stays in error.
    ensures x.streamOk ==> streamOk
  {
    var populated := collab.populate(call);
    if !populated.status.Ok? then Execution(populated.status, [], streamOk)
    else
      var params := LaunchParams(populated, operands, result, allocations);
      var scratchAddr := allocations.GetDeviceAddress(scratch);
      var launch := collab.run(params, scratchAddr);
      var launched := [ConvolutionLaunch(params, scratchAddr)];
      var okAfterLaunch := streamOk && launch.streamOk;
      if !launch.status.Ok? then Execution(launch.status, launched, okAfterLaunch)
      else
        var tuple := MemcpyH2D(allocations.GetDeviceAddress(tupleResult), [SelectResult(params), scratchAddr]);
        var okAfterCopy := okAfterLaunch && collab.memcpyAccepted;
        Execution(if okAfterCopy then Ok else InternalError(ExecuteFailedMessage),
                  launched + [tuple], okAfterCopy)
  }

  /**
   * RunCudnnConvolution as the thunk sees it: the launch is recorded on the
   * stream whatever its outcome, and its status is the runner's.
   */
  method RunCudnnConvolution(
    params: CudnnConvParams, scratch: Address, stream: Stream,
    run: (CudnnConvParams, Address) -> RunnerOutcome) returns (status: Status)
    modifies stream
    ensures status == run(params, scratch).status
    ensures stream.events == old(stream.events) + [ConvolutionLaunch(params, scratch)]
    ensures stream.ok == (old(stream.ok) && run(params, scratch).streamOk)
  {
    var outcome := run(params, scratch);
    stream.Enqueue(ConvolutionLaunch(params, scratch), outcome.streamOk);
    status := outcome.status;
  }

  class ConvolutionThunk {
    const cudnnCall: Instruction
    const operandBuffers: seq<Slice>
    const resultBuffer: Slice
    const scratchBuffer: Slice
    const tupleResultBuffer: Slice

    /** Stores its arguments verbatim; the operand count is not checked. */
    constructor (cudnnCall: Instruction, operandSlices: seq<Slice>, resultSlice: Slice,
                 scratchSlice: Slice, tupleResultSlice: Slice)
      ensures this.cudnnCall == cudnnCall && operandBuffers == operandSlices
      ensures resultBuffer == resultSlice && scratchBuffer == scratchSlice
      ensures tupleResultBuffer == tupleResultSlice
    {
      this.cudnnCall := cudnnCall;
      operandBuffers := operandSlices;
      resultBuffer := resultSlice;
      scratchBuffer := scratchSlice;
      tupleResultBuffer := tupleResultSlice;
    }

    /**
     * Populate, assign the slots, resolve the scratch slice, run, write the
     * tuple, check the stream; every failure returns at once.
     */
    method ExecuteOnStream(allocations: BufferAllocations, stream: Stream, collab: Collaborators)
      returns (status: Status)
      requires collab.populate(cudnnCall).status.Ok? ==> |operandBuffers| >= 2
      modifies stream
      ensures var x := Execute(cudnnCall, operandBuffers, resultBuffer, scratchBuffer, tupleResultBuffer,
                               allocations, collab, old(stream.ok));
              && status == x.status
              && stream.events == old(stream.events) + x.enqueued
              && stream.ok == x.streamOk
    {
      var populated := collab.populate(cudnnCall);
      if !populated.status.Ok? {
        return populated.status;
      }

      var inputBuf, filterBuf, outputBuf: Address;
      match populated.kind {
        case Forward =>
          inputBuf := allocations.GetDeviceAddress(operandBuffers[0]);
          filterBuf := allocations.GetDeviceAddress(operandBuffers[1]);
          outputBuf := allocations.GetDeviceAddress(resultBuffer);
        case BackwardInput =>
          inputBuf := allocations.GetDeviceAddress(resultBuffer);
          filterBuf := allocations.GetDeviceAddress(operandBuffers[1]);
          outputBuf := allocations.GetDeviceAddress(operandBuffers[0]);
        case BackwardFilter =>
          inputBuf := allocations.GetDeviceAddress(operandBuffers[0]);
          filterBuf := allocations.GetDeviceAddress(resultBuffer);
          outputBuf := allocations.GetDeviceAddress(operandBuffers[1]);
      }
      var params := CudnnConvParams(populated.kind, populated.config, inputBuf, filterBuf, outputBuf);

      var scratch := allocations.GetDeviceAddress(scratchBuffer);
      var runStatus := RunCudnnConvolution(params, scratch, stream, collab.run);
      if !runStatus.Ok? {
        return runStatus;
      }

      var resultPtr := SelectResult(params);
      var ptrs := [resultPtr, scratch];
      var tupleAddr := allocations.GetDeviceAddress(tupleResultBuffer);
      stream.ThenMemcpyH2D(ptrs, tupleAddr, collab.memcpyAccepted);

      var ok := stream.Ok();
      if !ok {
        return InternalError(ExecuteFailedMessage);
      }
      return Ok;
    }
  }

  // ----- The slot tables -----

  lemma ForwardSlots(config: ConvConfig, op0: Address, op1: Address, result: Address)
    ensures var p := AssignBuffers(Forward, config, op0, op1, result);
            p.inputBuf == op0 && p.filterBuf == op1 && p.outputBuf == result
  {
  }

  lemma BackwardInputSlots(config: ConvConfig, op0: Address, op1: Address, result: Address)
    ensures var p := AssignBuffers(BackwardInput, config, op0, op1, result);
            p.inputBuf == result && p.filterBuf == op1 && p.outputBuf == op0
  {
  }

  lemma BackwardFilterSlots(config: ConvConfig, op0: Address, op1: Address, result: Address)
    ensures var p := AssignBuffers(BackwardFilter, config, op0, op1, result);
            p.inputBuf == op0 && p.filterBuf == result && p.outputBuf == op1
  {
  }

  /** For every kind the stored slices fill the three slots one to one. */
  lemma SlotOfIsBijective(kind: ConvKind)
    ensures forall b1, b2 :: SlotOf(kind, b1) == SlotOf(kind, b2) ==> b1 == b2
    ensures {SlotOf(kind, Operand0), SlotOf(kind, Operand1), SlotOf(kind, ResultBuffer)}
            == {Input, Filter, Output}
  {
  }

  /** The selection switch undoes the assignment switch: the result pointer is the result slice's address. */
  lemma ResultPointerIsResultBuffer(kind: ConvKind, config: ConvConfig, op0: Address, op1: Address, result: Address)
    ensures SelectResult(AssignBuffers(kind, config, op0, op1, result)) == result
  {
  }

  /**
   * When the result slice's address differs from both operands', the
   * selected slot is the only slot holding it: any other choice of slot
   * would hand back an operand.
   */
  lemma ResultSlotIsUnique(kind: ConvKind, config: ConvConfig, op0: Address, op1: Address, result: Address)
    requires result != op0 && result != op1
    ensures var p := AssignBuffers(kind, config, op0, op1, result);
            forall s :: p.Buf(s) == result <==> s == SlotOf(kind, ResultBuffer)
  {
  }

  // ----- What an execution leaves on the stream -----

  /**
   * After a successful launch the last copy requested into the tuple slice
   * is [result slice address, scratch address], whether or not the stream
   * then reports an error, and no other address is the target of a new copy
   * request.
   */
  lemma TupleCopyRequestedAfterLaunch(
    log: seq<Event>, call: Instruction, operands: seq<Slice>, result: Slice, scratch: Slice,
    tupleResult: Slice, allocations: BufferAllocations, collab: Collaborators, streamOk: bool)
    requires collab.populate(call).status.Ok? && |operands| >= 2
    requires collab.run(LaunchParams(collab.populate(call), operands, result, allocations),
                        allocations.GetDeviceAddress(scratch)).status.Ok?
    ensures var x := Execute(call, operands, result, scratch, tupleResult, allocations, collab, streamOk);
            var tupleAddr := allocations.GetDeviceAddress(tupleResult);
            && LastCopyTo(log + x.enqueued, tupleAddr)
               == Some([allocations.GetDeviceAddress(result), allocations.GetDeviceAddress(scratch)])
            && forall d :: d != tupleAddr ==> LastCopyTo(log + x.enqueued, d) == LastCopyTo(log, d)
  {
    var x := Execute(call, operands, result, scratch, tupleResult, allocations, collab, streamOk);
    forall d | d != allocations.GetDeviceAddress(tupleResult)
      ensures LastCopyTo(log + x.enqueued, d) == LastCopyTo(log, d)
    {
      LastCopyToAppend(log, x.enqueued, d);
    }
  }

  /**
   * A population or runner failure requests no copy: for every address the
   * last copy requested into it is what it was before the call.
   */
  lemma FailureRequestsNoCopy(
    log: seq<Event>, call: Instruction, operands: seq<Slice>, result: Slice, scratch: Slice,
    tupleResult: Slice, allocations: BufferAllocations, collab: Collaborators, streamOk: bool, d: Address)
    requires collab.populate(call).status.Ok? ==> |operands| >= 2
    requires collab.populate(call).status.Ok? ==>
             !collab.run(LaunchParams(collab.populate(call), operands, result, allocations),
                         allocations.GetDeviceAddress(scratch)).status.Ok?
    ensures var x := Execute(call, operands, result, scratch, tupleResult, allocations, collab, streamOk);
            LastCopyTo(log + x.enqueued, d) == LastCopyTo(log, d)
  {
    var x := Execute(call, operands, result, scratch, tupleResult, allocations, collab, streamOk);
    LastCopyToAppend(log, x.enqueued, d);
  }

  /**
   * A healthy run succeeds: a healthy stream, a successful population, a
   * runner that succeeds and leaves the stream healthy, and an accepted tuple
   * copy give OK.
   */
  lemma HealthyRunIsOk(
    call: Instruction, operands: seq<Slice>, result: Slice, scratch: Slice, tupleResult: Slice,
    allocations: BufferAllocations, collab: Collaborators)
    requires collab.populate(call).status.Ok? && |operands| >= 2
    requires var launch := collab.run(LaunchParams(collab.populate(call), operands, result, allocations),
                                      allocations.GetDeviceAddress(scratch));
             launch.status.Ok? && launch.streamOk
    requires collab.memcpyAccepted
    ensures Execute(call, operands, result, scratch, tupleResult, allocations, collab, true).status.Ok?
  {
  }
}
