# ConvolutionThunk: a verified model of XLA's GPU convolution step

This project models `ConvolutionThunk`, the XLA GPU thunk that runs one cuDNN
convolution (forward, backward-input or backward-filter) on a StreamExecutor
stream. The thunk stores the slices of its custom call. Its
`ExecuteOnStream` then does five things in order:

1. It asks `PopulateCudnnConvParams` for the kind and configuration.
2. It places the addresses of operand 0, operand 1 and the result slice into the
   input, filter and output slots, following a per-kind table.
3. It resolves the scratch slice and launches `RunCudnnConvolution`.
4. It reads back the slot that now holds the produced tensor. It copies the
   pointer pair `[result, scratch]` into the tuple-result slice.
5. It reports an internal error if the stream is then in error.

Every failure returns at once.

Files:

- `device.dfy` (module `Device`): opaque device addresses and slices. Also
  `BufferAllocations`, whose `GetDeviceAddress` is an arbitrary fixed function
  of the slice, and XLA's `Status`.
- `cudnn.dfy` (module `CudnnConv`): the kind, the three slots, the runner's
  parameter record, and the outcomes the populator and the runner report.
- `stream.dfy` (module `StreamExecutor`): a stream is an ordered log of the
  requests made on it plus its error flag. `LastCopyTo` is the last pointer
  record the log requests to be copied into an address. Requests on one
  stream run in log order, so that is the copy that lands last if the device
  performs them.
- `convolution_thunk.dfy` (module `ConvThunk`): the two per-kind switches and
  the reference table `SlotOf`. `Execute` states the whole call as a function.
  The class `ConvolutionThunk` holds the constructor and the imperative
  `ExecuteOnStream`, which is proved equal to `Execute`. The file ends with the
  lemmas.

The external collaborators are parameters of `ExecuteOnStream`, bundled in
`Collaborators`: the populator (a function of the custom call), the runner (a
function of the parameters and the scratch address, giving a status and the
stream's health) and whether the device accepts the tuple copy.

## Model

| member | source | states |
|---|---|---|
| `ConvThunk.AssignBuffers` | tensorflow/compiler/xla/service/gpu/convolution_thunk.cc:50-72 | each of operand 0, operand 1 and the result slice lands in the slot the reference table `SlotOf` gives it for the kind; the three slots hold exactly those three addresses (as a multiset); kind and configuration are kept |
| `ConvThunk.SelectResult` | tensorflow/compiler/xla/service/gpu/convolution_thunk.cc:80-91 | the selected pointer is the slot into which the first switch put the result slice |
| `ConvThunk.ForwardSlots` | tensorflow/compiler/xla/service/gpu/convolution_thunk.cc:51-57 | forward: input = operand 0, filter = operand 1, output = result |
| `ConvThunk.BackwardInputSlots` | tensorflow/compiler/xla/service/gpu/convolution_thunk.cc:58-64 | backward-input: input = result, filter = operand 1, output = operand 0 |
| `ConvThunk.BackwardFilterSlots` | tensorflow/compiler/xla/service/gpu/convolution_thunk.cc:65-71 | backward-filter: input = operand 0, filter = result, output = operand 1 |
| `ConvThunk.SlotOfIsBijective` | tensorflow/compiler/xla/service/gpu/convolution_thunk.cc:50-72 | for every kind the three stored slices fill the three slots one to one |
| `ConvThunk.ResultPointerIsResultBuffer` | tensorflow/compiler/xla/service/gpu/convolution_thunk.cc:50-91 | for every kind, selecting after assigning gives the result slice's address: the second switch undoes the first |
| `ConvThunk.ResultSlotIsUnique` | tensorflow/compiler/xla/service/gpu/convolution_thunk.cc:80-91 | when the result address differs from both operand addresses, the selected slot is the only slot that holds it |
| `ConvThunk.Execute` | tensorflow/compiler/xla/service/gpu/convolution_thunk.cc:44-101 | a populator failure is returned unchanged with nothing enqueued; otherwise the runner is launched first with the slots the kind dictates and the scratch address; a runner failure is returned unchanged and no tuple is written; after a successful launch exactly `[result address, scratch address]` is copied to the tuple slice, and the status is OK exactly when the stream is healthy, else the internal error; the stream's final flag is healthy exactly when it was healthy on entry, the runner left it healthy and, if the copy was requested, the device accepted it; OK implies both pieces of work were enqueued |
| `ConvThunk.ConvolutionThunk.constructor` | tensorflow/compiler/xla/service/gpu/convolution_thunk.cc:32-42 | the custom call and the four kinds of slices are stored verbatim, with no check of the operand count |
| `ConvThunk.ConvolutionThunk.ExecuteOnStream` | tensorflow/compiler/xla/service/gpu/convolution_thunk.cc:44-101 | the status returned, the work appended to the stream's log and the stream's final error flag are those of `Execute`; operands 0 and 1 must exist once population succeeds |
| `ConvThunk.RunCudnnConvolution` | tensorflow/compiler/xla/service/gpu/convolution_thunk.cc:78 | the launch is appended to the stream's log whatever its outcome, and the runner's status is returned |
| `ConvThunk.TupleCopyRequestedAfterLaunch` | tensorflow/compiler/xla/service/gpu/convolution_thunk.cc:92-95 | after a successful launch the last pointer record requested to be copied into the tuple slice is `[result address, scratch address]`, even when the stream then reports an error; no other address is the target of a new copy request |
| `ConvThunk.HealthyRunIsOk` | tensorflow/compiler/xla/service/gpu/convolution_thunk.cc:44-100 | on a healthy stream, with a successful population, a runner that succeeds and leaves the stream healthy, and an accepted tuple copy, the call returns OK |
| `ConvThunk.FailureRequestsNoCopy` | tensorflow/compiler/xla/service/gpu/convolution_thunk.cc:47-79 | after a populator or runner failure no copy is requested: the last copy requested into every address is what it was before the call |
| `StreamExecutor.Stream.ThenMemcpyH2D` | tensorflow/compiler/xla/service/gpu/convolution_thunk.cc:95 | the copy is appended to the log, and the stream stays healthy only if it was healthy and the device accepted the copy |
| `StreamExecutor.LastCopyTo` | tensorflow/compiler/xla/service/gpu/convolution_thunk.cc:95 | the record of a copy request into the address that no later request in the log overrides, or None exactly when no request copies into the address |
| `StreamExecutor.LastCopyToAppend` | tensorflow/compiler/xla/service/gpu/convolution_thunk.cc:95 | appending requests changes the last copy requested into an address only if one of them copies into it, and then the newest such request wins |

## Left out

- The profiler scope opened at line 77 is instrumentation only. It changes no state the model observes.
- The convolution's arithmetic and the algorithm choice inside `RunCudnnConvolution` belong to cuDNN. Only the runner's status and its effect on the stream's health are modelled.
- How `PopulateCudnnConvParams` parses the custom call is not part of this model. It is an arbitrary function from the instruction to a status, a kind and an opaque configuration.
- How `BufferAllocations::GetDeviceAddress` computes an address is not part of this model. It is an arbitrary fixed function of the slice.
- Device memory sizes are not modelled. A `DeviceMemoryBase` is reduced to the address that `opaque()` returns.
- Asynchrony, device completion and the byte-level host-to-device copy are not modelled. The stream is an ordered log of requests plus an error flag.
- A stream already in error may drop a request. That is StreamExecutor's own behaviour, so the log records every request made.
- Device failures after the final `ok()` check are not seen by the thunk, so the model does not see them either.
- The `Thunk` base class and its `kConvolution` tag (line 37) are not modelled.
- A kind outside forward, backward-input and backward-filter cannot be expressed: `CudnnConvKind` is a closed three-value type here.
- `ConvThunk.ConvolutionThunk.ExecuteOnStream` requires at least two operands only once population has succeeded. The source reads operands 0 and 1 only after population succeeds (convolution_thunk.cc:48-70), so the model requires two operands only then.
- The log records copy requests, not completed device writes. A copy the device rejects (the stream flag then reports an error) or one a stream in error drops still counts as requested. The convolution's own writes to its output slice are not tracked either, so the lemmas about the log speak only of requested pointer copies.
