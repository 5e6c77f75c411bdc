/**
 * The parameter record handed to the cuDNN convolution runner, and the
 * outcomes of the two external collaborators the thunk calls: the parameter
 * populator and the runner itself.
 */
module CudnnConv {
  import opened Device

  /** CudnnConvKind: the closed set of convolutions the thunk dispatches. */
  datatype ConvKind = Forward | BackwardInput | BackwardFilter

  /** The three address slots of a CudnnConvParams record. */
  datatype Slot = Input | Filter | Output

  /** Shapes, strides, padding and algorithm: opaque to the thunk. */
  type ConvConfig(==)

  /** CudnnConvParams once the thunk has filled in its three addresses. */
  datatype CudnnConvParams = CudnnConvParams(
    kind: ConvKind,
    config: ConvConfig,
    inputBuf: Address,
    filterBuf: Address,
    outputBuf: Address)
  {
    /** The address held in one slot. */
    function Buf(slot: Slot): Address
    {
      match slot
      case Input => inputBuf
      case Filter => filterBuf
      case Output => outputBuf
    }
  }

  /**
   * What PopulateCudnnConvParams reports for a custom call: its status and,
   * when that is OK, the kind and configuration it parsed.
   */
  datatype Populated = Populated(status: Status, kind: ConvKind, config: ConvConfig)

  /**
   * What RunCudnnConvolution reports: its status, and whether the stream is
   * still healthy after the work it enqueued.
   */
  datatype RunnerOutcome = RunnerOutcome(status: Status, streamOk: bool)
}
