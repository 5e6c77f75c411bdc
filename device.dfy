/**
 * The runtime vocabulary the convolution thunk is written against: device
 * addresses, buffer slices of the allocation arena, the arena's address
 * resolver, and XLA's Status.
 */
module Device {

  /** A concrete device memory address (what DeviceMemoryBase::opaque() yields). */
  type Address(==)

  /** A BufferAllocation::Slice: an offset-based span of the buffer arena, not yet resolved. */
  type Slice(==)

  /**
   * BufferAllocations for one execution. How GetDeviceAddress computes an
   * address is not modelled: it is an arbitrary, fixed function of the slice.
   */
  datatype BufferAllocations = BufferAllocations(addressOf: Slice -> Address)
  {
    function GetDeviceAddress(slice: Slice): Address
    {
      addressOf(slice)
    }
  }

  /** The error code of an internal error (error::INTERNAL). */
  const InternalCode: nat := 13

  /** XLA's Status: OK, or an error code with a message. */
  datatype Status = Ok | Error(code: nat, message: string)

  /** xla::InternalError: an error with code INTERNAL. */
  function InternalError(message: string): Status
  {
    Error(InternalCode, message)
  }
}
