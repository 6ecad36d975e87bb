/** The device and memory errors, and the split into guest and host errors that
    decides what a lenient transport contains. */
module Errors {

  datatype MemoryError =
    | ReadableDescriptorAfterWritableDescriptor
    | InvalidVirtioMemRequestBuffers(read: nat, write: nat)
    | MemoryAccess
    | Stopped
    | InvalidTarget(requested: nat)
    | CapacityOverflow(mib: nat)
    | HotplugOverflow
    | HotplugAlignment(address: nat)
    | InvalidRegionSize(mib: nat)
    | InvalidBlockSize(mib: nat)
    | RollbackFailed(call: nat, undo: nat)
    | Allocation
    | Regions
    | Mapping
  {
    /** Malformed virtio-mem requests; mapping failures are host errors. */
    predicate IsGuest() {
      ReadableDescriptorAfterWritableDescriptor? || InvalidVirtioMemRequestBuffers? || MemoryAccess?
    }
  }

  datatype DeviceError =
    | InvalidFlush
    | InvalidGetId
    | SectorOverflow
    | WriteToReadOnlyDisk
    | UnalignedBlockRequest
    | BlockDescriptorDirectionMismatch
    | RequestLengthOverflow
    | InvalidBlockHeaderStatus
    | TruncatedBlockDescriptorChain
    | MissingBlockChain
    | RxDescriptorMustBeWritable
    | UnnegotiatedTxChecksumGsoOffload
    | InvalidTxPacketSize(length: nat)
    | TxDescriptorMustBeReadable
    | InvalidQueueMemory
    | InvalidQueueReady
    | QueueTooLarge
    | QueueConfigurationWhileReady
    | QueueConfigurationAfterDriverOk
    | DriverNotReady
    | StatusBitsCleared
    | CyclicDescriptorChain
    | InvalidDescriptorFlagsRange
    | UnnegotiatedIndirectDescriptor
    | DescriptorIndexOutOfRange(index: nat)
    | AvailableRingOverrun(count: nat)
    | InvalidVirtqueue
    | CyclicPendingDescriptorChain
    | InvalidPendingDescriptor
    | InvalidLiveQueue
    | GuestAccess
    | QueueError
    | Memory(memory: MemoryError)
    | InvalidBackendRxPacketSize(length: nat)
    | Storage
    | Net
  {
    /** Guest-caused errors, which a lenient VM contains to the device. */
    predicate IsGuest() {
      match this
      case Memory(e) => e.IsGuest()
      case InvalidBackendRxPacketSize(_) => false
      case Storage => false
      case Net => false
      case _ => true
    }
  }
}
