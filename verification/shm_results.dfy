/** Answers of ShmSend::send and ShmRecv::recv (shm_send.h, shm_recv.h). */
module ShmResults {
  const VERSION := 1

  datatype BlockState = Initing | Ready

  datatype SendErr =
    | SendOk | SendBadOffset | SendNotInitialized | SendReinitialized
    | NotEnoughSpace | SizeTooLarge | CouldNotAllocate | AllocatorCorrupted

  datatype RecvErr =
    | RecvOk | RecvNotInitialized | NoRecords | NotYetPublished
    | TailCorruption | BlockCorrupted | LabelTooLarge | UnknownError

  const MAX_TRIES := 100
}
