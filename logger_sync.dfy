/**
 * The watch-to-phone store transfer, reduced to its status machine: a
 * transfer starts in `initial`, goes to `sending`, finishes in `success` or
 * `failure`, and is put back to `initial` a moment later. The transport and
 * the scheduling are not modelled; each step is an explicit call.
 */
module LoggerSync {
  import opened Wrappers

  /** The progress object of a file transfer, known by its identity. */
  datatype TransferProgress = TransferProgress(id: nat)

  /** The error a failed transfer reports. */
  datatype TransferError = TransferError(description: string)

  /** A temporary directory holding a copy of the store, known by its identity. */
  datatype TemporaryDirectory = TemporaryDirectory(id: nat)

  /** `FileTransferStatus`. */
  datatype FileTransferStatus =
    | Initial
    | Sending(progress: TransferProgress)
    | Failure(error: TransferError)
    | Success

  /** `FileTransferStatus.title`: the send button's caption, one per state. */
  function Title(s: FileTransferStatus): (r: string)
    ensures r == "Send to iPhone" <==> s.Initial?
    ensures r == "Transfer Failed" <==> s.Failure?
    ensures r == "Sending..." <==> s.Sending?
    ensures r == "Store Sent" <==> s.Success?
  {
    match s
    case Initial => "Send to iPhone"
    case Failure(_) => "Transfer Failed"
    case Sending(_) => "Sending..."
    case Success => "Store Sent"
  }

  /** `FileTransferStatus.isButtonDisabled`: sending is possible only from `initial`. */
  function IsButtonDisabled(s: FileTransferStatus): (r: bool)
    ensures !r <==> s == Initial
  {
    match s
    case Initial => false
    case _ => true
  }

  /** Two statuses are in the same state, whatever their payloads. */
  predicate SameState(a: FileTransferStatus, b: FileTransferStatus) {
    (a.Initial? && b.Initial?) || (a.Sending? && b.Sending?) ||
    (a.Failure? && b.Failure?) || (a.Success? && b.Success?)
  }

  /** The caption tells the four states apart, and only them. */
  lemma TitleDistinguishesStates(a: FileTransferStatus, b: FileTransferStatus)
    ensures Title(a) == Title(b) <==> SameState(a, b)
  {
  }

  /** `LoggerSyncSession`: the status shown and the directory of the last transfer. */
  class LoggerSyncSession {
    var fileTransferStatus: FileTransferStatus
    var directory: Option<TemporaryDirectory>
    /** The temporary directories of this session still present on disk. */
    ghost var liveDirectories: set<TemporaryDirectory>

    /** A fresh session starts in `initial`, with no transfer recorded. */
    constructor ()
      ensures fileTransferStatus == Initial && !IsButtonDisabled(fileTransferStatus)
      ensures directory == None && liveDirectories == {}
    {
      fileTransferStatus := Initial;
      directory := None;
      liveDirectories := {};
    }

    /**
     * `transfer(store:)`: a copy of the store is written into the new
     * directory `dir` and handed to the transport, whose progress is
     * `progress`; the session is then sending and records `dir`.
     */
    method Transfer(dir: TemporaryDirectory, progress: TransferProgress)
      modifies this
      ensures fileTransferStatus == Sending(progress) && IsButtonDisabled(fileTransferStatus)
      ensures directory == Some(dir)
      ensures liveDirectories == old(liveDirectories) + {dir}
    {
      liveDirectories := liveDirectories + {dir};
      fileTransferStatus := Sending(progress);
      directory := Some(dir);
    }

    /**
     * `session(_:didFinish:error:)`: the recorded directory is removed from
     * disk (the reference to it is kept), then the status becomes `failure`
     * when an error is reported and `success` otherwise.
     */
    method DidFinish(error: Option<TransferError>)
      modifies this`fileTransferStatus, this`liveDirectories
      ensures directory.Some? ==> liveDirectories == old(liveDirectories) - {directory.value}
      ensures directory.None? ==> liveDirectories == old(liveDirectories)
      ensures fileTransferStatus == if error.Some? then Failure(error.value) else Success
      ensures IsButtonDisabled(fileTransferStatus)
    {
      if directory.Some? {
        liveDirectories := liveDirectories - {directory.value};
      }
      if error.Some? {
        fileTransferStatus := Failure(error.value);
      } else {
        fileTransferStatus := Success;
      }
    }

    /** The delayed step after a finish: back to `initial`, ready to send again. */
    method ResetStatus()
      modifies this`fileTransferStatus
      ensures fileTransferStatus == Initial && !IsButtonDisabled(fileTransferStatus)
    {
      fileTransferStatus := Initial;
    }

    /**
     * One whole transfer from a session ready to send: sending, finished,
     * then back to `initial`, with its temporary directory gone from disk.
     */
    method CompleteTransfer(dir: TemporaryDirectory, progress: TransferProgress, error: Option<TransferError>)
      modifies this
      ensures fileTransferStatus == Initial
      ensures directory == Some(dir)
      ensures dir !in liveDirectories
      ensures liveDirectories == old(liveDirectories) - {dir}
    {
      Transfer(dir, progress);
      DidFinish(error);
      ResetStatus();
    }
  }
}
