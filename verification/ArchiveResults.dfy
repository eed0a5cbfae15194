/** What becomes of one reported output when it is to be archived. */
module ArchiveResults {

  /** The ways in which archiving returns without an error and without storing anything. */
  datatype SkipReason =
    | NoCipher
    | OverArchiveLimit
    | NothingReceived
    | TooLarge
    | QuotaExceeded
    | NoEvent
    | AlreadyStored

  datatype ArchiveResult = Stored | Skipped(reason: SkipReason) | ArchiveFailed
}
