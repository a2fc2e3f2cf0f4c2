/**
 * The failures `IngestManager` can raise. `BossError` carries one of the
 * project's error codes; `Uncaught` is a Python exception that is not a
 * BossError and escapes the manager unchanged.
 */
module Errors {
  import opened Json
  import opened Wrappers

  /** The members of `ErrorCodes` that the ingest manager uses. */
  datatype ErrorCode =
    | UnableToValidate    // ErrorCodes.UNABLE_TO_VALIDATE
    | ResourceNotFound    // ErrorCodes.RESOURCE_NOT_FOUND
    | SerializationError  // ErrorCodes.SERIALIZATION_ERROR
    | BossSystemError     // ErrorCodes.BOSS_SYSTEM_ERROR

  /**
   * The message of a BossError, kept as its template plus the value formatted
   * into it (the name that was not found), rather than as text.
   */
  datatype Message =
    | CouldNotValidateSchema
    | CollectionNotFound(collection: Option<Json>)
    | ExperimentNotFound(experiment: Option<Json>)
    | ChannelNotFound(channelLayer: Option<Json>)
    | SerializerErrors
    | UnableToCreateQueues
    | UnableToDeleteJob  // worded "Unable to delete the upload queue" in the code, though it reports the job deletion

  /** Exceptions raised by code outside the manager that the manager does not catch. */
  datatype Exception =
    | LookupFailed        // KeyError, IndexError or TypeError from a subscript
    | JobDoesNotExist     // IngestJob.DoesNotExist
    | QueueBackendFailed  // any exception from the queueing library

  datatype Failure =
    | BossError(message: Message, code: ErrorCode)
    | Uncaught(exception: Exception)
}
