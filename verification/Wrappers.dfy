/** Optional values and the results of fallible calls. */
module Wrappers {

  datatype Option<+T> = None | Some(value: T)

  /** The error codes of common/error.hpp that the modelled calls can return. */
  datatype Error =
    | InvalidLogIndex
    | LogEntriesPersistFailed
    | LogEntriesRecoverFailed
    | LogEntryParseFailed
    | LogEntriesTruncateFailed
    | LogIndexToUllFailed
    | PersistStateGetFailed
    | PersistStateParseFailed
    | PersistStatePutFailed

  datatype Result<+T> = Ok(value: T) | Err(error: Error)
}
