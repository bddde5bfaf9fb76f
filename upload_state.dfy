/** The upload states of the client's uploader (states.js) and the
    per-item state predicates of `useUploadStates`. */
module UploadState {

  const WAITING := "waiting"
  const UPLOADING := "uploading"
  const COMPLETE := "complete"
  /** A canceled upload is recorded with the very same string as a failed one. */
  const CANCELED := "failed"
  const FAILED := "failed"

  /** One entry of the upload list: its state string and its progress
      (a percentage, taken here as a whole number). */
  datatype UploadItem = UploadItem(state: string, progress: int)

  predicate IsCanceled(item: UploadItem) {
    item.state == CANCELED
  }

  predicate IsUploading(item: UploadItem) {
    item.state == WAITING || item.state == UPLOADING
  }

  predicate IsFailed(item: UploadItem) {
    item.state == FAILED
  }

  predicate IsComplete(item: UploadItem) {
    item.state == COMPLETE
  }

  /** The phase an item is in, as the uploader's list shows it. */
  datatype Phase = InFlight | Stopped | Done | Unknown

  /** Every state string falls in exactly one phase; the four predicates
      are the phase tests, with `isCanceled` and `isFailed` both testing
      Stopped. */
  function PhaseOf(item: UploadItem): (p: Phase)
    ensures p == InFlight <==> IsUploading(item)
    ensures p == Stopped <==> IsFailed(item)
    ensures p == Stopped <==> IsCanceled(item)
    ensures p == Done <==> IsComplete(item)
    ensures p == Unknown <==> item.state !in {WAITING, UPLOADING, COMPLETE, FAILED}
  {
    if item.state == WAITING || item.state == UPLOADING then InFlight
    else if item.state == FAILED then Stopped
    else if item.state == COMPLETE then Done
    else Unknown
  }

  /** `isCanceled` and `isFailed` agree on every item. */
  lemma CanceledIsFailed(item: UploadItem)
    ensures IsCanceled(item) <==> IsFailed(item)
  {
  }

  /** At most one of `isUploading`, `isFailed` and `isComplete` holds. */
  lemma AtMostOnePhase(item: UploadItem)
    ensures !(IsUploading(item) && IsFailed(item))
    ensures !(IsUploading(item) && IsComplete(item))
    ensures !(IsFailed(item) && IsComplete(item))
  {
    var p := PhaseOf(item);
  }

  /** A state outside the defined constants satisfies none of the four. */
  lemma UnknownStateMatchesNothing(item: UploadItem)
    requires item.state !in {WAITING, UPLOADING, COMPLETE, FAILED}
    ensures !IsCanceled(item) && !IsUploading(item) && !IsFailed(item) && !IsComplete(item)
  {
  }
}
