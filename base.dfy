/** The part every vector-store backend shares: the document tracker it was
    given (or a fresh one) and the default `list_documents`. Backends hold a
    `VectorStoreBase` where the source inherits from the abstract class. */
module VectorStoreBase {
  import opened Wrappers
  import opened Ordering
  import opened Values
  import opened DocumentTracker

  class VectorStoreBase {
    const tracker: DocumentTracker

    /** `VectorStore.__init__`: keeps the supplied tracker, or creates a fresh
        one over the default tracker file. */
    constructor (supplied: Option<DocumentTracker>, defaultFile: TrackerFile)
      ensures supplied.Some? ==> tracker == supplied.value
      ensures supplied.None? ==> fresh(tracker) && tracker.file == defaultFile && tracker.writes == 0
    {
      if supplied.Some? {
        tracker := supplied.value;
      } else {
        tracker := new DocumentTracker(defaultFile);
      }
    }

    /** The default `list_documents`: exactly the tracker's sorted list. */
    method ListDocuments() returns (r: seq<string>)
      ensures StrictlySorted(r)
      ensures forall x :: x in r <==> x in tracker.Ids()
    {
      r := tracker.List();
    }

    /** `_track_add`: forwards the id unchanged to the tracker. */
    method TrackAdd(documentId: Option<string>)
      modifies tracker
      ensures tracker.Ids() == Added(old(tracker.Ids()), documentId)
      ensures !IsTruthyId(documentId) ==> tracker.file == old(tracker.file) && tracker.writes == old(tracker.writes)
    {
      tracker.Add(documentId);
    }

    /** `_track_remove`: forwards the id unchanged to the tracker. */
    method TrackRemove(documentId: Option<string>)
      modifies tracker
      ensures tracker.Ids() == Removed(old(tracker.Ids()), documentId)
      ensures !IsTruthyId(documentId) ==> tracker.file == old(tracker.file) && tracker.writes == old(tracker.writes)
    {
      tracker.Remove(documentId);
    }
  }
}
