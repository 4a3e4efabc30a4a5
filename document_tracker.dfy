/** The document tracker: a set of document ids kept in one JSON file that is
    read in full and rewritten in full on every change. */
module DocumentTracker {
  import opened Wrappers
  import opened Ordering
  import opened Values

  /** What the tracker file holds, as far as `_read` can tell. The items of a
      list are kept as the strings `str(item)` produces. */
  datatype TrackerFile = Missing | Corrupt | NotList | JsonList(items: seq<string>)

  /** `_read`: the ids in the file; a missing file, invalid JSON or a JSON
      value that is not a list all read as the empty set. */
  function Decode(f: TrackerFile): (ids: set<string>)
    ensures !f.JsonList? ==> ids == {}
    ensures f.JsonList? ==> forall x :: x in ids <==> x in f.items
  {
    match f
    case JsonList(items) => set x | x in items
    case _ => {}
  }

  /** The set `add` leaves: unchanged for a falsy id, else one id more. */
  function Added(ids: set<string>, documentId: Option<string>): (r: set<string>)
    ensures IsTruthyId(documentId) ==> r == ids + {documentId.value}
    ensures !IsTruthyId(documentId) ==> r == ids
  {
    if IsTruthyId(documentId) then ids + {documentId.value} else ids
  }

  /** The set `remove` leaves: unchanged for a falsy id, else one id less. */
  function Removed(ids: set<string>, documentId: Option<string>): (r: set<string>)
    ensures IsTruthyId(documentId) ==> r == ids - {documentId.value}
    ensures !IsTruthyId(documentId) ==> r == ids
  {
    if IsTruthyId(documentId) then ids - {documentId.value} else ids
  }

  /** Adding twice is adding once; removing twice is removing once. */
  lemma AddRemoveIdempotent(ids: set<string>, documentId: Option<string>)
    ensures Added(Added(ids, documentId), documentId) == Added(ids, documentId)
    ensures Removed(Removed(ids, documentId), documentId) == Removed(ids, documentId)
  {
  }

  /** Starting from a set that lacks the id, add then remove restores it. */
  lemma AddThenRemoveRestores(ids: set<string>, documentId: Option<string>)
    requires documentId.Some? ==> documentId.value !in ids
    ensures Removed(Added(ids, documentId), documentId) == ids
  {
  }

  class DocumentTracker {
    /** The abstract content of the tracker file. */
    var file: TrackerFile
    /** How many times the file has been rewritten. */
    ghost var writes: nat

    /** `DocumentTracker(path)`: the tracker over whatever the file holds. */
    constructor (initial: TrackerFile)
      ensures file == initial && writes == 0
    {
      file := initial;
      writes := 0;
    }

    /** The set of ids the file currently holds (`_read`). */
    function Ids(): set<string>
      reads this
    {
      Decode(file)
    }

    /** `_write`: persists the sorted, duplicate-free list, so that the next
        `_read` gives back exactly `ids`. */
    method Write(ids: set<string>)
      modifies this
      ensures file.JsonList? && StrictlySorted(file.items) && |file.items| == |ids|
      ensures Ids() == ids
      ensures writes == old(writes) + 1
    {
      var unique := SortSet(ids);
      file := JsonList(unique);
      writes := writes + 1;
    }

    /** `add`: a falsy id or an id already present changes and writes nothing;
        otherwise the id is inserted and the file rewritten. */
    method Add(documentId: Option<string>)
      modifies this
      ensures Ids() == Added(old(Ids()), documentId)
      ensures !IsTruthyId(documentId) || documentId.value in old(Ids()) ==>
                file == old(file) && writes == old(writes)
      ensures IsTruthyId(documentId) && documentId.value !in old(Ids()) ==>
                writes == old(writes) + 1 && file.JsonList? && StrictlySorted(file.items)
    {
      if !IsTruthyId(documentId) {
        return;
      }
      var ids := Ids();
      if documentId.value in ids {
        return;
      }
      ids := ids + {documentId.value};
      Write(ids);
    }

    /** `remove`: a falsy id or an absent id changes and writes nothing;
        otherwise the id is dropped, every other id kept, and the file rewritten. */
    method Remove(documentId: Option<string>)
      modifies this
      ensures Ids() == Removed(old(Ids()), documentId)
      ensures !IsTruthyId(documentId) || documentId.value !in old(Ids()) ==>
                file == old(file) && writes == old(writes)
      ensures IsTruthyId(documentId) && documentId.value in old(Ids()) ==>
                writes == old(writes) + 1 && file.JsonList? && StrictlySorted(file.items)
    {
      if !IsTruthyId(documentId) {
        return;
      }
      var ids := Ids();
      if documentId.value !in ids {
        return;
      }
      ids := ids - {documentId.value};
      Write(ids);
    }

    /** `list`: the stored ids in ascending order, without duplicates. */
    method List() returns (r: seq<string>)
      ensures StrictlySorted(r)
      ensures forall x :: x in r <==> x in Decode(file)
      ensures |r| == |Decode(file)|
    {
      r := SortSet(Ids());
    }
  }

  /** A tracker rebuilt from the persisted file (a process restart) lists
      exactly what the old one listed. */
  method RestartKeepsList(t: DocumentTracker) returns (before: seq<string>, after: seq<string>)
    ensures before == after
    ensures StrictlySorted(after) && forall x :: x in after <==> x in Decode(t.file)
  {
    before := t.List();
    var reloaded := new DocumentTracker(t.file);
    after := reloaded.List();
    SortedUnique(before, after);
  }

  /** The scenario of duplicate add and absent remove: `add("a")` twice and
      `remove("b")` leave just the one insertion, and nothing is written
      beyond the first add. */
  method DuplicateAddAbsentRemove(t: DocumentTracker)
    requires "a" !in t.Ids() && "b" !in t.Ids()
    modifies t
    ensures t.Ids() == old(t.Ids()) + {"a"}
    ensures t.writes == old(t.writes) + 1
  {
    t.Add(Some("a"));
    t.Add(Some("a"));
    t.Remove(Some("b"));
  }
}
