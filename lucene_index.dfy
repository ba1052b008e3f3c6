/**
 * The search index at the index location, seen through the calls the rebuild
 * makes on the engine: open, removeReference, create, addDocument, commit.
 * The engine's storage is abstracted to the sequence of documents it holds;
 * `calls` records every call made, in order.
 */
module LuceneIndex {
  import opened DocsTypes

  /** Where the current handle on the index stands in its lifecycle. */
  datatype Phase = Closed | Opened | Released | Created | Committed

  /** One call made on the engine; `CallOpen(found)` says whether an index was there to open. */
  datatype Call =
    | CallOpen(found: bool)
    | CallRemoveReference
    | CallCreate
    | CallAddDocument(doc: Document)
    | CallCommit

  class Index {
    var present: bool         // an index exists at the location
    var docs: seq<Document>   // the documents it holds, in the order they were added
    var phase: Phase
    ghost var calls: seq<Call>

    /** Without an index at the location there are no documents and no handle. */
    ghost predicate Valid()
      reads this
    {
      !present ==> docs == [] && phase == Closed
    }

    constructor (present: bool, docs: seq<Document>)
      ensures Valid()
      ensures this.present == present && this.docs == (if present then docs else [])
      ensures phase == Closed && calls == []
    {
      this.present := present;
      this.docs := if present then docs else [];
      phase := Closed;
      calls := [];
    }

    /** Opens the existing index; with none at the location the call fails and nothing changes. */
    method Open() returns (found: bool)
      requires Valid()
      modifies this`phase, this`calls
      ensures Valid()
      ensures found == present
      ensures phase == if found then Opened else old(phase)
      ensures !found ==> phase == Closed && docs == []
      ensures calls == old(calls) + [CallOpen(found)]
    {
      found := present;
      if found {
        phase := Opened;
      }
      calls := calls + [CallOpen(found)];
    }

    /** Releases the handle obtained by `Open`. */
    method RemoveReference()
      requires Valid() && phase == Opened
      modifies this`phase, this`calls
      ensures Valid()
      ensures phase == Released
      ensures calls == old(calls) + [CallRemoveReference]
    {
      phase := Released;
      calls := calls + [CallRemoveReference];
    }

    /** Creates a fresh, empty index at the location, replacing whatever was there. */
    method Create()
      requires Valid()
      modifies this
      ensures Valid()
      ensures present && docs == [] && phase == Created
      ensures calls == old(calls) + [CallCreate]
    {
      present := true;
      docs := [];
      phase := Created;
      calls := calls + [CallCreate];
    }

    /** Appends one document to the freshly created index. */
    method AddDocument(doc: Document)
      requires Valid() && phase == Created
      modifies this`docs, this`calls
      ensures Valid()
      ensures docs == old(docs) + [doc]
      ensures calls == old(calls) + [CallAddDocument(doc)]
    {
      docs := docs + [doc];
      calls := calls + [CallAddDocument(doc)];
    }

    /** Makes the created index, with every document added so far, the committed one. */
    method Commit()
      requires Valid() && phase == Created
      modifies this`phase, this`calls
      ensures Valid()
      ensures phase == Committed
      ensures calls == old(calls) + [CallCommit]
    {
      phase := Committed;
      calls := calls + [CallCommit];
    }
  }
}
