/**
 * `RebuildLuceneDocsIndex::rebuildIndexes`: the staleness gate, then open and
 * release the old index, create a new one, add one document per manifest
 * page in manifest order, and commit once.
 *
 * The clock, the lock file's existence and modification time, the `flush`
 * request parameter, the manifest's pages, the `boost_by_path` rules and the
 * regular-expression matcher are all parameters.
 */
module RebuildTask {
  import opened DocsTypes
  import opened StalenessGate
  import opened DocumentBuilder
  import opened LuceneIndex

  /** The documents a rebuild adds: one per page, in page order. */
  function Documents(pages: seq<Page>, rules: seq<BoostRule>, matches: (string, string) -> bool): (ds: seq<Document>)
    ensures |ds| == |pages|
    ensures forall i :: 0 <= i < |pages| ==> ds[i] == DocumentFor(pages[i], rules, matches)
  {
    if pages == [] then []
    else [DocumentFor(pages[0], rules, matches)] + Documents(pages[1..], rules, matches)
  }

  /** The `addDocument` calls that add `docs`, in order. */
  function AddCalls(docs: seq<Document>): seq<Call>
  {
    if docs == [] then [] else [CallAddDocument(docs[0])] + AddCalls(docs[1..])
  }

  /**
   * The calls of one rebuild that was not skipped: open, release when the
   * open found an index, create, one add per document, commit.
   */
  function RebuildCalls(found: bool, docs: seq<Document>): seq<Call>
  {
    [CallOpen(found)] + (if found then [CallRemoveReference] else []) + [CallCreate] + AddCalls(docs) + [CallCommit]
  }

  /** The documents added by a sequence of calls, in order. */
  function Added(calls: seq<Call>): seq<Document>
  {
    if calls == [] then []
    else (if calls[0].CallAddDocument? then [calls[0].doc] else []) + Added(calls[1..])
  }

  /** How many commits a sequence of calls makes. */
  function Commits(calls: seq<Call>): nat
  {
    if calls == [] then 0
    else (if calls[0] == CallCommit then 1 else 0) + Commits(calls[1..])
  }

  lemma {:induction false} AddCallsAppend(docs: seq<Document>, doc: Document)
    ensures AddCalls(docs + [doc]) == AddCalls(docs) + [CallAddDocument(doc)]
  {
    if docs != [] {
      assert (docs + [doc])[1..] == docs[1..] + [doc];
      AddCallsAppend(docs[1..], doc);
    }
  }

  lemma {:induction false} AddedConcat(a: seq<Call>, b: seq<Call>)
    ensures Added(a + b) == Added(a) + Added(b)
    ensures Commits(a + b) == Commits(a) + Commits(b)
  {
    if a == [] {
      assert a + b == b;
    } else {
      assert (a + b)[1..] == a[1..] + b;
      AddedConcat(a[1..], b);
    }
  }

  lemma {:induction false} AddCallsOnlyAdd(docs: seq<Document>)
    ensures Added(AddCalls(docs)) == docs
    ensures Commits(AddCalls(docs)) == 0
  {
    if docs != [] {
      AddCallsOnlyAdd(docs[1..]);
      AddedConcat([CallAddDocument(docs[0])], AddCalls(docs[1..]));
    }
  }

  /**
   * A rebuild adds exactly `docs`, in order, and commits exactly once, as its
   * last call, after every document has been added.
   */
  lemma {:induction false} RebuildCallsCommitOnce(found: bool, docs: seq<Document>)
    ensures Added(RebuildCalls(found, docs)) == docs
    ensures Commits(RebuildCalls(found, docs)) == 1
    ensures RebuildCalls(found, docs)[|RebuildCalls(found, docs)| - 1] == CallCommit
  {
    var head := [CallOpen(found)] + (if found then [CallRemoveReference] else []) + [CallCreate];
    AddCallsOnlyAdd(docs);
    AddedConcat(head, AddCalls(docs));
    AddedConcat(head + AddCalls(docs), [CallCommit]);
    assert Added(head) == [] && Commits(head) == 0 by {
      if found {
        AddedConcat([CallOpen(found)], [CallRemoveReference]);
        AddedConcat([CallOpen(found)] + [CallRemoveReference], [CallCreate]);
      } else {
        AddedConcat([CallOpen(found)], [CallCreate]);
      }
    }
  }

  /**
   * The page loop: for each page, in manifest order, bump the counter, build
   * its document and add it to the freshly created index.
   */
  method AddPages(index: Index, pages: seq<Page>, rules: seq<BoostRule>, matches: (string, string) -> bool)
    returns (count: nat)
    requires index.Valid() && index.present && index.phase == Created && index.docs == []
    modifies index`docs, index`calls
    ensures index.Valid()
    ensures count == |pages|
    ensures index.docs == Documents(pages, rules, matches)
    ensures index.calls == old(index.calls) + AddCalls(index.docs)
  {
    count := 0;
    if |pages| > 0 {
      for i := 0 to |pages|
        invariant index.Valid() && index.present && index.phase == Created
        invariant count == i
        invariant |index.docs| == i
        invariant forall k :: 0 <= k < i ==> index.docs[k] == DocumentFor(pages[k], rules, matches)
        invariant index.calls == old(index.calls) + AddCalls(index.docs)
      {
        count := count + 1;
        var doc := BuildDocument(pages[i], rules, matches);
        AddCallsAppend(index.docs, doc);
        index.AddDocument(doc);
      }
    }
    assert index.docs == Documents(pages, rules, matches);
  }

  /**
   * Rebuilds `index` unless the lock file is fresh and no flush was asked
   * for. `skipped` is the task's early `true` return; `count` is the page
   * counter at the end of the loop.
   */
  method RebuildIndexes(index: Index, lockExists: bool, lockMtime: int, now: int, flush: bool,
                        pages: seq<Page>, rules: seq<BoostRule>, matches: (string, string) -> bool)
    returns (skipped: bool, count: nat)
    requires index.Valid()
    modifies index
    ensures index.Valid()
    ensures skipped == SkipRebuild(lockExists, lockMtime, now, flush)
    ensures skipped ==> unchanged(index) && count == 0
    ensures !skipped ==>
      && count == |pages|
      && index.present
      && index.phase == Committed
      && index.docs == Documents(pages, rules, matches)
      && index.calls == old(index.calls) + RebuildCalls(old(index.present), index.docs)
  {
    count := 0;
    var isFresh := LockFileFresh(lockExists, lockMtime, now);
    if isFresh && !flush {
      skipped := true;
      return;
    }
    skipped := false;

    var found := index.Open();
    if found {
      index.RemoveReference();
    }
    index.Create();
    count := AddPages(index, pages, rules, matches);
    index.Commit();
  }
}
