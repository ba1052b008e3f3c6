# Documentation search index rebuild (docsviewer) in Dafny

This project models `RebuildLuceneDocsIndex::rebuildIndexes`, the build task of the
SilverStripe documentation viewer. The task rebuilds the Lucene search index over every
page of the documentation manifest. It has three parts, and each has its own module:

- `StalenessGate` (`staleness_gate.dfy`): the task skips the rebuild and returns `true`
  when `write.lock.file` in the index directory was modified less than a day ago and the
  request has no `flush` parameter.
- `DocumentBuilder` (`document_builder.dfy`): each page becomes a Lucene document.
  It gets the text fields `content`, `Title` and `BreadcrumbTitle` and the keyword fields
  `Version`, `Language`, `Entity` and `Link`. The title boost is 3 and the breadcrumb
  boost is 1.5. The document boost comes from the `boost_by_path` rules. The loop over
  the rules never stops early, so the last matching rule wins. With no match, the engine
  default of 1.0 stays.
- `LuceneIndex` (`lucene_index.dfy`) and `RebuildTask` (`rebuild_task.dfy`): the index
  handle is a class whose methods are the engine calls the task makes. `RebuildIndexes`
  opens the old index and releases it (when there is one), then creates a fresh index.
  It adds one document per page in manifest order while counting pages, and then
  commits exactly once. It also commits when there are no pages.

`DocsTypes` (`types.dfy`) holds the shared values: pages, fields, documents and boost
rules. Several things become parameters: the clock, the lock file's existence and
modification time, the `flush` request parameter, the manifest's pages, the configured
rules and the regular-expression matcher (`matches: (string, string) -> bool`). Every
result holds for every matcher.

Points where the code behaves differently from what one might expect:

- Line 41 compares strictly, so a lock file exactly 86400 s old is stale and the
  rebuild proceeds (`DayOldLockIsStale`).
- The rule loop at lines 115-119 never breaks, so the last matching rule wins. With two
  matching rules `(a, 2.0)` and `(b, 5.0)` the document boost is 5.0
  (`LaterMatchOverrides`).
- A failed `create` (lines 60-64) only raises a notice, and the task goes on.
- The page loop (lines 79-131) has no per-page error handling, and `$count` goes up
  before the page is fetched. Nothing checks that links are unique.

## Model

| member | source | states |
|---|---|---|
| StalenessGate.LockFileFresh | code/tasks/RebuildLuceneDocsIndex.php:40-41 | the lock file is fresh exactly when it exists and its age `now - mtime` is below one day |
| StalenessGate.SkipRebuild | code/tasks/RebuildLuceneDocsIndex.php:41-51 | the task returns early exactly when the lock exists, its age is under a day and no flush was requested; a missing lock file or a flush request always leads to a rebuild |
| StalenessGate.DayOldLockIsStale | code/tasks/RebuildLuceneDocsIndex.php:41 | a lock file exactly one day old is stale and does not skip the rebuild; one second younger it is fresh and skips |
| DocumentBuilder.FoldBoostIsLastMatch | code/tasks/RebuildLuceneDocsIndex.php:113-119 | the overwriting rule loop yields the boost of the last rule in configured order whose pattern matches the path, or the starting boost when none matches |
| DocumentBuilder.LaterMatchOverrides | code/tasks/RebuildLuceneDocsIndex.php:115-118 | when two rules both match, the document boost is the second rule's, not the first's and not a combination |
| DocumentBuilder.DocumentForFields | code/tasks/RebuildLuceneDocsIndex.php:89-107 | a document has exactly the seven named fields: content, Title and BreadcrumbTitle as text from the page's HTML, title and breadcrumb title; Version, Language and Entity as keywords from the page's entity; Link as a keyword from the page's link |
| DocumentBuilder.FieldBoostsIgnoreRules | code/tasks/RebuildLuceneDocsIndex.php:89-111 | field boosts are 3 for Title, 1.5 for BreadcrumbTitle and the default for every other field, whatever the rules and the matcher |
| DocumentBuilder.DocumentBoostIsLastMatch | code/tasks/RebuildLuceneDocsIndex.php:113-119 | a document's boost is that of the last rule matching the page's relative path, and the default 1.0 when no rule matches |
| DocumentBuilder.BuildDocument | code/tasks/RebuildLuceneDocsIndex.php:83-119 | building the fields, raising the two title boosts and running the rule loop yields exactly the specified document for the page |
| RebuildTask.Documents | code/tasks/RebuildLuceneDocsIndex.php:79-122 | a rebuild's documents are one per page, and document i is the one built from page i in manifest order |
| RebuildTask.AddPages | code/tasks/RebuildLuceneDocsIndex.php:70-131 | the page loop adds exactly one built document per page, in manifest order, ends with the counter equal to the number of pages, and adds nothing for an empty manifest |
| RebuildTask.RebuildCallsCommitOnce | code/tasks/RebuildLuceneDocsIndex.php:53-134 | the calls of a rebuild add exactly the built documents in order and commit exactly once, as the very last call |
| RebuildTask.RebuildIndexes | code/tasks/RebuildLuceneDocsIndex.php:29-139 | a skipped run leaves the index untouched; otherwise the counter equals the number of pages, the index holds exactly the pages' documents in order and is committed, and the engine sees open, release (when an index was found), create, one add per page and one commit, in that order |
| LuceneIndex.Index.Open | code/tasks/RebuildLuceneDocsIndex.php:53-58 | opening succeeds exactly when an index exists at the location; a failed open leaves no handle and no documents, changes nothing but is logged as a call |
| LuceneIndex.Index.RemoveReference | code/tasks/RebuildLuceneDocsIndex.php:55 | releasing the opened handle moves it to the released phase |
| LuceneIndex.Index.Create | code/tasks/RebuildLuceneDocsIndex.php:60-64 | creating leaves an existing, empty index in the created phase |
| LuceneIndex.Index.AddDocument | code/tasks/RebuildLuceneDocsIndex.php:122 | adding appends the document to the index's documents |
| LuceneIndex.Index.Commit | code/tasks/RebuildLuceneDocsIndex.php:134 | committing moves the created index to the committed phase and keeps its documents |

## Left out

- The search form, `code/forms/DocumentationSearchForm.php`, only wires framework widgets and holds no logic.
- Query-time search over the committed index is not part of this model.
- The Lucene engine's internals are not modelled: the on-disk format, reference counting and tokenisation. The index is the sequence of documents it holds. Its handle follows a lifecycle phase.
- LuceneIndex.Index: its method preconditions describe the call order this task uses. The engine itself also allows adding after a commit and committing twice, and the model does not describe those.
- `preg_match` is not modelled. Matching is an arbitrary matcher passed in as a parameter.
- Filesystem and environment access become parameters: `file_exists`, `filemtime`, `time()`, `$_REQUEST['flush']`, the manifest and `Config::inst()`. The `Filesystem::makeFolder` and `ini_set` calls are dropped.
- The staleness marker is the engine's own `write.lock.file` inside the index directory (line 40). In the model, the lock file's existence and modification time are parameters with no link to `Index`. So the model does not capture that a rebuild refreshes the marker, which is what makes a second run within a day skip.
- A page's URL (the manifest key) and its `getPath()` (used only in the progress output) are not part of `Page`.
- The `quiet` flag, the progress `echo` lines and the CLI/HTML formatting are output only and are not modelled.
- The `error_reporting` toggling and the `user_error` reports on Lucene exceptions are not modelled. The model assumes `create` succeeds. A failed `open` is modelled as `Open` returning `false`.
- The string conversion of a documentation entity, used for the `Entity` keyword, is `Entity.asString`. Its format is not modelled.
- A manifest page that cannot be fetched, and a page whose rendering throws, are not modelled.
- RebuildTask.RebuildIndexes returns `count` only so its value can be stated. In the code, `$count` is a local that never leaves the method. When there are no pages it is never assigned, and the model reports 0.
