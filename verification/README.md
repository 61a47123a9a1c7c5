# Verified models of the agent system's core

Dafny models of six stateful cores of the agent system, each proved against a specification that a caller can
read without reading the code:

* **The memory graph and its query engine.** `MultiLinkGraph` keeps nodes, outgoing links, incoming links and a type
  index side by side. `GraphModel` and `GraphRuns` prove that every history of operations keeps them in step;
  `GraphSearch` and `MemoryGraph` prove both breadth-first searches exact against undirected distance, defined by
  walks, and `GraphSweep` gives the order of discovery that decides what `path` still finds. The Dataview modules
  carry a query from text to answer: `DataviewLexer`, `DataviewSpelling` and `DataviewText` (how tokens are written,
  which texts write which tokens down, and the positions reported), `DataviewGrammar`, `DataviewTheorems`,
  `DataviewReadings` and `DataviewParser` (the parser accepts exactly the grammar and reads each clause for what it
  says; printing undoes parsing), `DataviewQuery`, `DataviewExecutor`, `DataviewValues`, `DataviewMeanings`,
  `DataviewLaws`, `DataviewOrder` and `DataviewKeys` (the executor refines a relational meaning, stated on values and
  names), and `DataviewRun` (the whole chain).
  `WHERE n STEPS FROM x` denotes the ball of radius n.
* **Lease locks.** `RedisLock` interleaves the lock's single Redis commands, key expiry included, and `RedisRaces`
  shows its safety condition exact; `ResourceLock` is the in-memory lock, whose operations are atomic.
* **The token bucket.** `RateLimiter`: the rate over every interval, who is always served, and the invisibility of
  bucket clean-up.
* **LRU structures.** `Recency` defines the most recently used distinct keys of a history; `ReplayCache` and
  `LruCache` hold exactly those.
* **Optimistic concurrency and quotas.** `TaskStore` holds both stores and `TaskSnapshots` says when a version can be
  trusted; `Quota` holds the bookkeeping and the checks, `QuotaCaps` says when the caps hold and `QuotaQueues` when
  the waiting queues hold the same tasks.
* **Streams and queues.** `StreamEvents`, `AnthropicStream` and `StreamMeanings`, `PromptFitting`, `AuditQueue`,
  `AuditRuns` (conservation and order of all that is pending) and `AuditFiles` (order of the files themselves).

Objects whose methods update fields are classes; each method's contract equates the new state with a function of the
old one, and the lemmas are about those functions, over all inputs, runs and interleavings. `Seqs` holds the list
comprehensions. Time, random draws, the order in which a set is walked, and the success of a write to disk are
parameters. Time is passed in and never decreases where a theorem needs it not to. Tokens, costs and weights are reals.

## Where the code departs from what it promises

Each item names the theorem that says exactly when the promise holds, and where it helps one that shows it fail.

* Re-adding an id with another type leaves it listed under the old type as well: `GraphModel.AddNodeIndexExact`;
  `GraphRuns.RetypedNodeStaysListed`.
* `path` gives up after 10000 visited nodes, even when the target is two links away. It finds its target if and only
  if the nodes discovered by the time the target is met are within that limit: `MemoryGraph.MultiLinkGraph.Path` with
  `GraphSweep.ReachableIsMet`; `GraphRuns.CutOffHidesCloseTarget`.
* ORDER BY looks up the full field name among output columns that are named without their prefix. The key
  it sorts each row by is the value of the field it names if and only if the last column of that name selects that
  very field: `DataviewKeys.SortsByFieldExactly`; `DataviewOrder.PrefixedOrderIsIgnored`,
  `DataviewKeys.PrefixedAnswerOutOfOrder`.
* The lexer does not count newlines inside string literals: `DataviewText.PositionsAreExact`.
* A Redis call that is overtaken by expiry between its GET and its EXPIRE or DEL acts on another holder's key:
  `RedisRaces.CareIsExact`; `RedisRaces.LateHeartbeatRace`.
* Saving a task again at a version somebody may still hold lets a stale snapshot pass:
  `TaskSnapshots.SnapshotsAreSoundExactly`; `TaskSnapshots.ResavingDefeatsVersions`.
* A successful SQL update raises after its commit, because the returned row has a column `metadata` and the conversion
  reads `metadata_`. The two stores also check in different orders, and the raw statement hands dictionary values to
  the driver as they are, so it fails before its commit where the driver refuses them. `TaskStore.StoresAgree` says
  exactly when tables and answers agree, `TaskStore.HistoriesAgree` when a whole history keeps the tables equal;
  `TaskStore.RepeatedUpdateConflicts`. As written, the
  constructor looks up `__import__` on a module, which has no such attribute, and takes the fallback:
  `TaskStore.SqlTaskStore.constructor` has both outcomes.
* Usage recorded, or tasks started, after the check rather than with it can overshoot every cap. Recorded plus
  pending within the cap is the exact condition: `QuotaCaps.PendingChargesExactly`, `QuotaCaps.PendingStartsExactly`
  and, event by event, `QuotaCaps.CapsHoldExactly`; `Quota.LateChargesOvershoot`.
* The system-wide task limit is configured and documented but never checked: `QuotaCaps.SystemLimitHoldsExactly`;
  `QuotaCaps.SystemLimitIsNotEnforced`. Of tokens only input counts, and a department's daily tokens are not checked:
  `QuotaCaps.TokensHoldExactly`; `QuotaCaps.DepartmentTokensAreNotEnforced`.
* A waiting task stands in two queues that are popped independently. They stay in step if and only if the same task is
  first in both whenever tasks leave: `QuotaQueues.QueuesStayInStepExactly`.
* A tool index that is started twice loses its first tool's end: `StreamEvents.OpenAIBrackets`,
  `AnthropicStream.AnthropicBrackets`.
* An OpenAI stream without a single chunk is reported as an error, because the code after the loop reads a variable
  the loop never bound: `StreamEvents.OpenAIErrorsExactly`.
* Prompt truncation measures content blocks in two different ways and never shortens the system prompt, so what it
  sends may be over the window: `PromptFitting.SentFitsExactly`; `PromptFitting.OversizedIsSentWhole`,
  `PromptFitting.TruncatedAndStillOver`, `PromptFitting.SystemAloneIsOver`.
* Overlapping flushes of the audit queue, and entries written past it, reorder a day's file. The files of a run are in
  logging order throughout if and only if no write appends an entry older than one already in its file:
  `AuditFiles.FilesKeepOrderExactly`. They stay so in every continuation that overtakes nothing if and only if no step
  has overtaken a pending entry of its day: `AuditFiles.OrderlyRunsExactly`; `AuditRuns.OverlappingFlushesReorder`.

The module comment of the query engine allows sub-queries one level deep; the parser nests them to any depth, and so
does the model. The in-memory task store hands out its own record objects: compare-and-swap protects clients that keep
what they read by value (`TaskSnapshots.NoLostUpdate`), while one that keeps the object always holds the current
version (`TaskStore.UpdateThroughHeldRecord`).

## Model

| member | source | states |
|---|---|---|
| `GraphModel.SameLinksBothWays` | src/agent_system/memory/graph.py:127-133 | in a consistent graph a link is stored under its source as often as under its target |
| `GraphModel.AddNodeConsistent` | src/agent_system/memory/graph.py:135-145 | adding or replacing a node keeps links mirrored and their ends present |
| `GraphModel.AddNodeIndexExact` | src/agent_system/memory/graph.py:135-145 | the type index stays exact if and only if the id is new or keeps its type |
| `GraphModel.AddingAgainKeepsCreation` | src/agent_system/memory/graph.py:135-145 | an id added again keeps its first creation time and takes everything else from the last adding |
| `GraphModel.AddLinkConsistent` | src/agent_system/memory/graph.py:344-373 | a link between stored nodes keeps the graph consistent |
| `GraphModel.UnlinkConsistent` | src/agent_system/memory/graph.py:400-412 | removing the links of a pair keeps the graph consistent |
| `GraphModel.UnlinkTakesExactly` | src/agent_system/memory/graph.py:400-412 | exactly the links of the pair, and of the type if one is given, go from both indexes |
| `GraphModel.RemoveConsistent` | src/agent_system/memory/graph.py:193-213 | deleting a node leaves no dangling link and keeps the rest mirrored |
| `GraphModel.RemoveIndexExact` | src/agent_system/memory/graph.py:193-213 | deleting a node keeps the type index exact |
| `GraphModel.RemoveKeepsOtherLinks` | src/agent_system/memory/graph.py:193-213 | exactly the links at the deleted node go; every other pair keeps its links in order |
| `GraphModel.NearIsSymmetric` | src/agent_system/memory/graph.py:416-460 | following links in both directions makes neighbourhood symmetric |
| `GraphModel.SphereIsDistance` | src/agent_system/memory/graph.py:416-460 | the radius at which a node first enters the ball is its undirected distance, defined by shortest walks |
| `GraphModel.RemoveNeverShortens` | src/agent_system/memory/graph.py:193-213 | deleting a node brings no two others closer |
| `GraphRuns.RunIsConsistent` | src/agent_system/memory/graph.py:127-412 | every history of add, link, unlink, delete and archive from the empty graph keeps all indexes in step |
| `GraphRuns.ApplyIndexExact` | src/agent_system/memory/graph.py:135-145 | an operation keeps the type index exact if and only if it does not re-type a stored id |
| `GraphRuns.RunIndexExact` | src/agent_system/memory/graph.py:135-304 | the type index is exact after every history that re-types nothing |
| `GraphRuns.RetypedNodeStaysListed` | src/agent_system/memory/graph.py:135-145 | a node added again with another type is still listed under its first type |
| `GraphRuns.CutOffHidesCloseTarget` | src/agent_system/memory/graph.py:462-505 | a history that links a hub to 10001 leaves, and one of them to a further node, hides that node at distance 2 from `path` |
| `GraphRuns.StarIsBuilt` | src/agent_system/memory/graph.py:135-373 | adding and linking one by one builds exactly that star |
| `GraphSearch.PathWindow` | src/agent_system/memory/graph.py:462-505 | in terms of distance alone: a target at distance d is found when its ball fits the cut-off and not found when the next smaller ball exceeds it; a found length is the distance |
| `GraphSweep.SweepReaches` | src/agent_system/memory/graph.py:462-505 | expanding discoveries in turn, every node within reach is discovered |
| `GraphSweep.ReachableIsMet` | src/agent_system/memory/graph.py:462-505 | a reachable target is met at one place of the discovery order, and it is met in time if and only if the nodes discovered before are within the limit |
| `MemoryGraph.MultiLinkGraph.constructor` | src/agent_system/memory/graph.py:127-133 | starts empty and consistent |
| `MemoryGraph.MultiLinkGraph.Add` | src/agent_system/memory/graph.py:135-145 | the state after adding; returns the node's id |
| `MemoryGraph.MultiLinkGraph.LinkNodes` | src/agent_system/memory/graph.py:344-373 | a link is stored on both sides if and only if both ends exist |
| `MemoryGraph.MultiLinkGraph.DeleteLinks` | src/agent_system/memory/graph.py:400-412 | exactly the links of the pair (and type, if given) go, and their number is returned |
| `MemoryGraph.MultiLinkGraph.TakeOut` | src/agent_system/memory/graph.py:193-213 | the four indexes lose the node and every link at it |
| `MemoryGraph.MultiLinkGraph.DeleteNode` | src/agent_system/memory/graph.py:193-213 | deletes if and only if the node is stored |
| `MemoryGraph.MultiLinkGraph.ArchiveNode` | src/agent_system/memory/graph.py:274-304 | deletes if and only if the node is stored and its file was written |
| `MemoryGraph.MultiLinkGraph.FindOrphanNodes` | src/agent_system/memory/graph.py:220-244 | lists exactly the linkless nodes past the window and not excluded, each once |
| `MemoryGraph.MultiLinkGraph.Compact` | src/agent_system/memory/graph.py:246-272 | archives exactly the old orphans whose file is written, counts them, and changes no link |
| `MemoryGraph.MultiLinkGraph.ArchiveEach` | src/agent_system/memory/graph.py:246-272 | the archiving loop of `compact` over a list of linkless nodes |
| `MemoryGraph.SameLinksSameDistances` | src/agent_system/memory/graph.py:246-272 | graphs with the same links have the same distances, so compaction changes none |
| `MemoryGraph.StaleMeans` | src/agent_system/memory/graph.py:246-272 | compaction takes the linkless nodes past both cutoffs whose type is not excluded and whose file is written |
| `MemoryGraph.MultiLinkGraph.FindNodes` | src/agent_system/memory/graph.py:153-191 | the nodes of a type, or all nodes, in the order in which they are listed, that pass every filter on content, metadata and attributes |
| `MemoryGraph.Filtered` | src/agent_system/memory/graph.py:168-191 | the filtering loop keeps exactly the candidates that pass, in order |
| `MemoryGraph.MultiLinkGraph.ScanLinks` | src/agent_system/memory/graph.py:435-458 | one inner loop of `neighbors` keeps the search layered and marks every far end visited |
| `MemoryGraph.MultiLinkGraph.Expand` | src/agent_system/memory/graph.py:430-458 | one round of `neighbors` keeps the search invariant and makes progress |
| `MemoryGraph.MultiLinkGraph.Neighbors` | src/agent_system/memory/graph.py:416-460 | each node at distance 1 to d exactly once, with its true distance, nearest first, each with a link to a node one step nearer; empty past the maximum depth |
| `MemoryGraph.MultiLinkGraph.ScanForTarget` | src/agent_system/memory/graph.py:475-503 | one inner loop of `path`: a hit is a shortest path |
| `MemoryGraph.MultiLinkGraph.Trace` | src/agent_system/memory/graph.py:473-503 | one round of `path` keeps every queued trail shortest, or hits |
| `MemoryGraph.MultiLinkGraph.Path` | src/agent_system/memory/graph.py:462-505 | found if and only if both ends are stored and the target is met before the visited limit; a found path is joined by stored links and shortest |
| `MemoryGraph.MultiLinkGraph.RelatedWithContext` | src/agent_system/memory/graph.py:507-531 | exact neighbours, and below the cut-off one path to each neighbouring experience, as long as its depth |
| `MemoryGraph.ExactNeighbor` | src/agent_system/memory/graph.py:507-531 | the path to a listed neighbour has that neighbour's depth and is found when the ball fits |
| `DataviewLexer.Tokenize` | src/agent_system/core/dataview.py:162-209 | the token list with reported positions, or the first unmatched character |
| `DataviewLexer.SkipBlank` | src/agent_system/core/dataview.py:177-183 | line and column after white space |
| `DataviewSpelling.CharactersAreSorted` | src/agent_system/core/dataview.py:149-159 | which characters are digits, word characters and white space |
| `DataviewSpelling.WordTokenExactly` | src/agent_system/core/dataview.py:87-205 | a word is read as the keyword written that way, and as a name only if there is none |
| `DataviewSpelling.NumberValueStands` | src/agent_system/core/dataview.py:149-190 | a number is read as the decimal written, digit by digit |
| `DataviewText.MatchedTokenIsSpelled` | src/agent_system/core/dataview.py:149-205 | the characters consumed for a token are a spelling of it |
| `DataviewText.MatchIsExact` | src/agent_system/core/dataview.py:149-205 | the first match is a given token of a given length if and only if these characters spell it and do not run on into the next ones |
| `DataviewText.LexesExactlyWhatIsWritten` | src/agent_system/core/dataview.py:162-209 | a text lexes to given tokens if and only if it writes them down: any spellings, any white space, and none where two spellings do not run together |
| `DataviewText.FailsWhereUnreadable` | src/agent_system/core/dataview.py:162-174 | a lexing error reports the first character at which neither white space nor any token is written |
| `DataviewText.TextsAreExactlyTheGrammar` | src/agent_system/core/dataview.py:162-573 | a text is read as a query if and only if it writes the tokens of that query |
| `DataviewText.TextRoundTrip` | src/agent_system/core/dataview.py:162-573 | a query written as text, in any spelling and layout, is lexed and parsed back to itself |
| `DataviewText.DocumentedQueryIsWritten` | src/agent_system/core/dataview.py:826-833 | `SELECT COUNT(*) FROM tasks;` is such a text, its tokens touching |
| `DataviewText.PositionsAreExact` | src/agent_system/core/dataview.py:162-209 | a reported line and column is right if and only if no earlier string literal contains a newline |
| `DataviewTheorems.ParsesExactlyTheGrammar` | src/agent_system/core/dataview.py:331-573 | the parser accepts a token list if and only if the grammar renders it, and recovers which query it was |
| `DataviewTheorems.JoinSplit` | src/agent_system/core/dataview.py:442-450 | a dotted name splits into parts and joins back |
| `DataviewTheorems.RoundTrip` | src/agent_system/core/dataview.py:331-573 | parsing a printed query gives it back, nested sub-queries included |
| `DataviewTheorems.ParsePrintParse` | src/agent_system/core/dataview.py:331-573 | whatever variant was parsed, printing and parsing again changes nothing |
| `DataviewReadings.OrderReads` | src/agent_system/core/dataview.py:528-537 | DESC sorts downwards, ASC or nothing upwards |
| `DataviewReadings.LimitReads` | src/agent_system/core/dataview.py:331-369 | LIMIT takes the whole part of its number; the closing semicolon is optional |
| `DataviewReadings.StepsReads` | src/agent_system/core/dataview.py:484-503 | the number of steps, 1 when none is written, and the start, as a name or a text |
| `DataviewReadings.ComparisonReads` | src/agent_system/core/dataview.py:457-526 | a comparison keeps field, operator and literal; true, false and null in any case are values |
| `DataviewReadings.InReads` | src/agent_system/core/dataview.py:457-482 | IN holds the sub-query in parentheses |
| `DataviewReadings.FieldsRead` | src/agent_system/core/dataview.py:341-450 | dotted names are joined, aliases kept, DISTINCT and ALL ignored |
| `DataviewReadings.AggregatesRead` | src/agent_system/core/dataview.py:371-440 | `COUNT(*)` and aggregates of fields; a list of nothing else is aggregate-only |
| `DataviewReadings.FilterReads` | src/agent_system/core/dataview.py:371-440 | an aggregate with FILTER; the alias after it replaces the one before; a mixed list is not aggregate-only |
| `DataviewParser.Parser.constructor` | src/agent_system/core/dataview.py:308-310 | starts at the first token |
| `DataviewParser.Parser.Peek` | src/agent_system/core/dataview.py:312-313 | the token at an offset, or the final EOF beyond the end |
| `DataviewParser.Parser.Advance` | src/agent_system/core/dataview.py:315-319 | returns the current token and moves past it unless it is EOF |
| `DataviewParser.Parser.Consume` | src/agent_system/core/dataview.py:321-329 | moves past an expected token or fails where it stands |
| `DataviewParser.Parser.ConsumeIdent` | src/agent_system/core/dataview.py:321-329 | moves past an identifier or fails |
| `DataviewParser.Parser.ParseFieldRef` | src/agent_system/core/dataview.py:442-450 | reads a dotted name exactly as the grammar does |
| `DataviewParser.Parser.ParseAliasOpt` | src/agent_system/core/dataview.py:389-396 | reads an optional AS name |
| `DataviewParser.Parser.ParseValueLiteral` | src/agent_system/core/dataview.py:505-526 | reads a literal; the words true, false and null in any case are values |
| `DataviewParser.Parser.ParseNodeRef` | src/agent_system/core/dataview.py:484-503 | reads the node a STEPS clause starts from |
| `DataviewParser.Parser.ParseStepsClause` | src/agent_system/core/dataview.py:484-503 | reads STEPS FROM with its optional count, 1 when missing |
| `DataviewParser.Parser.AtSteps` | src/agent_system/core/dataview.py:457-462 | the look-ahead that tells a STEPS clause from a comparison |
| `DataviewParser.Parser.ParseCondition` | src/agent_system/core/dataview.py:457-482 | reads a comparison, an IN sub-query or a STEPS clause as the grammar does |
| `DataviewParser.Parser.ParseAggArg` | src/agent_system/core/dataview.py:399-418 | reads an aggregate's argument; the star is for COUNT only |
| `DataviewParser.Parser.ParseAggExpr` | src/agent_system/core/dataview.py:399-440 | reads an aggregate with alias and FILTER in either order |
| `DataviewParser.Parser.ParseFilterOpt` | src/agent_system/core/dataview.py:422-440 | reads an optional FILTER and the alias that may follow |
| `DataviewParser.Parser.ParseGuardClause` | src/agent_system/core/dataview.py:422-440 | reads the parenthesised WHERE of a FILTER |
| `DataviewParser.Parser.ParseSelectExpr` | src/agent_system/core/dataview.py:378-397 | reads one select expression |
| `DataviewParser.Parser.ParseSelectExprs` | src/agent_system/core/dataview.py:371-376 | reads the comma-separated select list |
| `DataviewParser.Parser.ParseOrderOpt` | src/agent_system/core/dataview.py:528-537 | reads an optional ORDER BY; neither ASC nor DESC means ascending |
| `DataviewParser.Parser.ParseLimitOpt` | src/agent_system/core/dataview.py:357-361 | reads an optional LIMIT with its number |
| `DataviewParser.Parser.SkipNoise` | src/agent_system/core/dataview.py:341-345 | skips DISTINCT and ALL |
| `DataviewParser.Parser.ParseWhereOpt` | src/agent_system/core/dataview.py:349-353 | reads an optional WHERE |
| `DataviewParser.Parser.ParseSelectStmt` | src/agent_system/core/dataview.py:341-369 | reads a whole SELECT, at the top or as a sub-query, exactly as the grammar does |
| `DataviewParser.Parser.ParseStatement` | src/agent_system/core/dataview.py:331-339 | reads one statement, an optional semicolon and nothing else, for every token list |
| `DataviewExecutor.StepsMatch` | src/agent_system/core/dataview.py:637-653 | a node matches STEPS if and only if it lies in the ball around the start |
| `DataviewExecutor.NodeMatches` | src/agent_system/core/dataview.py:623-654 | the truth of a condition on a node, or the sub-query's error |
| `DataviewExecutor.CollectValues` | src/agent_system/core/dataview.py:627-635 | the values a sub-query offers to IN |
| `DataviewExecutor.FilterNodes` | src/agent_system/core/dataview.py:718-721 | the nodes that satisfy a condition, in order, or the first error |
| `DataviewExecutor.CollectFloats` | src/agent_system/core/dataview.py:800-808 | the numbers an aggregate works on |
| `DataviewExecutor.ComputeAgg` | src/agent_system/core/dataview.py:785-821 | the aggregate of the nodes its FILTER keeps |
| `DataviewExecutor.BuildRow` | src/agent_system/core/dataview.py:737-747 | one output row |
| `DataviewExecutor.BuildRows` | src/agent_system/core/dataview.py:735-748 | one row for each candidate, in order |
| `DataviewExecutor.BuildSummaries` | src/agent_system/core/dataview.py:727-733 | the aggregations of an aggregate-only query |
| `DataviewExecutor.ExecuteQuery` | src/agent_system/core/dataview.py:705-782 | the executor returns exactly what the query denotes on the graph |
| `DataviewExecutor.NeighborsFillBall` | src/agent_system/core/dataview.py:637-653 | what `neighbors` reports, with the start, is the ball |
| `DataviewLaws.BallIsBoundedDistance` | src/agent_system/memory/graph.py:416-460 | the ball of radius n holds exactly the nodes at distance at most n |
| `DataviewLaws.MatchingIsFilter` | src/agent_system/core/dataview.py:718-721 | WHERE is a filter; a faulty condition raises as soon as there is a node to try |
| `DataviewLaws.CandidatesAreTheMatches` | src/agent_system/core/dataview.py:705-721 | the candidates are exactly the nodes of the type that satisfy the condition, each once |
| `DataviewValues.CompareMeans` | src/agent_system/core/dataview.py:657-680 | what each operator selects: by the numbers two values count as, or the first difference of two texts; values without an order satisfy `!=` alone |
| `DataviewLaws.ComparisonSelects` | src/agent_system/core/dataview.py:623-721 | `WHERE f op v` selects exactly the nodes of the type whose value of f stands in that relation to v |
| `DataviewLaws.StepsSelectsTheBall` | src/agent_system/core/dataview.py:637-653 | `WHERE n STEPS FROM x` selects the nodes of the type at undirected distance at most n from x |
| `DataviewLaws.StartIsSelected` | src/agent_system/core/dataview.py:637-653 | x is at distance 0 from itself |
| `DataviewLaws.InIsSemiJoin` | src/agent_system/core/dataview.py:627-636 | IN keeps exactly the nodes whose field equals a value of the sub-query's answer, computed once |
| `DataviewLaws.InOverAggregatesIsEmpty` | src/agent_system/core/dataview.py:627-636 | IN over an aggregate-only sub-query selects nothing |
| `DataviewLaws.FilterIsWhere` | src/agent_system/core/dataview.py:785-790 | an aggregate's FILTER is the query's WHERE, errors included |
| `DataviewLaws.EqualAndUnequalCountAll` | src/agent_system/core/dataview.py:657-680 | the counts for `f = v` and `f != v` add up to COUNT(*), missing values included |
| `DataviewLaws.LessOrAtLeast` | src/agent_system/core/dataview.py:657-680 | `<` or `>=` holds exactly when neither side is missing and the two can be ordered, and never both; likewise `<=` and `>` |
| `DataviewOrder.SortIsStable` | src/agent_system/core/dataview.py:750-758 | the sort orders rows and keeps ties in arrival order, ascending and descending |
| `DataviewOrder.SortingMeans` | src/agent_system/core/dataview.py:750-758 | in terms of values: smallest first with None last, or the other way round when descending, rows of equal value as they came |
| `DataviewOrder.StableSortIsUnique` | src/agent_system/core/dataview.py:750-758 | any two stable sorts of the same rows are equal |
| `DataviewOrder.RowsAreSortedPrefix` | src/agent_system/core/dataview.py:735-763 | for a column of one comparable type the answer is the LIMIT prefix of the projected candidates in the order of their values, equal ones as they came |
| `DataviewOrder.FieldIsShown` | src/agent_system/core/dataview.py:603-611 | a selected field is shown under its display name unless a later column reuses it |
| `DataviewOrder.OrderByHiddenNameDoesNothing` | src/agent_system/core/dataview.py:750-758 | ordering by a name that is no output column leaves the rows alone |
| `DataviewOrder.PrefixedOrderIsIgnored` | src/agent_system/core/dataview.py:603-758 | selecting and ordering by `content.x` does not order |
| `DataviewKeys.SortsByFieldExactly` | src/agent_system/core/dataview.py:599-758 | on every graph, the key ORDER BY f sorts a row by is its node's value of f if and only if the last column named f selects the field f |
| `DataviewKeys.OrdersByShownField` | src/agent_system/core/dataview.py:735-763 | then the answer is the LIMIT prefix of the stable sort by the candidates' own values of f |
| `DataviewKeys.PrefixedAnswerOutOfOrder` | src/agent_system/core/dataview.py:599-758 | selecting and ordering by `content.x` answers 2 before 1 on a graph of two tasks |
| `DataviewKeys.AggregateIsShown` | src/agent_system/core/dataview.py:735-747 | an aggregate in a row query is that of the row's own node |
| `DataviewMeanings.FieldsResolve` | src/agent_system/core/dataview.py:578-600 | what each field name gives: built in, prefixed, or content before metadata |
| `DataviewMeanings.NodeTypesAreNamed` | src/agent_system/core/dataview.py:683-702 | a FROM name means a type if and only if it is its name or plural, in any case |
| `DataviewMeanings.ColumnsAreNamed` | src/agent_system/core/dataview.py:603-620 | an alias, the field without its prefix, or the aggregate and its field |
| `DataviewMeanings.StepsStart` | src/agent_system/core/dataview.py:637-653 | STEPS FROM starts at the node named, or at the current one |
| `DataviewMeanings.FiltersPass` | src/agent_system/memory/graph.py:168-191 | what one filter of `find_nodes` lets through |
| `DataviewMeanings.ExtremesAreExtreme` | src/agent_system/core/dataview.py:785-821 | MIN and MAX are the smallest and largest number of the nodes, 0 if there is none |
| `DataviewMeanings.SumAddsUp` | src/agent_system/core/dataview.py:785-821 | SUM adds each node's number |
| `DataviewMeanings.AverageTimesCountIsSum` | src/agent_system/core/dataview.py:785-821 | AVG times the number of nodes with a number is SUM |
| `DataviewMeanings.CountCounts` | src/agent_system/core/dataview.py:785-821 | COUNT counts all nodes or those with the field; no other aggregate takes the star |
| `DataviewMeanings.SummariesShow` | src/agent_system/core/dataview.py:727-733 | each aggregate stands under its name, computed over the candidates |
| `DataviewMeanings.AnswerHolds` | src/agent_system/core/dataview.py:705-782 | summaries for aggregate-only queries and rows for others, under the column names in order |
| `DataviewRun.LexedIsEnded` | src/agent_system/core/dataview.py:208-209 | the token list ends in EOF and has no other |
| `DataviewRun.RunQuery` | src/agent_system/core/dataview.py:826-840 | lexing, parsing and executing a text gives its answer or the first stage's error |
| `DataviewRun.EveryTextIsAnswered` | src/agent_system/core/dataview.py:826-840 | every spelling and layout of a query is answered with what the query denotes |
| `DataviewRun.AnsweredExactlyWhenWritten` | src/agent_system/core/dataview.py:826-840 | a text gets past lexing and parsing if and only if it writes some query of the grammar |
| `RedisLock.CarefulStepKeepsInv` | src/agent_system/storage/redis_backend.py:58-106 | the lock invariant survives every command, call start and tick taken with care |
| `RedisLock.CarefulRunIsExclusive` | src/agent_system/storage/redis_backend.py:58-106 | over all interleavings in which the key stays put between GET and EXPIRE or DEL, no two holders have unexpired leases |
| `RedisLock.CarefulRunActsOnOwnKey` | src/agent_system/storage/redis_backend.py:84-106 | in such runs DEL and EXPIRE only touch the caller's own key |
| `RedisLock.OneCallEachOnlyExpiryMatters` | src/agent_system/storage/redis_backend.py:58-106 | when every holder has one call at a time, only expiry can break that care |
| `RedisLock.QuietRunIsExclusive` | src/agent_system/storage/redis_backend.py:58-106 | in a run where every holder has one call at a time and no key expires under a call past its GET, no two holders ever have unexpired leases |
| `RedisLock.UndisturbedCalls` | src/agent_system/storage/redis_backend.py:58-106 | a call with nothing in between takes, renews, frees or leaves the lock as it should, in every case |
| `RedisLock.CommandsActOnAnyKey` | src/agent_system/storage/redis_backend.py:58-106 | past its GET a call removes or prolongs whatever key is there; without one only the acquire reports success |
| `RedisLock.KeysExpireOnTime` | src/agent_system/storage/redis_backend.py:58-106 | a key goes exactly when its time has come |
| `RedisRaces.ArmedWithoutKeyIsUnsafe` | src/agent_system/storage/redis_backend.py:58-106 | if the key goes away under a call past its GET, some continuation gives two holders the lock |
| `RedisRaces.CareIsExact` | src/agent_system/storage/redis_backend.py:58-106 | a step keeps the invariant if and only if it is careful; a careless one has an unsafe continuation in which no time passes |
| `RedisRaces.LateHeartbeatRace` | src/agent_system/storage/redis_backend.py:94-106 | a heartbeat overtaken by expiry leaves two holders with unexpired leases |
| `ResourceLock.ResourceLock.constructor` | src/agent_system/concurrency/lock.py:51-54 | starts with no record |
| `ResourceLock.ResourceLock.Collect` | src/agent_system/concurrency/lock.py:56-61 | drops exactly the expired records |
| `ResourceLock.ResourceLock.TryAcquire` | src/agent_system/concurrency/lock.py:63-85 | refused exactly when another holder's record is unexpired at both readings; granted, the record runs until the last reading plus the ttl, 300 by default |
| `ResourceLock.ResourceLock.DoRelease` | src/agent_system/concurrency/lock.py:87-96 | frees the resource exactly for the holder on record |
| `ResourceLock.ResourceLock.DoHeartbeat` | src/agent_system/concurrency/lock.py:98-110 | prolongs exactly the caller's own record, expired ones included |
| `ResourceLock.ResourceLock.GetHolder` | src/agent_system/concurrency/lock.py:118-123 | the unexpired holder, if any |
| `ResourceLock.AcquireGrantsExactly` | src/agent_system/concurrency/lock.py:63-85 | who is granted the lock, until when, and what becomes of other resources |
| `ResourceLock.OwnersAloneSucceed` | src/agent_system/concurrency/lock.py:87-110 | release and heartbeat succeed exactly for the holder on record |
| `ResourceLock.FreedIsGranted` | src/agent_system/concurrency/lock.py:63-96 | a released or lapsed resource is granted to the next caller, who then has a lease |
| `ResourceLock.StepKeepsBacked` | src/agent_system/concurrency/lock.py:56-110 | every unexpired lease is backed by the record of its resource after every step |
| `ResourceLock.RunIsExclusive` | src/agent_system/concurrency/lock.py:56-110 | with no timing assumption, at most one holder per resource has an unexpired lease |
| `ResourceLock.DiligentHolderStays` | src/agent_system/concurrency/lock.py:63-110 | a holder whose renewals come faster than its ttl is never displaced unless it releases |
| `RateLimiter.RateLimiter.constructor` | src/agent_system/core/security_middleware.py:71-79 | the burst defaults to the rate when absent or 0 |
| `RateLimiter.RateLimiter.MaybeCleanup` | src/agent_system/core/security_middleware.py:88-99 | at most every 300 seconds, removes exactly the buckets idle for more than two windows |
| `RateLimiter.RateLimiter.DoCheck` | src/agent_system/core/security_middleware.py:101-109 | the state and answer of a check, refill and clean-up included |
| `RateLimiter.RateLimiter.Reset` | src/agent_system/core/security_middleware.py:111-115 | forgets one ip or all |
| `RateLimiter.CleanupIsUnobservable` | src/agent_system/core/security_middleware.py:88-109 | over every run, the answers equal those of a limiter that never deletes a bucket |
| `RateLimiter.AllowedExactlyWithToken` | src/agent_system/core/security_middleware.py:81-109 | a check is allowed if and only if its ip has a token, counted from its bucket at burst / window, clean-up or not |
| `RateLimiter.ServingSpends` | src/agent_system/core/security_middleware.py:101-109 | an allowed check lowers its own ip's level by one and no other's |
| `RateLimiter.AllowedIsPaidFor` | src/agent_system/core/security_middleware.py:81-109 | from any moment on, allowed checks are paid for by the tokens then and burst / window since |
| `RateLimiter.AtMostBurstPlusRefill` | src/agent_system/core/security_middleware.py:81-109 | in every run and interval [s, e] an ip gets at most burst + (e - s) * burst / window requests through |
| `RateLimiter.SpacedRequestsAreServed` | src/agent_system/core/security_middleware.py:81-109 | an ip whose requests come window / burst or more apart is never refused, whatever others do |
| `RateLimiter.NewcomersAreReady` | src/agent_system/core/security_middleware.py:101-109 | a new ip starts out with a token |
| `Recency.TouchTracksRecency` | src/agent_system/api/routes/github_webhook.py:55-69 | a bounded list that moves each used key to its end holds the n most recent distinct keys, in order |
| `Recency.LastNIsAmongLast` | src/agent_system/api/routes/github_webhook.py:55-69 | being among them means that fewer than n distinct keys were used since |
| `Recency.UsedSinceMeans` | src/agent_system/api/routes/github_webhook.py:55-69 | the keys used since are those used after the last use of the key |
| `ReplayCache.ReplayCache.constructor` | src/agent_system/api/routes/github_webhook.py:51-52 | starts empty |
| `ReplayCache.ReplayCache.IsReplay` | src/agent_system/api/routes/github_webhook.py:55-69 | True if and only if the id is among the 1000 most recently seen distinct ids, and the cache then holds exactly those, in recency order |
| `ReplayCache.ReplayCache.Find` | src/agent_system/api/routes/github_webhook.py:61-61 | the place of an id in the ordered cache |
| `LruCache.ThreadSafeLRU.constructor` | src/agent_system/core/cache.py:24-27 | starts empty |
| `LruCache.ThreadSafeLRU.MoveToEnd` | src/agent_system/core/cache.py:29-42 | the entry becomes the most recent, the others keep their order |
| `LruCache.ThreadSafeLRU.SetItem` | src/agent_system/core/cache.py:29-36 | the entry becomes the most recent and the oldest goes when the cache is over its size |
| `LruCache.ThreadSafeLRU.GetItem` | src/agent_system/core/cache.py:38-42 | the stored value, moved to the end, or a key error and no change |
| `LruCache.StepStaysSound` | src/agent_system/core/cache.py:29-69 | every lookup or store keeps the entries the function's own values and the size within its bound |
| `LruCache.MemoIsTransparent` | src/agent_system/core/cache.py:49-69 | under any interleaving of several callers, every value handed out is the function's |
| `LruCache.CallsHoldMostRecent` | src/agent_system/core/cache.py:49-69 | sequential calls leave exactly the most recent distinct keys |
| `LruCache.HitsAreRecentAndGrow` | src/agent_system/core/cache.py:49-69 | a call hits if and only if its key is that recent, so a larger cache hits whenever a smaller one does |
| `TaskStore.TaskRecord.constructor` | src/agent_system/storage/task_store.py:30-55 | a record with the given fields and version |
| `TaskStore.InMemoryTaskStore.constructor` | src/agent_system/storage/task_store.py:139-140 | starts empty |
| `TaskStore.InMemoryTaskStore.Save` | src/agent_system/storage/task_store.py:142-143 | stores or replaces a record |
| `TaskStore.InMemoryTaskStore.Delete` | src/agent_system/storage/task_store.py:161-165 | deletes if and only if the id is stored |
| `TaskStore.InMemoryTaskStore.UpdateFields` | src/agent_system/storage/task_store.py:167-190 | compare-and-swap on the version, written attribute by attribute, or the error and no change |
| `TaskStore.UpdatesMean` | src/agent_system/storage/task_store.py:167-190 | accepted exactly for an existing task, the current version and the nine settable fields; then exactly those change; each error exactly when |
| `TaskStore.InMemoryTaskStore.Complete` | src/agent_system/storage/task_store.py:192-205 | an update with the completion fields at the version the caller expects, and its answer |
| `TaskStore.InMemoryTaskStore.Fail` | src/agent_system/storage/task_store.py:207-220 | an update with the failure fields at the version the caller expects, and its answer |
| `TaskStore.CompletionsMean` | src/agent_system/storage/task_store.py:192-220 | completing sets status, output and time, failing sets status, error and time, and nothing else |
| `TaskStore.SqlTaskStore.constructor` | src/agent_system/storage/task_store.py:248-306 | starts with no rows, connected or with every call going to the fallback |
| `TaskStore.SqlTaskStore.UpdateWhere` | src/agent_system/storage/task_store.py:373-408 | one atomic UPDATE guarded by id and version |
| `TaskStore.SqlTaskStore.UpdateFields` | src/agent_system/storage/task_store.py:373-420 | the answer and the table: the statement fails if the driver refuses a value, and the conversion raises after a successful commit; without a connection, answer and records of the in-memory store |
| `TaskStore.SqlAnswersMean` | src/agent_system/storage/task_store.py:373-420 | which error the SQL store gives, exactly when |
| `TaskStore.DefaultsAreShown` | src/agent_system/storage/task_store.py:458-477 | a record read back shows defaults for empty columns and nothing else is changed |
| `TaskStore.StoresAgree` | src/agent_system/storage/task_store.py:167-420 | both stores end with the same table if and only if the driver takes the values of an update that is due; a success of one is then the raised conversion of the other; and exactly when their answers are the same |
| `TaskStore.HistoriesAgree` | src/agent_system/storage/task_store.py:142-420 | a history keeps both stores at the same table throughout if and only if the driver takes the values of every update that is due |
| `TaskStore.RepeatedUpdateConflicts` | src/agent_system/storage/task_store.py:373-420 | a client that repeats an update whose row could not be converted meets a conflict with its own change |
| `TaskStore.UpdateThroughHeldRecord` | src/agent_system/storage/task_store.py:145-190 | an update through a held record object passes over a change made in between |
| `TaskStore.SuccessesConsumeVersionsInOrder` | src/agent_system/storage/task_store.py:167-190 | over every interleaving, the k-th success consumed the initial version plus k, and the record is the successes applied in that order |
| `TaskSnapshots.NoLostUpdate` | src/agent_system/storage/task_store.py:142-190 | while every save of the id supersedes what was read before, an update that succeeds with the version of a record read earlier, kept by value, replaces exactly that record |
| `TaskSnapshots.SnapshotsAreSoundExactly` | src/agent_system/storage/task_store.py:142-190 | equal versions mean equal records in every continuation if and only if each save of the id carries a version above all read before it, or is that very record |
| `TaskSnapshots.SavedOnceIsSound` | src/agent_system/storage/task_store.py:142-190 | equal versions mean equal records while the id is not saved again |
| `TaskSnapshots.StaleSnapshotPasses` | src/agent_system/storage/task_store.py:142-190 | after any other save, some continuation accepts a snapshot of a record its client did not see |
| `TaskSnapshots.ResavingDefeatsVersions` | src/agent_system/storage/task_store.py:142-190 | re-using a deleted id lets a stale snapshot pass |
| `TaskStore.OtherAttributesNeverChange` | src/agent_system/storage/task_store.py:167-190 | id, agent, input, tenant and owner are out of reach of updates |
| `Quota.QuotaStore.constructor` | src/agent_system/core/quota.py:109-122 | starts with no usage |
| `Quota.QuotaStore.CheckReset` | src/agent_system/core/quota.py:124-131 | a new day clears all usage and keeps the running counts |
| `Quota.QuotaStore.UserSnapshot` | src/agent_system/core/quota.py:133-137 | the user's usage today, created when missing |
| `Quota.QuotaStore.DepartmentSnapshot` | src/agent_system/core/quota.py:139-143 | the department's usage today, created when missing |
| `Quota.QuotaStore.ChargeUser` | src/agent_system/core/quota.py:145-155 | adds a charge to the user |
| `Quota.QuotaStore.ChargeDepartment` | src/agent_system/core/quota.py:156-162 | adds a charge to the department, if there is one |
| `Quota.QuotaStore.RecordUsage` | src/agent_system/core/quota.py:145-168 | charges user, department and system alike |
| `Quota.QuotaStore.StartTask` | src/agent_system/core/quota.py:170-173 | one more running task for the user and the department |
| `Quota.QuotaStore.EndTask` | src/agent_system/core/quota.py:175-178 | one fewer, never below zero |
| `Quota.QuotaStore.LlmAvailable` | src/agent_system/core/quota.py:180-186 | the LLM bucket refilled to now |
| `Quota.QuotaStore.CheckQuota` | src/agent_system/core/quota.py:210-257 | the first failing check decides; usage is otherwise untouched, and an allowed call has refilled the LLM bucket |
| `Quota.DecisionsMean` | src/agent_system/core/quota.py:210-257 | allowed exactly when none of the eight bounds is exceeded; otherwise the first exceeded one queues, rejects or downgrades by its kind |
| `Quota.DefaultBounds` | src/agent_system/core/quota.py:45-257 | with the default limits: fewer than 5 tasks, 5.0 and a million tokens a day |
| `Quota.RecordAdds` | src/agent_system/core/quota.py:145-168 | what a record adds to its user, its department and the system, in each column, and to nobody else |
| `Quota.NewDayStartsAtNothing` | src/agent_system/core/quota.py:124-131 | a new day clears all usage and keeps the running tasks |
| `Quota.EndUndoesStart` | src/agent_system/core/quota.py:170-178 | ending a task undoes starting it, and no count goes below zero |
| `Quota.SystemIsSumOfUsers` | src/agent_system/core/quota.py:124-168 | over every history, day changes included, system usage is the sum over users |
| `Quota.AdmissionKeepsCaps` | src/agent_system/core/quota.py:210-257 | a task admitted and charged at no more than its estimate stays within every cap |
| `Quota.CapsHold` | src/agent_system/core/quota.py:124-257 | while tasks are admitted, started and charged in one go, no history exceeds a cost or concurrency cap |
| `QuotaCaps.EventKeepsCapsExactly` | src/agent_system/core/quota.py:124-257 | an event keeps every cap if and only if what it charges and starts fits what is left |
| `QuotaCaps.CapsHoldExactly` | src/agent_system/core/quota.py:124-257 | a history stays within every cost and concurrency cap throughout if and only if each event fits when it happens |
| `QuotaCaps.EventKeepsTokensExactly` | src/agent_system/core/quota.py:124-257 | an event keeps the token caps of users and the system if and only if its input tokens fit |
| `QuotaCaps.TokensHoldExactly` | src/agent_system/core/quota.py:124-257 | a history stays within these caps throughout if and only if each event's input tokens fit when it happens |
| `QuotaCaps.AdmissionFitsTokens` | src/agent_system/core/quota.py:210-257 | a task admitted and charged at no more than its estimate fits them |
| `QuotaCaps.DepartmentTokensAreNotEnforced` | src/agent_system/core/quota.py:233-245 | a request is allowed however far its department is over its daily tokens |
| `Quota.LateChargesOvershoot` | src/agent_system/core/quota.py:145-257 | two tasks allowed before either is charged cost twice the daily budget |
| `QuotaCaps.PendingChargesExactly` | src/agent_system/core/quota.py:145-168 | recording the charges of tasks allowed earlier keeps the caps if and only if recorded plus pending fits, for every user, every department and the system |
| `QuotaCaps.OrderOfChargesDoesNotMatter` | src/agent_system/core/quota.py:145-168 | in whatever order they arrive |
| `QuotaCaps.NoCapIsPassedOnTheWay` | src/agent_system/core/quota.py:145-168 | and then no cap is passed on the way either |
| `QuotaCaps.PendingStartsExactly` | src/agent_system/core/quota.py:170-173 | starting the tasks allowed earlier keeps the concurrency caps if and only if running plus pending fits |
| `Quota.OthersTasksDoNotMatter` | src/agent_system/core/quota.py:210-257 | the number of tasks running elsewhere never changes a decision |
| `QuotaCaps.EventKeepsSystemExactly` | src/agent_system/core/quota.py:170-257 | an event keeps the running tasks within the system limit if and only if it starts none or there is room |
| `QuotaCaps.SystemLimitHoldsExactly` | src/agent_system/core/quota.py:170-257 | the system limit holds throughout a history if and only if every task that starts finds room |
| `QuotaCaps.NobodyIsTurnedAway` | src/agent_system/core/quota.py:210-257 | at the default limits any number of users are admitted at once |
| `QuotaCaps.SystemLimitIsNotEnforced` | src/agent_system/core/quota.py:63-69 | so a task is allowed with any number of tasks running above the system limit |
| `Quota.WaitingQueues.constructor` | src/agent_system/core/quota.py:109-122 | starts with empty queues |
| `Quota.WaitingQueues.Enqueue` | src/agent_system/core/quota.py:282-308 | appends if and only if neither queue is full; counters stay the queue lengths |
| `Quota.WaitingQueues.Dequeue` | src/agent_system/core/quota.py:310-329 | pops the front of the user's and of the department's queue; counters stay the queue lengths |
| `Quota.WaitingQueues.NotifyNext` | src/agent_system/core/quota.py:331-335 | pops only when the queue asked about has a waiter |
| `QuotaQueues.EnterIsEnqueue` | src/agent_system/core/quota.py:293-308 | queues of tasks with identities have the times of `enqueue` behind them |
| `QuotaQueues.LeaveIsDequeue` | src/agent_system/core/quota.py:310-329 | and those of `dequeue` |
| `QuotaQueues.LeaveKeepsStep` | src/agent_system/core/quota.py:310-329 | a departure keeps every task in both of its queues or in neither if and only if the same task is first in both |
| `QuotaQueues.QueuesStayInStepExactly` | src/agent_system/core/quota.py:282-335 | the queues stay in step throughout a history if and only if this holds at every departure |
| `StreamEvents.BracketsPair` | src/agent_system/core/llm_router.py:883-1071 | what bracketing means by position: one later end for each start, all its input in between |
| `StreamEvents.StreamDelta` | src/agent_system/core/llm_router.py:1035-1053 | the events of one partial tool call |
| `StreamEvents.StreamCalls` | src/agent_system/core/llm_router.py:1033-1053 | the events of one chunk's partial tool calls, in order |
| `StreamEvents.StreamChunk` | src/agent_system/core/llm_router.py:1027-1053 | the events of one chunk |
| `StreamEvents.StreamChunks` | src/agent_system/core/llm_router.py:1021-1053 | the events, open tools and usage after the loop |
| `StreamEvents.FlushTools` | src/agent_system/core/llm_router.py:1057-1060 | one end for each open tool, in the order they were registered |
| `StreamEvents.StreamOpenAIEvents` | src/agent_system/core/llm_router.py:982-1071 | the whole event stream, failing provider included |
| `StreamEvents.OpenAIDoneOnceLast` | src/agent_system/core/llm_router.py:982-1071 | every stream ends with exactly one done event, failing or not |
| `StreamEvents.DeltaBrackets` | src/agent_system/core/llm_router.py:1035-1053 | one delta leaves open exactly what it starts, unless it restarts an index |
| `StreamEvents.OpenAIBrackets` | src/agent_system/core/llm_router.py:982-1071 | on any stream that does not fail, without a chunk or with many, tools are properly bracketed if and only if no id is issued twice, arguments follow the start of their index, and no index is started twice |
| `StreamEvents.FailedOpenAIBrackets` | src/agent_system/core/llm_router.py:982-1071 | a failing stream is properly bracketed if and only if it started no tool |
| `StreamEvents.OpenAIErrorsExactly` | src/agent_system/core/llm_router.py:1019-1063 | a stream reports an error if and only if the provider fails or sends no chunk at all |
| `StreamEvents.OpenAIInputIsArguments` | src/agent_system/core/llm_router.py:982-1071 | the deltas of a tool join to the arguments the provider sent for it |
| `StreamEvents.StreamText` | src/agent_system/core/llm_router.py:1073-1100 | what the text-only wrapper yields |
| `StreamEvents.WrapperKeepsText` | src/agent_system/core/llm_router.py:1073-1100 | the wrapper yields every text piece and then the usage, once |
| `StreamEvents.OpenAITextPreserved` | src/agent_system/core/llm_router.py:982-1100 | the joined text is the provider's, also when it fails later |
| `StreamMeanings.OpenAIStarts` | src/agent_system/core/llm_router.py:982-1071 | exactly the tools the provider names are started, in order; a missing name is `?` |
| `StreamMeanings.OpenAINamesAgree` | src/agent_system/core/llm_router.py:982-1071 | input and end of a tool name it as its start did |
| `StreamMeanings.OpenAIYieldsAsItGoes` | src/agent_system/core/llm_router.py:982-1071 | what has been yielded does not depend on what comes later, and a chunk's text goes out first |
| `StreamMeanings.OpenAIUsage` | src/agent_system/core/llm_router.py:982-1071 | which usage the closing event carries |
| `AnthropicStream.StreamItem` | src/agent_system/core/llm_router.py:930-965 | the events of one typed event, and the two dictionaries it leaves |
| `AnthropicStream.StreamAnthropicEvents` | src/agent_system/core/llm_router.py:883-980 | the whole event stream, failing provider included |
| `AnthropicStream.AnthropicDoneOnceLast` | src/agent_system/core/llm_router.py:883-980 | every stream ends with exactly one done event, failing or not |
| `AnthropicStream.ItemBrackets` | src/agent_system/core/llm_router.py:930-965 | one typed event opens or closes exactly the id it names |
| `AnthropicStream.AnthropicBrackets` | src/agent_system/core/llm_router.py:883-980 | on any stream that does not fail, tools are properly bracketed if and only if no id is issued twice, input names open blocks, and each index is stopped before it is started again and at the end |
| `AnthropicStream.FailedAnthropicBrackets` | src/agent_system/core/llm_router.py:883-980 | the same condition decides it on a stream that fails: every block started by then must have been stopped |
| `AnthropicStream.AnthropicInputIsArguments` | src/agent_system/core/llm_router.py:883-980 | the deltas of a tool block join to the JSON the provider sent for it |
| `AnthropicStream.AnthropicTextPreserved` | src/agent_system/core/llm_router.py:883-1085 | the joined text is the provider's, also when it fails later |
| `StreamMeanings.AnthropicStarts` | src/agent_system/core/llm_router.py:883-980 | exactly the tool blocks the provider starts are started, in order |
| `StreamMeanings.AnthropicNamesAgree` | src/agent_system/core/llm_router.py:883-980 | input and end of a tool name it as its start did |
| `StreamMeanings.AnthropicYieldsAsItGoes` | src/agent_system/core/llm_router.py:883-980 | what has been yielded does not depend on what comes later; the closing event carries the final message's usage |
| `PromptFitting.TruncateMessages` | src/agent_system/core/llm_router.py:305-335 | keeps the newest messages only, as many as the specification says |
| `PromptFitting.TokensAreQuarters` | src/agent_system/core/llm_router.py:316-318 | four characters to a token, and at least one |
| `PromptFitting.MeasuresAddUp` | src/agent_system/core/llm_router.py:316-335 | a prompt is measured message by message, blocks by their JSON before the loop and by their number in it |
| `PromptFitting.FittingIsSentWhole` | src/agent_system/core/llm_router.py:320-328 | a prompt that fits is sent whole |
| `PromptFitting.LoopKeepsTheMost` | src/agent_system/core/llm_router.py:330-335 | the loop keeps the longest run of newest messages its own estimate accepts |
| `PromptFitting.SentFitsExactly` | src/agent_system/core/llm_router.py:305-335 | for all prompts: what is sent fits the window if and only if the system prompt does and no run of newest messages that the loop's estimate accepts is over the window |
| `PromptFitting.KeepsTheLongestFit` | src/agent_system/core/llm_router.py:305-335 | with text messages, what is kept is the longest run of newest messages that fits, and what is sent fits if and only if the system prompt does |
| `PromptFitting.OversizedIsSentWhole` | src/agent_system/core/llm_router.py:320-335 | an oversized prompt is sent whole exactly when the loop's estimate, which counts blocks, fits |
| `PromptFitting.TruncatedAndStillOver` | src/agent_system/core/llm_router.py:320-335 | a prompt truncated to one block that is still over the window |
| `PromptFitting.SystemAloneIsOver` | src/agent_system/core/llm_router.py:320-335 | a system prompt over the window is sent after every message is dropped |
| `PromptFitting.BlocksOverflow` | src/agent_system/core/llm_router.py:320-335 | one block of 400 characters passes a window of two tokens |
| `AuditQueue.BatchAuditLogger.constructor` | src/agent_system/core/audit_logger.py:245-252 | starts with nothing logged |
| `AuditQueue.BatchAuditLogger.LogEntry` | src/agent_system/core/audit_logger.py:265-292 | accepted entries are remembered and queued, or without an event loop written at once if the disk takes them; a full queue drops its oldest |
| `AuditQueue.BatchAuditLogger.SyncLogEntry` | src/agent_system/core/audit_logger.py:294-299 | written at once, past the queue, or refused by the disk and reported so |
| `AuditQueue.BatchAuditLogger.SyncWrite` | src/agent_system/core/audit_logger.py:301-309 | appends to the file of the entry's day if the disk takes it |
| `AuditQueue.BatchAuditLogger.TakeBatch` | src/agent_system/core/audit_logger.py:318-331 | takes the oldest entries, at most a batch |
| `AuditQueue.GroupByDay` | src/agent_system/core/audit_logger.py:336-339 | the days in order of first use and the entries of each |
| `AuditQueue.BatchAuditLogger.WriteBatch` | src/agent_system/core/audit_logger.py:333-356 | the days of a batch are written one after the other, up to the first that fails; the rest is lost and the count is 0 then |
| `AuditQueue.BatchAuditLogger.Flush` | src/agent_system/core/audit_logger.py:318-360 | one batch leaves the queue and is written, or lost from the first day that fails |
| `AuditQueue.GroupsAreTheBatch` | src/agent_system/core/audit_logger.py:333-349 | a batch written day by day without a failure gives the files of writing it entry by entry, and leaves nothing |
| `AuditQueue.WrittenFile` | src/agent_system/core/audit_logger.py:333-349 | a file gains exactly the batch's entries of its day, in order |
| `AuditRuns.EntriesAreConserved` | src/agent_system/core/audit_logger.py:265-360 | in every run, flushes overlapping day by day or not, each day's logged entries are the written, taken, queued, dropped and lost ones; the dropped are older than the queued; the queue keeps its bound |
| `AuditRuns.MemoryIsWhatWasAccepted` | src/agent_system/core/audit_logger.py:265-299 | the in-memory list is the accepted entries in logging order |
| `AuditRuns.StepOrder` | src/agent_system/core/audit_logger.py:265-360 | a step keeps every day in logging order if and only if it overtakes no pending entry of the same day |
| `AuditRuns.OrderIsKeptExactly` | src/agent_system/core/audit_logger.py:265-360 | files together with all that is pending stay in logging order throughout a run if and only if every step is orderly |
| `AuditRuns.FileIsSubsequence` | src/agent_system/core/audit_logger.py:265-360 | after an orderly run each day's file is an order-preserving subsequence of that day's logged entries |
| `AuditFiles.FilesKeepOrderExactly` | src/agent_system/core/audit_logger.py:265-360 | every day's file is in logging order throughout a run if and only if no write appends an entry older than one already in its file |
| `AuditFiles.WithoutBatchesAlwaysInOrder` | src/agent_system/core/audit_logger.py:318-331 | with a batch size of 0 or less nothing leaves the queue, and every file is in order |
| `AuditFiles.SettledFile` | src/agent_system/core/audit_logger.py:318-360 | draining the queue and writing batch by batch, oldest first, brings a day's file to what was written, taken and queued, in that order |
| `AuditFiles.OrderlyStepsExactly` | src/agent_system/core/audit_logger.py:265-360 | with a positive batch size, a step leaves every file in order in all orderly continuations if and only if it is orderly |
| `AuditFiles.OrderlyRunsExactly` | src/agent_system/core/audit_logger.py:265-360 | with a positive batch size, every step of a run is orderly if and only if from each of its points on every orderly continuation keeps every file in order |
| `AuditRuns.OneFlusherIsOrderly` | src/agent_system/core/audit_logger.py:318-360 | runs with one flush in flight and no synchronous entries are orderly |
| `AuditRuns.OverlappingFlushesReorder` | src/agent_system/core/audit_logger.py:311-360 | two overlapping flushes write two entries of a day in reverse |

## Left out

- `get_links_between`, `stats` and `age_buckets`: read-only filters and tallies.
- Reading and writing archive files, audit files and graph snapshots: a write is a flag for whether it succeeds.
- AuditQueue.BatchAuditLogger.WriteBatch: the append to one day's file happens whole or not at all; a partial append is not modelled.
- Purging, reading back and querying audit files, and `close`, which writes at most one batch.
- Sharing of node objects between the graph and its callers, and of snapshots between the quota store and its callers: both are values here.
- List and dictionary values inside node content: content values are text, numbers, booleans and null. NaN and the rounding of floating-point numbers: numbers are reals.
- DataviewText.MatchIsExact: digits are the ASCII ones, where the pattern also takes other Unicode digits.
- DataviewKeys.SortsByFieldExactly: decides the key and not whether an answer happens to be in order all the same; for select lists without an aggregate that can raise, since where a FILTER raises there are no rows to sort.
- Source positions on syntax-tree nodes, and the wording of error messages: a syntax error says how many tokens were left.
- White space around type names, `steps_executed` and `duration_ms`.
- DataviewOrder.RowsAreSortedPrefix: ORDER BY over a column of mixed types is whatever the host's sort does with the fallback key, a parameter of the environment.
- The `Query` builder: it joins clauses with AND, which the parser does not accept.
- `path`'s `max_depth` argument, which the code never reads.
- The Redis lock's switch to its in-memory fallback, negative ttl values, and several resources at once: keys of different resources do not interact.
- The Redis lock is a step relation on values and not a class, because its commands interleave.
- `RedisQuotaStore`, and the locks' `is_locked`, `stats` and `with_lock`.
- Memoising unhashable arguments, functions that raise, and `cache_clear`.
- TaskSnapshots.NoLostUpdate: for records kept by value; a record object kept by a client changes with the store, as `TaskStore.UpdateThroughHeldRecord` shows.
- TaskStore.SqlTaskStore.UpdateFields: one UPDATE is one atomic step, and the second read that words a conflict sees the same table.
- `list` and tenant filters of the task stores.
- TaskStore.SuccessesConsumeVersionsInOrder: for ids that are not saved again; `TaskSnapshots.ResavingDefeatsVersions` shows why.
- Quota.CapsHold: takes limits as fixed for the history; changing them is left out, as is the LLM token bucket, from which nothing ever takes a token.
- Prompts whose content is missing altogether or null; `None` tool names and ids are empty strings.
- Cache-token counts, durations and cost estimates in stream usage; the mock streams.
- Providers, HTTP and WebSocket serving, access control, secret scanning, the sandbox, telemetry and the command line.
