# The data-access engine, modelled and proved

The repository keeps its data in entities that a generated layer under `ent/` reads and writes:
tail servers with their mappings, clients and rules, tail clients, share files, exit rules. This
project models the algorithms that this layer decides by itself and proves what it is relied on
for.

* **Bulk creation** (`ShareFiles`, `MutatorChain`, `BulkSession`, `ChainTheorems`, `SaveTheorems`,
  `FormTheorems`, `SchemaHooks`).
  `ShareFileCreateBulk.Save` wraps one mutator per builder in that builder's hooks and lets each
  mutator call the next one from inside its own body. `MutatorChain` gives the meaning of such a
  run for arbitrary terminating hooks, with a trace of what happened; `BulkSession` is the same
  run on objects that are updated in place, proved equal to it step by step. The theorems are
  about whole runs: what is stored, how often, in which order hooks are entered and left, which
  builders are marked done at every exit, how the bulk form and the single form compare, and what
  the hook that the schema declares guarantees of stored rows.
* **Single operations** (`EntHooks`): `withHooks`, the interceptors, and the loops that compose them.
* **Hook registration** (`GoSlices`, `HookRegistry`): Go slices as array, length and capacity, shared
  between clients, and every interleaving of `Use`, `Hooks` and `Create`.
* **Eager loading** (`EagerLoad`, `JoinTheorems`, `ServerQuery`, `QueryTheorems`, `AuditQuery`): the
  in-memory hash join of `sqlAll` and its loaders, with parents updated in place, against the
  nested-loop join of the tables.
* **Query builders** (`QueryBuilders`, `Traversal`): clone independence on trees of builder objects
  with aliasing slices, and traversals through chained path closures that rebuild and extend
  selectors in place.
* **Updates** (`EdgeUpdate`, `ExitRulePorts`): what calls on an update builder leave behind, what is
  sent to the database, and what that makes of the children of a row or of a port column. Decoding a
  port is the identity exactly on the values of a port (`ExitRulePorts.ReadsAsStored`).

Foreign code enters through short contracts. A query returns the rows of its table that satisfy its
predicates, in an order that may be another for every question (`JoinTheorems.Honest`,
`Traversal.SortsOnly`); a batch is stored as a whole or fails (`MutatorChain.StoreAll`); neighbors are the relational image
(`Traversal.Source`); an update performs clears before adds (`EdgeUpdate.Apply`). Validators, default
functions, clocks, hooks, interceptors and the database's answers are parameters. A hook is a
function of everything that has happened so far, of the mutation's content and of the latest reply,
so that it may retry, swallow errors, answer by itself or put a new mutation in place of its own.

## Where the code does not do what one might expect

For each of these the exact condition under which the code does meet the expectation is proved, and
an input is given for which it does not.

* The bulk form checks the builder's own mutation but stores the one its hooks forwarded
  (`ent/sharefile_create.go:385-390`); the single form checks what it stores.
  `FormTheorems.FormsPartOverSubstitutes` compares the two for every builder and every stack of hooks
  that forward once and pass errors on: when exactly one of them stores, that they store the same if
  both do, and when they fail with the same error. `FormTheorems.SubstituteArrives` and
  `FormTheorems.UncheckedDraftIsStored` are instances.
* The bulk form ignores the error of `defaults` (`ent/sharefile_create.go:379`), the single form
  returns it; `FormTheorems.MissingDefaultPartsThem` says what the bulk then stores. Default functions
  and the schema's hook are installed together when the program starts
  (`ent/runtime/runtime.go:200-279`). A program that installs neither stores nothing in either form,
  the bulk panicking on the nil hook (`SchemaHooks.NilHookStoresNothing`). But a program that takes
  the exported `DefaultID` away after it has started stores rows without an id through the bulk form
  (`SchemaHooks.RowWithoutId`).
* The schema's hook looks only at mutations whose operation is to create, and a registered hook may
  call `SetOp`. A stored row whose block hashes do not count its blocks is exactly one made from a
  draft that no longer was to create when it came to that hook and does not count
  (`SchemaHooks.StoredBlocksCount`, for any registered hooks; `SchemaHooks.ArrivalDecidesCount` tells
  that draft before the call); `SchemaHooks.UncountedRowIsStored` is an instance.
* A limit on an edge query caps the children of all parents together: the lists are the join if and
  only if the parents have no more children than that among them (`JoinTheorems.LimitCapsAllParents`).
* Running a query with eager loading again narrows its edge queries to the ids of both runs
  (`JoinTheorems.SecondRunIsNarrowed`; an instance is `JoinTheorems.SecondRunLosesAChild`).
* Clearing an edge does not take back what was added before on the same builder
  (`EdgeUpdate.SavedIsAtOnce`; an instance is `EdgeUpdate.ClearedChildIsSaved`).
* Setting a port and then adding to it in one update leaves the result to the database. A run of
  updates reads back like a uint16 variable on every database if and only if its last update that sets
  the port does not also add to it (`ExitRulePorts.SafeRuns`). On SQLite, which the program uses
  (`internal/database/database.go:29`) and where the last assignment to a column wins, it also does if
  the port was the value set already (`ExitRulePorts.SafeRunsOnLastWins`); setting 80 and adding 1 to
  a port of 443 gives 444 (`ExitRulePorts.SetThenAddGoesWrong`).
* An offset without a limit is cut off after 2147483647 rows (`Traversal.OffsetAlone`; an instance is
  `Traversal.LastRowIsMissing`).
* `First` and `Only` leave their limit on the query, and `IDs` leaves the id column selected. A second
  call of `IDs` on one query therefore fails (`Traversal.IDsAgain`), and entities read through it after
  the first have only their id and, if an edge needs it, a foreign key (`EagerLoad.ColumnsSuffice`).

## Model

| member | source | states |
|---|---|---|
| ShareFiles.RoundTrip | ent/sharefile_create.go:283-359 | Decoding the row that create wrote, through any column list with unknown and repeated columns, fails nowhere and rebuilds the entity that create handed back, which is the one that the draft describes value by value, restricted to the list. |
| ShareFiles.CheckedRowIsComplete | ent/sharefile_create.go:190-258 | The row of a draft that passes the checks has no null column if and only if the draft has an id, which the checks do not ask for. |
| ShareFiles.SpecMatchesDraft | ent/sharefile_create.go:288-357 | Column by column the stored cell holds the draft's own value, the owner's and the share's ids in their foreign keys included, and is null where the draft has none; field by field the entity handed back holds the same values, and zero where there is none. |
| ShareFiles.CheckNamesTheFirst | ent/sharefile_create.go:190-258 | The checks pass if and only if every needed column has a value and its validator accepts it; otherwise they name the first column, in their order, of which that is not so. |
| ShareFiles.DefaultsFillIn | ent/sharefile_create.go:167-187 | Which values the defaults fill in and which they leave alone, for which field they fail first, and what is filled in already when they do. |
| ShareFiles.DecodeRow | ent/sharefile.go:83-183 | Holders made for a column list and filled by any row never cause a type error, whatever the columns; only a broken JSON cell can fail. |
| ShareFiles.ShareFile.AssignValues | ent/sharefile.go:104-183 | Assigning cells in place leaves in every field the last non-null cell of its column, and stops at the first cell that cannot be assigned. |
| ShareFiles.ShareFile.AssignValue | ent/sharefile.go:108-181 | One column changes the one field that it belongs to, and nothing if the cell is null. |
| ShareFiles.LastTextIs | ent/sharefile.go:109-138 | A text field keeps what it held if no cell brings anything, and otherwise has what the last cell of its column brings that is not null. |
| ShareFiles.LastStringsIs | ent/sharefile.go:164-171 | The same of the block hashes: a null or empty cell leaves them alone. |
| ShareFiles.SelectedIs | ent/sharefile.go:178-179 | A column that the entity does not know is kept as its last cell and no other column is kept. |
| ShareFiles.CellErrorIs | ent/sharefile.go:108-181 | A cell fails exactly if it is not in the holder made for its column or is not the JSON that it has to be, and the error names the column. |
| ChainTheorems.RunIsSound | ent/sharefile_create.go:376-418 | For any hooks: nothing is built that was not checked, and every batch stored consists of the specifications built last, one for each builder, in builder order. |
| ChainTheorems.RunUnwinds | ent/sharefile_create.go:376-418 | For relaying hooks: a run enters the hooks outermost first down to the batch and leaves them in exactly the reverse order, stores at most once, and marks a countdown of builders. |
| ChainTheorems.ConsultOnce | ent/sharefile_create.go:409-412 | A relaying hook that refuses leaves only its edit and its error; one that forwards calls the rest once, with its edit made, and what it does afterwards is one more edit and its own reply. |
| ChainTheorems.RetryStops | ent/sharefile_create.go:409-412 | A hook that tries again calls the rest of the chain up to the first success and at most as often as it may, and hands the last reply on. |
| SaveTheorems.StoresOnlyWhatWasBuilt | ent/sharefile_create.go:369-421 | For any hooks, every batch that Save hands to the database is complete, in order, and built from drafts whose builder passed its check before. |
| SaveTheorems.SaveIsAtomic | ent/sharefile_create.go:369-421 | With relaying hooks the batch is stored once or something stopped the way down, never both; marks form a countdown, need a stored batch, and are complete if Save succeeds; the turns nest. |
| SaveTheorems.StoresOnlyCheckedDrafts | ent/sharefile_create.go:385-400 | If hooks pass on the mutation they were given, every stored specification is that of a draft that passed the checks. |
| SaveTheorems.DoneBuildersAreASuffix | ent/sharefile_create.go:402-419 | With relaying hooks, whatever they forward, and builders that share no mutation: at every exit of Save the builders marked done form a suffix of the list; a non-empty one means the batch was stored; success means all. |
| SaveTheorems.ReturnsWhatWasBuilt | ent/sharefile_create.go:390-420 | For any hooks a bulk that succeeds returns, place by place, the entity of the draft last built there, and nil where a hook kept anything from being built. |
| SaveTheorems.ReturnsWhatWasStored | ent/sharefile_create.go:390-420 | With relaying hooks, for every place one draft gives both the specification that was stored and the entity that is returned. |
| SaveTheorems.DoneBuildersKnowTheirIds | ent/sharefile_create.go:402-407 | If hooks hand the reply on and builders share no mutation, at every exit the mutation of each builder that is done has the id of the entity made for it. |
| SaveTheorems.DefaultsAt | ent/sharefile_create.go:376-379 | Builders that share no mutation get their own defaults, each from its own calls of the default functions, whatever failed before, and no other mutation changes. |
| FormTheorems.BulkOfOneIsSingle | ent/sharefile_create.go:260-281 | A bulk of one builder and its single Save have the same trace, the same marks and the same result, when defaults succeed and hooks pass on their own mutation. |
| FormTheorems.FormsPartOverSubstitutes | ent/sharefile_create.go:385-390 | For one builder and relaying hooks: both forms fail with one error if a hook refuses or forwards another type; otherwise the bulk stores exactly if the builder's own draft passes the checks and the single form exactly if the forwarded one does; both store the same; and if neither does, the errors agree exactly if the checks say the same of both drafts. |
| FormTheorems.BothEnd | ent/sharefile_create.go:136-142 | How each form ends in terms of what arrives at the core, including the database's own error. |
| FormTheorems.RunIsOuter | ent/sharefile_create.go:409-412 | A run behind relaying hooks stores what its core stores and fails as its core fails, or stores nothing and fails as the hook that refused. |
| FormTheorems.SingleReturnsWhatItStored | ent/sharefile_create.go:260-281 | Behind hooks that hand the reply on, a single Save that succeeds has stored the specification of the draft to which the hooks lead, returns that draft's entity, and leaves the builder's mutation done and with the entity's id. |
| FormTheorems.RunIsCore | ent/ent.go:527-551 | Hooks that hand the reply on change nothing of how the core ends: not its reply, no mutation and no builder. |
| FormTheorems.SubstituteArrives | ent/sharefile_create.go:385-390 | Behind a hook that substitutes a draft, the bulk judges the builder's own draft and the single form the substitute. |
| FormTheorems.UncheckedDraftIsStored | ent/sharefile_create.go:385-390 | An instance: behind a substituting hook the bulk stores a draft that fails the checks. |
| FormTheorems.MissingDefaultPartsThem | ent/sharefile_create.go:137-142 | When a default function is missing the single form fails with an empty trace, while the bulk, behind any relaying hooks, stores what arrives at the core exactly if the builder's own draft passes the checks. |
| SchemaHooks.StoredBlocksCount | ent/schema/transfer_invariants.go:10-27 | Whatever hooks are registered through whichever clients before the builders are made: every specification that either Save hands to the database is that of the draft built last for its place, and its block hashes fail to count its blocks if and only if that draft was not to create and does not count; never if no hook touches operations. |
| SchemaHooks.ArrivalDecidesCount | ent/schema/transfer_invariants.go:10-27 | For one builder and relaying hooks, what either form stores is the specification of the draft to which the hooks lead, with the same equivalence. |
| SaveTheorems.SingleStoresOnlyWhatWasBuilt | ent/sharefile_create.go:260-281 | The single Save stores only what was checked and built last, for any hooks. |
| SchemaHooks.RunVets | ent/schema/transfer_invariants.go:10-27 | From every link, hooks that retry or swallow errors included: whatever a run builds is a draft that counts or was not to create when it passed the schema's hook. |
| SchemaHooks.BlockCountIs | ent/schema/transfer_invariants.go:261-270 | For a size from zero on, the least number of blocks that hold it; for a negative one, what division towards zero makes of it. |
| SchemaHooks.UncountedRowIsStored | ent/mutation.go:7570-7573 | An instance: behind a hook that calls SetOp both forms store a row whose block hashes do not count its blocks. |
| SchemaHooks.NilHookStoresNothing | ent/sharefile_create.go:409-411 | A bulk panics if and only if one of its builders has a nil hook; then, as in the single form, nothing was built, stored or marked. |
| SchemaHooks.SaveBulk | ent/sharefile_create.go:373-420 | The loops that set defaults and wrap mutators in their hooks panic at the first builder with a nil hook, after the defaults of the builders up to it, and otherwise run the chain from its first link. |
| SchemaHooks.RowWithoutId | ent/sharefile_create.go:378-379 | An instance: with the schema's hook in place and the default function for ids taken away, the bulk stores a row without an id and the single form refuses. |
| MutatorChain.Run | ent/sharefile_create.go:376-418 | The chain of nested mutators from one link on terminates, in builders left and hooks left, and never touches places before its own. |
| FormTheorems.RunAgrees | ent/sharefile_create.go:136-142 | Under the hooks of a single builder that pass on their own mutation both forms run alike, from every link of the chain on. |
| BulkSession.Session.Save | ent/sharefile_create.go:369-421 | On objects updated in place (nodes and specs arrays, mutations, done flags) Save does what the chain model says. |
| BulkSession.Session.Core | ent/sharefile_create.go:380-408 | The innermost mutator of a builder, including its call of the next builder's mutator, is the model's core. |
| BulkSession.Session.Mutate | ent/sharefile_create.go:409-412 | Calling the mutator wrapped in the remaining hooks is the model's run from that link. |
| EntHooks.WithHooks | ent/ent.go:520-551 | No hook: the operation alone. A nil hook anywhere: an error, and nothing has run. Otherwise f(g(h(exec))) with the result type checked. |
| EntHooks.ComposeAppend | ent/ent.go:536-541 | Hooks registered earlier wrap those registered later. |
| EntHooks.ExecSeesRewritten | ent/ent.go:527-535 | With hooks that rewrite and pass on, the operation finds the mutation rewritten by all of them, first one first, in its builder. |
| EntHooks.All | ent/ent.go:586-599 | Interceptors are never nil when they are composed, since preparing the query has refused that; the result is the composition on the traversed query. |
| EntHooks.Prepare | ent/tailserver_query.go:489-498 | The interceptor loop: traversers run in order up to the first that fails; a nil interceptor is an error. |
| EntHooks.TraversedAppend | ent/tailserver_query.go:489-498 | The traversals of a longer list are those of its first part and, unless one of these fails, then those of the rest. |
| EntHooks.InterceptedAppend | ent/ent.go:591-593 | Interceptors registered earlier wrap those registered later. |
| EntHooks.UntaggedIs | ent/ent.go:546-550 | What the operation answers comes out of the hooks' type as it went in; a value of another type comes out as an error. |
| GoSlices.Append | ent/client.go:1561 | append: same array and only the spare cells written if there is room, otherwise a fresh array and nothing written. |
| HookRegistry.Registry.Use | ent/client.go:1560-1562 | Appends to one entity's list; other entities and all lists handed out stay as they are. |
| HookRegistry.Registry.Hooks | ent/client.go:1689-1692 | Registered hooks followed by the schema's, without writing to any array that existed before, spare capacity included. |
| HookRegistry.SchemaHooksAre | ent/client.go:2264-2268 | Share files, transfer items and transfer jobs have the hook of their own schema, and no other entity has one. |
| HookRegistry.Registry.Create | ent/client.go:1571-1574 | The builder's list is what Hooks returned and is recorded as handed out. |
| HookRegistry.Client.Use | ent/client.go:264-272 | The hooks are appended to the list of every entity. |
| HookRegistry.TxOnce | ent/client.go:175-198 | A client inside a transaction starts no other; the client of a transaction and a debug client share the registry they came from, and a client made with the debug option is its own debug client. |
| HookRegistry.RunProgram | ent/client.go:1558-1574 | For every program of Use, Hooks, Create, Tx and Debug on shared registries, each builder's list still reads at the end as the hooks registered before it was created, in order, followed by the schema's. |
| HookRegistry.UncappedSnapshot | ent/client.go:1689-1692 | Without the third index a list handed out changes exactly when a later registration fits into the same spare capacity and begins with another hook. |
| EagerLoad.ColumnsSuffice | ent/tailserver_query.go:740-759 | Without a selection all columns of the table are read, in its order. For every selection with repeats, the id is read exactly once and first, the selected columns and a needed foreign key are read, and nothing else. |
| EagerLoad.SpecColumns | ent/tailserver_query.go:748-759 | The column part of querySpec ends with that column list: the table's columns without a selection, and otherwise the id, the fields selected and a needed foreign key. |
| EagerLoad.LoadMany | ent/tailserver_query.go:610-639 | A one-to-many load asks for all parent ids, initializes every list, and attaches exactly the part of the result before the first unexpected foreign key, in order, each to the last parent with its id. |
| EagerLoad.LoadOne | ent/auditevent_query.go:404-435 | A many-to-one load asks for each non-null key once in order of first occurrence, and for nothing without keys; all parents with one key share the last row that came for it, the others keep what they had. |
| EagerLoad.FirstOccurrencesOnce | ent/tailserver_query.go:581-592 | The list of keys asked for has no duplicates and holds exactly the keys that some parent holds. |
| EagerLoad.AttachOne | ent/tailserver_query.go:630-638 | One child goes to the parent that the map leads to and no other parent changes. |
| EagerLoad.AssignOne | ent/tailserver_query.go:598-607 | One row is given to all parents with its id as their key and to no other. |
| JoinTheorems.ListIsRefs | ent/tailserver_query.go:630-638 | A list satisfies the loader's specification if and only if it is the sequence found by searching all children for the key. |
| JoinTheorems.Conservation | ent/tailserver_query.go:630-638 | List lengths sum to the number of children attached, repeated parents or not, and each child is in the list of exactly one parent. |
| JoinTheorems.ListEdgeIsJoin | ent/tailclient_query.go:566-595 | Over tables that answer in any order, a list edge holds exactly the rows that the nested loop finds for its parent, in the order in which they came, under any projection that reads the foreign key, and no foreign key is unexpected. |
| JoinTheorems.OwnerEdgeIsLookup | ent/tailserver_query.go:581-609 | Over tables the owner edge is nil exactly if the key is nil or no row has it as id, and otherwise is such a row. |
| JoinTheorems.FirstRunIsNestedLoop | ent/tailserver_query.go:610-639 | With distinct parents and a fresh edge query every list is the nested loop's, up to order. |
| JoinTheorems.SecondRunIsNarrowed | ent/tailserver_query.go:623-625 | On a second run a parent has its full list if and only if the first run returned it too or there is nothing to list. |
| JoinTheorems.SecondRunLosesAChild | ent/tailserver_query.go:623-625 | An instance: a child that the first run would have listed is missing. |
| JoinTheorems.LimitCapsAllParents | ent/tailserver_query.go:623-626 | If the edge query has a limit, the lists are the nested loop's if and only if the parents have at most that many children among them. |
| JoinTheorems.WithoutForeignKey | ent/tailserver_query.go:620-622 | If the foreign key were not read, every child would be unexpected. |
| ServerQuery.SqlAll | ent/tailserver_query.go:514-579 | A failing or empty result leaves the edge queries alone; otherwise all edges asked for are loaded into freshly decoded parents, or the query fails at the first edge whose answer does not fit, with the database's own error or one about the first neighbor that no parent has, the later edges not having been asked. |
| ServerQuery.LoadEdges | ent/tailserver_query.go:543-577 | The five loads in order, with the questions each edge query ends up asking. |
| ServerQuery.DecodeNodes | ent/tailserver.go:135-152 | One fresh parent for each row, with the keys that the column list lets through and empty edges. |
| QueryTheorems.ListAccessorAgrees | ent/tailserver.go:79-111 | After a successful query a list accessor says "not loaded" exactly for edges not asked for and otherwise returns the joined list. |
| QueryTheorems.OwnerAccessorAgrees | ent/tailserver.go:68-75 | The owner accessor says "not loaded" exactly if not asked for, "not found" exactly if no row came back with the key, and otherwise returns the last one that did. |
| QueryTheorems.EagerLoadingIsJoin | ent/tailserver_query.go:514-579 | Whatever columns are selected on either side and whatever edges are asked for, a query over tables succeeds, every parent has its id, and every accessor says what the join of the tables says. |
| QueryTheorems.All | ent/tailserver_query.go:283-290 | The same as the contract of a whole query on objects, each accessor by its name tied to the edge query of that name. |
| AuditQuery.SqlAll | ent/auditevent_query.go:369-402 | Events are decoded with nullable users; with no event, or none that has a user, the user query is not asked; otherwise users are attached, or the query fails with its error or one about the first user that no event has. |
| AuditQuery.UserEdgeIsLookup | ent/auditevent.go:54-61 | The user accessor says "not loaded" exactly if not asked for, "not found" exactly if the event has no user or none with its key exists, and otherwise returns the user, whatever columns are selected. |
| QueryBuilders.Query.Clone | ent/tailserver_query.go:364-383 | A copy made of fresh objects only that says the same, sub-queries of any depth and path included. |
| QueryBuilders.Query.Do | ent/tailserver_query.go:42-70 | A call on a builder or on any sub-query below it does there what the call is about, fresh arrays for what outgrows its spare capacity included, and leaves everything else of the tree as it was. |
| QueryBuilders.CallAll | ent/tailserver_query.go:42-70 | After any calls, the limit, offset and uniqueness of the builder object are those given last, or as before if none was given; its predicates, order and selected fields are those before followed by all that were given, in order. |
| QueryBuilders.CallsSay | ent/tailserver_query.go:42-70 | The same of the builder's value. |
| QueryBuilders.PutIs | ent/tailserver_query.go:387-440 | Asking for an edge puts the sub-query in that edge's field and leaves the others as they were. |
| QueryBuilders.BlankIs | ent/tailserver_query.go:387-394 | The sub-query of a new edge has the client's interceptors and nothing else. |
| QueryBuilders.CalledAtIs | ent/tailserver_query.go:387-440 | A call on the sub-query of an edge changes that edge's field only, and there does what the call does. |
| QueryBuilders.CloneAndCall | ent/tailserver_query.go:362-383 | For any tree, any interleaving of calls at any depth on either copy and any spare capacity, each copy ends up as its own calls make of the original. |
| QueryBuilders.PathStays | ent/tailserver_query.go:379-381 | No call changes the path or the interceptors, so that copies keep sharing their path. |
| QueryBuilders.CallsCommute | ent/tailserver_query.go:387-440 | Calls on sub-queries whose paths part ways commute. |
| Traversal.Query.PrepareQuery | ent/tailserver_query.go:488-512 | Fails with the first error from the end of the path; otherwise the intermediate statement is built anew from all queries of the path, each with what it says, whatever was there before. |
| Traversal.Query.Follow | ent/tailserver_query.go:95-114 | The path closure: the statement of the query it was called on, embedded once, whose neighbors are selected. |
| Traversal.Query.SqlQuery | ent/tailserver_query.go:783-818 | Adds the query to the intermediate statement in place, or to a statement on its table. |
| Traversal.OnTopExtends | ent/tailserver_query.go:783-818 | What is added comes after what was there; the limit and the offset are replaced by those asked for, an offset alone bringing the limit 2147483647. |
| Traversal.Run | ent/tailserver_query.go:876-885 | The statement that a query runs has its own columns, predicates with those of its traversers, order, limit, offset and uniqueness, and selects from its table or from the neighbors of the statement of the query it was called on. |
| Traversal.RowsAreShown | ent/tailserver_query.go:783-818 | At every level of a path, limits and offsets included: the rows of the statement are those of the table, related and filtered as the queries say, sorted, dropped by the offset asked for and cut to the limit asked for, or to 2147483647 if only an offset was. |
| Traversal.OffsetAlone | ent/tailserver_query.go:804-808 | With an offset and no limit every row from the offset on is there if and only if these are at most 2147483647. |
| Traversal.IntersAppend | ent/tailserver_query.go:489-498 | Interceptors add what each of them adds, in order, as long as none stops the query, and what stops it is the first that does. |
| Traversal.FirstInvalidIs | ent/tailserver_query.go:499-503 | The field reported is the first that is no column, and there is one exactly if some field is none. |
| Traversal.RunTwice | ent/tailserver_query.go:488-512 | A second run succeeds where the first did and runs the same statement, but for predicates that traversers repeat. |
| Traversal.SameRows | ent/tailserver_query.go:798-800 | Statements that differ only in repeated predicates have the same rows. |
| Traversal.TraversalComposes | ent/tailserver_query.go:94-114 | A chain of queries denotes the composed relation, every level's predicates applied: each row that it reaches stands in the result as often as in its table, and no other row does. |
| Traversal.LastRowIsMissing | ent/tailserver_query.go:804-808 | An instance: a query with offset 0 and no limit returns one row less than its table has. |
| Traversal.Only | ent/tailserver_query.go:230-243 | Of the rows from the offset on, returns the row exactly if there is just one, whatever limit was set before, and leaves a limit of 2. |
| Traversal.First | ent/tailserver_query.go:184-193 | Returns the first of the rows from the offset on if there is one, whatever limit was set before, and leaves a limit of 1. |
| Traversal.IDs | ent/tailserver_query.go:302-311 | Returns the ids of the rows that the query shows, offset and limit included, if and only if nothing on the path fails and no column was selected before, and leaves the id column selected. |
| Traversal.IDsAgain | ent/tailserver_query.go:302-311 | A second call on the same query fails. |
| EdgeUpdate.SpecsMeanChanges | ent/tailclient_update.go:402-536 | Edge by edge, the new children are (none if cleared, else the old without the removed) with the added, in whatever order ids were listed. |
| EdgeUpdate.AppendEdge | ent/tailclient_update.go:402-446 | The three blocks for one edge extend the specs by what its change says and by nothing for other edges. |
| EdgeUpdate.AppendClear | ent/tailclient_update.go:415-430 | A spec to clear removes the listed ids; one without ids clears the edge, which is why an empty list must not become one. |
| EdgeUpdate.SqlSaveMany | ent/tailclient_update.go:345-547 | The many-row update changes every edge of every matched row as the change of that name says, or nothing on failure. |
| EdgeUpdate.SqlSaveOne | ent/tailclient_update.go:881-1103 | The single-row update has the same effect on edges; a missing id or invalid column fails before anything is written. |
| EdgeUpdate.FirstInvalidIs | ent/tailclient_update.go:894-897 | The column reported is the first that is invalid, and there is one exactly if some field is. |
| EdgeUpdate.EdgeChange.RemoveIDs | ent/mutation.go:8634-8642 | Removing takes ids out of the pending additions and into the removals. |
| EdgeUpdate.SavedIsAtOnce | ent/mutation.go:8613-8665 | What is saved equals the calls taken in sequence if and only if no id was added, then cleared over, and not mentioned again. |
| EdgeUpdate.ClearedChildIsSaved | ent/mutation.go:8613-8626 | An instance: a child is added, the edge is cleared, and the child is saved. |
| EdgeUpdate.StaleIs | ent/mutation.go:8623-8626 | Exactly the ids whose last mention adds them, with a clear later, survive that clear. |
| ExitRulePorts.SafeRuns | ent/exitrule_update.go:179-190 | A run of updates reads back like a uint16 variable on every database if and only if its last update that sets the port does not add to it afterwards. |
| ExitRulePorts.ColumnFollowsVariable | ent/exitrule_update.go:179-190 | On a database that adds to the value just set, every run reads back like the variable. |
| ExitRulePorts.SafeRunsOnLastWins | ent/exitrule_update.go:179-190 | Where the last assignment wins, a run reads like the variable if and only if its last update that sets the port adds nothing afterwards or found the port at that value. |
| ExitRulePorts.SetThenAddOnSQLite | ent/exitrule_update.go:179-184 | The case of one update: setting and adding reads like the variable exactly if the port was that value before. |
| ExitRulePorts.PendingIs | ent/mutation.go:3100-3153 | A mutation holds the last call that was no addition and the wrapped sum of the additions after it; it asks for both exactly if that call set the value and additions follow. |
| ExitRulePorts.AdditionsWrapAround | ent/exitrule_update.go:182-184 | Additions spread over updates in any way make the port read the start plus their sum modulo 65536. |
| ExitRulePorts.AnyOrderAnyGrouping | ent/exitrule_update.go:182-184 | The same additions in any order and grouping end in columns that read the same. |
| ExitRulePorts.GroupingShowsInTheColumn | ent/mutation.go:3132-3138 | The columns themselves agree exactly if the two deltas do not wrap around in the mutation. |
| ExitRulePorts.CallAll | ent/exitrule_update.go:45-64 | The builder's setters leave in the mutation what the calls amount to. |

## Left out

- MutatorChain.Run: a hook may forward its own mutation or a new one, but not one that another builder holds; the `err` field of a bulk made by MapCreateBulk and the context passed along are not modelled; a hook that would call the next mutator without end is cut off after a number of tries of its own choosing.
- BulkSession.Session.Mutate: the array of mutators and the loop that wraps them are represented by the builder and the hook that a mutator stands for; that such a loop composes its hooks is proved for the single form.
- BulkSession.Session.Core: `mutation.id` pointing into the created node is not modelled, so a later write through that pointer is not either.
- SchemaHooks.StoredBlocksCount: additive changes of a mutation, which the schema's hook refuses, are not part of a draft; the size is taken to fit a 64-bit int.
- SchemaHooks.NilHookStoresNothing: nil hooks are modelled in the loops over the chain and not inside BulkSession.
- JoinTheorems.ListEdgeIsJoin: for edge queries without a limit; an offset on an edge query is not modelled.
- ShareFiles.RoundTrip: the JSON codec and the database's storing of text, numbers and times are assumed to be inverse to decoding; columns are numbered instead of named.
- EagerLoad.LoadMany: ids, keys and columns are numbers that are only compared; the entities that come back are values with their place in the result, since loaders do not write to them, and the loading of their own edges is not modelled.
- ServerQuery.SqlAll: the query hooks of the schema-change kind and the driver are not modelled; tail clients use the same loaders with other edges, and only their loaders are covered.
- QueryBuilders.Query.Clone: the `with` fields of a builder are a chain of cells so that one type covers every entity's query; interceptor lists are values, since no method of a query writes to one; cloning the intermediate selector is library code.
- Traversal.Query.PrepareQuery: a traverser may add predicates of its own, the same at every run, or refuse; other changes that it may make to the query are not modelled.
- Traversal.RunTwice: for the same traversers only.
- Traversal.Query.Follow: the inner statement is embedded as a value; that the library keeps a pointer to the inner selector is not modelled. DISTINCT does not change the rows of the model, where neighbors are already without repetition.
- Traversal.Only: decoding into entities is the subject of the eager-loading part and not repeated. With uniqueness switched off (`Unique(false)`) a join over a many-to-one edge could repeat rows in a database; here it does not.
- EdgeUpdate.SqlSaveOne: both builders repeat the same blocks in the source and share one method here; the refusal to attach a child that has another parent is a decision of the SQL library.
- ExitRulePorts.SafeRuns: the 64-bit limit of the column is not modelled; end ports are the same code.
- Fields other than keys in eager-loaded parents: plain copies, and covered for share files by the decoder's round trip.
- Aggregations, GroupBy, Count, Exist, the panicking `...X` forms, SetNillable setters and the scan functions built on reflection: single branches or library behaviour.
- SQL text, drivers, transactions and constraint errors: foreign code behind the contracts above.
- Quotas, hashing, expiry and routing policy, and the hooks of transfer jobs and items: not part of the model.
