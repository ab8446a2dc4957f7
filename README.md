# Itinerary editor: a verified model

This project models the core of the itinerary editor of the quicktrails itinerary builder. The editor exists twice:
- the current editor, `components/ItineraryEditor.tsx`;
- an older copy, `components/ItineraryEditor_bkp.tsx`, which is called the backup editor here.

An itinerary owns an ordered list of day plans. Each day plan owns an ordered list of day items: an activity, a stay, or an item of another kind with free text. The editor works as follows:
- It loads this graph from a document store.
- It lets the user edit it in memory.
- It saves the graph with a diff-based reconciler. The reconciler compares the edited days with the snapshot taken at the last load or successful save, and issues only the writes that the differences need.
- It can also export a preview as a PDF. The export cuts the preview into page slices and names the file after the itinerary.

The model is written in Dafny in nine modules, one per file:

| file | module | what it holds |
|---|---|---|
| `common.dfy` | `Common` | `Option`, the `local-` id marker, JavaScript's `trim` |
| `graph.dfy` | `Graph` | the in-memory graph and the editor's pure edit operations |
| `loading.dfy` | `Loading` | `relIds`, `toIdArray` and the pure part of `fetchItineraryGraph` |
| `store.dfy` | `Store` | the document store the editor writes to |
| `diff.dfy` | `Diff` | the reconciler's pure decisions |
| `reconcile.dfy` | `Reconcile` | the reconciler itself, as imperative methods over the store |
| `editor.dfy` | `Editing` | the editor's state and both `save` handlers |
| `paging.dfy` | `PdfExport` | the page-slicing loop and the PDF file name |
| `outcome.dfy` | `SaveOutcome` | what the store holds after a completed save run |

Item references have a different shape in each editor:
- The current editor's items hold lists of activity and hotel ids.
- The backup editor's items hold a single id each.

The graph is therefore generic in the reference type `R`, with `none` as the empty reference (`[]` or `''`). One definition covers both editors. Where their reconcilers differ, a `Variant` (`Current` or `Backup`) selects the behaviour. The differences are:
- the backup editor writes and compares the day `date`;
- it gives created documents the parent itinerary's permissions;
- its `save` creates the itinerary in `New` mode;
- it never sends `bannerUrl`.

Optional strings of the source (`planId`, `title`, `summary`, `date`, `description`) are `string` with `""` for absent. Every read of them in the source normalises with `|| ''` or tests truthiness.

The store (`Store.DocumentStore`) is a class with three maps: day plans, day items and itineraries. It also holds:
- the set of ids it has handed out, none twice;
- a log of every write attempted, each with whether it succeeded.

Any write may fail, and a write to a missing document always fails. The reconciler's methods return a ghost trace whose flattening is exactly the suffix they appended to the log. So the order and content of the writes are part of each contract, and not only the final state.

The reconciler's purpose is to leave the store holding the edited graph. `SaveOutcome.SavedRunHolds` proves it for every completed run (every write succeeded) that has these three starting points:
- the store held the saved snapshot as the editor writes it (each plan document with the day's fields and item list, each item document with its payload);
- no item id is listed by two saved days;
- the edited days are as the editor's operations leave them: saved plan ids distinct, item ids distinct within a day, and every saved item still in the day it was saved in.

The store then holds the edited graph with the new ids written back and every day numbered by its position. The itinerary lists exactly those days, in order. The proof follows the run phase by phase: the deletes of removed plans, then each day (its write, the deletes of its removed items, its item writes, its item list), then the day list.

Two behaviours of the source are modelled exactly as written:
- The current editor's `save` returns at once while `editorIt.$id` is empty. The current editor never creates an itinerary, and it ignores its `mode` prop.
- A day that carries a plan id missing from the snapshot stops the run, where the source throws on `orig.dayNumber`.

The generic members serve both editors. In the table below, each one cites its lines in the current editor. The backup editor's copies of the same code are at these lines of `components/ItineraryEditor_bkp.tsx`:

| backup editor lines | member |
|---|---|
| 258-266 | Graph.AddDay |
| 267-274 | Graph.RemoveDay |
| 275-281 | Graph.UpdateDayField |
| 282-297 | Graph.AddItem |
| 298-304 | Graph.RemoveItem |
| 305-330 | Graph.UpdateItemField |
| 350-363 | Reconcile.DeleteRemovedPlans |
| 369-402 | Reconcile.WriteDayFields |
| 404-466 | Reconcile.WriteDayItems |
| 422-460 | Reconcile.WriteItem, Diff.ItemPayload |
| 462-466 | Reconcile.WriteItemList |
| 471-476 | Reconcile.WriteDayList |
| 333-479 | Editing.Editor.UpdateGraphPartial |
| 487-495 | Editing.SavePayload |
| 635-676 | PdfExport.SlicePages |
| 709 | PdfExport.PdfFileName |

## Model

| member | source | states |
|---|---|---|
| Common.LocalId | components/ItineraryEditor.tsx:531 | a new item's id carries the `local-` prefix followed by the UUID |
| Common.TrimEmptyIffBlank | components/ItineraryEditor.tsx:452 | `!title.trim()` holds exactly when every character of the title is ECMAScript whitespace |
| Graph.Renumber | components/ItineraryEditor.tsx:521 | every day keeps its content and gets its 1-based position as day number |
| Graph.AddDay | components/ItineraryEditor.tsx:550-558 | appends one unsaved, empty day numbered one past the end, keeps the earlier days, keeps positional numbering |
| Graph.RemoveDay | components/ItineraryEditor.tsx:517-524 | removes day `i` (nothing when `i` is past the end, as `splice` does), the rest keep their order and are renumbered by position |
| Graph.RemoveAddedDay | components/ItineraryEditor.tsx:517-558 | adding a day and then removing it gives back a positionally numbered list unchanged |
| Graph.UpdateDayField | components/ItineraryEditor.tsx:509-515 | replaces exactly the chosen field of the chosen day; every other day is unchanged |
| Graph.AddItem | components/ItineraryEditor.tsx:526-541 | appends to one day an Activity item with a local id and empty title, description and references; nothing else changes |
| Graph.WithoutId | components/ItineraryEditor.tsx:545 | the filter keeps exactly the items with another id, and keeps everything when no item has the id |
| Graph.RemoveItem | components/ItineraryEditor.tsx:542-548 | the day keeps exactly its items with another id; other days are unchanged |
| Graph.AddThenRemoveItem | components/ItineraryEditor.tsx:526-548 | adding an item and removing it by its fresh local id gives back the graph unchanged |
| Graph.FindItem | components/ItineraryEditor.tsx:564 | `findIndex`: the first index holding the id, or none exactly when no item has it |
| Graph.UpdateItemField | components/ItineraryEditor.tsx:560-585 | only the first item with the id changes and item ids are untouched; a kind change to Activity or Stay clears the other reference and the free text, any other kind clears both references; an unknown id changes nothing |
| Loading.CollectIds | components/ItineraryEditor.tsx:198 | `map(...).filter(Boolean)` yields no empty id and keeps every non-empty id of the elements |
| Loading.CollectIdsSingle | components/ItineraryEditor.tsx:198 | an element without an id contributes nothing, an element with one contributes exactly that id |
| Loading.CollectIdsAppend | components/ItineraryEditor.tsx:198 | `map(...).filter(Boolean)` works element by element, so it distributes over concatenation and keeps order |
| Loading.RelIds | components/ItineraryEditor.tsx:197-198 | non-empty ids only, and none at all for a value that is not an array |
| Loading.ToIdArray | components/ItineraryEditor.tsx:200-209 | falsy values, booleans, numbers and documents without `$id` give no id; a non-empty string or a document with `$id` gives exactly that id |
| Loading.ToIdArrayExtendsRelIds | components/ItineraryEditor.tsx:197-209 | both normalisers agree on arrays, and `relIds` gives ids only for arrays |
| Loading.SortPlans | components/ItineraryEditor.tsx:221 | the plans come out ordered by `dayNumber ?? 0` and are a permutation of the input |
| Loading.SortPlansStable | components/ItineraryEditor.tsx:221 | plans with the same day number keep the order the store listed them in |
| Loading.IndexById | components/ItineraryEditor.tsx:236-237 | every listed document is indexed, each entry is a listed document under its own id |
| Loading.PresentIds | components/ItineraryEditor.tsx:238 | only ids that have a document survive, and the whole list when all have one |
| Loading.PresentIdsSingle | components/ItineraryEditor.tsx:238 | an id without a document is dropped, an id with one is kept |
| Loading.PresentIdsAppend | components/ItineraryEditor.tsx:238 | the filter works id by id, so it distributes over concatenation and keeps the list's order |
| Loading.OrderByIds | components/ItineraryEditor.tsx:238 | one item per listed id that has a document, in the order of the plan's list |
| Loading.ItemsFollowPlanOrder | components/ItineraryEditor.tsx:224-238 | a day's items carry the ids of the plan's list that have documents, in list order, and exactly the list when all exist |
| Loading.ItemFromRecord | components/ItineraryEditor.tsx:254-261 | a loaded item keeps the document's id, type, title and description, and takes each reference from `toIdArray` of the field, or of the legacy single-id field when the field is null |
| Loading.DayFromRecord | components/ItineraryEditor.tsx:248-262 | a loaded day carries its plan's id and `dayNumber ?? 0`, no date, and its items' ids in the plan's order |
| Loading.PlansWithIds | components/ItineraryEditor.tsx:217-220 | the id query returns exactly the stored plans whose id is listed |
| Loading.LoadedPlans | components/ItineraryEditor.tsx:213-222 | no plans when the itinerary lists none, otherwise the queried plans as a day-sorted permutation |
| Loading.LoadedPlansAreListed | components/ItineraryEditor.tsx:213-222 | a plan is loaded exactly when it is stored and its id is listed on the itinerary |
| Loading.FetchDays | components/ItineraryEditor.tsx:211-262 | one day per loaded plan, in day-number order, with the plan's fields, no date and the items of its list that exist |
| Diff.PlanIds | components/ItineraryEditor.tsx:308 | the non-empty plan ids of the days, each day's id present |
| Diff.PlanIdsAllSaved | components/ItineraryEditor.tsx:441-442 | with every day saved, the plan ids are the days' ids position by position |
| Diff.Distinct | components/ItineraryEditor.tsx:302-305 | the keys of the object filled from the ids are exactly the ids |
| Diff.DistinctNoDup | components/ItineraryEditor.tsx:309 | `Object.keys` lists each key once |
| Diff.Without | components/ItineraryEditor.tsx:309 | the filter keeps exactly the ids not in the other list |
| Diff.NonLocal | components/ItineraryEditor.tsx:379 | the filter keeps exactly the ids without the `local-` prefix |
| Diff.DeletedPlanIds | components/ItineraryEditor.tsx:302-309 | a plan is deleted exactly when the snapshot has it and the edited days do not |
| Diff.DeletedPlanIdsNoDup | components/ItineraryEditor.tsx:309-327 | no removed plan is deleted twice |
| Diff.DayMap | components/ItineraryEditor.tsx:302-305 | the snapshot's days indexed by exactly their non-empty plan ids, each entry a day with that id |
| Diff.DayMapFinds | components/ItineraryEditor.tsx:353 | with distinct plan ids, looking up a day's id finds that day |
| Diff.ItemMap | components/ItineraryEditor.tsx:371-372 | a day's saved items indexed by exactly their ids |
| Diff.ItemMapFinds | components/ItineraryEditor.tsx:410 | with distinct item ids, looking up an item's id finds that item |
| Diff.StaleItemIds | components/ItineraryEditor.tsx:376-379 | an item is deleted exactly when it was saved on the day, is gone from the edited day, and has no local id |
| Diff.StaleItemIdsNoDup | components/ItineraryEditor.tsx:376-384 | no removed item is deleted twice |
| Diff.DayFields | components/ItineraryEditor.tsx:342-347 | a day write carries its position plus one as `dayNumber`, its title and summary, and the date only in the backup editor |
| Diff.DateComparedOnlyInBackup | components/ItineraryEditor_bkp.tsx:388-401 | a day edited only in its date is updated by the backup editor exactly when the date changed, and never by the current editor, whose write ignores the date |
| Diff.ItemPayload | components/ItineraryEditor.tsx:396-402 | an item write carries only its own kind's reference and free text only for other kinds, and is the item itself when the item is well formed |
| Diff.KindSwitchPayloadFaithful | components/ItineraryEditor.tsx:419-425 | after any kind change in the form, the item written is exactly the item the form shows |
| Diff.InheritedPerms | components/ItineraryEditor_bkp.tsx:344-347 | the parent's permissions when it has some, otherwise the read, update and delete triple for users |
| Diff.CreatePerms | components/ItineraryEditor_bkp.tsx:383-436 | every document the backup editor creates gets the inherited permissions; the current editor's get the users triple |
| Diff.NothingDeletedAgainstSelf | components/ItineraryEditor.tsx:309 | a graph compared with itself has no plan to delete |
| Diff.NoDayChangeAgainstSelf | components/ItineraryEditor.tsx:353-358 | a settled day compared with itself is found in the snapshot and needs no update |
| Diff.NoStaleItemsAgainstSelf | components/ItineraryEditor.tsx:376 | a day compared with itself has no item to delete |
| Diff.NoItemChangeAgainstSelf | components/ItineraryEditor.tsx:410-417 | an item with a distinct id compared with itself needs no update |
| Reconcile.NonEmptyIds | components/ItineraryEditor.tsx:317-319 | a stored item list's ids without the empty ones |
| Reconcile.DeleteItems | components/ItineraryEditor.tsx:320-324 | one delete per id, in order; a failure is ignored; a successful delete removes the item and nothing else changes |
| Reconcile.DeleteRemovedPlan | components/ItineraryEditor.tsx:315-326 | a readable removed plan has its listed items deleted and then itself; an unreadable one is skipped |
| Reconcile.DeleteRemovedPlans | components/ItineraryEditor.tsx:314-327 | every removed plan handled in order, with the store only losing documents |
| Reconcile.NoOpItemsAgainstSelf | components/ItineraryEditor.tsx:370-427 | an unchanged settled day's items need no delete and no write |
| Reconcile.WriteItem | components/ItineraryEditor.tsx:389-428 | a local item is created under a fresh id and gets that id written back; any other item is updated exactly when it differs from its saved version, and its id is kept |
| Reconcile.WriteItems | components/ItineraryEditor.tsx:388-429 | the items written in order; on success the persisted ids are the items' new ids; an unchanged day writes nothing |
| Reconcile.WriteDayFields | components/ItineraryEditor.tsx:336-367 | a new day is created at its position; a saved day is updated exactly when a compared field differs; a plan id missing from the snapshot ends the run |
| Reconcile.WriteDayItems | components/ItineraryEditor.tsx:369-435 | removed items deleted, items written, then the item list written when the day is new or its ordered ids changed |
| Reconcile.WriteItemList | components/ItineraryEditor.tsx:431-435 | the plan's item list is written exactly when every item was saved and the day is new or its ids changed |
| Reconcile.WriteDay | components/ItineraryEditor.tsx:332-437 | one day's writes in order with its new ids written back; an unchanged settled day writes nothing |
| Reconcile.DayIdsSaved | components/ItineraryEditor.tsx:350-406 | a completed day has a plan id and no local item id left |
| Reconcile.WriteDays | components/ItineraryEditor.tsx:331-438 | every day written at its position until a write fails; on success the collected ids are the days' plan ids, none new, and only ids changed |
| Reconcile.NoOpDaysAgainstSelf | components/ItineraryEditor.tsx:331-438 | a settled graph compared with itself needs no day write |
| Reconcile.ReadPerms | components/ItineraryEditor_bkp.tsx:343-347 | the current editor uses the users triple; the backup editor uses the parent itinerary's permissions, and starts no run when the parent cannot be read |
| Reconcile.WriteDayList | components/ItineraryEditor.tsx:440-445 | the itinerary's day list is written exactly when the day loop completed and its ids differ from the snapshot's |
| Reconcile.DeleteAndWrite | components/ItineraryEditor.tsx:313-438 | deletions, then the day loop; nothing at all against the settled snapshot itself |
| Reconcile.RunStarted | components/ItineraryEditor.tsx:301-445 | a whole run: deletions, days and day list as specified, and no write and no store change when nothing was edited; what a completed run leaves in the store is `SaveOutcome.SavedRunHolds` |
| SaveOutcome.ItemStep | components/ItineraryEditor.tsx:389-428 | after one item's writes that item is held with its payload, the items before it stay held, a new item got an id never issued before, and only its own document was written |
| SaveOutcome.ItemsPhase | components/ItineraryEditor.tsx:388-429 | after a day's item writes every item of the day is held with its payload, and each new item got a fresh id |
| SaveOutcome.ItemWritesOwn | components/ItineraryEditor.tsx:388-429 | a day's item writes touch only the documents of that day's items |
| SaveOutcome.HeadPhase | components/ItineraryEditor.tsx:336-367 | after the day write the plan holds the day's fields with `dayNumber` its position plus one and still its saved item list; a new day got a fresh id; only that plan was written |
| SaveOutcome.KeptItems | components/ItineraryEditor.tsx:378-384 | writes that touch no item of the day, such as the deletes of its removed items, leave each of its saved items issued, and held as saved when the edit left it unchanged |
| SaveOutcome.DayFront | components/ItineraryEditor.tsx:332-384 | after the day write and the item deletes, the plan holds the day's fields and its saved item list, and every unchanged saved item is still held |
| SaveOutcome.ListPhase | components/ItineraryEditor.tsx:431-435 | after the item list write the plan lists exactly the day's item ids in order, with nothing else changed |
| SaveOutcome.DayResult | components/ItineraryEditor.tsx:332-437 | after all of one day's writes the store holds that day at its position with its new ids; its new ids were fresh; only the day's own documents were written |
| SaveOutcome.PlanApart | components/ItineraryEditor.tsx:331-438 | one day's writes never touch the plan of another day |
| SaveOutcome.ItemApart | components/ItineraryEditor.tsx:331-438 | one day's writes never touch an item of another day |
| SaveOutcome.DayStep | components/ItineraryEditor.tsx:331-438 | one more pass of the day loop: the days so far stay held, the day written is held, the later days' saved documents and the itinerary are untouched |
| SaveOutcome.DaysPhase | components/ItineraryEditor.tsx:331-438 | after the first n days of the loop, each of them is held at its position and every later day's saved documents are untouched |
| SaveOutcome.DeletionMiss | components/ItineraryEditor.tsx:314-327 | the deletes for a removed plan touch only that plan and the items it lists |
| SaveOutcome.DeletionsPhase | components/ItineraryEditor.tsx:313-327 | the deletes of removed plans leave every edited day's saved documents and the itinerary as saved |
| SaveOutcome.FinalPhase | components/ItineraryEditor.tsx:440-445 | after the day list write the itinerary lists exactly the days' plan ids in order, and every day stays held |
| SaveOutcome.SavedRunHolds | components/ItineraryEditor.tsx:301-445 | a completed run from a store holding the saved graph leaves the store holding the edited graph: the itinerary lists its days in order, each plan has its fields, position and item ids, each item its payload |
| Editing.RunGraph | components/ItineraryEditor_bkp.tsx:333-476 | a run in either editor: permissions as the variant says, no write when the parent cannot be read, otherwise a run as above |
| Editing.Editor.constructor | components/ItineraryEditor.tsx:264-277 | a freshly loaded editor's snapshot is its graph |
| Editing.Editor.UpdateGraphPartial | components/ItineraryEditor.tsx:301-448 | the run on the editor's days; new ids are written back onto the edited days, and only a completed run replaces the snapshot |
| Editing.SavePayload | components/ItineraryEditor.tsx:457-466 | the header write is the form, with `bannerUrl` always sent (empty when unset) by the current editor and never by the backup editor |
| Editing.StoredHeaderAfterSave | components/ItineraryEditor_bkp.tsx:487-495 | a current save overwrites the stored banner (with `''` when the form has none); a backup save keeps it |
| Editing.WriteHeader | components/ItineraryEditor_bkp.tsx:497-502 | `New` creates an itinerary and goes on with the new id; `Edit` updates the route's itinerary |
| Editing.NewSaveInheritsCreatorPerms | components/ItineraryEditor_bkp.tsx:497-504 | a `New` backup save gives every document it creates the new itinerary's permissions |
| Editing.Editor.SaveCurrent | components/ItineraryEditor.tsx:450-477 | nothing happens while saving, before a load or with a blank title; otherwise the header is written and, only if that succeeds, the graph is reconciled; `saving` ends as it began |
| Editing.Editor.SaveBackup | components/ItineraryEditor_bkp.tsx:481-513 | a blank title does nothing; otherwise the header is created or updated by mode and, only if that succeeds, the graph is reconciled against the written itinerary; `saving` ends false |
| PdfExport.PushSlice | components/ItineraryEditor.tsx:678-682 | a slice never starts above the top, starts at `start` when that is not negative, and captures the height plus 20, at least 21 pixels |
| PdfExport.Flush | components/ItineraryEditor.tsx:683-686 | a page is pushed only when it holds content, and the next page starts where asked |
| PdfExport.FlushOnlyNonEmpty | components/ItineraryEditor.tsx:684 | an empty page pushes nothing |
| PdfExport.SlicePages | components/ItineraryEditor.tsx:674-715 | the slicing loop computes exactly the block-by-block fold `Paginate` |
| PdfExport.CutTallBlock | components/ItineraryEditor.tsx:696-703 | the inner loop pushes exactly the page-sized chunks of the block and ends the page at its bottom |
| PdfExport.ChunksCover | components/ItineraryEditor.tsx:696-702 | the chunks of a block are consecutive, at most a page each, and cover it exactly from top to bottom |
| PdfExport.TallBlockCut | components/ItineraryEditor.tsx:692-704 | after a block taller than a page, the pending page is flushed, the chunks cover the block and the next page starts at its bottom |
| PdfExport.PaginateValid | components/ItineraryEditor.tsx:674-715 | every slice starts at or below the top and captures at least 21 pixels |
| PdfExport.OverfullPageAtPageBottom | components/ItineraryEditor.tsx:707-710 | as written, a 100-pixel page can yield a slice of 140 pixels of content |
| PdfExport.PagesFitAtBlockTop | components/ItineraryEditor.tsx:707-710 | restarting the page at the block's top, as the code comment says, keeps every slice within a page plus the margin |
| PdfExport.StripForbidden | components/ItineraryEditor.tsx:748 | the result is no longer than the title and holds none of the characters the file name may not hold |
| PdfExport.StripSingle | components/ItineraryEditor.tsx:748 | a forbidden character is deleted, any other character kept |
| PdfExport.StripKeepsAllowed | components/ItineraryEditor.tsx:748 | every allowed character survives, and a clean title is unchanged |
| PdfExport.StripAppend | components/ItineraryEditor.tsx:748 | the global replace works character by character, so it distributes over concatenation |
| PdfExport.StripIdempotent | components/ItineraryEditor.tsx:748 | stripping twice is stripping once |
| PdfExport.PdfFileName | components/ItineraryEditor.tsx:748 | the name ends in `.pdf`, holds no forbidden character before it, is `itinerary.pdf` for an empty title and the stripped title otherwise |

## Left out

- The store is an abstract model: the Appwrite SDK, the network, its errors and its query limits (200 plans, 500 items per query) are not modelled, and the listed collections are parameters of `Loading.FetchDays`.
- Loading the itinerary's own fields (`title || ''`, `bannerUrl || ''`, the settings templates used as fallbacks) and the later prefill of empty templates from the settings are not part of this model; `Editing.Editor.constructor` takes the form as loaded.
- `htmlToPlainText`, the reference lists (`loadRefs`), the banner search and all rendering, navigation (`router.push`) and effects are not part of this model.
- The PDF export's measuring is not modelled: the DOM, `getBoundingClientRect`, floating-point metrics, the page height in pixels and the sort of the blocks by top are replaced by the integer blocks given, in order; `html2canvas` and `jsPDF` are not modelled.
- PdfExport.SlicePages: requires a page height of at least one pixel; with zero the source's chunk loop would not end.
- Graph.UpdateDayField: requires an existing day index; the form only calls it for rendered days, and an index past the end, which would grow the array in JavaScript, is not modelled.
- Graph.AddItem, Graph.RemoveItem, Graph.UpdateItemField: require an existing day index, where the source would throw on `days[dayIdx].items`.
- `null` and `''` are one value: the current editor creates items with `null` title and description and the backup editor writes `null` references, while updates write `''`; every reader normalises both with `|| ''`.
- Object keys that look like array indices are ordered numerically by JavaScript; the model keeps insertion order for every key (store ids are not numeric).
- Concurrency: the asynchronous handlers are modelled as running one at a time, so a second click while the backup editor saves is not modelled, and neither is a run that interleaves with edits.
- Ids written back onto the edited graph are modelled as the days returned by the run, assigned to the editor at its end, rather than as in-place mutation of shared objects.
- The permissions the store gives the creator of an itinerary are a parameter of `Editing.Editor.SaveBackup`.
- SaveOutcome.SavedRunHolds: states the store's final contents only for a completed run that started from a store holding the saved snapshot as the editor writes it. After a failed write, what was written is stated by the run's trace (`Reconcile.WriteDays`: the days before the failure and the failing write), not as a statement about the documents the store holds.

## Findings

| source | as written | input that shows it | evidently intended | confidence | as-written member | corrected member |
|---|---|---|---|---|---|---|
| components/ItineraryEditor.tsx:707-710 | when a block that fits on a page does not fit on the current one, `flushPage` starts the next page at the previous page's bottom, so the gap above the block joins the new page | page height 100, blocks (top 0, bottom 10) and (top 95, bottom 150): the second slice spans 10 to 150, 140 pixels for a 100-pixel page | the next page starts at the block's top, as the comment on the line says, and no slice exceeds one page | not executed | PdfExport.OverfullPageAtPageBottom | PdfExport.PagesFitAtBlockTop |
