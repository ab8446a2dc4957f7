/**
 * The diff-based save of the itinerary graph (`updateItineraryGraphPartial` in both editors).
 *
 * The editor's days are reconciled against the snapshot taken at the last load or successful
 * save: removed plans are deleted with their items, new days and `local-` items are created and
 * their store ids written back onto the edited graph in place, changed days and items are
 * updated, and a day's item list and the itinerary's day list are rewritten when their ordered
 * ids changed. A failed delete is ignored; any other failed write ends the run.
 *
 * Each method returns a ghost trace whose flattening is exactly what it appended to the store's
 * log, so the order of the writes is part of every contract.
 */
module Reconcile {
  import opened Common
  import opened Graph
  import opened Store
  import opened Diff

  /** `xs.filter(Boolean)` on a stored id list. */
  function NonEmptyIds(xs: seq<string>): (r: seq<string>)
    ensures forall x :: x in r <==> x in xs && x != ""
  {
    if xs == [] then [] else (if xs[0] == "" then [] else [xs[0]]) + NonEmptyIds(xs[1..])
  }

  /** A write as the reconciler issues it: created documents carry `perms`, item payloads are kind-exclusive. */
  predicate EntryWellFormed<R(==)>(e: Entry<R>, perms: Perms, none: R) {
    match e.call
    case CreatePlan(_, _, p) => p == perms
    case CreateItem(_, f, p) => p == perms && FieldsExclusive(f, none)
    case UpdateItem(_, f) => FieldsExclusive(f, none)
    case _ => true
  }

  predicate AllWellFormed<R(==)>(es: seq<Entry<R>>, perms: Perms, none: R) {
    forall k :: 0 <= k < |es| ==> EntryWellFormed(es[k], perms, none)
  }

  lemma AllWellFormedAppend<R>(a: seq<Entry<R>>, b: seq<Entry<R>>, perms: Perms, none: R)
    requires AllWellFormed(a, perms, none) && AllWellFormed(b, perms, none)
    ensures AllWellFormed(a + b, perms, none)
  {
    forall k | 0 <= k < |a + b| ensures EntryWellFormed((a + b)[k], perms, none) {
      if k >= |a| {
        assert (a + b)[k] == b[k - |a|];
      }
    }
  }

  function Concat<T>(xss: seq<seq<T>>): seq<T> {
    if xss == [] then [] else Concat(xss[..|xss| - 1]) + xss[|xss| - 1]
  }

  lemma ConcatSnoc<T>(xss: seq<seq<T>>, xs: seq<T>)
    ensures Concat(xss + [xs]) == Concat(xss) + xs
  {
    assert (xss + [xs])[..|xss|] == xss;
  }

  lemma LogSnoc<T>(log: seq<T>, xss: seq<seq<T>>, xs: seq<T>)
    ensures log + Concat(xss + [xs]) == (log + Concat(xss)) + xs
  {
    ConcatSnoc(xss, xs);
  }

  /** The items that the successful deletes among `es` removed. */
  function ItemsDeleted<R(==)>(es: seq<Entry<R>>): set<string> {
    set e | e in es && e.ok && e.call.DeleteItem? :: e.call.itemId
  }

  /** The plans that the successful deletes among `es` removed. */
  function PlansDeleted<R(==)>(es: seq<Entry<R>>): set<string> {
    set e | e in es && e.ok && e.call.DeletePlan? :: e.call.planId
  }

  lemma DeletedAppend<R>(a: seq<Entry<R>>, b: seq<Entry<R>>)
    ensures ItemsDeleted(a + b) == ItemsDeleted(a) + ItemsDeleted(b)
    ensures PlansDeleted(a + b) == PlansDeleted(a) + PlansDeleted(b)
  {
  }

  /** `s` is `s0` with the plans and items that the successful deletes of `es` name removed. */
  ghost predicate RemovedBy<R>(s0: StoreState<R>, s: StoreState<R>, es: seq<Entry<R>>) {
    && s.itineraries == s0.itineraries && s.issued == s0.issued
    && s.plans == s0.plans - PlansDeleted(es)
    && s.items == s0.items - ItemsDeleted(es)
  }

  lemma RemovedByAppend<R>(s0: StoreState<R>, s1: StoreState<R>, s2: StoreState<R>, a: seq<Entry<R>>, b: seq<Entry<R>>)
    requires RemovedBy(s0, s1, a) && RemovedBy(s1, s2, b)
    ensures RemovedBy(s0, s2, a + b)
  {
    DeletedAppend(a, b);
  }

  lemma DeletedSingle<R>(e: Entry<R>)
    ensures ItemsDeleted([e]) == if e.ok && e.call.DeleteItem? then {e.call.itemId} else {}
    ensures PlansDeleted([e]) == if e.ok && e.call.DeletePlan? then {e.call.planId} else {}
  {
    assert forall x :: x in [e] <==> x == e;
  }

  lemma NoPlansDeleted<R>(es: seq<Entry<R>>)
    requires forall j :: 0 <= j < |es| ==> es[j].call.DeleteItem?
    ensures PlansDeleted(es) == {}
  {
    forall x | x in es
      ensures !x.call.DeletePlan?
    {
      var j :| 0 <= j < |es| && es[j] == x;
    }
  }

  /** The last write of `es` failed. */
  predicate EndsInFailure<R>(es: seq<Entry<R>>) {
    es != [] && !es[|es| - 1].ok
  }

  lemma EndsInFailureAppend<R>(a: seq<Entry<R>>, b: seq<Entry<R>>)
    requires EndsInFailure(b)
    ensures EndsInFailure(a + b)
  {
    assert (a + b)[|a + b| - 1] == b[|b| - 1];
  }

  /** Deleting one removed plan: nothing when it could not be read, else its items, then the plan. */
  datatype PlanDeletion<R> = PlanDeletion(planId: string, read: Option<seq<string>>, entries: seq<Entry<R>>)

  predicate DeletionShape<R>(d: PlanDeletion<R>) {
    match d.read
    case None => d.entries == []
    case Some(ids) =>
      && |d.entries| == |ids| + 1
      && (forall j :: 0 <= j < |ids| ==> d.entries[j].call == DeleteItem(ids[j]))
      && d.entries[|ids|].call == DeletePlan(d.planId)
  }

  function FlatDeletions<R>(ds: seq<PlanDeletion<R>>): seq<Entry<R>> {
    if ds == [] then [] else FlatDeletions(ds[..|ds| - 1]) + ds[|ds| - 1].entries
  }

  /** One deletion per id of `pids`, in order, each of the right shape. */
  predicate DeletionsFit<R>(pids: seq<string>, dels: seq<PlanDeletion<R>>) {
    |dels| == |pids| && forall k :: 0 <= k < |pids| ==> dels[k].planId == pids[k] && DeletionShape(dels[k])
  }

  lemma FlatDeletionsSnoc<R>(log: seq<Entry<R>>, ds: seq<PlanDeletion<R>>, d: PlanDeletion<R>)
    ensures FlatDeletions(ds + [d]) == FlatDeletions(ds) + d.entries
    ensures log + FlatDeletions(ds + [d]) == (log + FlatDeletions(ds)) + d.entries
  {
    assert (ds + [d])[..|ds|] == ds;
  }

  lemma {:induction false} DeletionsWellFormed<R>(ds: seq<PlanDeletion<R>>, perms: Perms, none: R)
    requires forall k :: 0 <= k < |ds| ==> DeletionShape(ds[k])
    ensures AllWellFormed(FlatDeletions(ds), perms, none)
  {
    if ds != [] {
      var d := ds[|ds| - 1];
      DeletionsWellFormed(ds[..|ds| - 1], perms, none);
      match d.read
      case None =>
      case Some(ids) =>
        forall k | 0 <= k < |d.entries| ensures EntryWellFormed(d.entries[k], perms, none) {
          if k < |ids| {
            assert d.entries[k].call == DeleteItem(ids[k]);
          }
        }
      AllWellFormedAppend(FlatDeletions(ds[..|ds| - 1]), d.entries, perms, none);
    }
  }

  /** One day's writes, in order: the day, its removed items, its items one by one, its item list. */
  datatype DayTrace<R> = DayTrace(
    dayWrite: seq<Entry<R>>, itemDeletes: seq<Entry<R>>, itemWrites: seq<seq<Entry<R>>>, listWrite: seq<Entry<R>>)

  function FlatDay<R>(t: DayTrace<R>): seq<Entry<R>> {
    t.dayWrite + t.itemDeletes + Concat(t.itemWrites) + t.listWrite
  }

  lemma FlatDayAppend<R>(log: seq<Entry<R>>, t: DayTrace<R>)
    ensures log + t.dayWrite + t.itemDeletes + Concat(t.itemWrites) + t.listWrite == log + FlatDay(t)
    ensures FlatDay(t) == t.dayWrite + (t.itemDeletes + Concat(t.itemWrites) + t.listWrite)
  {
  }

  function FlatDays<R>(ts: seq<DayTrace<R>>): seq<Entry<R>> {
    if ts == [] then [] else FlatDays(ts[..|ts| - 1]) + FlatDay(ts[|ts| - 1])
  }

  /**
   * A whole run: `started` is false when the parent itinerary could not be read (backup editor
   * only); `perms` are the permissions given to created documents.
   */
  datatype RunTrace<R> = RunTrace(
    started: bool, perms: Perms, deletions: seq<PlanDeletion<R>>, days: seq<DayTrace<R>>, final: seq<Entry<R>>)

  function FlatRun<R>(t: RunTrace<R>): seq<Entry<R>> {
    FlatDeletions(t.deletions) + FlatDays(t.days) + t.final
  }

  /** Only the id of an item may change, and only a `local-` id. */
  predicate ItemShape<R(==)>(b: DayItem<R>, a: DayItem<R>) {
    a == b.(id := a.id) && (!IsLocal(b.id) ==> a.id == b.id)
  }

  predicate ItemsShape<R(==)>(b: seq<DayItem<R>>, a: seq<DayItem<R>>) {
    |a| == |b| && forall j :: 0 <= j < |b| ==> ItemShape(b[j], a[j])
  }

  /** Only the ids of a day may change: its plan id only when it had none. */
  predicate DayShape<R(==)>(b: DayPlan<R>, a: DayPlan<R>) {
    && a == b.(planId := a.planId, items := a.items)
    && (b.planId != "" ==> a.planId == b.planId)
    && ItemsShape(b.items, a.items)
  }

  predicate SameShape<R(==)>(b: seq<DayPlan<R>>, a: seq<DayPlan<R>>) {
    |a| == |b| && forall k :: 0 <= k < |b| ==> DayShape(b[k], a[k])
  }

  /** Every day saved and no `local-` item id left. */
  predicate NoLocalIds<R>(days: seq<DayPlan<R>>) {
    forall k :: 0 <= k < |days| ==>
      days[k].planId != "" && forall j :: 0 <= j < |days[k].items| ==> !IsLocal(days[k].items[j].id)
  }

  /** `originalDayMap[planId]?.items || []`. */
  function OrigItems<R>(origMap: map<string, DayPlan<R>>, planId: string): seq<DayItem<R>> {
    if planId in origMap then origMap[planId].items else []
  }

  /**
   * The writes for one item (`it` before, `after` once its id is written back): a `local-` item
   * is created; any other item is updated exactly when it differs from its saved version.
   */
  predicate ItemStepFits<R(==)>(
    w: seq<Entry<R>>, it: DayItem<R>, after: DayItem<R>, m: map<string, DayItem<R>>, perms: Perms, none: R)
  {
    && !IsLocal(after.id)
    && (IsLocal(it.id) ==> w == [Entry(CreateItem(after.id, ItemPayload(it, none), perms), true)])
    && (!IsLocal(it.id) ==>
          w == if ItemNeedsUpdate(Lookup(m, it.id), it) then [Entry(UpdateItem(it.id, ItemPayload(it, none)), true)] else [])
  }

  /**
   * The write for the day itself at position `idx` (`planId` is its id afterwards): a new day is
   * created with `dayNumber` idx+1, an existing one updated exactly when a compared field differs
   * from its saved version.
   */
  predicate DayHeadFits<R(==)>(
    v: Variant, w: seq<Entry<R>>, d: DayPlan<R>, planId: string, idx: nat, origMap: map<string, DayPlan<R>>, perms: Perms)
  {
    && planId != ""
    && (d.planId != "" ==> planId == d.planId && d.planId in origMap)
    && w == (if d.planId == "" then [Entry(CreatePlan(planId, DayFields(v, d, idx), perms), true)]
             else if DayNeedsUpdate(v, origMap[d.planId], d, idx)
             then [Entry(UpdatePlan(d.planId, DayFields(v, d, idx)), true)]
             else [])
  }

  /**
   * The writes for the items of a saved day (`after` with the ids written back): its removed
   * non-local items are deleted, each item written as `ItemStepFits` says, and its item list
   * written exactly when the day is new or the ordered ids differ from the saved ones.
   */
  predicate DayItemsFits<R(==)>(
    deletes: seq<Entry<R>>, ws: seq<seq<Entry<R>>>, listWrite: seq<Entry<R>>, isNew: bool, planId: string,
    items: seq<DayItem<R>>, after: seq<DayItem<R>>, origItems: seq<DayItem<R>>, perms: Perms, none: R)
  {
    var stale := StaleItemIds(origItems, items);
    && |deletes| == |stale|
    && (forall j :: 0 <= j < |stale| ==> deletes[j].call == DeleteItem(stale[j]))
    && |ws| == |items| && |after| == |items|
    && (forall j :: 0 <= j < |items| ==> ItemStepFits(ws[j], items[j], after[j], ItemMap(origItems), perms, none))
    && listWrite == (if isNew || ItemIds(origItems) != ItemIds(after)
                     then [Entry(SetPlanItems(planId, ItemIds(after)), true)] else [])
  }

  /** The writes for one completed day at position `idx` (`d` before, `after` with the ids written back). */
  predicate DayTraceFits<R(==)>(
    v: Variant, t: DayTrace<R>, d: DayPlan<R>, after: DayPlan<R>, idx: nat,
    origMap: map<string, DayPlan<R>>, perms: Perms, none: R)
  {
    && DayHeadFits(v, t.dayWrite, d, after.planId, idx, origMap, perms)
    && DayItemsFits(t.itemDeletes, t.itemWrites, t.listWrite, d.planId == "", after.planId, d.items, after.items,
                    OrigItems(origMap, after.planId), perms, none)
  }

  /** A day that is exactly its saved version, settled and positional. */
  predicate NoOpDay<R(==)>(v: Variant, d: DayPlan<R>, idx: nat, origMap: map<string, DayPlan<R>>) {
    && d.planId != "" && d.planId in origMap && origMap[d.planId] == d
    && !DayNeedsUpdate(v, d, d, idx)
    && DistinctItemIds(d.items)
    && forall j :: 0 <= j < |d.items| ==> !IsLocal(d.items[j].id)
  }

  /** No item of the day needs a write. */
  predicate NoOpItems<R(==)>(items: seq<DayItem<R>>, m: map<string, DayItem<R>>) {
    forall j :: 0 <= j < |items| ==> !IsLocal(items[j].id) && !ItemNeedsUpdate(Lookup(m, items[j].id), items[j])
  }

  /** A day's items compared with themselves need no delete and no write. */
  lemma NoOpItemsAgainstSelf<R>(items: seq<DayItem<R>>)
    requires DistinctItemIds(items) && forall j :: 0 <= j < |items| ==> !IsLocal(items[j].id)
    ensures StaleItemIds(items, items) == [] && NoOpItems(items, ItemMap(items))
  {
    NoStaleItemsAgainstSelf(items);
    forall j | 0 <= j < |items|
      ensures !ItemNeedsUpdate(Lookup(ItemMap(items), items[j].id), items[j])
    {
      NoItemChangeAgainstSelf(items, j);
    }
  }

  /** Deletes each id in turn; a failure is ignored. */
  method DeleteItems<R(==)>(store: DocumentStore<R>, ids: seq<string>) returns (ghost entries: seq<Entry<R>>)
    requires store.Replays()
    modifies store
    ensures store.Replays()
    ensures |entries| == |ids| && forall j :: 0 <= j < |ids| ==> entries[j].call == DeleteItem(ids[j])
    ensures store.log == old(store.log) + entries
    ensures store.plans == old(store.plans) && store.itineraries == old(store.itineraries)
    ensures store.issued == old(store.issued)
    ensures store.items == old(store.items) - ItemsDeleted(entries)
    ensures ids == [] ==> store.State() == old(store.State())
  {
    entries := [];
    var j := 0;
    while j < |ids|
      invariant 0 <= j <= |ids| && |entries| == j
      invariant forall i :: 0 <= i < j ==> entries[i].call == DeleteItem(ids[i])
      invariant store.Replays()
      invariant store.log == old(store.log) + entries
      invariant store.plans == old(store.plans) && store.itineraries == old(store.itineraries)
      invariant store.issued == old(store.issued)
      invariant store.items == old(store.items) - ItemsDeleted(entries)
      invariant j == 0 ==> store.items == old(store.items)
    {
      ghost var items0 := store.items;
      var ok := store.DeleteItem(ids[j]);
      ghost var e := Entry(DeleteItem(ids[j]), ok);
      DeletedAppend(entries, [e]);
      DeletedSingle(e);
      entries := entries + [e];
      j := j + 1;
    }
  }

  /** Deletes one removed plan: its listed items first, then the plan; skipped when it cannot be read. */
  method DeleteRemovedPlan<R(==)>(store: DocumentStore<R>, pid: string) returns (ghost d: PlanDeletion<R>)
    requires store.Replays()
    modifies store
    ensures store.Replays()
    ensures d.planId == pid && DeletionShape(d)
    ensures d.read.Some? ==> pid in old(store.plans) && d.read.value == NonEmptyIds(old(store.plans)[pid].items)
    ensures store.log == old(store.log) + d.entries
    ensures store.itineraries == old(store.itineraries) && store.issued == old(store.issued)
    ensures store.plans == old(store.plans) - PlansDeleted(d.entries)
    ensures store.items == old(store.items) - ItemsDeleted(d.entries)
  {
    var found, doc := store.GetPlan(pid);
    if found {
      var ids := NonEmptyIds(doc.items);
      var itemEntries := DeleteItems(store, ids);
      ghost var plans0 := store.plans;
      var planOk := store.DeletePlan(pid);
      ghost var e := Entry(DeletePlan(pid), planOk);
      d := PlanDeletion(pid, Some(ids), itemEntries + [e]);
      DeletedAppend(itemEntries, [e]);
      DeletedSingle(e);
      NoPlansDeleted(itemEntries);
    } else {
      d := PlanDeletion(pid, None, []);
    }
  }

  /**
   * The first loop of the reconciler: every removed plan that can still be read has its listed
   * items deleted and then itself. A plan that cannot be read is skipped; failed deletes are
   * ignored.
   */
  method DeleteRemovedPlans<R(==)>(store: DocumentStore<R>, pids: seq<string>) returns (ghost dels: seq<PlanDeletion<R>>)
    requires store.Replays()
    modifies store
    ensures store.Replays()
    ensures DeletionsFit(pids, dels)
    ensures DeletionsRead(dels, old(store.State()))
    ensures store.log == old(store.log) + FlatDeletions(dels)
    ensures store.itineraries == old(store.itineraries) && store.issued == old(store.issued)
    ensures store.plans == old(store.plans) - PlansDeleted(FlatDeletions(dels))
    ensures store.items == old(store.items) - ItemsDeleted(FlatDeletions(dels))
    ensures pids == [] ==> dels == [] && store.State() == old(store.State())
  {
    dels := [];
    var k := 0;
    while k < |pids|
      invariant 0 <= k <= |pids| && |dels| == k
      invariant forall i :: 0 <= i < k ==> dels[i].planId == pids[i] && DeletionShape(dels[i])
      invariant DeletionsRead(dels, old(store.State()))
      invariant store.Replays()
      invariant store.log == old(store.log) + FlatDeletions(dels)
      invariant RemovedBy(old(store.State()), store.State(), FlatDeletions(dels))
      invariant k == 0 ==> store.State() == old(store.State())
    {
      ghost var s := store.State();
      ghost var d := DeleteRemovedPlan(store, pids[k]);
      DeletionsReadSnoc(dels, d, old(store.State()), PlansDeleted(FlatDeletions(dels)), s.plans);
      FlatDeletionsSnoc(old(store.log), dels, d);
      RemovedByAppend(old(store.State()), s, store.State(), FlatDeletions(dels), d.entries);
      dels := dels + [d];
      k := k + 1;
    }
  }

  /** Each deletion that read its plan read it from `s`: the plan's listed ids, blanks dropped. */
  ghost predicate DeletionsRead<R>(dels: seq<PlanDeletion<R>>, s: StoreState<R>) {
    forall k :: 0 <= k < |dels| && dels[k].read.Some? ==>
      dels[k].planId in s.plans && dels[k].read.value == NonEmptyIds(s.plans[dels[k].planId].items)
  }

  /** A plan read after some plans of `s` were deleted reads what `s` holds for it. */
  lemma DeletionsReadSnoc<R>(dels: seq<PlanDeletion<R>>, d: PlanDeletion<R>, s: StoreState<R>, gone: set<string>,
                             plans: map<string, PlanDoc>)
    requires DeletionsRead(dels, s)
    requires plans == s.plans - gone
    requires d.read.Some? ==> d.planId in plans && d.read.value == NonEmptyIds(plans[d.planId].items)
    ensures DeletionsRead(dels + [d], s)
  {
    forall k | 0 <= k < |dels| + 1 && (dels + [d])[k].read.Some?
      ensures (dels + [d])[k].planId in s.plans
      ensures (dels + [d])[k].read.value == NonEmptyIds(s.plans[(dels + [d])[k].planId].items)
    {
      if k < |dels| {
        assert (dels + [d])[k] == dels[k];
      }
    }
  }

  /**
   * One item: a `local-` item is created and comes back carrying its new id; any other item is
   * updated when it differs from its saved version in `m`.
   */
  method WriteItem<R(==)>(store: DocumentStore<R>, it: DayItem<R>, m: map<string, DayItem<R>>, perms: Perms, none: R)
    returns (ok: bool, after: DayItem<R>, ghost w: seq<Entry<R>>)
    requires store.Replays()
    modifies store
    ensures store.Replays()
    ensures ItemShape(it, after) && (!IsLocal(it.id) ==> after == it)
    ensures ok ==> ItemStepFits(w, it, after, m, perms, none)
    ensures !ok ==> EndsInFailure(w) && after == it
    ensures ok && IsLocal(it.id) ==> after.id !in old(store.issued)
    ensures store.log == old(store.log) + w
    ensures AllWellFormed(w, perms, none)
    ensures w == [] ==> store.State() == old(store.State())
    ensures !IsLocal(it.id) && !ItemNeedsUpdate(Lookup(m, it.id), it) ==> ok && w == []
  {
    var payload := ItemPayload(it, none);
    after := it;
    if IsLocal(it.id) {
      var newId;
      ok, newId := store.CreateItem(payload, perms);
      w := [Entry(CreateItem(newId, payload, perms), ok)];
      if ok {
        after := it.(id := newId);
      }
    } else if ItemNeedsUpdate(Lookup(m, it.id), it) {
      ok := store.UpdateItem(it.id, payload);
      w := [Entry(UpdateItem(it.id, payload), ok)];
    } else {
      ok := true;
      w := [];
    }
  }

  /** The first `j` items have been written: `after` and `persisted` hold their new ids and `ws` their writes. */
  predicate StepsFit<R(==)>(
    items: seq<DayItem<R>>, after: seq<DayItem<R>>, persisted: seq<string>, ws: seq<seq<Entry<R>>>, j: nat,
    m: map<string, DayItem<R>>, perms: Perms, none: R)
  {
    && j <= |items| && |ws| == j && |persisted| == j
    && ItemsShape(items, after)
    && (forall i :: j <= i < |items| ==> after[i] == items[i])
    && (forall i :: 0 <= i < j ==> persisted[i] == after[i].id && ItemStepFits(ws[i], items[i], after[i], m, perms, none))
  }

  lemma ItemsShapeUpdate<R>(items: seq<DayItem<R>>, after: seq<DayItem<R>>, j: nat, it: DayItem<R>)
    requires ItemsShape(items, after) && j < |items| && ItemShape(items[j], it)
    ensures ItemsShape(items, after[j := it])
  {
  }

  lemma NoOpItemStep<R>(items: seq<DayItem<R>>, after: seq<DayItem<R>>, j: nat, it: DayItem<R>)
    requires after == items && j < |items| && it == items[j]
    ensures after[j := it] == items
  {
  }

  lemma StepsFitNext<R>(
    items: seq<DayItem<R>>, after: seq<DayItem<R>>, persisted: seq<string>, ws: seq<seq<Entry<R>>>, j: nat,
    it: DayItem<R>, w: seq<Entry<R>>, m: map<string, DayItem<R>>, perms: Perms, none: R)
    requires StepsFit(items, after, persisted, ws, j, m, perms, none) && j < |items|
    requires ItemShape(items[j], it) && ItemStepFits(w, items[j], it, m, perms, none)
    ensures StepsFit(items, after[j := it], persisted + [it.id], ws + [w], j + 1, m, perms, none)
  {
  }

  /**
   * The item loop of one day: every item written as `WriteItem` says, in order. `after` is the
   * item list with the ids written back so far (all of them on success), and `persisted` the
   * ids pushed onto `persistedItemIds`.
   */
  method WriteItems<R(==)>(store: DocumentStore<R>, items: seq<DayItem<R>>, m: map<string, DayItem<R>>, perms: Perms, none: R)
    returns (ok: bool, after: seq<DayItem<R>>, persisted: seq<string>, ghost ws: seq<seq<Entry<R>>>)
    requires store.Replays()
    modifies store
    ensures store.Replays()
    ensures ItemsShape(items, after)
    ensures ok ==> |ws| == |items| && persisted == ItemIds(after)
    ensures ok ==> forall i :: 0 <= i < |items| ==> ItemStepFits(ws[i], items[i], after[i], m, perms, none)
    ensures !ok ==> && 1 <= |ws| && StepsFit(items, after, persisted, ws[..|ws| - 1], |ws| - 1, m, perms, none)
                    && EndsInFailure(ws[|ws| - 1]) && EndsInFailure(Concat(ws))
    ensures store.log == old(store.log) + Concat(ws)
    ensures AllWellFormed(Concat(ws), perms, none)
    ensures Concat(ws) == [] ==> store.State() == old(store.State())
    ensures NoOpItems(items, m) ==> ok && Concat(ws) == [] && after == items
  {
    after := items;
    persisted := [];
    ws := [];
    ok := true;
    var j := 0;
    while j < |items| && ok
      invariant 0 <= j <= |items| && |ws| == j && ItemsShape(items, after)
      invariant ok ==> StepsFit(items, after, persisted, ws, j, m, perms, none)
      invariant !ok ==> && 1 <= j && StepsFit(items, after, persisted, ws[..j - 1], j - 1, m, perms, none)
                        && EndsInFailure(ws[j - 1]) && EndsInFailure(Concat(ws))
      invariant store.Replays()
      invariant store.log == old(store.log) + Concat(ws)
      invariant AllWellFormed(Concat(ws), perms, none)
      invariant Concat(ws) == [] ==> store.State() == old(store.State())
      invariant NoOpItems(items, m) ==> ok && Concat(ws) == [] && after == items
    {
      var it;
      ghost var w;
      ok, it, w := WriteItem(store, items[j], m, perms, none);
      LogSnoc(old(store.log), ws, w);
      ConcatSnoc(ws, w);
      AllWellFormedAppend(Concat(ws), w, perms, none);
      ItemsShapeUpdate(items, after, j, it);
      if NoOpItems(items, m) {
        NoOpItemStep(items, after, j, it);
      }
      if ok {
        StepsFitNext(items, after, persisted, ws, j, it, w, m, perms, none);
        persisted := persisted + [it.id];
      } else {
        assert after[j := it] == after;
        assert (ws + [w])[..j] == ws;
        EndsInFailureAppend(Concat(ws), w);
      }
      after := after[j := it];
      ws := ws + [w];
      j := j + 1;
    }
  }

  lemma DeletesWellFormed<R>(es: seq<Entry<R>>, ids: seq<string>, perms: Perms, none: R)
    requires |es| == |ids| && forall j :: 0 <= j < |ids| ==> es[j].call == DeleteItem(ids[j])
    ensures AllWellFormed(es, perms, none)
  {
    forall k | 0 <= k < |es| ensures EntryWellFormed(es[k], perms, none) {
      assert es[k].call == DeleteItem(ids[k]);
    }
  }

  /**
   * The day itself: created with `dayNumber` idx+1 when it has no plan id, updated when a
   * compared field differs from the saved version, and nothing otherwise. A plan id with no
   * saved version ends the run, as `orig.dayNumber` throws on the missing original.
   */
  method WriteDayFields<R(==)>(store: DocumentStore<R>, v: Variant, d: DayPlan<R>, idx: nat, perms: Perms,
                               origMap: map<string, DayPlan<R>>, ghost none: R)
    returns (ok: bool, planId: string, ghost w: seq<Entry<R>>)
    requires store.Replays()
    modifies store
    ensures store.Replays()
    ensures d.planId != "" ==> planId == d.planId
    ensures ok ==> DayHeadFits(v, w, d, planId, idx, origMap, perms)
    ensures !ok ==> EndsInFailure(w) || (d.planId != "" && d.planId !in origMap && w == [])
    ensures store.log == old(store.log) + w
    ensures AllWellFormed(w, perms, none)
    ensures w == [] ==> store.State() == old(store.State())
    ensures NoOpDay(v, d, idx, origMap) ==> ok && w == []
  {
    planId := d.planId;
    w := [];
    ok := true;
    if planId == "" {
      ok, planId := store.CreatePlan(DayFields(v, d, idx), perms);
      w := [Entry(CreatePlan(planId, DayFields(v, d, idx), perms), ok)];
    } else if planId !in origMap {
      ok := false;
    } else if DayNeedsUpdate(v, origMap[planId], d, idx) {
      ok := store.UpdatePlan(planId, DayFields(v, d, idx));
      w := [Entry(UpdatePlan(planId, DayFields(v, d, idx)), ok)];
    }
  }

  /**
   * The items of a saved day: its removed non-local items are deleted, its items written in
   * order, and its item list rewritten when the day is new or the ordered ids differ from the
   * saved ones.
   */
  method WriteDayItems<R(==)>(store: DocumentStore<R>, isNew: bool, planId: string, items: seq<DayItem<R>>,
                              origItems: seq<DayItem<R>>, perms: Perms, none: R)
    returns (ok: bool, after: seq<DayItem<R>>, ghost deletes: seq<Entry<R>>, ghost ws: seq<seq<Entry<R>>>,
             ghost listWrite: seq<Entry<R>>)
    requires store.Replays()
    modifies store
    ensures store.Replays()
    ensures ItemsShape(items, after)
    ensures ok ==> DayItemsFits(deletes, ws, listWrite, isNew, planId, items, after, origItems, perms, none)
    ensures |deletes| == |StaleItemIds(origItems, items)|
    ensures forall j :: 0 <= j < |deletes| ==> deletes[j].call == DeleteItem(StaleItemIds(origItems, items)[j])
    ensures !ok ==> EndsInFailure(deletes + Concat(ws) + listWrite)
    ensures store.log == old(store.log) + deletes + Concat(ws) + listWrite
    ensures AllWellFormed(deletes + Concat(ws) + listWrite, perms, none)
    ensures deletes + Concat(ws) + listWrite == [] ==> store.State() == old(store.State())
    ensures !isNew && items == origItems && DistinctItemIds(items) && (forall j :: 0 <= j < |items| ==> !IsLocal(items[j].id))
            ==> ok && deletes + Concat(ws) + listWrite == [] && after == items
  {
    if !isNew && items == origItems && DistinctItemIds(items) && forall j :: 0 <= j < |items| ==> !IsLocal(items[j].id) {
      NoOpItemsAgainstSelf(items);
    }
    var stale := StaleItemIds(origItems, items);
    deletes := DeleteItems(store, stale);
    DeletesWellFormed(deletes, stale, perms, none);
    var itemsOk, persisted;
    itemsOk, after, persisted, ws := WriteItems(store, items, ItemMap(origItems), perms, none);
    AllWellFormedAppend(deletes, Concat(ws), perms, none);
    ok, listWrite := WriteItemList(store, itemsOk, isNew, planId, ItemIds(origItems), persisted, perms, none);
    AllWellFormedAppend(deletes + Concat(ws), listWrite, perms, none);
    if !ok {
      if itemsOk {
        EndsInFailureAppend(deletes + Concat(ws), listWrite);
      } else {
        EndsInFailureAppend(deletes, Concat(ws));
        assert deletes + Concat(ws) + listWrite == deletes + Concat(ws);
      }
    }
  }

  /** The plan's item list is rewritten when the day is new or its item ids changed, and only after every item saved. */
  method WriteItemList<R(==)>(store: DocumentStore<R>, itemsOk: bool, isNew: bool, planId: string,
                              origIds: seq<string>, persisted: seq<string>, perms: Perms, none: R)
    returns (ok: bool, ghost listWrite: seq<Entry<R>>)
    requires store.Replays()
    modifies store
    ensures store.Replays()
    ensures !ok && itemsOk ==> EndsInFailure(listWrite)
    ensures listWrite == if itemsOk && (isNew || origIds != persisted)
                         then [Entry(SetPlanItems(planId, persisted), ok)] else []
    ensures listWrite == [] ==> ok == itemsOk && store.State() == old(store.State())
    ensures store.log == old(store.log) + listWrite
    ensures AllWellFormed(listWrite, perms, none)
  {
    ok := itemsOk;
    listWrite := [];
    if itemsOk && (isNew || origIds != persisted) {
      ok := store.SetPlanItems(planId, persisted);
      listWrite := [Entry(SetPlanItems(planId, persisted), ok)];
    }
  }

  /** One pass of the day loop at position `idx`; `after` is the day with the ids written back so far. */
  method WriteDay<R(==)>(store: DocumentStore<R>, v: Variant, d: DayPlan<R>, idx: nat, perms: Perms,
                         origMap: map<string, DayPlan<R>>, none: R)
    returns (ok: bool, after: DayPlan<R>, ghost t: DayTrace<R>)
    requires store.Replays()
    modifies store
    ensures store.Replays()
    ensures DayShape(d, after)
    ensures ok ==> DayTraceFits(v, t, d, after, idx, origMap, perms, none)
    ensures !ok ==> DayFailed(t, d, origMap)
    ensures store.log == old(store.log) + FlatDay(t)
    ensures AllWellFormed(FlatDay(t), perms, none)
    ensures FlatDay(t) == [] ==> store.State() == old(store.State())
    ensures NoOpDay(v, d, idx, origMap) ==> ok && FlatDay(t) == [] && after == d
  {
    ghost var log0 := store.log;
    var planId;
    ghost var dayWrite;
    ok, planId, dayWrite := WriteDayFields(store, v, d, idx, perms, origMap, none);
    after := d;
    if !ok {
      t := DayTrace(dayWrite, [], [], []);
      assert FlatDay(t) == dayWrite;
      return;
    }
    after := d.(planId := planId);
    var items;
    ghost var deletes, writes, listWrite;
    ok, items, deletes, writes, listWrite :=
      WriteDayItems(store, d.planId == "", planId, d.items, OrigItems(origMap, planId), perms, none);
    ghost var rest := deletes + Concat(writes) + listWrite;
    after := after.(items := items);
    t := DayTrace(dayWrite, deletes, writes, listWrite);
    FlatDayAppend(log0, t);
    AllWellFormedAppend(dayWrite, rest, perms, none);
    if !ok {
      EndsInFailureAppend(dayWrite, rest);
    }
  }

  /** A day that ended the run: its last write failed, or it names a plan with no saved version and wrote nothing. */
  predicate DayFailed<R>(t: DayTrace<R>, d: DayPlan<R>, origMap: map<string, DayPlan<R>>) {
    EndsInFailure(FlatDay(t)) || (d.planId != "" && d.planId !in origMap && FlatDay(t) == [])
  }

  lemma PlanIdsNext<R>(after: seq<DayPlan<R>>, final: seq<string>, n: nat, a: DayPlan<R>)
    requires n < |after| && final == PlanIds(after[..n]) && a.planId != ""
    ensures final + [a.planId] == PlanIds(after[n := a][..n + 1])
  {
    assert after[n := a][..n + 1] == after[..n] + [a];
    assert (after[..n] + [a])[..n] == after[..n];
  }

  lemma NoLocalIdsNext<R>(after: seq<DayPlan<R>>, n: nat, a: DayPlan<R>)
    requires n < |after| && NoLocalIds(after[..n]) && a.planId != ""
    requires forall j :: 0 <= j < |a.items| ==> !IsLocal(a.items[j].id)
    ensures NoLocalIds(after[n := a][..n + 1])
  {
    assert after[n := a][..n + 1] == after[..n] + [a];
  }

  lemma TracesNext<R>(
    v: Variant, before: seq<DayPlan<R>>, after: seq<DayPlan<R>>, ts: seq<DayTrace<R>>, n: nat,
    origMap: map<string, DayPlan<R>>, perms: Perms, none: R, a: DayPlan<R>, t: DayTrace<R>)
    requires n < |before| == |after| && |ts| == n
    requires forall k :: 0 <= k < n ==> DayTraceFits(v, ts[k], before[k], after[k], k, origMap, perms, none)
    requires DayTraceFits(v, t, before[n], a, n, origMap, perms, none)
    ensures forall k :: 0 <= k < n + 1 ==>
              DayTraceFits(v, (ts + [t])[k], before[k], after[n := a][k], k, origMap, perms, none)
  {
  }

  lemma SameShapeNext<R>(before: seq<DayPlan<R>>, after: seq<DayPlan<R>>, n: nat, a: DayPlan<R>)
    requires SameShape(before, after) && n < |before| && DayShape(before[n], a)
    ensures SameShape(before, after[n := a])
  {
  }

  lemma FlatDaysSnoc<R>(log: seq<Entry<R>>, ts: seq<DayTrace<R>>, t: DayTrace<R>)
    ensures log + FlatDays(ts + [t]) == (log + FlatDays(ts)) + FlatDay(t)
  {
    assert (ts + [t])[..|ts|] == ts;
  }

  /** A written day has its plan id and no `local-` item left. */
  lemma DayIdsSaved<R>(
    v: Variant, t: DayTrace<R>, d: DayPlan<R>, a: DayPlan<R>, idx: nat,
    origMap: map<string, DayPlan<R>>, perms: Perms, none: R)
    requires DayTraceFits(v, t, d, a, idx, origMap, perms, none)
    ensures a.planId != "" && forall j :: 0 <= j < |a.items| ==> !IsLocal(a.items[j].id)
  {
    forall j | 0 <= j < |a.items| ensures !IsLocal(a.items[j].id) {
      assert ItemStepFits(t.itemWrites[j], d.items[j], a.items[j], ItemMap(OrigItems(origMap, a.planId)), perms, none);
    }
  }

  lemma NoOpDayStep<R>(before: seq<DayPlan<R>>, after: seq<DayPlan<R>>, n: nat, a: DayPlan<R>)
    requires after == before && n < |before| && a == before[n]
    ensures after[n := a] == before
  {
  }

  /**
   * The day loop kept the shape of the days and, when it completed (`ok`), wrote each day as
   * `DayTraceFits` says and collected the plan ids `final` of all days, none of them new.
   */
  predicate DaysFit<R(==)>(
    v: Variant, before: seq<DayPlan<R>>, after: seq<DayPlan<R>>, ok: bool, ts: seq<DayTrace<R>>, final: seq<string>,
    origMap: map<string, DayPlan<R>>, perms: Perms, none: R)
  {
    && SameShape(before, after)
    && (ok ==> |ts| == |before| && final == PlanIds(after) && NoLocalIds(after))
    && (ok ==> forall k :: 0 <= k < |before| ==> DayTraceFits(v, ts[k], before[k], after[k], k, origMap, perms, none))
  }

  /** Every day is its saved version and needs no write. */
  predicate NoOpDays<R(==)>(v: Variant, days: seq<DayPlan<R>>, origMap: map<string, DayPlan<R>>) {
    forall k :: 0 <= k < |days| ==> NoOpDay(v, days[k], k, origMap)
  }

  /**
   * The loop over the days: each day is written in order at its position, with its new ids
   * written back; a failed write ends the loop. `final` collects the plan ids.
   */
  method WriteDays<R(==)>(store: DocumentStore<R>, v: Variant, before: seq<DayPlan<R>>,
                          origMap: map<string, DayPlan<R>>, perms: Perms, none: R)
    returns (ok: bool, after: seq<DayPlan<R>>, final: seq<string>, ghost ts: seq<DayTrace<R>>)
    requires store.Replays()
    modifies store
    ensures store.Replays()
    ensures DaysFit(v, before, after, ok, ts, final, origMap, perms, none)
    ensures !ok ==> DaysFailed(v, before, after, ts, origMap, perms, none) && final == PlanIds(after[..|ts| - 1])
    ensures store.log == old(store.log) + FlatDays(ts)
    ensures AllWellFormed(FlatDays(ts), perms, none)
    ensures NoOpDays(v, before, origMap) ==> ok && FlatDays(ts) == [] && after == before
  {
    after := before;
    final := [];
    ts := [];
    ok := true;
    var idx := 0;
    while idx < |before|
      invariant 0 <= idx <= |before| && |ts| == idx && ok
      invariant SameShape(before, after)
      invariant DaysPrefix(v, before, after, ts, final, idx, origMap, perms, none)
      invariant store.Replays()
      invariant store.log == old(store.log) + FlatDays(ts)
      invariant AllWellFormed(FlatDays(ts), perms, none)
      invariant NoOpDays(v, before, origMap) ==> FlatDays(ts) == [] && after == before
    {
      var dayOk, a;
      ghost var t;
      dayOk, a, t := WriteDay(store, v, before[idx], idx, perms, origMap, none);
      FlatDaysSnoc(old(store.log), ts, t);
      FlatDaysSnoc([], ts, t);
      AllWellFormedAppend(FlatDays(ts), FlatDay(t), perms, none);
      SameShapeNext(before, after, idx, a);
      if NoOpDays(v, before, origMap) {
        NoOpDayStep(before, after, idx, a);
      }
      if !dayOk {
        DaysPrefixFailed(v, before, after, ts, final, idx, origMap, perms, none, a, t);
        ok := false;
        after := after[idx := a];
        ts := ts + [t];
        break;
      }
      DaysPrefixNext(v, before, after, ts, final, idx, origMap, perms, none, a, t);
      final := final + [a.planId];
      after := after[idx := a];
      ts := ts + [t];
      idx := idx + 1;
    }
    DaysPrefixDone(v, before, after, ok, ts, final, origMap, perms, none);
  }

  /** The day loop after `n` days, every one of which completed. */
  ghost predicate DaysPrefix<R>(
    v: Variant, before: seq<DayPlan<R>>, after: seq<DayPlan<R>>, ts: seq<DayTrace<R>>, final: seq<string>, n: nat,
    origMap: map<string, DayPlan<R>>, perms: Perms, none: R)
  {
    && n <= |before| == |after| && |ts| == n
    && final == PlanIds(after[..n]) && NoLocalIds(after[..n])
    && forall k :: 0 <= k < n ==> DayTraceFits(v, ts[k], before[k], after[k], k, origMap, perms, none)
  }

  lemma DaysPrefixNext<R>(
    v: Variant, before: seq<DayPlan<R>>, after: seq<DayPlan<R>>, ts: seq<DayTrace<R>>, final: seq<string>, n: nat,
    origMap: map<string, DayPlan<R>>, perms: Perms, none: R, a: DayPlan<R>, t: DayTrace<R>)
    requires DaysPrefix(v, before, after, ts, final, n, origMap, perms, none) && n < |before|
    requires DayTraceFits(v, t, before[n], a, n, origMap, perms, none)
    ensures DaysPrefix(v, before, after[n := a], ts + [t], final + [a.planId], n + 1, origMap, perms, none)
  {
    DayIdsSaved(v, t, before[n], a, n, origMap, perms, none);
    PlanIdsNext(after, final, n, a);
    NoLocalIdsNext(after, n, a);
    TracesNext(v, before, after, ts, n, origMap, perms, none, a, t);
  }

  /** The day loop stopped at its last day: every day before it completed and that day failed. */
  ghost predicate DaysFailed<R>(
    v: Variant, before: seq<DayPlan<R>>, after: seq<DayPlan<R>>, ts: seq<DayTrace<R>>,
    origMap: map<string, DayPlan<R>>, perms: Perms, none: R)
  {
    && 1 <= |ts| <= |before| == |after|
    && DaysPrefix(v, before, after, ts[..|ts| - 1], PlanIds(after[..|ts| - 1]), |ts| - 1, origMap, perms, none)
    && DayFailed(ts[|ts| - 1], before[|ts| - 1], origMap)
  }

  lemma DaysPrefixFailed<R>(
    v: Variant, before: seq<DayPlan<R>>, after: seq<DayPlan<R>>, ts: seq<DayTrace<R>>, final: seq<string>, n: nat,
    origMap: map<string, DayPlan<R>>, perms: Perms, none: R, a: DayPlan<R>, t: DayTrace<R>)
    requires DaysPrefix(v, before, after, ts, final, n, origMap, perms, none) && n < |before|
    requires DayFailed(t, before[n], origMap)
    ensures DaysFailed(v, before, after[n := a], ts + [t], origMap, perms, none)
    ensures final == PlanIds(after[n := a][..n])
  {
    assert after[n := a][..n] == after[..n];
    assert (ts + [t])[..n] == ts;
  }

  lemma DaysPrefixDone<R>(
    v: Variant, before: seq<DayPlan<R>>, after: seq<DayPlan<R>>, ok: bool, ts: seq<DayTrace<R>>, final: seq<string>,
    origMap: map<string, DayPlan<R>>, perms: Perms, none: R)
    requires SameShape(before, after)
    requires ok ==> DaysPrefix(v, before, after, ts, final, |before|, origMap, perms, none)
    ensures DaysFit(v, before, after, ok, ts, final, origMap, perms, none)
  {
    if ok {
      assert after[..|before|] == after;
    }
  }

  /** A settled graph compared with itself: no day needs a write. */
  lemma NoOpDaysAgainstSelf<R>(v: Variant, g: seq<DayPlan<R>>)
    requires Settled(g)
    ensures NoOpDays(v, g, DayMap(g))
  {
    forall idx | 0 <= idx < |g| ensures NoOpDay(v, g[idx], idx, DayMap(g)) {
      NoDayChangeAgainstSelf(v, g, idx);
    }
  }

  /**
   * The permissions documents created by a run get: the defaults in the current editor; in the
   * backup editor those of the itinerary `id` (the defaults when it has none), and no run at all
   * (`started` false) when it cannot be read.
   */
  method ReadPerms<R(==)>(store: DocumentStore<R>, v: Variant, id: string) returns (started: bool, perms: Perms)
    ensures v == Current ==> started && perms == DefaultPerms
    ensures v == Backup && started ==> id in store.itineraries && perms == InheritedPerms(store.itineraries[id].perms)
  {
    started, perms := true, DefaultPerms;
    if v == Backup {
      var parent;
      started, parent := store.GetItinerary(id);
      perms := InheritedPerms(parent.perms);
    }
  }

  /** The day list of itinerary `id` is written after a completed day loop whose plan ids `final` differ from the saved ones. */
  method WriteDayList<R(==)>(store: DocumentStore<R>, id: string, original: seq<DayPlan<R>>, final: seq<string>, daysOk: bool)
    returns (ok: bool, ghost w: seq<Entry<R>>)
    requires store.Replays()
    modifies store
    ensures store.Replays()
    ensures w == if daysOk && PlanIds(original) != final then [Entry(SetItineraryDays(id, final), ok)] else []
    ensures ok ==> daysOk
    ensures w == [] ==> ok == daysOk && store.State() == old(store.State())
    ensures store.log == old(store.log) + w
  {
    ok, w := daysOk, [];
    if daysOk && PlanIds(original) != final {
      ok := store.SetItineraryDays(id, final);
      w := [Entry(SetItineraryDays(id, final), ok)];
    }
  }

  lemma RunLog<R>(log: seq<Entry<R>>, run: RunTrace<R>)
    ensures log + FlatDeletions(run.deletions) + FlatDays(run.days) + run.final == log + FlatRun(run)
  {
  }

  lemma ListWriteWellFormed<R>(w: seq<Entry<R>>, perms: Perms, none: R)
    requires forall k :: 0 <= k < |w| ==> w[k].call.SetItineraryDays?
    ensures AllWellFormed(w, perms, none)
  {
  }

  /**
   * A run past the permission read (`run.started`), on the saved graph `original`, the edited
   * days `before` and the days `after` with the new ids written back, from store state `s0` to
   * `s1`: the removed plans deleted, each day written as `DayTraceFits` says, the day list
   * written when its ids changed, and nothing at all when the edited graph is its settled saved
   * version.
   */
  ghost predicate StartedFits<R>(
    v: Variant, id: string, original: seq<DayPlan<R>>, before: seq<DayPlan<R>>, after: seq<DayPlan<R>>,
    ok: bool, run: RunTrace<R>, none: R, s0: StoreState<R>, s1: StoreState<R>)
  {
    && AllWellFormed(FlatRun(run), run.perms, none)
    && DeletionsFit(DeletedPlanIds(original, before), run.deletions)
    && SameShape(before, after)
    && (ok ==> DaysFit(v, before, after, true, run.days, PlanIds(after), DayMap(original), run.perms, none))
    && (ok ==> run.final == if PlanIds(original) != PlanIds(after)
                           then [Entry(SetItineraryDays(id, PlanIds(after)), true)] else [])
    && (before == original && Settled(before) ==> ok && FlatRun(run) == [] && s1 == s0 && after == before)
    && DeletionsRead(run.deletions, s0)
    && (!ok ==> || (DaysFailed(v, before, after, run.days, DayMap(original), run.perms, none) && run.final == [])
                || (DaysFit(v, before, after, true, run.days, PlanIds(after), DayMap(original), run.perms, none)
                    && EndsInFailure(run.final)))
    && s1 == Replay(s0, FlatRun(run)) && LegalLog(s0, FlatRun(run))
  }

  lemma DaysFitDone<R>(
    v: Variant, before: seq<DayPlan<R>>, after: seq<DayPlan<R>>, ts: seq<DayTrace<R>>, final: seq<string>,
    origMap: map<string, DayPlan<R>>, perms: Perms, none: R)
    requires DaysFit(v, before, after, true, ts, final, origMap, perms, none)
    ensures final == PlanIds(after) && DaysFit(v, before, after, true, ts, PlanIds(after), origMap, perms, none)
  {
  }

  /** The run once the permissions `perms` are known: deletions, the day loop, the day list. */
  method RunStarted<R(==)>(store: DocumentStore<R>, v: Variant, id: string, original: seq<DayPlan<R>>,
                           before: seq<DayPlan<R>>, perms: Perms, none: R)
    returns (ok: bool, after: seq<DayPlan<R>>, ghost run: RunTrace<R>)
    requires store.Replays()
    modifies store
    ensures store.Replays()
    ensures run.started && run.perms == perms
    ensures store.log == old(store.log) + FlatRun(run)
    ensures StartedFits(v, id, original, before, after, ok, run, none, old(store.State()), store.State())
  {
    ghost var log0, h0 := store.log, store.history;
    var daysOk, final;
    ghost var dels, ts;
    daysOk, after, final, dels, ts := DeleteAndWrite(store, v, original, before, perms, none);
    ghost var finalWrite;
    ok, finalWrite := WriteDayList(store, id, original, final, daysOk);
    run := RunTrace(true, perms, dels, ts, finalWrite);
    RunLog(log0, run);
    FollowsExtend(h0, log0, store.history, FlatRun(run));
    StartedFitsIntro(v, id, original, before, after, daysOk, final, ok, run, none, old(store.State()), store.State());
  }

  lemma StartedFitsIntro<R>(
    v: Variant, id: string, original: seq<DayPlan<R>>, before: seq<DayPlan<R>>, after: seq<DayPlan<R>>,
    daysOk: bool, final: seq<string>, ok: bool, run: RunTrace<R>, none: R, s0: StoreState<R>, s1: StoreState<R>)
    requires AllWellFormed(FlatDeletions(run.deletions) + FlatDays(run.days), run.perms, none)
    requires DeletionsFit(DeletedPlanIds(original, before), run.deletions) && DeletionsRead(run.deletions, s0)
    requires DaysFit(v, before, after, daysOk, run.days, final, DayMap(original), run.perms, none)
    requires !daysOk ==> DaysFailed(v, before, after, run.days, DayMap(original), run.perms, none)
    requires run.final == if daysOk && PlanIds(original) != final then [Entry(SetItineraryDays(id, final), ok)] else []
    requires (ok ==> daysOk) && (run.final == [] ==> ok == daysOk)
    requires before == original && Settled(before) ==>
               daysOk && FlatDeletions(run.deletions) + FlatDays(run.days) == [] && after == before
    requires s1 == Replay(s0, FlatRun(run)) && LegalLog(s0, FlatRun(run))
    ensures StartedFits(v, id, original, before, after, ok, run, none, s0, s1)
  {
    ListWriteWellFormed(run.final, run.perms, none);
    AllWellFormedAppend(FlatDeletions(run.deletions) + FlatDays(run.days), run.final, run.perms, none);
    if daysOk {
      DaysFitDone(v, before, after, run.days, final, DayMap(original), run.perms, none);
      StartedSettled(original, before, after, run, s0, s1);
    }
  }

  lemma StartedSettled<R>(original: seq<DayPlan<R>>, before: seq<DayPlan<R>>, after: seq<DayPlan<R>>,
                          run: RunTrace<R>, s0: StoreState<R>, s1: StoreState<R>)
    requires s1 == Replay(s0, FlatRun(run))
    requires before == original && Settled(before) ==>
               FlatDeletions(run.deletions) + FlatDays(run.days) == [] && after == before && run.final == []
    ensures before == original && Settled(before) ==> FlatRun(run) == [] && s1 == s0 && after == before
  {
  }

  /** The removed plans are deleted, then the day loop runs. */
  method DeleteAndWrite<R(==)>(store: DocumentStore<R>, v: Variant, original: seq<DayPlan<R>>,
                               before: seq<DayPlan<R>>, perms: Perms, none: R)
    returns (ok: bool, after: seq<DayPlan<R>>, final: seq<string>, ghost dels: seq<PlanDeletion<R>>,
             ghost ts: seq<DayTrace<R>>)
    requires store.Replays()
    modifies store
    ensures store.Replays()
    ensures DeletionsFit(DeletedPlanIds(original, before), dels)
    ensures DeletionsRead(dels, old(store.State()))
    ensures DaysFit(v, before, after, ok, ts, final, DayMap(original), perms, none)
    ensures !ok ==> DaysFailed(v, before, after, ts, DayMap(original), perms, none) && final == PlanIds(after[..|ts| - 1])
    ensures store.log == old(store.log) + FlatDeletions(dels) + FlatDays(ts)
    ensures AllWellFormed(FlatDeletions(dels) + FlatDays(ts), perms, none)
    ensures before == original && Settled(before) ==>
              ok && FlatDeletions(dels) + FlatDays(ts) == [] && after == before
  {
    if before == original && Settled(before) {
      NothingDeletedAgainstSelf(before);
      NoOpDaysAgainstSelf(v, before);
    }
    dels := DeleteRemovedPlans(store, DeletedPlanIds(original, before));
    DeletionsWellFormed(dels, perms, none);
    ok, after, final, ts := WriteDays(store, v, before, DayMap(original), perms, none);
    AllWellFormedAppend(FlatDeletions(dels), FlatDays(ts), perms, none);
  }

  /**
   * What one reconciler run did, given the saved graph `original`, the edited days `before`, the
   * days `after` it with the new ids written back, and the store states `s0` before and `s1`
   * after it: the permissions created documents get, the removed plans deleted, each day
   * written as `DayTraceFits` says, the day list written when its ids changed, and nothing at
   * all when the edited graph is its settled saved version.
   */
  ghost predicate RunFits<R>(
    v: Variant, id: string, original: seq<DayPlan<R>>, before: seq<DayPlan<R>>, after: seq<DayPlan<R>>,
    ok: bool, run: RunTrace<R>, none: R, s0: StoreState<R>, s1: StoreState<R>)
  {
    && (v == Current ==> run.started && run.perms == DefaultPerms)
    && (v == Backup && run.started ==> id in s0.itineraries && run.perms == InheritedPerms(s0.itineraries[id].perms))
    && (!run.started ==> !ok && FlatRun(run) == [] && after == before && s1 == s0)
    && (run.started ==> StartedFits(v, id, original, before, after, ok, run, none, s0, s1))
  }
}
