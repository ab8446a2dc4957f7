/**
 * What a completed graph save leaves in the store. If the store held the saved snapshot
 * `original` of itinerary `id` (its day list, every day plan and every item, as the editor
 * loaded them) and the edited days `before` came from that snapshot by the editor's own edits,
 * then after a run of `updateItineraryGraphPartial` that completed, the store holds the edited
 * graph with its new ids written back (`after`), each day numbered by its position.
 */
module SaveOutcome {
  import opened Common
  import opened Graph
  import opened Store
  import opened Diff
  import opened Reconcile

  /** A plan document holds the day fields of `d` the editor writes: the date only in the backup editor. */
  predicate PlanFieldsHold<R>(v: Variant, doc: PlanDoc, d: DayPlan<R>) {
    && doc.dayNumber == d.dayNumber && doc.title == d.title && doc.summary == d.summary
    && (v == Backup ==> doc.date == d.date)
  }

  /** A plan document holds day `d`: its fields and its item ids, in order. */
  predicate PlanHolds<R>(v: Variant, doc: PlanDoc, d: DayPlan<R>) {
    PlanFieldsHold(v, doc, d) && doc.items == ItemIds(d.items)
  }

  /** The store holds item `it` as the editor writes it. */
  predicate ItemHolds<R(==)>(s: StoreState<R>, it: DayItem<R>, none: R) {
    it.id in s.items && s.items[it.id].fields == ItemPayload(it, none)
  }

  /** The store holds day `d`: its plan document and every one of its items. */
  predicate DayHolds<R(==)>(v: Variant, s: StoreState<R>, d: DayPlan<R>, none: R) {
    && d.planId in s.plans && PlanHolds(v, s.plans[d.planId], d)
    && forall j :: 0 <= j < |d.items| ==> ItemHolds(s, d.items[j], none)
  }

  /** The store holds the graph `days` of itinerary `id`: its day list and every day. */
  predicate Holds<R(==)>(v: Variant, s: StoreState<R>, id: string, days: seq<DayPlan<R>>, none: R) {
    && id in s.itineraries && s.itineraries[id].days == PlanIds(days)
    && forall k :: 0 <= k < |days| ==> DayHolds(v, s, days[k], none)
  }

  /** No item id is listed by two different days. */
  predicate SavedGraph<R>(days: seq<DayPlan<R>>) {
    forall k1, j1, k2, j2 ::
      0 <= k1 < |days| && 0 <= k2 < |days| && k1 != k2 && 0 <= j1 < |days[k1].items| && 0 <= j2 < |days[k2].items|
      ==> days[k1].items[j1].id != days[k2].items[j2].id
  }

  /**
   * The edited days as the editor's edits leave them: saved plan ids distinct, item ids distinct
   * within a day, and every item that is not `local-` one the saved version of its day lists.
   */
  predicate EditedFrom<R>(before: seq<DayPlan<R>>, original: seq<DayPlan<R>>) {
    && DistinctPlanIds(before)
    && (forall k :: 0 <= k < |before| ==> DistinctItemIds(before[k].items))
    && forall k, j :: 0 <= k < |before| && 0 <= j < |before[k].items| && !IsLocal(before[k].items[j].id) ==>
         before[k].items[j].id in ItemIds(OrigItems(DayMap(original), before[k].planId))
  }

  // Documents a run of writes leaves alone.

  lemma WrittenSingle<R>(e: Entry<R>)
    ensures Written([e]) == Touched(e)
  {
    assert [e][..0] == [];
  }

  /** A document no write of `es` touches is not written by `es`. */
  lemma {:induction false} NotWritten<R>(es: seq<Entry<R>>, x: Target)
    requires forall j :: 0 <= j < |es| ==> x !in Touched(es[j])
    ensures x !in Written(es)
  {
    if es != [] {
      NotWritten(es[..|es| - 1], x);
    }
  }

  /** One write, legal where it happens, as a replay. */
  lemma ReplaySingle<R>(s: StoreState<R>, e: Entry<R>)
    ensures Replay(s, [e]) == Apply(s, e)
    ensures LegalLog(s, [e]) <==> Legal(s, e)
  {
    assert [e][..0] == [];
  }

  /** An item no write of `es` touches stays held. */
  lemma ItemKept<R>(s: StoreState<R>, es: seq<Entry<R>>, it: DayItem<R>, none: R)
    requires ItemHolds(s, it, none) && ItemDocOf(it.id) !in Written(es)
    ensures ItemHolds(Replay(s, es), it, none)
  {
    ReplayFrame(s, es);
    assert ItemAt(Replay(s, es), it.id) == ItemAt(s, it.id);
  }

  // One day, phase by phase.

  /** The writes of item `n` from state `u`: it ends up held, the items before it stay held. */
  lemma ItemStep<R>(
    u: StoreState<R>, w: seq<Entry<R>>, it: DayItem<R>, after: seq<DayItem<R>>, n: nat,
    m: map<string, DayItem<R>>, perms: Perms, none: R)
    requires n < |after| && ItemStepFits(w, it, after[n], m, perms, none) && ItemShape(it, after[n])
    requires LegalLog(u, w) && KeysIssued(u)
    requires forall j :: 0 <= j < n ==> ItemHolds(u, after[j], none)
    requires !IsLocal(it.id) ==> forall j :: 0 <= j < n ==> after[j].id != it.id
    requires !IsLocal(it.id) && !ItemNeedsUpdate(Lookup(m, it.id), it) ==> ItemHolds(u, it, none)
    ensures forall j :: 0 <= j <= n ==> ItemHolds(Replay(u, w), after[j], none)
    ensures IsLocal(it.id) ==> after[n].id !in u.issued
    ensures forall x :: x in Written(w) ==> x == ItemDocOf(after[n].id)
  {
    var a := after[n];
    if IsLocal(it.id) {
      var e := Entry(CreateItem(a.id, ItemPayload(it, none), perms), true);
      ReplaySingle(u, e);
      WrittenSingle(e);
      forall j | 0 <= j < n ensures after[j].id != a.id {
        assert after[j].id in u.items;
      }
    } else if ItemNeedsUpdate(Lookup(m, it.id), it) {
      var e := Entry(UpdateItem(it.id, ItemPayload(it, none)), true);
      ReplaySingle(u, e);
      WrittenSingle(e);
    }
  }

  /** The item writes of the first `n` items of a day write only those items' own documents. */
  lemma {:induction false} ItemWritesOwnUpTo<R>(
    ws: seq<seq<Entry<R>>>, items: seq<DayItem<R>>, after: seq<DayItem<R>>,
    m: map<string, DayItem<R>>, perms: Perms, none: R, n: nat)
    requires n <= |ws| == |items| == |after|
    requires forall j :: 0 <= j < |items| ==> ItemStepFits(ws[j], items[j], after[j], m, perms, none)
    requires ItemsShape(items, after)
    ensures forall x :: x in Written(Concat(ws[..n])) ==> x.ItemDocOf? && exists j :: 0 <= j < n && x.itemId == after[j].id
    decreases n
  {
    if n != 0 {
      var k := n - 1;
      assert ws[..n][..k] == ws[..k];
      ItemWritesOwnUpTo(ws, items, after, m, perms, none, k);
      WrittenAppend(Concat(ws[..k]), ws[k]);
      assert ItemShape(items[k], after[k]);
      ItemWritesOne(ws[k], items[k], after[k], m, perms, none);
      forall x | x in Written(ws[k]) ensures exists j :: 0 <= j < n && x.itemId == after[j].id {
        assert x.itemId == after[k].id;
      }
    }
  }

  /** The writes for one item touch only its own document. */
  lemma ItemWritesOne<R>(w: seq<Entry<R>>, it: DayItem<R>, a: DayItem<R>, m: map<string, DayItem<R>>, perms: Perms, none: R)
    requires ItemStepFits(w, it, a, m, perms, none) && ItemShape(it, a)
    ensures forall x :: x in Written(w) ==> x == ItemDocOf(a.id)
  {
    if w != [] {
      WrittenSingle(w[0]);
      assert w == [w[0]];
    }
  }

  /** The item writes of a day write only the items' own documents. */
  lemma ItemWritesOwn<R>(
    ws: seq<seq<Entry<R>>>, items: seq<DayItem<R>>, after: seq<DayItem<R>>,
    m: map<string, DayItem<R>>, perms: Perms, none: R)
    requires |ws| == |items| == |after|
    requires forall j :: 0 <= j < |items| ==> ItemStepFits(ws[j], items[j], after[j], m, perms, none)
    requires ItemsShape(items, after)
    ensures forall x :: x in Written(Concat(ws)) ==> x.ItemDocOf? && x.itemId in ItemIds(after)
  {
    ItemWritesOwnUpTo(ws, items, after, m, perms, none, |ws|);
    assert ws[..|ws|] == ws;
    forall x | x in Written(Concat(ws)) ensures x.ItemDocOf? && x.itemId in ItemIds(after) {
      var j :| 0 <= j < |ws| && x.itemId == after[j].id;
      assert ItemIds(after)[j] == after[j].id;
    }
  }

  /**
   * The item writes of the first `n` items of a day, from state `u0`: each of those items ends up
   * held and each new one got an id outside `u0.issued`.
   */
  lemma {:induction false} ItemsUpTo<R>(
    u0: StoreState<R>, ws: seq<seq<Entry<R>>>, items: seq<DayItem<R>>, after: seq<DayItem<R>>,
    m: map<string, DayItem<R>>, perms: Perms, none: R, n: nat)
    requires n <= |ws| == |items| == |after|
    requires forall j :: 0 <= j < |items| ==> ItemStepFits(ws[j], items[j], after[j], m, perms, none)
    requires ItemsShape(items, after) && DistinctItemIds(items)
    requires LegalLog(u0, Concat(ws[..n])) && KeysIssued(u0)
    requires forall j :: 0 <= j < |items| && !IsLocal(items[j].id) ==> items[j].id in u0.issued
    requires forall j :: 0 <= j < |items| && !IsLocal(items[j].id) && !ItemNeedsUpdate(Lookup(m, items[j].id), items[j])
               ==> ItemHolds(u0, items[j], none)
    ensures forall j :: 0 <= j < n ==> ItemHolds(Replay(u0, Concat(ws[..n])), after[j], none)
    ensures forall j :: 0 <= j < n && IsLocal(items[j].id) ==> after[j].id !in u0.issued
    decreases n
  {
    if n == 0 {
      return;
    }
    var k := n - 1;
    var it := items[k];
    assert ws[..n][..k] == ws[..k];
    ReplayAppend(u0, Concat(ws[..k]), ws[k]);
    ItemsUpTo(u0, ws, items, after, m, perms, none, k);
    ReplayFrame(u0, Concat(ws[..k]));
    StepReady(u0, ws, items, after, m, perms, none, k);
    ItemStep(Replay(u0, Concat(ws[..k])), ws[k], it, after, k, m, perms, none);
  }

  /**
   * Before the writes of item `k`: a saved item is not among the new ids of the items before it,
   * and is still held when the edit left it as saved.
   */
  lemma StepReady<R>(
    u0: StoreState<R>, ws: seq<seq<Entry<R>>>, items: seq<DayItem<R>>, after: seq<DayItem<R>>,
    m: map<string, DayItem<R>>, perms: Perms, none: R, k: nat)
    requires k < |ws| == |items| == |after|
    requires forall j :: 0 <= j < |items| ==> ItemStepFits(ws[j], items[j], after[j], m, perms, none)
    requires ItemsShape(items, after) && DistinctItemIds(items)
    requires forall j :: 0 <= j < |items| && !IsLocal(items[j].id) ==> items[j].id in u0.issued
    requires forall j :: 0 <= j < |items| && !IsLocal(items[j].id) && !ItemNeedsUpdate(Lookup(m, items[j].id), items[j])
               ==> ItemHolds(u0, items[j], none)
    requires forall j :: 0 <= j < k && IsLocal(items[j].id) ==> after[j].id !in u0.issued
    ensures !IsLocal(items[k].id) ==> forall j :: 0 <= j < k ==> after[j].id != items[k].id
    ensures !IsLocal(items[k].id) && !ItemNeedsUpdate(Lookup(m, items[k].id), items[k]) ==>
              ItemHolds(Replay(u0, Concat(ws[..k])), items[k], none)
  {
    var it := items[k];
    if !IsLocal(it.id) {
      forall j | 0 <= j < k ensures after[j].id != it.id {
        if !IsLocal(items[j].id) {
          assert ItemShape(items[j], after[j]);
        }
      }
      ItemWritesOwnUpTo(ws, items, after, m, perms, none, k);
      if !ItemNeedsUpdate(Lookup(m, it.id), it) {
        ItemKept(u0, Concat(ws[..k]), it, none);
      }
    }
  }

  /**
   * The item writes of a day, from state `u0`: every item ends up held and each new item got an
   * id outside `u0.issued`.
   */
  lemma ItemsPhase<R>(
    u0: StoreState<R>, ws: seq<seq<Entry<R>>>, items: seq<DayItem<R>>, after: seq<DayItem<R>>,
    m: map<string, DayItem<R>>, perms: Perms, none: R)
    requires |ws| == |items| == |after|
    requires forall j :: 0 <= j < |items| ==> ItemStepFits(ws[j], items[j], after[j], m, perms, none)
    requires ItemsShape(items, after) && DistinctItemIds(items)
    requires LegalLog(u0, Concat(ws)) && KeysIssued(u0)
    requires forall j :: 0 <= j < |items| && !IsLocal(items[j].id) ==> items[j].id in u0.issued
    requires forall j :: 0 <= j < |items| && !IsLocal(items[j].id) && !ItemNeedsUpdate(Lookup(m, items[j].id), items[j])
               ==> ItemHolds(u0, items[j], none)
    ensures forall j :: 0 <= j < |after| ==> ItemHolds(Replay(u0, Concat(ws)), after[j], none)
    ensures forall j :: 0 <= j < |items| && IsLocal(items[j].id) ==> after[j].id !in u0.issued
  {
    assert ws[..|ws|] == ws;
    ItemsUpTo(u0, ws, items, after, m, perms, none, |ws|);
  }

  /** The saved days, by plan id, are held by the store state `s0`; no saved day has a blank id. */
  ghost predicate SavedIn<R>(v: Variant, s0: StoreState<R>, origMap: map<string, DayPlan<R>>, none: R) {
    && KeysIssued(s0) && "" !in origMap
    && forall p :: p in origMap ==> origMap[p].planId == p && DayHolds(v, s0, origMap[p], none)
  }

  /** An item the edit left as its saved version is held by the store that holds the saved day. */
  lemma KeptItemHolds<R>(v: Variant, s0: StoreState<R>, origMap: map<string, DayPlan<R>>, pid: string, it: DayItem<R>, none: R)
    requires SavedIn(v, s0, origMap, none) && pid in origMap
    requires !ItemNeedsUpdate(Lookup(ItemMap(origMap[pid].items), it.id), it)
    ensures ItemHolds(s0, it, none)
  {
    var items := origMap[pid].items;
    var o := ItemMap(items)[it.id];
    var j :| 0 <= j < |items| && items[j] == o;
    assert ItemHolds(s0, items[j], none);
    assert ItemPayload(o, none) == ItemPayload(it, none);
  }

  /** The write of the day itself: the plan `pid` then holds the day's fields at position `k`. */
  lemma HeadPhase<R>(
    v: Variant, t: StoreState<R>, w: seq<Entry<R>>, d: DayPlan<R>, pid: string, k: nat,
    origMap: map<string, DayPlan<R>>, perms: Perms, s0: StoreState<R>, none: R)
    requires DayHeadFits(v, w, d, pid, k, origMap, perms) && LegalLog(t, w)
    requires SavedIn(v, s0, origMap, none) && s0.issued <= t.issued
    requires d.planId != "" ==> PlanAt(t, pid) == PlanAt(s0, pid)
    ensures forall x :: x in Written(w) ==> x == PlanDocOf(pid)
    ensures d.planId == "" ==> pid !in t.issued
    ensures var u := Replay(t, w);
      && pid in u.plans && PlanFieldsHold(v, u.plans[pid], d.(dayNumber := k + 1))
      && u.plans[pid].items == ItemIds(OrigItems(origMap, pid))
  {
    if w != [] {
      ReplaySingle(t, w[0]);
      WrittenSingle(w[0]);
      assert w == [w[0]];
    }
    if d.planId != "" {
      assert PlanHolds(v, s0.plans[pid], origMap[pid]);
    }
  }

  /** The deletes of a day's removed items write only those items. */
  lemma {:induction false} DeletesWritten<R>(es: seq<Entry<R>>, stale: seq<string>)
    requires |es| == |stale| && forall j :: 0 <= j < |stale| ==> es[j].call == DeleteItem(stale[j])
    ensures forall x :: x in Written(es) ==> x.ItemDocOf? && x.itemId in stale
  {
    if es != [] {
      var n := |es| - 1;
      DeletesWritten(es[..n], stale[..n]);
      assert forall x :: x in stale[..n] ==> x in stale;
    }
  }

  /** The write of a day's item list: the plan `pid` then lists the day's items, in order. */
  lemma ListPhase<R>(t: StoreState<R>, w: seq<Entry<R>>, isNew: bool, pid: string, origItems: seq<DayItem<R>>,
                     after: seq<DayItem<R>>)
    requires w == if isNew || ItemIds(origItems) != ItemIds(after) then [Entry(SetPlanItems(pid, ItemIds(after)), true)] else []
    requires pid in t.plans && t.plans[pid].items == ItemIds(origItems)
    ensures Replay(t, w) == t.(plans := t.plans[pid := t.plans[pid].(items := ItemIds(after))])
    ensures forall x :: x in Written(w) ==> x == PlanDocOf(pid)
  {
    if w != [] {
      ReplaySingle(t, w[0]);
      WrittenSingle(w[0]);
    } else {
      assert t.plans[pid := t.plans[pid].(items := ItemIds(after))] == t.plans;
    }
  }

  /** An item id a saved day lists is stored in `s0`, and the day is a saved one. */
  lemma SavedItemStored<R>(v: Variant, s0: StoreState<R>, origMap: map<string, DayPlan<R>>, p: string, x: string, none: R)
    requires SavedIn(v, s0, origMap, none) && x in ItemIds(OrigItems(origMap, p))
    ensures p in origMap && x in s0.items
  {
    var items := OrigItems(origMap, p);
    var j :| 0 <= j < |items| && ItemIds(items)[j] == x;
    assert ItemHolds(s0, items[j], none);
  }

  /** Each new item of `d` got an id (in `a`) outside `issued`. */
  predicate ItemsFresh<R>(issued: set<string>, d: DayPlan<R>, a: DayPlan<R>) {
    forall j :: 0 <= j < |d.items| && j < |a.items| && IsLocal(d.items[j].id) ==> a.items[j].id !in issued
  }

  /** Fresh ids: a new day and each new item of `d` got an id (in `a`) outside `issued`. */
  predicate Fresh<R>(issued: set<string>, d: DayPlan<R>, a: DayPlan<R>) {
    (d.planId == "" ==> a.planId !in issued) && ItemsFresh(issued, d, a)
  }

  /** The saved documents day `d` keeps (its plan and its non-local items) are still as in `s0`. */
  ghost predicate Pending<R>(s0: StoreState<R>, t: StoreState<R>, d: DayPlan<R>) {
    && (d.planId != "" ==> PlanAt(t, d.planId) == PlanAt(s0, d.planId))
    && forall j :: 0 <= j < |d.items| && !IsLocal(d.items[j].id) ==> ItemAt(t, d.items[j].id) == ItemAt(s0, d.items[j].id)
  }

  /** The documents the writes for day `d` (saved as `a`) may touch. */
  predicate DayWrites<R>(x: Target, d: DayPlan<R>, a: DayPlan<R>, origMap: map<string, DayPlan<R>>) {
    || x == PlanDocOf(a.planId)
    || (x.ItemDocOf? && (x.itemId in ItemIds(a.items) || x.itemId in StaleItemIds(OrigItems(origMap, a.planId), d.items)))
  }

  /** What a day needs of the store before its writes, and of the edit that produced it. */
  ghost predicate DayReady<R>(
    v: Variant, t: StoreState<R>, tr: DayTrace<R>, d: DayPlan<R>, a: DayPlan<R>, k: nat,
    origMap: map<string, DayPlan<R>>, perms: Perms, s0: StoreState<R>, none: R)
  {
    && DayTraceFits(v, tr, d, a, k, origMap, perms, none) && DayShape(d, a) && DistinctItemIds(d.items)
    && (forall j :: 0 <= j < |d.items| && !IsLocal(d.items[j].id) ==> d.items[j].id in ItemIds(OrigItems(origMap, d.planId)))
    && SavedIn(v, s0, origMap, none) && s0.issued <= t.issued && KeysIssued(t)
    && Pending(s0, t, d)
  }

  /**
   * State `u` after the day write and the deletes of a day (from `t`): the plan holds the day's
   * fields and still its saved item list, and every kept item is still as saved.
   */
  ghost predicate FrontDone<R>(
    v: Variant, t: StoreState<R>, u: StoreState<R>, d: DayPlan<R>, a: DayPlan<R>, k: nat,
    origMap: map<string, DayPlan<R>>, none: R)
  {
    && a.planId in u.plans && PlanFieldsHold(v, u.plans[a.planId], d.(dayNumber := k + 1))
    && u.plans[a.planId].items == ItemIds(OrigItems(origMap, a.planId))
    && t.issued <= u.issued && KeysIssued(u)
    && (forall j :: 0 <= j < |d.items| && !IsLocal(d.items[j].id) ==> d.items[j].id in u.issued)
    && (forall j :: 0 <= j < |d.items| && !IsLocal(d.items[j].id)
          && !ItemNeedsUpdate(Lookup(ItemMap(OrigItems(origMap, a.planId)), d.items[j].id), d.items[j])
          ==> ItemHolds(u, d.items[j], none))
  }

  /**
   * Writes `es` that touch no item of `d` leave its kept items as saved: each is still issued,
   * and held when the edit left it as its saved version.
   */
  lemma KeptItems<R>(
    v: Variant, s0: StoreState<R>, t: StoreState<R>, es: seq<Entry<R>>, d: DayPlan<R>, pid: string,
    origMap: map<string, DayPlan<R>>, none: R)
    requires SavedIn(v, s0, origMap, none) && Pending(s0, t, d) && s0.issued <= t.issued
    requires d.planId != "" ==> pid == d.planId
    requires forall j :: 0 <= j < |d.items| && !IsLocal(d.items[j].id) ==> d.items[j].id in ItemIds(OrigItems(origMap, d.planId))
    requires forall x :: x in Written(es) ==> x.PlanDocOf? || (x.ItemDocOf? && x.itemId !in ItemIds(d.items))
    ensures forall j :: 0 <= j < |d.items| && !IsLocal(d.items[j].id) ==> d.items[j].id in Replay(t, es).issued
    ensures forall j :: 0 <= j < |d.items| && !IsLocal(d.items[j].id)
              && !ItemNeedsUpdate(Lookup(ItemMap(OrigItems(origMap, pid)), d.items[j].id), d.items[j])
              ==> ItemHolds(Replay(t, es), d.items[j], none)
  {
    ReplayFrame(t, es);
    var u := Replay(t, es);
    forall j | 0 <= j < |d.items| && !IsLocal(d.items[j].id)
      ensures d.items[j].id in u.issued
      ensures !ItemNeedsUpdate(Lookup(ItemMap(OrigItems(origMap, pid)), d.items[j].id), d.items[j]) ==> ItemHolds(u, d.items[j], none)
    {
      var it := d.items[j];
      SavedItemStored(v, s0, origMap, d.planId, it.id, none);
      assert ItemIds(d.items)[j] == it.id;
      assert ItemAt(u, it.id) == ItemAt(s0, it.id);
      if !ItemNeedsUpdate(Lookup(ItemMap(OrigItems(origMap, pid)), it.id), it) {
        KeptItemHolds(v, s0, origMap, pid, it, none);
      }
    }
  }

  /**
   * The write of the day and the deletes of its removed items: the plan holds the day's fields
   * and still its saved item list, and every kept item is still as saved.
   */
  lemma DayFront<R>(
    v: Variant, t: StoreState<R>, tr: DayTrace<R>, d: DayPlan<R>, a: DayPlan<R>, k: nat,
    origMap: map<string, DayPlan<R>>, perms: Perms, s0: StoreState<R>, none: R)
    requires DayReady(v, t, tr, d, a, k, origMap, perms, s0, none)
    requires LegalLog(t, tr.dayWrite + tr.itemDeletes)
    ensures FrontDone(v, t, Replay(t, tr.dayWrite + tr.itemDeletes), d, a, k, origMap, none)
    ensures d.planId == "" ==> a.planId !in t.issued
    ensures forall x :: x in Written(tr.dayWrite + tr.itemDeletes) ==> DayWrites(x, d, a, origMap)
  {
    var pid := a.planId;
    ReplayAppend(t, tr.dayWrite, tr.itemDeletes);
    HeadPhase(v, t, tr.dayWrite, d, pid, k, origMap, perms, s0, none);
    FrontWrites(t, tr.dayWrite, tr.itemDeletes, d, a, origMap);
    ReplayFrame(t, tr.dayWrite + tr.itemDeletes);
    KeptItems(v, s0, t, tr.dayWrite + tr.itemDeletes, d, pid, origMap, none);
  }

  /**
   * The day write `w` (of plan `a.planId` only) and the deletes `dels` of the removed items touch
   * only documents of the day, none of the items it keeps, and leave the plan as `w` wrote it.
   */
  lemma FrontWrites<R>(
    t: StoreState<R>, w: seq<Entry<R>>, dels: seq<Entry<R>>, d: DayPlan<R>, a: DayPlan<R>,
    origMap: map<string, DayPlan<R>>)
    requires forall x :: x in Written(w) ==> x == PlanDocOf(a.planId)
    requires var stale := StaleItemIds(OrigItems(origMap, a.planId), d.items);
      |dels| == |stale| && forall j :: 0 <= j < |stale| ==> dels[j].call == DeleteItem(stale[j])
    ensures forall x :: x in Written(w + dels) ==> DayWrites(x, d, a, origMap)
    ensures forall x :: x in Written(w + dels) ==> x.PlanDocOf? || (x.ItemDocOf? && x.itemId !in ItemIds(d.items))
    ensures PlanAt(Replay(t, w + dels), a.planId) == PlanAt(Replay(t, w), a.planId)
  {
    DeletesWritten(dels, StaleItemIds(OrigItems(origMap, a.planId), d.items));
    WrittenAppend(w, dels);
    ReplayAppend(t, w, dels);
    ReplayFrame(Replay(t, w), dels);
  }

  /**
   * The item writes of a day, from the state `u` the day write and the deletes left: every item
   * of the day is then held, the new ones got fresh ids, and no plan document changed.
   */
  lemma DayItems<R>(
    v: Variant, t: StoreState<R>, u: StoreState<R>, tr: DayTrace<R>, d: DayPlan<R>, a: DayPlan<R>, k: nat,
    origMap: map<string, DayPlan<R>>, perms: Perms, none: R)
    requires DayTraceFits(v, tr, d, a, k, origMap, perms, none) && DayShape(d, a) && DistinctItemIds(d.items)
    requires LegalLog(u, Concat(tr.itemWrites))
    requires FrontDone(v, t, u, d, a, k, origMap, none)
    ensures forall j :: 0 <= j < |a.items| ==> ItemHolds(Replay(u, Concat(tr.itemWrites)), a.items[j], none)
    ensures ItemsFresh(t.issued, d, a)
    ensures PlanAt(Replay(u, Concat(tr.itemWrites)), a.planId) == PlanAt(u, a.planId)
    ensures forall x :: x in Written(Concat(tr.itemWrites)) ==> x.ItemDocOf? && x.itemId in ItemIds(a.items)
  {
    var m := ItemMap(OrigItems(origMap, a.planId));
    ItemsPhase(u, tr.itemWrites, d.items, a.items, m, perms, none);
    ItemWritesOwn(tr.itemWrites, d.items, a.items, m, perms, none);
    ReplayFrame(u, Concat(tr.itemWrites));
  }

  /**
   * The item writes and the item list write of a day, from the state `u` the day write and the
   * deletes left: the store then holds the day at position `k` with its new ids.
   */
  lemma DayBack<R>(
    v: Variant, t: StoreState<R>, u: StoreState<R>, tr: DayTrace<R>, d: DayPlan<R>, a: DayPlan<R>, k: nat,
    origMap: map<string, DayPlan<R>>, perms: Perms, none: R)
    requires DayTraceFits(v, tr, d, a, k, origMap, perms, none) && DayShape(d, a) && DistinctItemIds(d.items)
    requires LegalLog(u, Concat(tr.itemWrites) + tr.listWrite)
    requires FrontDone(v, t, u, d, a, k, origMap, none)
    ensures DayHolds(v, Replay(u, Concat(tr.itemWrites) + tr.listWrite), a.(dayNumber := k + 1), none)
    ensures ItemsFresh(t.issued, d, a)
    ensures forall x :: x in Written(Concat(tr.itemWrites) + tr.listWrite) ==> DayWrites(x, d, a, origMap)
  {
    var cw := Concat(tr.itemWrites);
    ReplayAppend(u, cw, tr.listWrite);
    DayItems(v, t, u, tr, d, a, k, origMap, perms, none);
    DayList(v, u, cw, tr.listWrite, d, a, k, origMap, none);
    WrittenAppend(cw, tr.listWrite);
  }

  /** The item list write of a day, after its item writes: the store then holds the whole day. */
  lemma DayList<R>(
    v: Variant, u: StoreState<R>, cw: seq<Entry<R>>, lw: seq<Entry<R>>, d: DayPlan<R>, a: DayPlan<R>, k: nat,
    origMap: map<string, DayPlan<R>>, none: R)
    requires lw == if d.planId == "" || ItemIds(OrigItems(origMap, a.planId)) != ItemIds(a.items)
                   then [Entry(SetPlanItems(a.planId, ItemIds(a.items)), true)] else []
    requires a.planId in u.plans && PlanFieldsHold(v, u.plans[a.planId], d.(dayNumber := k + 1))
    requires u.plans[a.planId].items == ItemIds(OrigItems(origMap, a.planId))
    requires PlanAt(Replay(u, cw), a.planId) == PlanAt(u, a.planId)
    requires forall j :: 0 <= j < |a.items| ==> ItemHolds(Replay(u, cw), a.items[j], none)
    requires DayShape(d, a)
    ensures DayHolds(v, Replay(Replay(u, cw), lw), a.(dayNumber := k + 1), none)
    ensures forall x :: x in Written(lw) ==> x == PlanDocOf(a.planId)
  {
    var pid, u3 := a.planId, Replay(u, cw);
    ListPhase(u3, lw, d.planId == "", pid, OrigItems(origMap, pid), a.items);
    var u4 := Replay(u3, lw);
    assert PlanHolds(v, u4.plans[pid], a.(dayNumber := k + 1));
    assert u4.items == u3.items;
  }

  /**
   * All the writes for one day: the store then holds the day at position `k` with its new ids,
   * those ids were fresh, and only the day's own documents were written.
   */
  lemma DayResult<R>(
    v: Variant, t: StoreState<R>, tr: DayTrace<R>, d: DayPlan<R>, a: DayPlan<R>, k: nat,
    origMap: map<string, DayPlan<R>>, perms: Perms, s0: StoreState<R>, none: R)
    requires DayReady(v, t, tr, d, a, k, origMap, perms, s0, none)
    requires LegalLog(t, FlatDay(tr))
    ensures DayHolds(v, Replay(t, FlatDay(tr)), a.(dayNumber := k + 1), none)
    ensures Fresh(t.issued, d, a)
    ensures forall x :: x in Written(FlatDay(tr)) ==> DayWrites(x, d, a, origMap)
  {
    var front, back := tr.dayWrite + tr.itemDeletes, Concat(tr.itemWrites) + tr.listWrite;
    assert FlatDay(tr) == front + back;
    ReplayAppend(t, front, back);
    DayFront(v, t, tr, d, a, k, origMap, perms, s0, none);
    DayBack(v, t, Replay(t, front), tr, d, a, k, origMap, perms, none);
    WrittenAppend(front, back);
  }

  // Days apart: the writes for one day leave every other day alone.

  /** No item id is listed by two different saved days. */
  predicate MapItemsApart<R>(origMap: map<string, DayPlan<R>>) {
    forall p, q, x :: p in origMap && q in origMap && x in ItemIds(OrigItems(origMap, p)) && x in ItemIds(OrigItems(origMap, q)) ==> p == q
  }

  lemma SavedPlanStored<R>(v: Variant, s0: StoreState<R>, origMap: map<string, DayPlan<R>>, p: string, none: R)
    requires SavedIn(v, s0, origMap, none) && p in origMap
    ensures p in s0.plans && p in s0.issued
  {
  }

  /**
   * The writes `es` for day `dn` (saved as `an`) do not touch the plan of another day `dk`
   * (saved as `ak`): a new plan id was never issued before, two saved days have different ids.
   */
  lemma PlanApart<R>(
    v: Variant, s0: StoreState<R>, t: StoreState<R>, origMap: map<string, DayPlan<R>>,
    dn: DayPlan<R>, an: DayPlan<R>, dk: DayPlan<R>, ak: DayPlan<R>, es: seq<Entry<R>>, none: R)
    requires SavedIn(v, s0, origMap, none) && s0.issued <= t.issued
    requires DayShape(dn, an) && (dn.planId != "" ==> dn.planId in origMap) && Fresh(t.issued, dn, an)
    requires forall x :: x in Written(es) ==> DayWrites(x, dn, an, origMap)
    requires dn.planId != "" && dk.planId != "" ==> dn.planId != dk.planId
    requires ak.planId in t.issued
    requires dk.planId == "" ==> ak.planId !in s0.issued
    requires dk.planId != "" ==> ak.planId == dk.planId && dk.planId in origMap
    ensures PlanDocOf(ak.planId) !in Written(es)
  {
    if dn.planId != "" {
      SavedPlanStored(v, s0, origMap, dn.planId, none);
    }
    if dk.planId != "" {
      SavedPlanStored(v, s0, origMap, dk.planId, none);
    }
    assert ak.planId != an.planId;
  }

  /** Every item id a saved day lists is stored in `s0`. */
  lemma SavedItemsStored<R>(v: Variant, s0: StoreState<R>, origMap: map<string, DayPlan<R>>, p: string, none: R)
    requires SavedIn(v, s0, origMap, none)
    ensures forall x :: x in ItemIds(OrigItems(origMap, p)) ==> x in s0.items
  {
    forall x | x in ItemIds(OrigItems(origMap, p)) ensures x in s0.items {
      SavedItemStored(v, s0, origMap, p, x, none);
    }
  }

  /**
   * The writes `es` for day `dn` (saved as `an`) do not touch item `y` of another day `dk` (`b`
   * its id before the save): new ids were never issued before, saved days list different items.
   */
  lemma ItemApart<R>(
    v: Variant, s0: StoreState<R>, t: StoreState<R>, origMap: map<string, DayPlan<R>>,
    dn: DayPlan<R>, an: DayPlan<R>, dk: DayPlan<R>, y: string, b: string, es: seq<Entry<R>>, none: R)
    requires SavedIn(v, s0, origMap, none) && MapItemsApart(origMap) && s0.issued <= t.issued
    requires DayShape(dn, an) && (dn.planId != "" ==> dn.planId in origMap) && Fresh(t.issued, dn, an)
    requires forall j :: 0 <= j < |dn.items| && !IsLocal(dn.items[j].id) ==> dn.items[j].id in ItemIds(OrigItems(origMap, dn.planId))
    requires forall x :: x in Written(es) ==> DayWrites(x, dn, an, origMap)
    requires dn.planId != "" && dk.planId != "" ==> dn.planId != dk.planId
    requires y in t.issued
    requires IsLocal(b) ==> y !in s0.issued
    requires !IsLocal(b) ==> y == b && b in ItemIds(OrigItems(origMap, dk.planId))
    ensures ItemDocOf(y) !in Written(es)
  {
    if !IsLocal(b) {
      SavedItemStored(v, s0, origMap, dk.planId, b, none);
    }
    SavedItemsStored(v, s0, origMap, dn.planId, none);
    forall i | 0 <= i < |an.items| ensures an.items[i].id != y {
      assert ItemShape(dn.items[i], an.items[i]);
    }
    assert y !in ItemIds(an.items);
    if an.planId in origMap {
      SavedPlanStored(v, s0, origMap, an.planId, none);
    }
    SavedItemsStored(v, s0, origMap, an.planId, none);
    assert y !in StaleItemIds(OrigItems(origMap, an.planId), dn.items);
  }

  /** A day no write of `es` touches stays held. */
  lemma DayKept<R>(v: Variant, s: StoreState<R>, es: seq<Entry<R>>, d: DayPlan<R>, none: R)
    requires DayHolds(v, s, d, none)
    requires PlanDocOf(d.planId) !in Written(es)
    requires forall j :: 0 <= j < |d.items| ==> ItemDocOf(d.items[j].id) !in Written(es)
    ensures DayHolds(v, Replay(s, es), d, none)
  {
    ReplayFrame(s, es);
    assert PlanAt(Replay(s, es), d.planId) == PlanAt(s, d.planId);
    forall j | 0 <= j < |d.items| ensures ItemHolds(Replay(s, es), d.items[j], none) {
      assert ItemAt(Replay(s, es), d.items[j].id) == ItemAt(s, d.items[j].id);
    }
  }

  /** A day whose saved documents no write of `es` touches stays pending. */
  lemma PendingKept<R>(s0: StoreState<R>, s: StoreState<R>, es: seq<Entry<R>>, d: DayPlan<R>)
    requires Pending(s0, s, d)
    requires d.planId != "" ==> PlanDocOf(d.planId) !in Written(es)
    requires forall j :: 0 <= j < |d.items| && !IsLocal(d.items[j].id) ==> ItemDocOf(d.items[j].id) !in Written(es)
    ensures Pending(s0, Replay(s, es), d)
  {
    ReplayFrame(s, es);
  }

  // Day by day.

  /**
   * A completed day loop over the edited days `before` (saved as `after`, written as `ts`), from a
   * store `s0` that holds the saved days.
   */
  ghost predicate DaysContext<R>(
    v: Variant, s0: StoreState<R>, original: seq<DayPlan<R>>, before: seq<DayPlan<R>>, after: seq<DayPlan<R>>,
    ts: seq<DayTrace<R>>, perms: Perms, none: R)
  {
    && SavedIn(v, s0, DayMap(original), none) && MapItemsApart(DayMap(original)) && EditedFrom(before, original)
    && SameShape(before, after) && |ts| == |before|
    && forall k :: 0 <= k < |before| ==> DayTraceFits(v, ts[k], before[k], after[k], k, DayMap(original), perms, none)
  }

  /**
   * After the first `n` days were written, from `s0` to `t`: those days are held at their
   * positions with fresh new ids, the others' saved documents are untouched, and so is the
   * itinerary `id`.
   */
  ghost predicate DaysSoFar<R>(
    v: Variant, s0: StoreState<R>, t: StoreState<R>, id: string, before: seq<DayPlan<R>>, after: seq<DayPlan<R>>,
    n: nat, none: R)
  {
    && n <= |before| && |after| == |before|
    && KeysIssued(t) && s0.issued <= t.issued && ItineraryAt(t, id) == ItineraryAt(s0, id)
    && (forall k :: 0 <= k < n ==> DayHolds(v, t, after[k].(dayNumber := k + 1), none) && Fresh(s0.issued, before[k], after[k]))
    && forall k :: n <= k < |before| ==> Pending(s0, t, before[k])
  }

  /** The writes `es` for day `n` leave an earlier day `k` held. */
  lemma HeldAcross<R>(
    v: Variant, s0: StoreState<R>, t: StoreState<R>, original: seq<DayPlan<R>>, before: seq<DayPlan<R>>,
    after: seq<DayPlan<R>>, ts: seq<DayTrace<R>>, perms: Perms, none: R, es: seq<Entry<R>>, n: nat, k: nat)
    requires DaysContext(v, s0, original, before, after, ts, perms, none) && k < n < |before|
    requires KeysIssued(t) && s0.issued <= t.issued
    requires DayHolds(v, t, after[k].(dayNumber := k + 1), none) && Fresh(s0.issued, before[k], after[k])
    requires Fresh(t.issued, before[n], after[n])
    requires forall x :: x in Written(es) ==> DayWrites(x, before[n], after[n], DayMap(original))
    ensures DayHolds(v, Replay(t, es), after[k].(dayNumber := k + 1), none)
  {
    var origMap, dn, an, dk, ak := DayMap(original), before[n], after[n], before[k], after[k];
    assert DayShape(dn, an) && DayShape(dk, ak);
    assert DayTraceFits(v, ts[n], dn, an, n, origMap, perms, none);
    assert DayTraceFits(v, ts[k], dk, ak, k, origMap, perms, none);
    PlanApart(v, s0, t, origMap, dn, an, dk, ak, es, none);
    forall j | 0 <= j < |ak.items| ensures ItemDocOf(ak.items[j].id) !in Written(es) {
      assert ItemShape(dk.items[j], ak.items[j]);
      assert ItemHolds(t, ak.items[j], none);
      ItemApart(v, s0, t, origMap, dn, an, dk, ak.items[j].id, dk.items[j].id, es, none);
    }
    DayKept(v, t, es, ak.(dayNumber := k + 1), none);
  }

  /** The writes `es` for day `n` leave the saved documents of a later day `k` untouched. */
  lemma PendingAcross<R>(
    v: Variant, s0: StoreState<R>, t: StoreState<R>, original: seq<DayPlan<R>>, before: seq<DayPlan<R>>,
    after: seq<DayPlan<R>>, ts: seq<DayTrace<R>>, perms: Perms, none: R, es: seq<Entry<R>>, n: nat, k: nat)
    requires DaysContext(v, s0, original, before, after, ts, perms, none) && n < k < |before|
    requires s0.issued <= t.issued && Pending(s0, t, before[k])
    requires Fresh(t.issued, before[n], after[n])
    requires forall x :: x in Written(es) ==> DayWrites(x, before[n], after[n], DayMap(original))
    ensures Pending(s0, Replay(t, es), before[k])
  {
    var origMap, dn, an, dk, ak := DayMap(original), before[n], after[n], before[k], after[k];
    assert DayShape(dn, an) && DayShape(dk, ak);
    assert DayTraceFits(v, ts[n], dn, an, n, origMap, perms, none);
    assert DayTraceFits(v, ts[k], dk, ak, k, origMap, perms, none);
    if dk.planId != "" {
      SavedPlanStored(v, s0, origMap, dk.planId, none);
      PlanApart(v, s0, t, origMap, dn, an, dk, ak, es, none);
    }
    forall j | 0 <= j < |dk.items| && !IsLocal(dk.items[j].id) ensures ItemDocOf(dk.items[j].id) !in Written(es) {
      var b := dk.items[j].id;
      SavedItemStored(v, s0, origMap, dk.planId, b, none);
      ItemApart(v, s0, t, origMap, dn, an, dk, b, b, es, none);
    }
    PendingKept(s0, t, es, dk);
  }

  lemma FreshWithin<R>(small: set<string>, big: set<string>, d: DayPlan<R>, a: DayPlan<R>)
    requires small <= big && Fresh(big, d, a)
    ensures Fresh(small, d, a)
  {
  }

  /** Day `n` is ready to be written once the days before it were. */
  lemma ReadyAt<R>(
    v: Variant, s0: StoreState<R>, t: StoreState<R>, id: string, original: seq<DayPlan<R>>, before: seq<DayPlan<R>>,
    after: seq<DayPlan<R>>, ts: seq<DayTrace<R>>, perms: Perms, none: R, n: nat)
    requires DaysContext(v, s0, original, before, after, ts, perms, none)
    requires DaysSoFar(v, s0, t, id, before, after, n, none) && n < |before|
    ensures DayReady(v, t, ts[n], before[n], after[n], n, DayMap(original), perms, s0, none)
  {
    assert DayShape(before[n], after[n]);
  }

  /** The writes `es` for day `n` leave the earlier days held and the later ones untouched. */
  lemma OthersKept<R>(
    v: Variant, s0: StoreState<R>, t: StoreState<R>, id: string, original: seq<DayPlan<R>>, before: seq<DayPlan<R>>,
    after: seq<DayPlan<R>>, ts: seq<DayTrace<R>>, perms: Perms, none: R, es: seq<Entry<R>>, n: nat)
    requires DaysContext(v, s0, original, before, after, ts, perms, none)
    requires DaysSoFar(v, s0, t, id, before, after, n, none) && n < |before|
    requires Fresh(t.issued, before[n], after[n])
    requires forall x :: x in Written(es) ==> DayWrites(x, before[n], after[n], DayMap(original))
    ensures forall k :: 0 <= k < n ==> DayHolds(v, Replay(t, es), after[k].(dayNumber := k + 1), none)
    ensures forall k :: n < k < |before| ==> Pending(s0, Replay(t, es), before[k])
  {
    forall k | 0 <= k < n
      ensures DayHolds(v, Replay(t, es), after[k].(dayNumber := k + 1), none)
    {
      HeldAcross(v, s0, t, original, before, after, ts, perms, none, es, n, k);
    }
    forall k | n < k < |before|
      ensures Pending(s0, Replay(t, es), before[k])
    {
      PendingAcross(v, s0, t, original, before, after, ts, perms, none, es, n, k);
    }
  }

  /** The invariant one day further, from its parts. */
  lemma SoFarNext<R>(
    v: Variant, s0: StoreState<R>, t: StoreState<R>, t2: StoreState<R>, id: string, before: seq<DayPlan<R>>,
    after: seq<DayPlan<R>>, n: nat, none: R)
    requires DaysSoFar(v, s0, t, id, before, after, n, none) && n < |before|
    requires KeysIssued(t2) && t.issued <= t2.issued && ItineraryAt(t2, id) == ItineraryAt(t, id)
    requires forall k :: 0 <= k < n ==> DayHolds(v, t2, after[k].(dayNumber := k + 1), none)
    requires DayHolds(v, t2, after[n].(dayNumber := n + 1), none) && Fresh(s0.issued, before[n], after[n])
    requires forall k :: n < k < |before| ==> Pending(s0, t2, before[k])
    ensures DaysSoFar(v, s0, t2, id, before, after, n + 1, none)
  {
  }

  /** Writing day `n` keeps the day-loop invariant, one day further. */
  lemma DayStep<R>(
    v: Variant, s0: StoreState<R>, t: StoreState<R>, id: string, original: seq<DayPlan<R>>, before: seq<DayPlan<R>>,
    after: seq<DayPlan<R>>, ts: seq<DayTrace<R>>, perms: Perms, none: R, n: nat)
    requires DaysContext(v, s0, original, before, after, ts, perms, none)
    requires DaysSoFar(v, s0, t, id, before, after, n, none) && n < |before|
    requires LegalLog(t, FlatDay(ts[n]))
    ensures DaysSoFar(v, s0, Replay(t, FlatDay(ts[n])), id, before, after, n + 1, none)
  {
    var es := FlatDay(ts[n]);
    ReadyAt(v, s0, t, id, original, before, after, ts, perms, none, n);
    DayResult(v, t, ts[n], before[n], after[n], n, DayMap(original), perms, s0, none);
    ReplayFrame(t, es);
    FreshWithin(s0.issued, t.issued, before[n], after[n]);
    OthersKept(v, s0, t, id, original, before, after, ts, perms, none, es, n);
    assert ItineraryDocOf(id) !in Written(es);
    SoFarNext(v, s0, t, Replay(t, es), id, before, after, n, none);
  }

  // The whole run.

  /**
   * The deletes of the removed plans miss every document `x` outside them: another plan, an item
   * none of the removed plans lists, any itinerary.
   */
  lemma {:induction false} DeletionsMiss<R>(dels: seq<PlanDeletion<R>>, pids: seq<string>, s0: StoreState<R>, x: Target)
    requires DeletionsFit(pids, dels) && DeletionsRead(dels, s0)
    requires x.PlanDocOf? ==> x.planId !in pids
    requires x.ItemDocOf? ==> forall p :: p in pids && p in s0.plans ==> x.itemId !in s0.plans[p].items
    ensures x !in Written(FlatDeletions(dels))
    decreases |dels|
  {
    if dels != [] {
      var n := |dels| - 1;
      var d := dels[n];
      assert DeletionsFit(pids[..n], dels[..n]);
      assert DeletionsRead(dels[..n], s0) by {
        forall k | 0 <= k < n && dels[..n][k].read.Some?
          ensures dels[..n][k].planId in s0.plans && dels[..n][k].read.value == NonEmptyIds(s0.plans[dels[..n][k].planId].items)
        {
          assert dels[..n][k] == dels[k];
        }
      }
      assert forall p :: p in pids[..n] ==> p in pids;
      DeletionsMiss(dels[..n], pids[..n], s0, x);
      WrittenAppend(FlatDeletions(dels[..n]), d.entries);
      DeletionMiss(d, s0, x);
    }
  }

  /** The deletes for one removed plan miss every document outside it and the items it lists. */
  lemma DeletionMiss<R>(d: PlanDeletion<R>, s0: StoreState<R>, x: Target)
    requires DeletionShape(d)
    requires d.read.Some? ==> d.planId in s0.plans && d.read.value == NonEmptyIds(s0.plans[d.planId].items)
    requires x.PlanDocOf? ==> x.planId != d.planId
    requires x.ItemDocOf? && d.planId in s0.plans ==> x.itemId !in s0.plans[d.planId].items
    ensures x !in Written(d.entries)
  {
    forall j | 0 <= j < |d.entries| ensures x !in Touched(d.entries[j]) {
      if d.read.Some? && j < |d.read.value| {
        assert d.read.value[j] in d.read.value;
      }
    }
    NotWritten(d.entries, x);
  }

  /** A removed saved plan `p` does not list the items of another saved plan `q`. */
  lemma RemovedPlanApart<R>(
    v: Variant, s0: StoreState<R>, origMap: map<string, DayPlan<R>>, p: string, q: string, b: string, none: R)
    requires SavedIn(v, s0, origMap, none) && MapItemsApart(origMap)
    requires p in origMap && q in origMap && p != q && b in ItemIds(OrigItems(origMap, q))
    ensures b !in s0.plans[p].items
  {
    assert PlanHolds(v, s0.plans[p], origMap[p]);
  }

  /** The deletes of the removed plans leave the saved documents of edited day `k` alone. */
  lemma DeletionsKeepDay<R>(
    v: Variant, s0: StoreState<R>, original: seq<DayPlan<R>>, before: seq<DayPlan<R>>,
    after: seq<DayPlan<R>>, ts: seq<DayTrace<R>>, dels: seq<PlanDeletion<R>>, perms: Perms, none: R, k: nat)
    requires DaysContext(v, s0, original, before, after, ts, perms, none) && k < |before|
    requires DeletionsFit(DeletedPlanIds(original, before), dels) && DeletionsRead(dels, s0)
    ensures Pending(s0, Replay(s0, FlatDeletions(dels)), before[k])
  {
    var origMap, pids, es, dk := DayMap(original), DeletedPlanIds(original, before), FlatDeletions(dels), before[k];
    assert DayTraceFits(v, ts[k], dk, after[k], k, origMap, perms, none);
    if dk.planId != "" {
      DeletionsMiss(dels, pids, s0, PlanDocOf(dk.planId));
    }
    forall j | 0 <= j < |dk.items| && !IsLocal(dk.items[j].id) ensures ItemDocOf(dk.items[j].id) !in Written(es) {
      var b := dk.items[j].id;
      SavedItemStored(v, s0, origMap, dk.planId, b, none);
      assert dk.planId in PlanIds(before);
      forall p | p in pids && p in s0.plans ensures b !in s0.plans[p].items {
        RemovedPlanApart(v, s0, origMap, p, dk.planId, b, none);
      }
      DeletionsMiss(dels, pids, s0, ItemDocOf(b));
    }
    PendingKept(s0, s0, es, dk);
  }

  /** The deletes of the removed plans leave every edited day's saved documents and the itinerary alone. */
  lemma DeletionsPhase<R>(
    v: Variant, s0: StoreState<R>, id: string, original: seq<DayPlan<R>>, before: seq<DayPlan<R>>,
    after: seq<DayPlan<R>>, ts: seq<DayTrace<R>>, dels: seq<PlanDeletion<R>>, perms: Perms, none: R)
    requires DaysContext(v, s0, original, before, after, ts, perms, none)
    requires DeletionsFit(DeletedPlanIds(original, before), dels) && DeletionsRead(dels, s0)
    ensures DaysSoFar(v, s0, Replay(s0, FlatDeletions(dels)), id, before, after, 0, none)
  {
    ReplayFrame(s0, FlatDeletions(dels));
    DeletionsMiss(dels, DeletedPlanIds(original, before), s0, ItineraryDocOf(id));
    forall k | 0 <= k < |before| ensures Pending(s0, Replay(s0, FlatDeletions(dels)), before[k]) {
      DeletionsKeepDay(v, s0, original, before, after, ts, dels, perms, none, k);
    }
  }

  /** The first `n` days of the loop, written from `t0`, keep the day-loop invariant. */
  lemma {:induction false} DaysPhase<R>(
    v: Variant, s0: StoreState<R>, t0: StoreState<R>, id: string, original: seq<DayPlan<R>>, before: seq<DayPlan<R>>,
    after: seq<DayPlan<R>>, ts: seq<DayTrace<R>>, perms: Perms, none: R, n: nat)
    requires DaysContext(v, s0, original, before, after, ts, perms, none) && n <= |ts|
    requires DaysSoFar(v, s0, t0, id, before, after, 0, none)
    requires LegalLog(t0, FlatDays(ts[..n]))
    ensures DaysSoFar(v, s0, Replay(t0, FlatDays(ts[..n])), id, before, after, n, none)
    decreases n
  {
    if n != 0 {
      var k := n - 1;
      assert ts[..n][..k] == ts[..k];
      assert FlatDays(ts[..n]) == FlatDays(ts[..k]) + FlatDay(ts[k]);
      ReplayAppend(t0, FlatDays(ts[..k]), FlatDay(ts[k]));
      DaysPhase(v, s0, t0, id, original, before, after, ts, perms, none, k);
      DayStep(v, s0, Replay(t0, FlatDays(ts[..k])), id, original, before, after, ts, perms, none, k);
    }
  }

  /** A store that holds the saved graph holds each saved day, found by its plan id. */
  lemma SavedInHolds<R>(v: Variant, s0: StoreState<R>, id: string, original: seq<DayPlan<R>>, none: R)
    requires Holds(v, s0, id, original, none) && KeysIssued(s0)
    ensures SavedIn(v, s0, DayMap(original), none)
  {
    var m := DayMap(original);
    forall p | p in m ensures DayHolds(v, s0, m[p], none) {
      var k :| 0 <= k < |original| && original[k] == m[p];
    }
  }

  /** In a saved graph no item id is listed by two days, so neither by two plan ids. */
  lemma SavedItemsApart<R>(original: seq<DayPlan<R>>)
    requires SavedGraph(original)
    ensures MapItemsApart(DayMap(original))
  {
    var m := DayMap(original);
    forall p, q, x | p in m && q in m && x in ItemIds(OrigItems(m, p)) && x in ItemIds(OrigItems(m, q))
      ensures p == q
    {
      var k1 :| 0 <= k1 < |original| && original[k1] == m[p];
      var k2 :| 0 <= k2 < |original| && original[k2] == m[q];
      var j1 :| 0 <= j1 < |m[p].items| && ItemIds(m[p].items)[j1] == x;
      var j2 :| 0 <= j2 < |m[q].items| && ItemIds(m[q].items)[j2] == x;
      assert original[k1].items[j1].id == original[k2].items[j2].id;
    }
  }

  /** With every day saved, numbering the days by position keeps their plan ids. */
  lemma RenumberPlanIds<R>(after: seq<DayPlan<R>>)
    requires forall k :: 0 <= k < |after| ==> after[k].planId != ""
    ensures PlanIds(Renumber(after)) == PlanIds(after)
  {
    PlanIdsAllSaved(after);
    PlanIdsAllSaved(Renumber(after));
  }

  /** The write of the day list, when the ids changed: the itinerary then lists `ids`, nothing else changes. */
  lemma DayListWrite<R>(t: StoreState<R>, id: string, saved: seq<string>, ids: seq<string>, w: seq<Entry<R>>)
    requires id in t.itineraries && t.itineraries[id].days == saved
    requires w == if saved != ids then [Entry(SetItineraryDays(id, ids), true)] else []
    ensures var u := Replay(t, w);
      u.plans == t.plans && u.items == t.items && id in u.itineraries && u.itineraries[id].days == ids
  {
    if w != [] {
      ReplaySingle(t, w[0]);
    }
  }

  /** Whether a day is held depends only on the plans and the items. */
  lemma DayHoldsSameDocs<R>(v: Variant, t: StoreState<R>, u: StoreState<R>, d: DayPlan<R>, none: R)
    requires DayHolds(v, t, d, none) && u.plans == t.plans && u.items == t.items
    ensures DayHolds(v, u, d, none)
  {
  }

  /** The write of the day list: the itinerary then lists the saved days, in order. */
  lemma FinalPhase<R>(
    v: Variant, s0: StoreState<R>, t: StoreState<R>, id: string, original: seq<DayPlan<R>>, before: seq<DayPlan<R>>,
    after: seq<DayPlan<R>>, w: seq<Entry<R>>, none: R)
    requires Holds(v, s0, id, original, none) && NoLocalIds(after)
    requires DaysSoFar(v, s0, t, id, before, after, |before|, none)
    requires w == if PlanIds(original) != PlanIds(after) then [Entry(SetItineraryDays(id, PlanIds(after)), true)] else []
    ensures Holds(v, Replay(t, w), id, Renumber(after), none)
  {
    RenumberPlanIds(after);
    assert ItineraryAt(t, id) == ItineraryAt(s0, id);
    DayListWrite(t, id, PlanIds(original), PlanIds(after), w);
    forall k | 0 <= k < |after| ensures DayHolds(v, Replay(t, w), Renumber(after)[k], none) {
      DayHoldsSameDocs(v, t, Replay(t, w), after[k].(dayNumber := k + 1), none);
    }
  }

  /** A completed run from a store holding the saved graph is a completed day loop in context. */
  lemma RunContext<R>(
    v: Variant, id: string, original: seq<DayPlan<R>>, before: seq<DayPlan<R>>, after: seq<DayPlan<R>>,
    run: RunTrace<R>, none: R, s0: StoreState<R>, s1: StoreState<R>)
    requires Holds(v, s0, id, original, none) && KeysIssued(s0) && SavedGraph(original) && EditedFrom(before, original)
    requires StartedFits(v, id, original, before, after, true, run, none, s0, s1)
    ensures DaysContext(v, s0, original, before, after, run.days, run.perms, none)
  {
    SavedInHolds(v, s0, id, original, none);
    SavedItemsApart(original);
  }

  /** A legal run, phase by phase: the deletes, the day loop, the day list. */
  lemma RunPhases<R>(s0: StoreState<R>, s1: StoreState<R>, run: RunTrace<R>)
    requires s1 == Replay(s0, FlatRun(run)) && LegalLog(s0, FlatRun(run))
    ensures var t0 := Replay(s0, FlatDeletions(run.deletions));
      && LegalLog(t0, FlatDays(run.days[..|run.days|]))
      && s1 == Replay(Replay(t0, FlatDays(run.days[..|run.days|])), run.final)
  {
    var dl, dd := FlatDeletions(run.deletions), FlatDays(run.days);
    assert FlatRun(run) == dl + dd + run.final;
    ReplayAppend(s0, dl + dd, run.final);
    ReplayAppend(s0, dl, dd);
    assert run.days[..|run.days|] == run.days;
  }

  /** The run, phase by phase, from the facts a completed run establishes. */
  lemma CompletedRun<R>(
    v: Variant, id: string, original: seq<DayPlan<R>>, before: seq<DayPlan<R>>, after: seq<DayPlan<R>>,
    run: RunTrace<R>, none: R, s0: StoreState<R>, s1: StoreState<R>)
    requires Holds(v, s0, id, original, none) && NoLocalIds(after)
    requires DaysContext(v, s0, original, before, after, run.days, run.perms, none)
    requires DeletionsFit(DeletedPlanIds(original, before), run.deletions) && DeletionsRead(run.deletions, s0)
    requires run.final == if PlanIds(original) != PlanIds(after) then [Entry(SetItineraryDays(id, PlanIds(after)), true)] else []
    requires s1 == Replay(s0, FlatRun(run)) && LegalLog(s0, FlatRun(run))
    ensures Holds(v, s1, id, Renumber(after), none)
  {
    var t0 := Replay(s0, FlatDeletions(run.deletions));
    RunPhases(s0, s1, run);
    DeletionsPhase(v, s0, id, original, before, after, run.days, run.deletions, run.perms, none);
    DaysPhase(v, s0, t0, id, original, before, after, run.days, run.perms, none, |run.days|);
    FinalPhase(v, s0, Replay(t0, FlatDays(run.days[..|run.days|])), id, original, before, after, run.final, none);
  }

  /**
   * What a completed run of `updateItineraryGraphPartial` leaves in the store: when `s0` held
   * the saved graph `original` of itinerary `id` and the editor's edits turned it into `before`,
   * the store afterwards holds the edited graph with its new ids written back (`after`), every
   * day numbered by its position, and the itinerary lists exactly those days in order.
   */
  lemma SavedRunHolds<R>(
    v: Variant, id: string, original: seq<DayPlan<R>>, before: seq<DayPlan<R>>, after: seq<DayPlan<R>>,
    run: RunTrace<R>, none: R, s0: StoreState<R>, s1: StoreState<R>)
    requires Holds(v, s0, id, original, none) && KeysIssued(s0) && SavedGraph(original) && EditedFrom(before, original)
    requires StartedFits(v, id, original, before, after, true, run, none, s0, s1)
    ensures Holds(v, s1, id, Renumber(after), none)
  {
    RunContext(v, id, original, before, after, run, none, s0, s1);
    CompletedRun(v, id, original, before, after, run, none, s0, s1);
  }

  lemma ItemIdsLast<R>(items: seq<DayItem<R>>)
    requires items != []
    ensures ItemIds(items) == ItemIds(items[..|items| - 1]) + [items[|items| - 1].id]
  {
  }
}
