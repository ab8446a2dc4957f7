/**
 * The pure decisions of the diff-based reconciler (`updateItineraryGraphPartial` in both
 * editors): which plans and items were removed, whether a day or an item differs from its
 * saved version, what a write carries and which permissions a created document gets.
 */
module Diff {
  import opened Common
  import opened Graph
  import opened Store

  /**
   * `Current` is ItineraryEditor.tsx; `Backup` is ItineraryEditor_bkp.tsx, which also writes
   * and compares `date` and gives created documents the parent itinerary's permissions.
   */
  datatype Variant = Current | Backup

  predicate NoDup(xs: seq<string>) {
    forall i, j :: 0 <= i < j < |xs| ==> xs[i] != xs[j]
  }

  /** `days.filter(d => d.planId).map(d => d.planId!)`. */
  function PlanIds<R>(days: seq<DayPlan<R>>): (ids: seq<string>)
    ensures |ids| <= |days|
    ensures forall k :: 0 <= k < |ids| ==> ids[k] != ""
    ensures forall k :: 0 <= k < |days| && days[k].planId != "" ==> days[k].planId in ids
    ensures forall x :: x in ids ==> exists k :: 0 <= k < |days| && days[k].planId == x
  {
    if days == [] then []
    else
      var init := days[..|days| - 1];
      var d := days[|days| - 1];
      assert forall k :: 0 <= k < |init| ==> init[k] == days[k];
      PlanIds(init) + (if d.planId == "" then [] else [d.planId])
  }

  /** With every day saved, the plan ids are exactly the days' ids in day order. */
  lemma {:induction false} PlanIdsAllSaved<R>(days: seq<DayPlan<R>>)
    requires forall k :: 0 <= k < |days| ==> days[k].planId != ""
    ensures |PlanIds(days)| == |days|
    ensures forall k :: 0 <= k < |days| ==> PlanIds(days)[k] == days[k].planId
  {
    if days != [] {
      var init := days[..|days| - 1];
      PlanIdsAllSaved(init);
      assert PlanIds(days) == PlanIds(init) + [days[|days| - 1].planId];
      forall k | 0 <= k < |days| ensures PlanIds(days)[k] == days[k].planId {
        if k < |init| {
          assert init[k] == days[k];
        }
      }
    }
  }

  /** The keys of an object filled in the order of `xs`: first occurrences, in order. */
  function Distinct(xs: seq<string>): (r: seq<string>)
    ensures forall x :: x in r <==> x in xs
  {
    if xs == [] then []
    else
      var init := xs[..|xs| - 1];
      assert xs == init + [xs[|xs| - 1]];
      var r := Distinct(init);
      if xs[|xs| - 1] in r then r else r + [xs[|xs| - 1]]
  }

  lemma {:induction false} DistinctNoDup(xs: seq<string>)
    ensures NoDup(Distinct(xs))
  {
    if xs != [] {
      var init := xs[..|xs| - 1];
      assert xs == init + [xs[|xs| - 1]];
      DistinctNoDup(init);
    }
  }

  /** `xs.filter(x => !ys.includes(x))`. */
  function Without(xs: seq<string>, ys: seq<string>): (r: seq<string>)
    ensures |r| <= |xs|
    ensures forall x :: x in r <==> x in xs && x !in ys
  {
    if xs == [] then []
    else (if xs[0] in ys then [] else [xs[0]]) + Without(xs[1..], ys)
  }

  lemma {:induction false} WithoutNoDup(xs: seq<string>, ys: seq<string>)
    requires NoDup(xs)
    ensures NoDup(Without(xs, ys))
  {
    if xs != [] {
      WithoutNoDup(xs[1..], ys);
    }
  }

  /** `ids.filter(id => !id.startsWith('local-'))`. */
  function NonLocal(xs: seq<string>): (r: seq<string>)
    ensures forall x :: x in r <==> x in xs && !IsLocal(x)
  {
    if xs == [] then []
    else (if IsLocal(xs[0]) then [] else [xs[0]]) + NonLocal(xs[1..])
  }

  lemma {:induction false} NonLocalNoDup(xs: seq<string>)
    requires NoDup(xs)
    ensures NoDup(NonLocal(xs))
  {
    if xs != [] {
      NonLocalNoDup(xs[1..]);
    }
  }

  /** The plans of the saved snapshot that are no longer in the edited graph, each once. */
  function DeletedPlanIds<R>(original: seq<DayPlan<R>>, current: seq<DayPlan<R>>): (r: seq<string>)
    ensures forall x :: x in r <==> x in PlanIds(original) && x !in PlanIds(current)
  {
    Without(Distinct(PlanIds(original)), PlanIds(current))
  }

  /** No removed plan is deleted twice. */
  lemma DeletedPlanIdsNoDup<R>(original: seq<DayPlan<R>>, current: seq<DayPlan<R>>)
    ensures NoDup(DeletedPlanIds(original, current))
  {
    DistinctNoDup(PlanIds(original));
    WithoutNoDup(Distinct(PlanIds(original)), PlanIds(current));
  }

  /** `originalDayMap`: saved days by plan id; a later day with the same id wins. */
  function DayMap<R>(days: seq<DayPlan<R>>): (m: map<string, DayPlan<R>>)
    ensures forall x :: x in m <==> x in PlanIds(days)
    ensures forall x :: x in m ==> m[x].planId == x && m[x] in days
  {
    if days == [] then map[]
    else
      var init := days[..|days| - 1];
      var d := days[|days| - 1];
      assert days == init + [d];
      var m := DayMap(init);
      assert PlanIds(days) == PlanIds(init) + (if d.planId == "" then [] else [d.planId]);
      if d.planId == "" then m else m[d.planId := d]
  }

  /** Saved plan ids are distinct. */
  predicate DistinctPlanIds<R>(days: seq<DayPlan<R>>) {
    forall i, j :: 0 <= i < j < |days| && days[i].planId != "" ==> days[i].planId != days[j].planId
  }

  /** With distinct plan ids, looking a day up by its plan id finds that very day. */
  lemma {:induction false} DayMapFinds<R>(days: seq<DayPlan<R>>, k: nat)
    requires DistinctPlanIds(days) && k < |days| && days[k].planId != ""
    ensures days[k].planId in DayMap(days) && DayMap(days)[days[k].planId] == days[k]
  {
    var init := days[..|days| - 1];
    assert DistinctPlanIds(init);
    if k < |days| - 1 {
      DayMapFinds(init, k);
    }
  }

  /** `origItemMap`: saved items by id; a later item with the same id wins. */
  function ItemMap<R>(items: seq<DayItem<R>>): (m: map<string, DayItem<R>>)
    ensures forall x :: x in m <==> x in ItemIds(items)
    ensures forall x :: x in m ==> m[x].id == x && m[x] in items
  {
    if items == [] then map[]
    else
      var init := items[..|items| - 1];
      var it := items[|items| - 1];
      assert items == init + [it];
      assert ItemIds(items) == ItemIds(init) + [it.id];
      ItemMap(init)[it.id := it]
  }

  predicate DistinctItemIds<R>(items: seq<DayItem<R>>) {
    forall i, j :: 0 <= i < j < |items| ==> items[i].id != items[j].id
  }

  lemma {:induction false} ItemMapFinds<R>(items: seq<DayItem<R>>, k: nat)
    requires DistinctItemIds(items) && k < |items|
    ensures items[k].id in ItemMap(items) && ItemMap(items)[items[k].id] == items[k]
  {
    var init := items[..|items| - 1];
    assert DistinctItemIds(init);
    if k < |items| - 1 {
      ItemMapFinds(init, k);
    }
  }

  function Lookup<R>(m: map<string, DayItem<R>>, id: string): Option<DayItem<R>> {
    if id in m then Some(m[id]) else None
  }

  /** The saved, non-local item ids of a day that the edited day no longer holds, each once. */
  function StaleItemIds<R>(origItems: seq<DayItem<R>>, items: seq<DayItem<R>>): (r: seq<string>)
    ensures forall x :: x in r <==> x in ItemIds(origItems) && x !in ItemIds(items) && !IsLocal(x)
  {
    NonLocal(Without(Distinct(ItemIds(origItems)), ItemIds(items)))
  }

  /** No removed item is deleted twice. */
  lemma StaleItemIdsNoDup<R>(origItems: seq<DayItem<R>>, items: seq<DayItem<R>>)
    ensures NoDup(StaleItemIds(origItems, items))
  {
    DistinctNoDup(ItemIds(origItems));
    WithoutNoDup(Distinct(ItemIds(origItems)), ItemIds(items));
    NonLocalNoDup(Without(Distinct(ItemIds(origItems)), ItemIds(items)));
  }

  /** A day's stored fields differ from the saved version (`date` only in the backup editor). */
  predicate DayNeedsUpdate<R>(v: Variant, orig: DayPlan<R>, d: DayPlan<R>, idx: nat) {
    orig.dayNumber != idx + 1
    || (v == Backup && orig.date != d.date)
    || orig.title != d.title
    || orig.summary != d.summary
  }

  /**
   * A day edited only in its date: the current editor neither updates it nor sends the date,
   * the backup editor updates it exactly when the date differs from the saved one.
   */
  lemma DateComparedOnlyInBackup<R>(orig: DayPlan<R>, d: DayPlan<R>, idx: nat)
    requires d == orig.(date := d.date) && orig.dayNumber == idx + 1
    ensures !DayNeedsUpdate(Current, orig, d, idx)
    ensures DayNeedsUpdate(Backup, orig, d, idx) <==> orig.date != d.date
    ensures DayFields(Current, d, idx) == DayFields(Current, orig, idx)
  {
  }

  /** The fields a day write carries: its position as `dayNumber` and its form fields. */
  function DayFields<R>(v: Variant, d: DayPlan<R>, idx: nat): (f: PlanFields)
    ensures f.dayNumber == idx + 1 && f.title == d.title && f.summary == d.summary
    ensures f.date == if v == Backup then Some(d.date) else None
  {
    PlanFields(idx + 1, if v == Backup then Some(d.date) else None, d.title, d.summary)
  }

  /** An item differs from its saved version, or has none. */
  predicate ItemNeedsUpdate<R(==)>(orig: Option<DayItem<R>>, it: DayItem<R>) {
    match orig
    case None => true
    case Some(o) =>
      o.kind != it.kind || o.title != it.title || o.description != it.description
      || o.refActivity != it.refActivity || o.refHotel != it.refHotel
  }

  predicate FieldsExclusive<R(==)>(f: ItemFields<R>, none: R) {
    && (f.kind != Activity ==> f.refActivity == none)
    && (f.kind != Stay ==> f.refHotel == none)
    && (f.kind == Activity || f.kind == Stay ==> f.title == "" && f.description == "")
  }

  /** An item the form can produce: only its own kind's reference, free text only for other kinds. */
  predicate WellFormedItem<R(==)>(it: DayItem<R>, none: R) {
    KindExclusive(it, none) && (it.kind == Activity || it.kind == Stay ==> it.title == "" && it.description == "")
  }

  function AsFields<R>(it: DayItem<R>): ItemFields<R> {
    ItemFields(it.kind, it.title, it.description, it.refActivity, it.refHotel)
  }

  /**
   * The item write: the reference of the item's own kind, the empty reference for the other,
   * and free text only for kinds other than Activity and Stay.
   */
  function ItemPayload<R(==)>(it: DayItem<R>, none: R): (f: ItemFields<R>)
    ensures FieldsExclusive(f, none)
    ensures f.kind == it.kind
    ensures it.kind == Activity ==> f.refActivity == it.refActivity
    ensures it.kind == Stay ==> f.refHotel == it.refHotel
    ensures it.kind != Activity && it.kind != Stay ==> f.title == it.title && f.description == it.description
    ensures WellFormedItem(it, none) ==> f == AsFields(it)
  {
    var plain := it.kind == Activity || it.kind == Stay;
    ItemFields(it.kind,
               if plain then "" else it.title,
               if plain then "" else it.description,
               if it.kind == Activity then it.refActivity else none,
               if it.kind == Stay then it.refHotel else none)
  }

  /** After any change of kind in the form, the store receives exactly what the form shows. */
  lemma KindSwitchPayloadFaithful<R>(it: DayItem<R>, k: ItemKind, none: R)
    ensures WellFormedItem(ApplyEdit(it, SetKind(k), none), none)
    ensures ItemPayload(ApplyEdit(it, SetKind(k), none), none) == AsFields(ApplyEdit(it, SetKind(k), none))
  {
  }

  /** `parent.$permissions` when it is a non-empty list, otherwise the users triple. */
  function InheritedPerms(parent: Perms): (p: Perms)
    ensures |p| > 0
    ensures |parent| > 0 ==> p == parent
    ensures parent == [] ==> p == DefaultPerms
  {
    if |parent| > 0 then parent else DefaultPerms
  }

  /** The permissions every document created by one reconciler run carries. */
  function CreatePerms(v: Variant, parent: Perms): (p: Perms)
    ensures |p| > 0
    ensures v == Current ==> p == DefaultPerms
    ensures v == Backup ==> p == InheritedPerms(parent)
  {
    if v == Current then DefaultPerms else InheritedPerms(parent)
  }

  /**
   * A graph as a successful save leaves it, provided the day numbers were already positional:
   * every day saved under a distinct id, every item saved under an id distinct within its day.
   */
  predicate Settled<R>(days: seq<DayPlan<R>>) {
    && Positional(days)
    && (forall k :: 0 <= k < |days| ==> days[k].planId != "")
    && DistinctPlanIds(days)
    && (forall k :: 0 <= k < |days| ==> DistinctItemIds(days[k].items))
    && (forall k, j :: 0 <= k < |days| && 0 <= j < |days[k].items| ==> !IsLocal(days[k].items[j].id))
  }

  lemma {:induction false} WithoutCovered(xs: seq<string>, ys: seq<string>)
    requires forall x :: x in xs ==> x in ys
    ensures Without(xs, ys) == []
  {
    if xs != [] {
      assert xs[0] in xs;
      WithoutCovered(xs[1..], ys);
    }
  }

  /** Against itself, no plan is removed. */
  lemma NothingDeletedAgainstSelf<R>(g: seq<DayPlan<R>>)
    ensures DeletedPlanIds(g, g) == []
  {
    WithoutCovered(Distinct(PlanIds(g)), PlanIds(g));
  }

  /** Against itself, no day of a settled graph differs from its saved version. */
  lemma NoDayChangeAgainstSelf<R>(v: Variant, g: seq<DayPlan<R>>, idx: nat)
    requires Settled(g) && idx < |g|
    ensures g[idx].planId in DayMap(g) && DayMap(g)[g[idx].planId] == g[idx]
    ensures !DayNeedsUpdate(v, g[idx], g[idx], idx)
  {
    DayMapFinds(g, idx);
  }

  /** Against itself, a day has no item to delete. */
  lemma NoStaleItemsAgainstSelf<R>(items: seq<DayItem<R>>)
    ensures StaleItemIds(items, items) == []
  {
    WithoutCovered(Distinct(ItemIds(items)), ItemIds(items));
  }

  /** Against itself, no item with an id distinct within its day differs from its saved version. */
  lemma NoItemChangeAgainstSelf<R>(items: seq<DayItem<R>>, j: nat)
    requires DistinctItemIds(items) && j < |items|
    ensures !ItemNeedsUpdate(Lookup(ItemMap(items), items[j].id), items[j])
  {
    ItemMapFinds(items, j);
  }
}
