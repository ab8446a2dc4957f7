/**
 * The pure part of loading an itinerary (ItineraryEditor.tsx): normalising relationship
 * attributes to id lists, ordering day plans by their stored day number, and ordering each
 * day's items by the plan's own list of item ids.
 */
module Loading {
  import opened Common
  import opened Graph

  /**
   * A relationship attribute as the store returns it. `Null` stands for null and undefined;
   * `Doc` is an expanded document, with its `$id` when it has one.
   */
  datatype RelValue =
    | Null
    | Bool(b: bool)
    | Num(n: int)
    | Str(s: string)
    | Arr(elems: seq<RelValue>)
    | Doc(docId: Option<string>)

  /** JavaScript truthiness (NaN is not modelled). */
  predicate Truthy(v: RelValue) {
    match v
    case Null => false
    case Bool(b) => b
    case Num(n) => n != 0
    case Str(s) => s != ""
    case Arr(_) => true
    case Doc(_) => true
  }

  /** `typeof r === 'string' ? r : r?.$id`, with "" for every value `filter(Boolean)` drops. */
  function ElemId(r: RelValue): string {
    match r
    case Str(s) => s
    case Doc(Some(id)) => id
    case _ => ""
  }

  /** `elems.map(ElemId).filter(Boolean)`. */
  function CollectIds(elems: seq<RelValue>): (ids: seq<string>)
    ensures |ids| <= |elems|
    ensures forall k :: 0 <= k < |ids| ==> ids[k] != ""
    ensures forall k :: 0 <= k < |elems| && ElemId(elems[k]) != "" ==> ElemId(elems[k]) in ids
  {
    if elems == [] then []
    else (if ElemId(elems[0]) == "" then [] else [ElemId(elems[0])]) + CollectIds(elems[1..])
  }

  /** One element: its id when it has a non-empty one, nothing otherwise. */
  lemma CollectIdsSingle(x: RelValue)
    ensures ElemId(x) == "" ==> CollectIds([x]) == []
    ensures ElemId(x) != "" ==> CollectIds([x]) == [ElemId(x)]
  {
    assert [x][1..] == [];
  }

  /** The filter keeps the order of the elements it keeps. */
  lemma {:induction false} CollectIdsAppend(a: seq<RelValue>, b: seq<RelValue>)
    ensures CollectIds(a + b) == CollectIds(a) + CollectIds(b)
  {
    if a == [] {
      assert a + b == b;
    } else {
      assert (a + b)[1..] == a[1..] + b;
      CollectIdsAppend(a[1..], b);
    }
  }

  /** `relIds`: ids of an array attribute, empty for anything that is not an array. */
  function RelIds(v: RelValue): (ids: seq<string>)
    ensures forall k :: 0 <= k < |ids| ==> ids[k] != ""
    ensures !v.Arr? ==> ids == []
    ensures v.Arr? ==> ids == CollectIds(v.elems)
  {
    if v.Arr? then CollectIds(v.elems) else []
  }

  /**
   * `toIdArray`: like `relIds` on arrays, and also accepts the legacy single-valued forms,
   * a non-empty string or one expanded document.
   */
  function ToIdArray(v: RelValue): (ids: seq<string>)
    ensures !Truthy(v) ==> ids == []
    ensures v.Arr? ==> ids == CollectIds(v.elems)
    ensures v.Str? && v.s != "" ==> ids == [v.s]
    ensures v.Doc? && v.docId.Some? ==> ids == [v.docId.value]
    ensures v.Doc? && v.docId.None? ==> ids == []
    ensures v.Bool? || v.Num? ==> ids == []
  {
    if !Truthy(v) then []
    else if v.Arr? then CollectIds(v.elems)
    else if v.Str? then [v.s]
    else if v.Doc? && v.docId.Some? then [v.docId.value]
    else []
  }

  /** On arrays the two normalisers agree; elsewhere `relIds` gives nothing. */
  lemma ToIdArrayExtendsRelIds(v: RelValue)
    ensures v.Arr? ==> ToIdArray(v) == RelIds(v)
    ensures RelIds(v) != [] ==> v.Arr? && ToIdArray(v) == RelIds(v)
  {
  }

  /** A day-plan document as listed from the store. */
  datatype PlanRecord = PlanRecord(
    id: string, dayNumber: Option<int>, title: string, summary: string, items: RelValue)

  /** A day-item document as listed from the store. */
  datatype ItemRecord = ItemRecord(
    id: string, kind: ItemKind, title: string, description: string,
    refActivity: RelValue, refActivityId: RelValue, refHotel: RelValue, refHotelId: RelValue)

  /** `p.dayNumber ?? 0`. */
  function DayKey(p: PlanRecord): int {
    match p.dayNumber
    case Some(n) => n
    case None => 0
  }

  predicate SortedByDay(ps: seq<PlanRecord>) {
    forall i, j :: 0 <= i < j < |ps| ==> DayKey(ps[i]) <= DayKey(ps[j])
  }

  /** The plans with a given sort key, in their original order. */
  function OfDay(ps: seq<PlanRecord>, n: int): seq<PlanRecord> {
    if ps == [] then []
    else (if DayKey(ps[0]) == n then [ps[0]] else []) + OfDay(ps[1..], n)
  }

  /** Inserts before the first plan whose key is not smaller, so equal keys keep their order. */
  function InsertPlan(p: PlanRecord, sorted: seq<PlanRecord>): (r: seq<PlanRecord>)
    ensures multiset(r) == multiset(sorted) + multiset{p}
  {
    if sorted == [] || DayKey(p) <= DayKey(sorted[0]) then [p] + sorted
    else
      assert sorted == [sorted[0]] + sorted[1..];
      [sorted[0]] + InsertPlan(p, sorted[1..])
  }

  lemma {:induction false} InsertPlanSorted(p: PlanRecord, sorted: seq<PlanRecord>)
    requires SortedByDay(sorted)
    ensures SortedByDay(InsertPlan(p, sorted))
    ensures |InsertPlan(p, sorted)| == |sorted| + 1
    ensures sorted != [] ==> DayKey(InsertPlan(p, sorted)[0]) == (if DayKey(p) <= DayKey(sorted[0]) then DayKey(p) else DayKey(sorted[0]))
    ensures sorted == [] ==> InsertPlan(p, sorted) == [p]
  {
    if sorted == [] || DayKey(p) <= DayKey(sorted[0]) {
    } else {
      var rest := InsertPlan(p, sorted[1..]);
      InsertPlanSorted(p, sorted[1..]);
      var r := [sorted[0]] + rest;
      forall i, j | 0 <= i < j < |r| ensures DayKey(r[i]) <= DayKey(r[j]) {
        if i == 0 {
          assert DayKey(r[0]) <= DayKey(rest[0]);
          assert DayKey(rest[0]) <= DayKey(rest[j - 1]);
        }
      }
    }
  }

  /** The ascending stable sort `plans.sort((a, b) => (a.dayNumber ?? 0) - (b.dayNumber ?? 0))`. */
  function SortPlans(ps: seq<PlanRecord>): (r: seq<PlanRecord>)
    ensures SortedByDay(r)
    ensures multiset(r) == multiset(ps)
  {
    if ps == [] then []
    else
      assert ps == [ps[0]] + ps[1..];
      InsertPlanSorted(ps[0], SortPlans(ps[1..]));
      InsertPlan(ps[0], SortPlans(ps[1..]))
  }

  lemma {:induction false} InsertPlanOfDay(p: PlanRecord, sorted: seq<PlanRecord>, n: int)
    ensures OfDay(InsertPlan(p, sorted), n) == (if DayKey(p) == n then [p] else []) + OfDay(sorted, n)
  {
    if sorted == [] || DayKey(p) <= DayKey(sorted[0]) {
      assert ([p] + sorted)[1..] == sorted;
    } else {
      var rest := InsertPlan(p, sorted[1..]);
      assert ([sorted[0]] + rest)[1..] == rest;
      InsertPlanOfDay(p, sorted[1..], n);
    }
  }

  /** Plans that share a day number keep the order the store listed them in. */
  lemma {:induction false} SortPlansStable(ps: seq<PlanRecord>, n: int)
    ensures OfDay(SortPlans(ps), n) == OfDay(ps, n)
  {
    if ps != [] {
      SortPlansStable(ps[1..], n);
      InsertPlanOfDay(ps[0], SortPlans(ps[1..]), n);
    }
  }

  /** `docs.forEach(d => byId[d.$id] = d)`: a later document with the same id wins. */
  function IndexById(docs: seq<ItemRecord>): (m: map<string, ItemRecord>)
    ensures forall k :: 0 <= k < |docs| ==> docs[k].id in m
    ensures forall id :: id in m ==> m[id].id == id && m[id] in docs
  {
    if docs == [] then map[]
    else
      var last := docs[|docs| - 1];
      var m := IndexById(docs[..|docs| - 1]);
      assert forall id :: id in m ==> m[id] in docs by {
        forall id | id in m ensures m[id] in docs {
          assert m[id] in docs[..|docs| - 1];
        }
      }
      m[last.id := last]
  }

  /** The ids of `ids` that have a document, in the order of `ids`. */
  function PresentIds(ids: seq<string>, byId: map<string, ItemRecord>): (r: seq<string>)
    ensures forall k :: 0 <= k < |r| ==> r[k] in byId
    ensures (forall k :: 0 <= k < |ids| ==> ids[k] in byId) ==> r == ids
  {
    if ids == [] then []
    else (if ids[0] in byId then [ids[0]] else []) + PresentIds(ids[1..], byId)
  }

  /** One id: kept exactly when it has a document. */
  lemma PresentIdsSingle(i: string, byId: map<string, ItemRecord>)
    ensures i !in byId ==> PresentIds([i], byId) == []
    ensures i in byId ==> PresentIds([i], byId) == [i]
  {
    assert [i][1..] == [];
  }

  /** The filter keeps the order of the ids it keeps. */
  lemma {:induction false} PresentIdsAppend(a: seq<string>, b: seq<string>, byId: map<string, ItemRecord>)
    ensures PresentIds(a + b, byId) == PresentIds(a, byId) + PresentIds(b, byId)
  {
    if a == [] {
      assert a + b == b;
    } else {
      assert (a + b)[1..] == a[1..] + b;
      PresentIdsAppend(a[1..], b, byId);
    }
  }

  /** `itemIds.map(i => byId[i]).filter(Boolean)`. */
  function OrderByIds(ids: seq<string>, byId: map<string, ItemRecord>): (r: seq<ItemRecord>)
    ensures |r| == |PresentIds(ids, byId)|
    ensures forall k :: 0 <= k < |r| ==> r[k] == byId[PresentIds(ids, byId)[k]]
  {
    if ids == [] then []
    else
      var rest := OrderByIds(ids[1..], byId);
      var head := if ids[0] in byId then [byId[ids[0]]] else [];
      assert PresentIds(ids, byId) == (if ids[0] in byId then [ids[0]] else []) + PresentIds(ids[1..], byId);
      head + rest
  }

  /**
   * A day's items carry exactly the ids of the plan's list that have a document, in the
   * plan's order; with every document present, exactly the plan's list.
   */
  lemma ItemsFollowPlanOrder(ids: seq<string>, byId: map<string, ItemRecord>)
    requires forall id :: id in byId ==> byId[id].id == id
    ensures var r := OrderByIds(ids, byId);
            |r| <= |ids| && forall k :: 0 <= k < |r| ==> r[k].id == PresentIds(ids, byId)[k]
    ensures (forall k :: 0 <= k < |ids| ==> ids[k] in byId) ==>
              forall k :: 0 <= k < |ids| ==> OrderByIds(ids, byId)[k].id == ids[k]
  {
    PresentIdsShorter(ids, byId);
  }

  lemma {:induction false} PresentIdsShorter(ids: seq<string>, byId: map<string, ItemRecord>)
    ensures |PresentIds(ids, byId)| <= |ids|
  {
    if ids != [] {
      PresentIdsShorter(ids[1..], byId);
    }
  }

  /** `a ?? b`: only null and undefined fall through. */
  function Coalesce(a: RelValue, b: RelValue): RelValue {
    if a.Null? then b else a
  }

  /**
   * An item document as the editor holds it: the references are read from `refActivity`
   * (`refHotel`) and only when that is null or undefined from the legacy `refActivityId`
   * (`refHotelId`), then normalised by `toIdArray`.
   */
  function ItemFromRecord(it: ItemRecord): (r: DayItem<seq<string>>)
    ensures r.id == it.id && r.kind == it.kind && r.title == it.title && r.description == it.description
    ensures !it.refActivity.Null? ==> r.refActivity == ToIdArray(it.refActivity)
    ensures it.refActivity.Null? ==> r.refActivity == ToIdArray(it.refActivityId)
    ensures !it.refHotel.Null? ==> r.refHotel == ToIdArray(it.refHotel)
    ensures it.refHotel.Null? ==> r.refHotel == ToIdArray(it.refHotelId)
  {
    DayItem(it.id, it.kind, it.title, it.description,
            ToIdArray(Coalesce(it.refActivity, it.refActivityId)),
            ToIdArray(Coalesce(it.refHotel, it.refHotelId)))
  }

  function DayFromRecord(p: PlanRecord, byId: map<string, ItemRecord>): (d: DayPlan<seq<string>>)
    ensures d.planId == p.id && d.dayNumber == DayKey(p) && d.date == ""
    ensures d.title == p.title && d.summary == p.summary
    ensures ItemIds(d.items) == RecordIds(OrderByIds(RelIds(p.items), byId))
    ensures var recs := OrderByIds(RelIds(p.items), byId);
            |d.items| == |recs| && forall j :: 0 <= j < |recs| ==> d.items[j] == ItemFromRecord(recs[j])
  {
    var recs := OrderByIds(RelIds(p.items), byId);
    DayPlan(p.id, DayKey(p), "", p.title, p.summary,
            seq(|recs|, k requires 0 <= k < |recs| => ItemFromRecord(recs[k])))
  }

  function RecordIds(recs: seq<ItemRecord>): (ids: seq<string>)
    ensures |ids| == |recs| && forall k :: 0 <= k < |recs| ==> ids[k] == recs[k].id
  {
    seq(|recs|, k requires 0 <= k < |recs| => recs[k].id)
  }

  /** `planCollection.filter(p => dayPlanIds.includes(p.$id))`: the answer to the id query. */
  function PlansWithIds(planCollection: seq<PlanRecord>, ids: seq<string>): (r: seq<PlanRecord>)
    ensures forall k :: 0 <= k < |r| ==> r[k].id in ids && r[k] in planCollection
    ensures forall k :: 0 <= k < |planCollection| && planCollection[k].id in ids ==> planCollection[k] in r
    ensures forall p :: multiset(r)[p] == if p.id in ids then multiset(planCollection)[p] else 0
  {
    if planCollection == [] then []
    else
      assert planCollection == [planCollection[0]] + planCollection[1..];
      (if planCollection[0].id in ids then [planCollection[0]] else []) + PlansWithIds(planCollection[1..], ids)
  }

  /** The plan documents of the itinerary, in day order (`fetchItineraryGraph`'s `plans`). */
  function LoadedPlans(itDays: RelValue, planCollection: seq<PlanRecord>): (plans: seq<PlanRecord>)
    ensures RelIds(itDays) == [] ==> plans == []
    ensures SortedByDay(plans)
    ensures RelIds(itDays) != [] ==> multiset(plans) == multiset(PlansWithIds(planCollection, RelIds(itDays)))
  {
    var ids := RelIds(itDays);
    if ids == [] then [] else SortPlans(PlansWithIds(planCollection, ids))
  }

  /** Exactly the listed plans of the itinerary are loaded, each once per matching document. */
  lemma LoadedPlansAreListed(itDays: RelValue, planCollection: seq<PlanRecord>, p: PlanRecord)
    requires RelIds(itDays) != []
    ensures p in LoadedPlans(itDays, planCollection) <==> p in planCollection && p.id in RelIds(itDays)
  {
    var plans := LoadedPlans(itDays, planCollection);
    var q := PlansWithIds(planCollection, RelIds(itDays));
    assert p in plans <==> p in multiset(plans);
    assert p in q <==> p in multiset(q);
    if p in planCollection && p.id in RelIds(itDays) {
      var k :| 0 <= k < |planCollection| && planCollection[k] == p;
    }
  }

  /**
   * The days `fetchItineraryGraph` builds from the itinerary's `days` attribute and the
   * documents of the two collections: one per loaded plan, in day order, with the plan's
   * items in the plan's own order and no date (the main editor does not load it).
   */
  function FetchDays(itDays: RelValue, planCollection: seq<PlanRecord>, itemCollection: seq<ItemRecord>)
    : (days: seq<DayPlan<seq<string>>>)
    ensures var plans := LoadedPlans(itDays, planCollection);
            && |days| == |plans|
            && (forall k :: 0 <= k < |days| ==>
                  && days[k].planId == plans[k].id && days[k].dayNumber == DayKey(plans[k])
                  && days[k].date == "" && days[k].title == plans[k].title && days[k].summary == plans[k].summary
                  && ItemIds(days[k].items) == PresentIds(RelIds(plans[k].items), IndexById(itemCollection)))
    ensures var plans := LoadedPlans(itDays, planCollection);
            forall k, j :: 0 <= k < |days| && 0 <= j < |days[k].items| ==>
              days[k].items[j] == ItemFromRecord(OrderByIds(RelIds(plans[k].items), IndexById(itemCollection))[j])
    ensures forall i, j :: 0 <= i < j < |days| ==> days[i].dayNumber <= days[j].dayNumber
  {
    var plans := LoadedPlans(itDays, planCollection);
    var byId := IndexById(itemCollection);
    seq(|plans|, k requires 0 <= k < |plans| => DayFromRecord(plans[k], byId))
  }
}
