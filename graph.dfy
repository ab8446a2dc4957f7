/**
 * The editor's in-memory itinerary graph: an ordered list of day plans, each holding an
 * ordered list of items, and the pure edit operations the editor hands to `setEditorIt`.
 *
 * The type parameter R is the shape of an item's reference to an activity or a hotel:
 * a list of ids in ItineraryEditor.tsx, a single id in ItineraryEditor_bkp.tsx. `none`
 * is the empty reference of that shape (`[]` or `''`).
 */
module Graph {
  import opened Common

  datatype ItemKind = Activity | Stay | OtherKind(name: string)

  /** Optional strings of the source are "" when absent: every reader normalises with `|| ''`. */
  datatype DayItem<R> = DayItem(
    id: string, kind: ItemKind, title: string, description: string, refActivity: R, refHotel: R)

  /** `planId == ""` is a day that has never been saved. */
  datatype DayPlan<R> = DayPlan(
    planId: string, dayNumber: int, date: string, title: string, summary: string, items: seq<DayItem<R>>)

  /** The day fields the editor form writes through `updateDayField`. */
  datatype DayField = DayTitle | DayDate | DaySummary

  /** The item fields the editor form writes through `updateItemField`. */
  datatype ItemEdit<R> =
    | SetKind(kind: ItemKind)
    | SetTitle(title: string)
    | SetDescription(description: string)
    | SetRefActivity(activity: R)
    | SetRefHotel(hotel: R)

  /** Every day's number is its 1-based position. */
  predicate Positional<R>(days: seq<DayPlan<R>>) {
    forall k :: 0 <= k < |days| ==> days[k].dayNumber == k + 1
  }

  /** An item carries references of its own kind only. */
  predicate KindExclusive<R(==)>(it: DayItem<R>, none: R) {
    match it.kind
    case Activity => it.refHotel == none
    case Stay => it.refActivity == none
    case OtherKind(_) => it.refActivity == none && it.refHotel == none
  }

  function ItemIds<R>(items: seq<DayItem<R>>): (ids: seq<string>)
    ensures |ids| == |items|
    ensures forall k :: 0 <= k < |items| ==> ids[k] == items[k].id
  {
    seq(|items|, k requires 0 <= k < |items| => items[k].id)
  }

  function Renumber<R>(days: seq<DayPlan<R>>): (r: seq<DayPlan<R>>)
    ensures |r| == |days| && Positional(r)
    ensures forall k :: 0 <= k < |r| ==> r[k] == days[k].(dayNumber := k + 1)
  {
    seq(|days|, k requires 0 <= k < |days| => days[k].(dayNumber := k + 1))
  }

  /** `addDay`: a fresh unsaved day numbered one past the end. */
  function AddDay<R>(days: seq<DayPlan<R>>): (r: seq<DayPlan<R>>)
    ensures |r| == |days| + 1 && r[..|days|] == days
    ensures r[|days|].planId == "" && r[|days|].items == [] && r[|days|].dayNumber == |days| + 1
    ensures r[|days|].title == "" && r[|days|].summary == "" && r[|days|].date == ""
    ensures Positional(days) ==> Positional(r)
  {
    days + [DayPlan("", |days| + 1, "", "", "", [])]
  }

  /**
   * `removeDay(i)`: `splice(i, 1)` then renumber. An index past the end removes nothing
   * (as `splice` does) but the list is still renumbered.
   */
  function RemoveDay<R>(days: seq<DayPlan<R>>, i: nat): (r: seq<DayPlan<R>>)
    ensures |r| == if i < |days| then |days| - 1 else |days|
    ensures Positional(r)
    ensures forall k :: 0 <= k < |r| ==> r[k] == days[if k < i then k else k + 1].(dayNumber := k + 1)
  {
    Renumber(if i < |days| then days[..i] + days[i + 1..] else days)
  }

  /** Adding a day and removing it again gives back a correctly numbered list. */
  lemma RemoveAddedDay<R>(days: seq<DayPlan<R>>)
    requires Positional(days)
    ensures RemoveDay(AddDay(days), |days|) == days
  {
    var r := RemoveDay(AddDay(days), |days|);
    forall k | 0 <= k < |days| ensures r[k] == days[k] {
      assert AddDay(days)[k] == days[k];
    }
  }

  /** `updateDayField`: replaces one form field of one day. */
  function UpdateDayField<R>(days: seq<DayPlan<R>>, idx: nat, field: DayField, value: string): (r: seq<DayPlan<R>>)
    requires idx < |days|
    ensures |r| == |days|
    ensures forall k :: 0 <= k < |days| && k != idx ==> r[k] == days[k]
    ensures field == DayTitle ==> r[idx] == days[idx].(title := value)
    ensures field == DayDate ==> r[idx] == days[idx].(date := value)
    ensures field == DaySummary ==> r[idx] == days[idx].(summary := value)
  {
    var d := days[idx];
    days[idx := match field
                case DayTitle => d.(title := value)
                case DayDate => d.(date := value)
                case DaySummary => d.(summary := value)]
  }

  /** `addItem`: a new Activity item with a local id and nothing filled in. */
  function NewItem<R>(uuid: string, none: R): DayItem<R> {
    DayItem(LocalId(uuid), Activity, "", "", none, none)
  }

  function AddItem<R>(days: seq<DayPlan<R>>, d: nat, uuid: string, none: R): (r: seq<DayPlan<R>>)
    requires d < |days|
    ensures |r| == |days|
    ensures forall k :: 0 <= k < |days| && k != d ==> r[k] == days[k]
    ensures r[d] == days[d].(items := r[d].items)
    ensures |r[d].items| == |days[d].items| + 1 && r[d].items[..|days[d].items|] == days[d].items
    ensures var it := r[d].items[|days[d].items|];
            IsLocal(it.id) && it.id == LocalId(uuid) && it.kind == Activity
            && it.title == "" && it.description == "" && it.refActivity == none && it.refHotel == none
  {
    days[d := days[d].(items := days[d].items + [NewItem(uuid, none)])]
  }

  /** `items.filter(i => i.id !== id)`. */
  function WithoutId<R>(items: seq<DayItem<R>>, id: string): (r: seq<DayItem<R>>)
    ensures forall k :: 0 <= k < |r| ==> r[k] in items && r[k].id != id
    ensures forall k :: 0 <= k < |items| && items[k].id != id ==> items[k] in r
    ensures (forall k :: 0 <= k < |items| ==> items[k].id != id) ==> r == items
  {
    if items == [] then []
    else (if items[0].id == id then [] else [items[0]]) + WithoutId(items[1..], id)
  }

  /** One item: dropped exactly when it has that id. */
  lemma WithoutIdSingle<R>(it: DayItem<R>, id: string)
    ensures it.id == id ==> WithoutId([it], id) == []
    ensures it.id != id ==> WithoutId([it], id) == [it]
  {
    assert [it][1..] == [];
  }

  lemma {:induction false} WithoutIdAppend<R>(a: seq<DayItem<R>>, b: seq<DayItem<R>>, id: string)
    ensures WithoutId(a + b, id) == WithoutId(a, id) + WithoutId(b, id)
  {
    if a != [] {
      var head := if a[0].id == id then [] else [a[0]];
      assert (a + b)[0] == a[0] && (a + b)[1..] == a[1..] + b;
      WithoutIdAppend(a[1..], b, id);
      calc {
        WithoutId(a + b, id);
        head + WithoutId(a[1..] + b, id);
        head + (WithoutId(a[1..], id) + WithoutId(b, id));
        (head + WithoutId(a[1..], id)) + WithoutId(b, id);
        WithoutId(a, id) + WithoutId(b, id);
      }
    } else {
      assert a + b == b;
    }
  }

  /** `removeItem`: drops every item of the day with that id. */
  function RemoveItem<R>(days: seq<DayPlan<R>>, d: nat, itemId: string): (r: seq<DayPlan<R>>)
    requires d < |days|
    ensures |r| == |days|
    ensures forall k :: 0 <= k < |days| && k != d ==> r[k] == days[k]
    ensures r[d] == days[d].(items := r[d].items)
    ensures forall k :: 0 <= k < |r[d].items| ==> r[d].items[k] in days[d].items && r[d].items[k].id != itemId
    ensures forall k :: 0 <= k < |days[d].items| && days[d].items[k].id != itemId ==> days[d].items[k] in r[d].items
    ensures r[d].items == WithoutId(days[d].items, itemId)
  {
    days[d := days[d].(items := WithoutId(days[d].items, itemId))]
  }

  /** Adding an item and removing it before saving leaves the day exactly as it was. */
  lemma AddThenRemoveItem<R>(days: seq<DayPlan<R>>, d: nat, uuid: string, none: R)
    requires d < |days|
    requires LocalId(uuid) !in ItemIds(days[d].items)
    ensures RemoveItem(AddItem(days, d, uuid, none), d, LocalId(uuid)) == days
  {
    var items := days[d].items;
    WithoutIdAppend(items, [NewItem(uuid, none)], LocalId(uuid));
    assert forall k :: 0 <= k < |items| ==> items[k].id != LocalId(uuid) by {
      forall k | 0 <= k < |items| ensures items[k].id != LocalId(uuid) {
        assert ItemIds(items)[k] == items[k].id;
      }
    }
    var one := [NewItem(uuid, none)];
    assert WithoutId(one, LocalId(uuid)) == [] by {
      assert one[1..] == [];
    }
    assert WithoutId(items + one, LocalId(uuid)) == items;
    assert days[d := days[d].(items := items)] == days;
  }

  /** `items.findIndex(i => i.id === id)`, with -1 as None. */
  function FindItem<R>(items: seq<DayItem<R>>, id: string): (r: Option<nat>)
    ensures r.Some? ==> r.value < |items| && items[r.value].id == id
    ensures r.Some? ==> forall k :: 0 <= k < r.value ==> items[k].id != id
    ensures r.None? ==> forall k :: 0 <= k < |items| ==> items[k].id != id
  {
    if items == [] then None
    else if items[0].id == id then Some(0)
    else match FindItem(items[1..], id)
      case None => None
      case Some(j) => Some(j + 1)
  }

  /**
   * One `updateItemField` write on one item. Switching the kind to Activity or Stay empties
   * the other kind's reference and the free text; any other kind empties both references.
   */
  function ApplyEdit<R>(it: DayItem<R>, e: ItemEdit<R>, none: R): DayItem<R> {
    match e
    case SetKind(Activity) => it.(kind := Activity, refHotel := none, title := "", description := "")
    case SetKind(Stay) => it.(kind := Stay, refActivity := none, title := "", description := "")
    case SetKind(k) => it.(kind := k, refActivity := none, refHotel := none)
    case SetTitle(t) => it.(title := t)
    case SetDescription(s) => it.(description := s)
    case SetRefActivity(a) => it.(refActivity := a)
    case SetRefHotel(h) => it.(refHotel := h)
  }

  function UpdateItemField<R(==)>(days: seq<DayPlan<R>>, d: nat, itemId: string, e: ItemEdit<R>, none: R)
    : (r: seq<DayPlan<R>>)
    requires d < |days|
    ensures |r| == |days|
    ensures forall k :: 0 <= k < |days| && k != d ==> r[k] == days[k]
    ensures r[d] == days[d].(items := r[d].items)
    ensures ItemIds(r[d].items) == ItemIds(days[d].items)
    ensures FindItem(days[d].items, itemId).None? ==> r == days
    ensures FindItem(days[d].items, itemId).Some? ==>
              var j := FindItem(days[d].items, itemId).value;
              && (forall k :: 0 <= k < |days[d].items| && k != j ==> r[d].items[k] == days[d].items[k])
              && r[d].items[j] == ApplyEdit(days[d].items[j], e, none)
    ensures e.SetKind? && FindItem(days[d].items, itemId).Some? ==>
              var it := r[d].items[FindItem(days[d].items, itemId).value];
              && it.kind == e.kind && KindExclusive(it, none)
              && (e.kind == Activity || e.kind == Stay ==> it.title == "" && it.description == "")
  {
    var items := days[d].items;
    match FindItem(items, itemId)
    case None => days
    case Some(j) => days[d := days[d].(items := items[j := ApplyEdit(items[j], e, none)])]
  }
}
