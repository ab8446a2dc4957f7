/**
 * The remote document store as the editor sees it: three collections (day plans, day items,
 * itineraries) held as maps from id to document, a source of fresh ids, and a log of every
 * write the editor attempts, with whether it succeeded. Any write may fail; a write to a
 * document that does not exist always fails. Reads are not logged.
 */
module Store {
  import opened Common
  import opened Graph

  /** Permission strings are opaque values. */
  type Perms = seq<string>

  /** `[Permission.read(Role.users()), Permission.update(Role.users()), Permission.delete(Role.users())]`. */
  const DefaultPerms: Perms := ["read(\"users\")", "update(\"users\")", "delete(\"users\")"]

  /** The day-plan fields a write carries; `date` is `None` when the write leaves it out. */
  datatype PlanFields = PlanFields(dayNumber: int, date: Option<string>, title: string, summary: string)

  datatype PlanDoc = PlanDoc(
    dayNumber: int, date: string, title: string, summary: string, items: seq<string>, perms: Perms)

  /** The day-item fields a write carries (`type`, `title`, `description` and the two references). */
  datatype ItemFields<R> = ItemFields(kind: ItemKind, title: string, description: string, refActivity: R, refHotel: R)

  datatype ItemDoc<R> = ItemDoc(fields: ItemFields<R>, perms: Perms)

  /** The itinerary fields `save` writes; `bannerUrl` is `None` when the write leaves it out. */
  datatype Header = Header(
    title: string, description: string, destinationIds: seq<string>, priceSegmentIds: seq<string>,
    bannerUrl: Option<string>, inclusionHtml: string, exclusionHtml: string, termsHtml: string)

  datatype ItineraryDoc = ItineraryDoc(header: Header, days: seq<string>, perms: Perms)

  /** One attempted write. A create that failed records the id "". */
  datatype Call<R> =
    | CreatePlan(planId: string, plan: PlanFields, perms: Perms)
    | UpdatePlan(planId: string, plan: PlanFields)
    | SetPlanItems(planId: string, itemIds: seq<string>)
    | DeletePlan(planId: string)
    | CreateItem(itemId: string, item: ItemFields<R>, perms: Perms)
    | UpdateItem(itemId: string, item: ItemFields<R>)
    | DeleteItem(itemId: string)
    | CreateItinerary(itineraryId: string, header: Header, perms: Perms)
    | UpdateItinerary(itineraryId: string, header: Header)
    | SetItineraryDays(itineraryId: string, dayIds: seq<string>)

  datatype Entry<R> = Entry(call: Call<R>, ok: bool)

  /** Everything a write can change, apart from the log. */
  datatype StoreState<R> = StoreState(
    plans: map<string, PlanDoc>, items: map<string, ItemDoc<R>>, itineraries: map<string, ItineraryDoc>, issued: set<string>)

  function NewPlanDoc(f: PlanFields, perms: Perms): PlanDoc {
    PlanDoc(f.dayNumber, match f.date case Some(s) => s case None => "", f.title, f.summary, [], perms)
  }

  /** A partial update: fields the write leaves out keep their stored value. */
  function MergePlan(doc: PlanDoc, f: PlanFields): PlanDoc {
    doc.(dayNumber := f.dayNumber, date := match f.date case Some(s) => s case None => doc.date,
         title := f.title, summary := f.summary)
  }

  function MergeHeader(h: Header, f: Header): Header {
    f.(bannerUrl := if f.bannerUrl.Some? then f.bannerUrl else h.bannerUrl)
  }

  ghost function MaxLen(ids: set<string>): (m: nat)
    ensures forall id :: id in ids ==> |id| <= m
    decreases ids
  {
    if ids == {} then 0
    else
      var id :| id in ids;
      var m := MaxLen(ids - {id});
      if |id| > m then |id| else m
  }

  /** A string longer than every issued id is never issued, non-empty and not local. */
  lemma FreshIdExists(issued: set<string>)
    ensures exists id :: id != "" && !IsLocal(id) && id !in issued
  {
    var id := seq(MaxLen(issued) + 1, _ => 'x');
    assert id[0] == 'x' && LocalPrefix[0] == 'l';
    assert !IsLocal(id);
  }

  function PlanAt<R>(s: StoreState<R>, id: string): Option<PlanDoc> {
    if id in s.plans then Some(s.plans[id]) else None
  }

  function ItemAt<R>(s: StoreState<R>, id: string): Option<ItemDoc<R>> {
    if id in s.items then Some(s.items[id]) else None
  }

  function ItineraryAt<R>(s: StoreState<R>, id: string): Option<ItineraryDoc> {
    if id in s.itineraries then Some(s.itineraries[id]) else None
  }

  /** Every stored document has an id the store issued. */
  predicate KeysIssued<R>(s: StoreState<R>) {
    s.plans.Keys <= s.issued && s.items.Keys <= s.issued && s.itineraries.Keys <= s.issued
  }

  /**
   * Whether the store can report write `e` as successful in state `s`: a created document gets
   * an id never issued before, any other write needs its document to exist.
   */
  predicate Legal<R>(s: StoreState<R>, e: Entry<R>) {
    e.ok ==>
      match e.call
      case CreatePlan(id, _, _) => id != "" && !IsLocal(id) && id !in s.issued
      case UpdatePlan(id, _) => id in s.plans
      case SetPlanItems(id, _) => id in s.plans
      case DeletePlan(id) => id in s.plans
      case CreateItem(id, _, _) => id != "" && !IsLocal(id) && id !in s.issued
      case UpdateItem(id, _) => id in s.items
      case DeleteItem(id) => id in s.items
      case CreateItinerary(id, _, _) => id != "" && !IsLocal(id) && id !in s.issued
      case UpdateItinerary(id, _) => id in s.itineraries
      case SetItineraryDays(id, _) => id in s.itineraries
  }

  /** The store after write `e`; a failed write changes nothing. */
  function Apply<R>(s: StoreState<R>, e: Entry<R>): StoreState<R> {
    if !e.ok then s
    else
      match e.call
      case CreatePlan(id, f, perms) => s.(plans := s.plans[id := NewPlanDoc(f, perms)], issued := s.issued + {id})
      case UpdatePlan(id, f) =>
        if id in s.plans then s.(plans := s.plans[id := MergePlan(s.plans[id], f)]) else s
      case SetPlanItems(id, ids) =>
        if id in s.plans then s.(plans := s.plans[id := s.plans[id].(items := ids)]) else s
      case DeletePlan(id) => s.(plans := s.plans - {id})
      case CreateItem(id, f, perms) => s.(items := s.items[id := ItemDoc(f, perms)], issued := s.issued + {id})
      case UpdateItem(id, f) =>
        if id in s.items then s.(items := s.items[id := s.items[id].(fields := f)]) else s
      case DeleteItem(id) => s.(items := s.items - {id})
      case CreateItinerary(id, h, perms) =>
        s.(itineraries := s.itineraries[id := ItineraryDoc(h, [], perms)], issued := s.issued + {id})
      case UpdateItinerary(id, h) =>
        if id in s.itineraries
        then s.(itineraries := s.itineraries[id := s.itineraries[id].(header := MergeHeader(s.itineraries[id].header, h))])
        else s
      case SetItineraryDays(id, ds) =>
        if id in s.itineraries then s.(itineraries := s.itineraries[id := s.itineraries[id].(days := ds)]) else s
  }

  /** The store after the writes `es`, in order, from `s`. */
  function Replay<R>(s: StoreState<R>, es: seq<Entry<R>>): StoreState<R> {
    if es == [] then s else Apply(Replay(s, es[..|es| - 1]), es[|es| - 1])
  }

  /** Every write of `es` the store reported as successful could succeed where it happened. */
  predicate LegalLog<R>(s: StoreState<R>, es: seq<Entry<R>>) {
    es == [] || (LegalLog(s, es[..|es| - 1]) && Legal(Replay(s, es[..|es| - 1]), es[|es| - 1]))
  }

  /**
   * `h` lists the states a run of writes `es` passes through: each write is legal in the state
   * before it and leads to the state after it.
   */
  ghost predicate Follows<R>(h: seq<StoreState<R>>, es: seq<Entry<R>>) {
    && |h| == |es| + 1
    && forall i :: 0 <= i < |es| ==> StepAt(h, es, i)
  }

  /** The `i`-th write of `es` is legal in state `h[i]` and leads to `h[i + 1]`. */
  ghost predicate StepAt<R>(h: seq<StoreState<R>>, es: seq<Entry<R>>, i: nat)
    requires i < |es| && |h| == |es| + 1
  {
    Legal(h[i], es[i]) && h[i + 1] == Apply(h[i], es[i])
  }

  lemma FollowsSnoc<R>(h: seq<StoreState<R>>, es: seq<Entry<R>>, e: Entry<R>)
    requires Follows(h, es) && Legal(h[|es|], e)
    ensures Follows(h + [Apply(h[|es|], e)], es + [e])
  {
    var h', es' := h + [Apply(h[|es|], e)], es + [e];
    forall i | 0 <= i < |es'|
      ensures StepAt(h', es', i)
    {
      if i < |es| {
        assert StepAt(h, es, i);
      }
    }
  }

  /** Between any two of its points, a history is the replay of the writes in between. */
  lemma {:induction false} FollowsReplay<R>(h: seq<StoreState<R>>, es: seq<Entry<R>>, a: nat, b: nat)
    requires Follows(h, es) && a <= b <= |es|
    ensures Replay(h[a], es[a..b]) == h[b] && LegalLog(h[a], es[a..b])
    decreases b
  {
    if a < b {
      FollowsReplay(h, es, a, b - 1);
      assert StepAt(h, es, b - 1);
      assert es[a..b][..b - 1 - a] == es[a..b - 1];
    }
  }

  /**
   * Two histories from the same start, the second over the first one's writes and then `more`,
   * agree where the first ends, and from there the second is the replay of `more`.
   */
  lemma FollowsExtend<R>(h0: seq<StoreState<R>>, es: seq<Entry<R>>, h1: seq<StoreState<R>>, more: seq<Entry<R>>)
    requires Follows(h0, es) && Follows(h1, es + more) && h0[0] == h1[0]
    ensures h1[|es|] == h0[|es|]
    ensures Replay(h0[|es|], more) == h1[|es + more|] && LegalLog(h0[|es|], more)
  {
    var all := es + more;
    FollowsReplay(h0, es, 0, |es|);
    FollowsReplay(h1, all, 0, |es|);
    assert all[0..|es|] == es == es[0..|es|];
    FollowsReplay(h1, all, |es|, |all|);
    assert all[|es|..|all|] == more;
  }

  lemma ReplaySnoc<R>(s: StoreState<R>, es: seq<Entry<R>>, e: Entry<R>)
    ensures Replay(s, es + [e]) == Apply(Replay(s, es), e)
    ensures LegalLog(s, es + [e]) <==> LegalLog(s, es) && Legal(Replay(s, es), e)
  {
    assert (es + [e])[..|es|] == es;
  }

  /** Replaying two runs of writes is replaying the first, then the second from where it left off. */
  lemma {:induction false} ReplayAppend<R>(s: StoreState<R>, a: seq<Entry<R>>, b: seq<Entry<R>>)
    ensures Replay(s, a + b) == Replay(Replay(s, a), b)
    ensures LegalLog(s, a + b) <==> LegalLog(s, a) && LegalLog(Replay(s, a), b)
  {
    if b == [] {
      assert a + b == a;
    } else {
      var init, e := b[..|b| - 1], b[|b| - 1];
      ReplayAppend(s, a, init);
      assert a + b == (a + init) + [e];
      assert b == init + [e];
      ReplaySnoc(s, a + init, e);
      ReplaySnoc(Replay(s, a), init, e);
    }
  }

  /** A document of one of the three collections. */
  datatype Target = PlanDocOf(planId: string) | ItemDocOf(itemId: string) | ItineraryDocOf(itineraryId: string)

  /** The document a successful write `e` changes; a failed write changes none. */
  function Touched<R>(e: Entry<R>): set<Target> {
    if !e.ok then {}
    else
      match e.call
      case CreatePlan(id, _, _) => {PlanDocOf(id)}
      case UpdatePlan(id, _) => {PlanDocOf(id)}
      case SetPlanItems(id, _) => {PlanDocOf(id)}
      case DeletePlan(id) => {PlanDocOf(id)}
      case CreateItem(id, _, _) => {ItemDocOf(id)}
      case UpdateItem(id, _) => {ItemDocOf(id)}
      case DeleteItem(id) => {ItemDocOf(id)}
      case CreateItinerary(id, _, _) => {ItineraryDocOf(id)}
      case UpdateItinerary(id, _) => {ItineraryDocOf(id)}
      case SetItineraryDays(id, _) => {ItineraryDocOf(id)}
  }

  /** The id a successful create `e` was given. */
  function IssuedBy<R>(e: Entry<R>): set<string> {
    if !e.ok then {}
    else
      match e.call
      case CreatePlan(id, _, _) => {id}
      case CreateItem(id, _, _) => {id}
      case CreateItinerary(id, _, _) => {id}
      case _ => {}
  }

  function Written<R>(es: seq<Entry<R>>): set<Target> {
    if es == [] then {} else Written(es[..|es| - 1]) + Touched(es[|es| - 1])
  }

  function Created<R>(es: seq<Entry<R>>): set<string> {
    if es == [] then {} else Created(es[..|es| - 1]) + IssuedBy(es[|es| - 1])
  }

  lemma {:induction false} WrittenAppend<R>(a: seq<Entry<R>>, b: seq<Entry<R>>)
    ensures Written(a + b) == Written(a) + Written(b)
    ensures Created(a + b) == Created(a) + Created(b)
  {
    if b == [] {
      assert a + b == a;
    } else {
      WrittenAppend(a, b[..|b| - 1]);
      assert (a + b)[..|a + b| - 1] == a + b[..|b| - 1];
    }
  }

  /** One write changes only the document it touches. */
  lemma ApplyFrame<R>(s: StoreState<R>, e: Entry<R>)
    ensures forall id :: PlanDocOf(id) !in Touched(e) ==> PlanAt(Apply(s, e), id) == PlanAt(s, id)
    ensures forall id :: ItemDocOf(id) !in Touched(e) ==> ItemAt(Apply(s, e), id) == ItemAt(s, id)
    ensures forall id :: ItineraryDocOf(id) !in Touched(e) ==> ItineraryAt(Apply(s, e), id) == ItineraryAt(s, id)
  {
    if e.ok {
      match e.call
      case CreatePlan(_, _, _) =>
      case UpdatePlan(_, _) =>
      case SetPlanItems(_, _) =>
      case DeletePlan(_) =>
      case CreateItem(_, _, _) =>
      case UpdateItem(_, _) =>
      case DeleteItem(_) =>
      case CreateItinerary(_, _, _) =>
      case UpdateItinerary(_, _) =>
      case SetItineraryDays(_, _) =>
    }
  }

  /** One write issues only the id of its create, and keeps every stored document's id issued. */
  lemma ApplyIssued<R>(s: StoreState<R>, e: Entry<R>)
    ensures Apply(s, e).issued == s.issued + IssuedBy(e)
    ensures KeysIssued(s) ==> KeysIssued(Apply(s, e))
  {
    if e.ok {
      match e.call
      case CreatePlan(_, _, _) =>
      case UpdatePlan(_, _) =>
      case SetPlanItems(_, _) =>
      case DeletePlan(_) =>
      case CreateItem(_, _, _) =>
      case UpdateItem(_, _) =>
      case DeleteItem(_) =>
      case CreateItinerary(_, _, _) =>
      case UpdateItinerary(_, _) =>
      case SetItineraryDays(_, _) =>
    }
  }

  /**
   * Writes change only the documents they touch and issue only the ids of their creates; a
   * store whose documents all have issued ids keeps that property.
   */
  lemma {:induction false} ReplayFrame<R>(s: StoreState<R>, es: seq<Entry<R>>)
    ensures forall id :: PlanDocOf(id) !in Written(es) ==> PlanAt(Replay(s, es), id) == PlanAt(s, id)
    ensures forall id :: ItemDocOf(id) !in Written(es) ==> ItemAt(Replay(s, es), id) == ItemAt(s, id)
    ensures forall id :: ItineraryDocOf(id) !in Written(es) ==> ItineraryAt(Replay(s, es), id) == ItineraryAt(s, id)
    ensures Replay(s, es).issued == s.issued + Created(es)
    ensures KeysIssued(s) ==> KeysIssued(Replay(s, es))
  {
    if es != [] {
      ReplayFrame(s, es[..|es| - 1]);
      ApplyFrame(Replay(s, es[..|es| - 1]), es[|es| - 1]);
      ApplyIssued(Replay(s, es[..|es| - 1]), es[|es| - 1]);
    }
  }

  class DocumentStore<R(==)> {
    var plans: map<string, PlanDoc>
    var items: map<string, ItemDoc<R>>
    var itineraries: map<string, ItineraryDoc>
    /** Every id the store has handed out; none is handed out twice. */
    var issued: set<string>
    var log: seq<Entry<R>>
    /** The store as it was before its first logged write. */
    ghost const initial: StoreState<R>
    /** The state before each logged write, and the current one last. */
    ghost var history: seq<StoreState<R>>

    ghost function State(): StoreState<R>
      reads this
    {
      StoreState(plans, items, itineraries, issued)
    }

    /** The log explains the store: it leads from `initial` to the current state, one legal write at a time. */
    ghost predicate Replays()
      reads this
    {
      Follows(history, log) && history[0] == initial && history[|log|] == State()
    }

    constructor ()
      ensures plans == map[] && items == map[] && itineraries == map[]
      ensures issued == {} && log == []
      ensures Replays()
    {
      plans := map[];
      items := map[];
      itineraries := map[];
      issued := {};
      log := [];
      initial := StoreState(map[], map[], map[], {});
      history := [StoreState(map[], map[], map[], {})];
    }

    /** `ID.unique()` resolved by the store. */
    method NewId() returns (id: string)
      modifies this
      ensures id != "" && !IsLocal(id) && id !in old(issued)
      ensures issued == old(issued) + {id}
      ensures plans == old(plans) && items == old(items) && itineraries == old(itineraries) && log == old(log)
      ensures history == old(history)
    {
      FreshIdExists(issued);
      id :| id != "" && !IsLocal(id) && id !in issued;
      issued := issued + {id};
    }

    method GetPlan(id: string) returns (ok: bool, doc: PlanDoc)
      ensures ok ==> id in plans && doc == plans[id]
    {
      ok := *;
      ok := ok && id in plans;
      doc := if ok then plans[id] else PlanDoc(0, "", "", "", [], []);
    }

    method GetItinerary(id: string) returns (ok: bool, doc: ItineraryDoc)
      ensures ok ==> id in itineraries && doc == itineraries[id]
    {
      ok := *;
      ok := ok && id in itineraries;
      doc := if ok then itineraries[id] else ItineraryDoc(Header("", "", [], [], None, "", "", ""), [], []);
    }

    method CreatePlan(f: PlanFields, perms: Perms) returns (ok: bool, id: string)
      requires Replays()
      modifies this
      ensures Replays()
      ensures ok ==> id != "" && !IsLocal(id) && id !in old(issued) && issued == old(issued) + {id}
                     && plans == old(plans)[id := NewPlanDoc(f, perms)]
      ensures !ok ==> id == "" && issued == old(issued) && plans == old(plans)
      ensures items == old(items) && itineraries == old(itineraries)
      ensures log == old(log) + [Entry(Call.CreatePlan(id, f, perms), ok)]
    {
      ok := *;
      id := "";
      if ok {
        id := NewId();
        plans := plans[id := NewPlanDoc(f, perms)];
      }
      FollowsSnoc(history, log, Entry(Call.CreatePlan(id, f, perms), ok));
      log := log + [Entry(Call.CreatePlan(id, f, perms), ok)];
      history := history + [State()];
    }

    method UpdatePlan(id: string, f: PlanFields) returns (ok: bool)
      requires Replays()
      modifies this
      ensures Replays()
      ensures ok ==> id in old(plans) && plans == old(plans)[id := MergePlan(old(plans)[id], f)]
      ensures !ok ==> plans == old(plans)
      ensures items == old(items) && itineraries == old(itineraries) && issued == old(issued)
      ensures log == old(log) + [Entry(Call.UpdatePlan(id, f), ok)]
    {
      ok := *;
      ok := ok && id in plans;
      if ok {
        plans := plans[id := MergePlan(plans[id], f)];
      }
      FollowsSnoc(history, log, Entry(Call.UpdatePlan(id, f), ok));
      log := log + [Entry(Call.UpdatePlan(id, f), ok)];
      history := history + [State()];
    }

    method SetPlanItems(id: string, ids: seq<string>) returns (ok: bool)
      requires Replays()
      modifies this
      ensures Replays()
      ensures ok ==> id in old(plans) && plans == old(plans)[id := old(plans)[id].(items := ids)]
      ensures !ok ==> plans == old(plans)
      ensures items == old(items) && itineraries == old(itineraries) && issued == old(issued)
      ensures log == old(log) + [Entry(Call.SetPlanItems(id, ids), ok)]
    {
      ok := *;
      ok := ok && id in plans;
      if ok {
        plans := plans[id := plans[id].(items := ids)];
      }
      FollowsSnoc(history, log, Entry(Call.SetPlanItems(id, ids), ok));
      log := log + [Entry(Call.SetPlanItems(id, ids), ok)];
      history := history + [State()];
    }

    method DeletePlan(id: string) returns (ok: bool)
      requires Replays()
      modifies this
      ensures Replays()
      ensures ok ==> id in old(plans) && plans == old(plans) - {id}
      ensures !ok ==> plans == old(plans)
      ensures items == old(items) && itineraries == old(itineraries) && issued == old(issued)
      ensures log == old(log) + [Entry(Call.DeletePlan(id), ok)]
    {
      ok := *;
      ok := ok && id in plans;
      if ok {
        plans := plans - {id};
      }
      FollowsSnoc(history, log, Entry(Call.DeletePlan(id), ok));
      log := log + [Entry(Call.DeletePlan(id), ok)];
      history := history + [State()];
    }

    method CreateItem(f: ItemFields<R>, perms: Perms) returns (ok: bool, id: string)
      requires Replays()
      modifies this
      ensures Replays()
      ensures ok ==> id != "" && !IsLocal(id) && id !in old(issued) && issued == old(issued) + {id}
                     && items == old(items)[id := ItemDoc(f, perms)]
      ensures !ok ==> id == "" && issued == old(issued) && items == old(items)
      ensures plans == old(plans) && itineraries == old(itineraries)
      ensures log == old(log) + [Entry(Call.CreateItem(id, f, perms), ok)]
    {
      ok := *;
      id := "";
      if ok {
        id := NewId();
        items := items[id := ItemDoc(f, perms)];
      }
      FollowsSnoc(history, log, Entry(Call.CreateItem(id, f, perms), ok));
      log := log + [Entry(Call.CreateItem(id, f, perms), ok)];
      history := history + [State()];
    }

    method UpdateItem(id: string, f: ItemFields<R>) returns (ok: bool)
      requires Replays()
      modifies this
      ensures Replays()
      ensures ok ==> id in old(items) && items == old(items)[id := old(items)[id].(fields := f)]
      ensures !ok ==> items == old(items)
      ensures plans == old(plans) && itineraries == old(itineraries) && issued == old(issued)
      ensures log == old(log) + [Entry(Call.UpdateItem(id, f), ok)]
    {
      ok := *;
      ok := ok && id in items;
      if ok {
        items := items[id := items[id].(fields := f)];
      }
      FollowsSnoc(history, log, Entry(Call.UpdateItem(id, f), ok));
      log := log + [Entry(Call.UpdateItem(id, f), ok)];
      history := history + [State()];
    }

    method DeleteItem(id: string) returns (ok: bool)
      requires Replays()
      modifies this
      ensures Replays()
      ensures ok ==> id in old(items) && items == old(items) - {id}
      ensures !ok ==> items == old(items)
      ensures plans == old(plans) && itineraries == old(itineraries) && issued == old(issued)
      ensures log == old(log) + [Entry(Call.DeleteItem(id), ok)]
    {
      ok := *;
      ok := ok && id in items;
      if ok {
        items := items - {id};
      }
      FollowsSnoc(history, log, Entry(Call.DeleteItem(id), ok));
      log := log + [Entry(Call.DeleteItem(id), ok)];
      history := history + [State()];
    }

    method CreateItinerary(h: Header, perms: Perms) returns (ok: bool, id: string)
      requires Replays()
      modifies this
      ensures Replays()
      ensures ok ==> id != "" && !IsLocal(id) && id !in old(issued) && issued == old(issued) + {id}
                     && itineraries == old(itineraries)[id := ItineraryDoc(h, [], perms)]
      ensures !ok ==> id == "" && issued == old(issued) && itineraries == old(itineraries)
      ensures plans == old(plans) && items == old(items)
      ensures log == old(log) + [Entry(Call.CreateItinerary(id, h, perms), ok)]
    {
      ok := *;
      id := "";
      if ok {
        id := NewId();
        itineraries := itineraries[id := ItineraryDoc(h, [], perms)];
      }
      FollowsSnoc(history, log, Entry(Call.CreateItinerary(id, h, perms), ok));
      log := log + [Entry(Call.CreateItinerary(id, h, perms), ok)];
      history := history + [State()];
    }

    method UpdateItinerary(id: string, h: Header) returns (ok: bool)
      requires Replays()
      modifies this
      ensures Replays()
      ensures ok ==> id in old(itineraries)
                     && itineraries == old(itineraries)[id := old(itineraries)[id].(header := MergeHeader(old(itineraries)[id].header, h))]
      ensures !ok ==> itineraries == old(itineraries)
      ensures plans == old(plans) && items == old(items) && issued == old(issued)
      ensures log == old(log) + [Entry(Call.UpdateItinerary(id, h), ok)]
    {
      ok := *;
      ok := ok && id in itineraries;
      if ok {
        itineraries := itineraries[id := itineraries[id].(header := MergeHeader(itineraries[id].header, h))];
      }
      FollowsSnoc(history, log, Entry(Call.UpdateItinerary(id, h), ok));
      log := log + [Entry(Call.UpdateItinerary(id, h), ok)];
      history := history + [State()];
    }

    method SetItineraryDays(id: string, dayIds: seq<string>) returns (ok: bool)
      requires Replays()
      modifies this
      ensures Replays()
      ensures ok ==> id in old(itineraries) && itineraries == old(itineraries)[id := old(itineraries)[id].(days := dayIds)]
      ensures !ok ==> itineraries == old(itineraries)
      ensures plans == old(plans) && items == old(items) && issued == old(issued)
      ensures log == old(log) + [Entry(Call.SetItineraryDays(id, dayIds), ok)]
    {
      ok := *;
      ok := ok && id in itineraries;
      if ok {
        itineraries := itineraries[id := itineraries[id].(days := dayIds)];
      }
      FollowsSnoc(history, log, Entry(Call.SetItineraryDays(id, dayIds), ok));
      log := log + [Entry(Call.SetItineraryDays(id, dayIds), ok)];
      history := history + [State()];
    }
  }
}
