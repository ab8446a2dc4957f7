/**
 * The editor's save path: the itinerary form and its days as the editor holds them, the
 * snapshot of the graph as last loaded or saved, and the two `save` handlers with the
 * reconciler run they end in.
 *
 * `Editor` is the state of one editor page (`editorIt`, `originalGraph`, `saving` and the
 * route's itinerary id). `UpdateGraphPartial` is the diff-based graph save both editors share
 * up to the `Variant`; `SaveCurrent` and `SaveBackup` are the two editors' `save`.
 */
module Editing {
  import opened Common
  import opened Graph
  import opened Store
  import opened Diff
  import opened Reconcile

  /** The backup editor's `mode` prop. */
  datatype Mode = New | Edit

  /**
   * The header payload a `save` writes: the current editor always sends `bannerUrl`
   * (`editorIt.bannerUrl || ''`), the backup editor never does, so the stored banner stays.
   */
  function SavePayload(v: Variant, form: Header): (h: Header)
    ensures h == form.(bannerUrl := h.bannerUrl)
    ensures v == Current ==> h.bannerUrl.Some? && (form.bannerUrl.Some? ==> h.bannerUrl == form.bannerUrl)
    ensures v == Backup ==> h.bannerUrl.None?
  {
    match v
    case Current => form.(bannerUrl := Some(if form.bannerUrl.Some? then form.bannerUrl.value else ""))
    case Backup => form.(bannerUrl := None)
  }

  /**
   * What the stored header becomes after a `save`: the current editor's payload replaces it
   * whole (an empty banner included), the backup editor's keeps the stored banner.
   */
  lemma StoredHeaderAfterSave(v: Variant, stored: Header, form: Header)
    ensures v == Current ==> MergeHeader(stored, SavePayload(v, form)) == SavePayload(v, form)
    ensures v == Backup ==> MergeHeader(stored, SavePayload(v, form)) == form.(bannerUrl := stored.bannerUrl)
    ensures MergeHeader(stored, SavePayload(v, form)).title == form.title
  {
  }

  /** The store after the itinerary `id`'s header write `h`, which succeeded when `ok`. */
  ghost predicate HeaderWritten<R>(s0: StoreState<R>, s1: StoreState<R>, id: string, h: Header, ok: bool) {
    && (ok ==> id in s0.itineraries
               && s1 == s0.(itineraries := s0.itineraries[id := s0.itineraries[id].(header := MergeHeader(s0.itineraries[id].header, h))]))
    && (!ok ==> s1 == s0)
  }

  /** The store after creating the itinerary `id` with header `h` and permissions `perms`, which succeeded when `ok`. */
  ghost predicate ItineraryCreated<R>(s0: StoreState<R>, s1: StoreState<R>, id: string, h: Header, perms: Perms, ok: bool) {
    && (ok ==> id != "" && id !in s0.issued
               && s1 == s0.(issued := s0.issued + {id}, itineraries := s0.itineraries[id := ItineraryDoc(h, [], perms)]))
    && (!ok ==> id == "" && s1 == s0)
  }

  /**
   * The header write of a `save`: an `Edit` editor updates the itinerary `routeId`, a `New` one
   * creates an itinerary (with `creatorPerms`) and goes on with the id the store gave it.
   */
  ghost predicate HeaderFits<R>(h: Header, mode: Mode, routeId: string, creatorPerms: Perms, headerWrite: seq<Entry<R>>,
                                id: string, s0: StoreState<R>, s1: StoreState<R>)
  {
    && |headerWrite| == 1
    && (mode == Edit ==>
          && id == routeId
          && headerWrite[0].call == UpdateItinerary(routeId, h)
          && HeaderWritten(s0, s1, routeId, h, headerWrite[0].ok))
    && (mode == New ==>
          && headerWrite[0].call == CreateItinerary(id, h, creatorPerms)
          && ItineraryCreated(s0, s1, id, h, creatorPerms, headerWrite[0].ok))
  }

  method WriteHeader<R(==)>(store: DocumentStore<R>, h: Header, mode: Mode, routeId: string, creatorPerms: Perms)
    returns (ok: bool, id: string, ghost headerWrite: seq<Entry<R>>)
    requires store.Replays()
    modifies store
    ensures store.Replays()
    ensures HeaderFits(h, mode, routeId, creatorPerms, headerWrite, id, old(store.State()), store.State())
    ensures ok == headerWrite[0].ok
    ensures store.log == old(store.log) + headerWrite
  {
    if mode == New {
      ok, id := store.CreateItinerary(h, creatorPerms);
      headerWrite := [Entry(CreateItinerary(id, h, creatorPerms), ok)];
    } else {
      id := routeId;
      ok := store.UpdateItinerary(id, h);
      headerWrite := [Entry(UpdateItinerary(id, h), ok)];
    }
  }

  /** A run that was never started: no write. */
  function NotRun<R>(): (run: RunTrace<R>)
    ensures !run.started && FlatRun(run) == []
  {
    RunTrace(false, [], [], [], [])
  }

  /** After the header write: the graph is reconciled only when that write succeeded. */
  ghost predicate AfterHeader<R>(
    headerOk: bool, v: Variant, id: string, original: seq<DayPlan<R>>, before: seq<DayPlan<R>>, after: seq<DayPlan<R>>,
    ok: bool, run: RunTrace<R>, none: R, s0: StoreState<R>, s1: StoreState<R>)
  {
    && (headerOk ==> RunFits(v, id, original, before, after, ok, run, none, s0, s1))
    && (!headerOk ==> !ok && !run.started && FlatRun(run) == [] && after == before && s1 == s0)
  }

  /**
   * A backup `save` in `New` mode reconciles against the itinerary it just created, so every
   * plan and item it creates carries the creator's permissions (the defaults when those are empty).
   */
  lemma NewSaveInheritsCreatorPerms<R>(
    form: Header, routeId: string, creatorPerms: Perms, headerWrite: seq<Entry<R>>, id: string,
    s0: StoreState<R>, mid: StoreState<R>, original: seq<DayPlan<R>>, before: seq<DayPlan<R>>,
    after: seq<DayPlan<R>>, ok: bool, run: RunTrace<R>, none: R, s1: StoreState<R>)
    requires HeaderFits(SavePayload(Backup, form), New, routeId, creatorPerms, headerWrite, id, s0, mid)
    requires AfterHeader(headerWrite[0].ok, Backup, id, original, before, after, ok, run, none, mid, s1)
    requires run.started
    ensures run.perms == InheritedPerms(creatorPerms)
    ensures AllWellFormed(FlatRun(run), InheritedPerms(creatorPerms), none)
  {
  }

  /** `updateItineraryGraphPartial(id)` on the editor's values: `before` are its days, `original` its snapshot. */
  method RunGraph<R(==)>(store: DocumentStore<R>, v: Variant, id: string, original: seq<DayPlan<R>>,
                         before: seq<DayPlan<R>>, none: R)
    returns (ok: bool, after: seq<DayPlan<R>>, ghost run: RunTrace<R>)
    requires store.Replays()
    modifies store
    ensures store.Replays()
    ensures store.log == old(store.log) + FlatRun(run)
    ensures RunFits(v, id, original, before, after, ok, run, none, old(store.State()), store.State())
  {
    var started, perms := ReadPerms(store, v, id);
    if !started {
      run := RunTrace(false, [], [], [], []);
      return false, before, run;
    }
    ok, after, run := RunStarted(store, v, id, original, before, perms, none);
  }

  class Editor<R(==)> {
    /** The itinerary form fields (`editorIt` without its days). */
    var form: Header
    /** `editorIt.days`. */
    var days: seq<DayPlan<R>>
    /** `originalGraph.days`: the graph as last loaded or saved. */
    var original: seq<DayPlan<R>>
    /** `editorIt.$id`: empty until the itinerary has been loaded. */
    var docId: string
    /** The itinerary id of the page's route. */
    var itineraryId: string
    var saving: bool
    /** The empty reference of an item (`[]` in the current editor, `''` in the backup one). */
    const none: R

    /** An editor holding a freshly loaded itinerary: its snapshot is its graph. */
    constructor (none: R, itineraryId: string, docId: string, form: Header, days: seq<DayPlan<R>>)
      ensures this.none == none && this.itineraryId == itineraryId && this.docId == docId
      ensures this.form == form && this.days == days && this.original == days && !saving
    {
      this.none := none;
      this.itineraryId := itineraryId;
      this.docId := docId;
      this.form := form;
      this.days := days;
      this.original := days;
      this.saving := false;
    }

    /**
     * `updateItineraryGraphPartial(id)`. The backup editor first reads the itinerary `id` and
     * gives created documents its permissions (the defaults when it has none); a failed read
     * ends the run before any write. Then the removed plans are deleted, every day is written in
     * order with its new ids written back, and the day list is rewritten when its ids changed.
     * Only a run that completes replaces the snapshot.
     */
    method UpdateGraphPartial(store: DocumentStore<R>, v: Variant, id: string) returns (ok: bool, ghost run: RunTrace<R>)
      requires store.Replays()
      modifies this, store
      ensures store.Replays()
      ensures form == old(form) && docId == old(docId) && itineraryId == old(itineraryId) && saving == old(saving)
      ensures store.log == old(store.log) + FlatRun(run)
      ensures RunFits(v, id, old(original), old(days), days, ok, run, none, old(store.State()), store.State())
      ensures original == if ok then days else old(original)
    {
      var after;
      ok, after, run := RunGraph(store, v, id, original, days, none);
      Commit(ok, after);
    }

    /** The graph step of a `save`: reconcile only when the header write succeeded. */
    method GraphAfterHeader(store: DocumentStore<R>, headerOk: bool, v: Variant, id: string)
      returns (ok: bool, ghost run: RunTrace<R>)
      requires store.Replays()
      modifies this, store
      ensures store.Replays()
      ensures form == old(form) && docId == old(docId) && itineraryId == old(itineraryId) && saving == old(saving)
      ensures store.log == old(store.log) + FlatRun(run)
      ensures AfterHeader(headerOk, v, id, old(original), old(days), days, ok, run, none, old(store.State()), store.State())
      ensures original == if ok then days else old(original)
    {
      ok, run := false, NotRun();
      if headerOk {
        ok, run := UpdateGraphPartial(store, v, id);
      }
    }

    /** The editor state after a graph save: the edited days, and the baseline only on success. */
    method Commit(ok: bool, after: seq<DayPlan<R>>)
      modifies this
      ensures form == old(form) && docId == old(docId) && itineraryId == old(itineraryId) && saving == old(saving)
      ensures days == after && original == if ok then after else old(original)
    {
      original := if ok then after else original;
      days := after;
    }

    /**
     * The current editor's `save`: nothing happens while a save runs, before the itinerary has
     * loaded or with a blank title. Otherwise the header is written to the route's itinerary
     * and, if that write succeeds, the graph is reconciled. `saving` is back to false at the end.
     */
    method SaveCurrent(store: DocumentStore<R>)
      returns (ok: bool, ghost headerWrite: seq<Entry<R>>, ghost mid: StoreState<R>, ghost run: RunTrace<R>)
      requires store.Replays()
      modifies this, store
      ensures store.Replays()
      ensures form == old(form) && docId == old(docId) && itineraryId == old(itineraryId) && saving == old(saving)
      ensures old(saving) || docId == "" || IsBlank(form.title) ==>
                !ok && headerWrite == [] && store.log == old(store.log) && store.State() == old(store.State())
                && days == old(days) && original == old(original)
      ensures !old(saving) && docId != "" && !IsBlank(form.title) ==>
                && HeaderFits(SavePayload(Current, form), Edit, itineraryId, [], headerWrite, itineraryId, old(store.State()), mid)
                && store.log == old(store.log) + headerWrite + FlatRun(run)
                && AfterHeader(headerWrite[0].ok, Current, itineraryId, old(original), old(days), days, ok, run, none,
                               mid, store.State())
                && original == if ok then days else old(original)
    {
      TrimEmptyIffBlank(form.title);
      headerWrite, mid, run := [], store.State(), NotRun();
      if saving || docId == "" || Trim(form.title) == "" {
        return false, headerWrite, mid, run;
      }
      saving := true;
      var headerOk, id;
      headerOk, id, headerWrite := WriteHeader(store, SavePayload(Current, form), Edit, itineraryId, []);
      mid := store.State();
      ok, run := GraphAfterHeader(store, headerOk, Current, id);
      saving := false;
    }

    /**
     * The backup editor's `save`: a blank title does nothing. Otherwise a `New` editor creates
     * the itinerary (with the permissions the store gives its creator) and an `Edit` editor
     * updates the route's one; if that write succeeds the graph is reconciled against the
     * itinerary it wrote. `saving` is false at the end.
     */
    method SaveBackup(store: DocumentStore<R>, mode: Mode, creatorPerms: Perms)
      returns (ok: bool, ghost headerWrite: seq<Entry<R>>, ghost mid: StoreState<R>, ghost id: string,
               ghost run: RunTrace<R>)
      requires store.Replays()
      modifies this, store
      ensures store.Replays()
      ensures form == old(form) && docId == old(docId) && itineraryId == old(itineraryId)
      ensures IsBlank(form.title) ==>
                !ok && headerWrite == [] && store.log == old(store.log) && store.State() == old(store.State())
                && days == old(days) && original == old(original) && saving == old(saving)
      ensures !IsBlank(form.title) ==>
                && !saving
                && HeaderFits(SavePayload(Backup, form), mode, itineraryId, creatorPerms, headerWrite, id, old(store.State()), mid)
                && store.log == old(store.log) + headerWrite + FlatRun(run)
                && AfterHeader(headerWrite[0].ok, Backup, id, old(original), old(days), days, ok, run, none,
                               mid, store.State())
                && original == if ok then days else old(original)
    {
      TrimEmptyIffBlank(form.title);
      headerWrite, mid, id, run := [], store.State(), itineraryId, NotRun();
      if Trim(form.title) == "" {
        return false, headerWrite, mid, id, run;
      }
      saving := true;
      var headerOk, target;
      headerOk, target, headerWrite := WriteHeader(store, SavePayload(Backup, form), mode, itineraryId, creatorPerms);
      id, mid := target, store.State();
      ok, run := GraphAfterHeader(store, headerOk, Backup, target);
      saving := false;
    }
  }
}
