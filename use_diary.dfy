/** The diary-entry hooks: `useDiaryEntry`, `useAddFood`, `useUpdateEntry` and
    `useRemoveFoods`. Each hook has a guest path, which keeps the entry for its
    date in session storage under `"entry-" + date`, and an authenticated path,
    which goes through the server and the react-query cache; the identity's
    `isGuestUser` flag picks one. The server's answers, the outcome of a request
    and the fresh `_id` that `uuidv4()` returns are supplied by the caller. */
module UseDiary {
  import opened Entries
  import opened SessionStorage
  import opened QueryCache

  // ---------------------------------------------------------------------------
  // Guest path: the entry value and what each mutate does to it
  // ---------------------------------------------------------------------------

  /** How a guest `mutate` call ends. It throws a `TypeError` when the hook's value is a raw
      string (a stored item that did not parse): reading `eaten` of a string gives
      `undefined`, which can be neither spread nor filtered, and assigning `note` to a
      string primitive throws in module (strict) code. */
  datatype Outcome = Done | ThrewTypeError

  /** Guest add-food: the item is appended at the end of the named list. */
  function AddFoodTo(e: Entry, listName: ListName, item: FoodEntry): (r: Entry)
    ensures r.List(listName) == e.List(listName) + [item]
    ensures r.List(listName.Other()) == e.List(listName.Other())
    ensures r.note == e.note
  {
    e.WithList(listName, e.List(listName) + [item])
  }

  /** Guest update: only the note is replaced, by `updates.note` (which may be `undefined`). */
  function SetNoteOf(e: Entry, note: Option<string>): (r: Entry)
    ensures r.note == note
    ensures r.eaten == e.eaten && r.toEat == e.toEat
  {
    e.(note := note)
  }

  /** Guest remove-foods: both lists lose every item whose `_id` is selected and keep every
      copy of every other item, the survivors keep their order, and the note is kept. */
  function RemoveFoodsFrom(e: Entry, selectedIds: seq<Id>): (r: Entry)
    ensures forall x :: x in r.eaten <==> x in e.eaten && x.id !in selectedIds
    ensures forall x :: x in r.toEat <==> x in e.toEat && x.id !in selectedIds
    ensures forall x :: multiset(r.eaten)[x] == if x.id in selectedIds then 0 else multiset(e.eaten)[x]
    ensures forall x :: multiset(r.toEat)[x] == if x.id in selectedIds then 0 else multiset(e.toEat)[x]
    ensures IsSubsequence(r.eaten, e.eaten) && IsSubsequence(r.toEat, e.toEat)
    ensures r.note == e.note
  {
    WithoutIsSubsequence(e.eaten, selectedIds);
    WithoutIsSubsequence(e.toEat, selectedIds);
    WithoutCounts(e.eaten, selectedIds);
    WithoutCounts(e.toEat, selectedIds);
    Entry(Without(e.eaten, selectedIds), Without(e.toEat, selectedIds), e.note)
  }

  /** No selected id is left in either list after remove-foods. */
  lemma RemovedIdsAreGone(e: Entry, selectedIds: seq<Id>, x: FoodEntry)
    requires x in RemoveFoodsFrom(e, selectedIds).eaten || x in RemoveFoodsFrom(e, selectedIds).toEat
    ensures x.id !in selectedIds
  {
  }

  /** Every id of a list: the ids an entry already uses. */
  predicate UsesId(e: Entry, id: Id) {
    id in Ids(e.eaten) || id in Ids(e.toEat)
  }

  /** With a fresh `_id` (one no item of the entry carries), add-food keeps both lists free
      of repeated ids. */
  lemma AddFoodKeepsIdsUnique(e: Entry, listName: ListName, item: FoodEntry)
    requires UniqueIds(e.eaten) && UniqueIds(e.toEat)
    requires !UsesId(e, item.id)
    ensures UniqueIds(AddFoodTo(e, listName, item).eaten) && UniqueIds(AddFoodTo(e, listName, item).toEat)
  {
    var s := e.List(listName);
    var t := s + [item];
    assert item.id !in Ids(s);
    forall i, j | 0 <= i < j < |t| ensures t[i].id != t[j].id {
      if j == |s| {
        assert t[i] == s[i] && Ids(s)[i] == s[i].id;
      } else {
        assert t[i] == s[i] && t[j] == s[j];
      }
    }
    assert AddFoodTo(e, listName, item).List(listName) == t;
    match listName
    case Eaten =>
    case ToEat =>
  }

  /** Remove-foods keeps both lists free of repeated ids. */
  lemma RemoveFoodsKeepsIdsUnique(e: Entry, selectedIds: seq<Id>)
    requires UniqueIds(e.eaten) && UniqueIds(e.toEat)
    ensures UniqueIds(RemoveFoodsFrom(e, selectedIds).eaten) && UniqueIds(RemoveFoodsFrom(e, selectedIds).toEat)
  {
    WithoutPreservesUniqueIds(e.eaten, selectedIds);
    WithoutPreservesUniqueIds(e.toEat, selectedIds);
  }

  /** The guest half of `useAddFood`, `useUpdateEntry` and `useRemoveFoods`: each of them mounts
      its own `useSessionStorage("entry-" + date, {eaten: [], toEat: [], note: ""})` and mutates
      the value that hook holds, not what the store holds now. `isSuccess` is `useAddFood`'s
      success flag. */
  class GuestMutator {
    const date: Date
    const session: SessionState<Entry>
    var isSuccess: bool

    ghost predicate Valid()
      reads this, session
    {
      session.key == EntryKey(date)
    }

    constructor(store: Store, date: Date, codec: Codec<Entry>)
      modifies store
      ensures Valid() && fresh(session)
      ensures this.date == date && !isSuccess
      ensures session.store == store && session.codec == codec && session.default == EmptyEntry
      ensures session.value == Read(old(store.items), EntryKey(date), EmptyEntry, codec)
      ensures store.items == Save(old(store.items), EntryKey(date), session.value, codec)
    {
      this.date := date;
      session := new SessionState(store, EntryKey(date), EmptyEntry, codec);
      isSuccess := false;
    }

    /** `useAddFood`'s guest `mutate({ listName, items })`: the item `{ ...items, _id: uuidv4() }`
        is appended to the named list, the new entry is set and saved under the hook's own key,
        and `isSuccess` becomes true. */
    method AddFood(listName: ListName, items: Details, freshId: Id) returns (outcome: Outcome)
      requires Valid()
      modifies this, session, session.store
      ensures Valid()
      ensures outcome == Done <==> old(session.value).Obj?
      ensures old(session.value).Obj? ==>
        && session.value == Obj(AddFoodTo(old(session.value).obj, listName, FoodEntry(freshId, items)))
        && session.store.items == Save(old(session.store.items), EntryKey(date), session.value, session.codec)
        && isSuccess
      ensures old(session.value).Text? ==>
        && session.value == old(session.value)
        && session.store.items == old(session.store.items)
        && isSuccess == old(isSuccess)
    {
      match session.value
      case Text(_) =>
        outcome := ThrewTypeError;
      case Obj(e) =>
        var itemWithId := FoodEntry(freshId, items);
        session.SetValue(Obj(AddFoodTo(e, listName, itemWithId)));
        isSuccess := true;
        outcome := Done;
    }

    /** `useUpdateEntry`'s guest `mutate({ updates })`: the note becomes `updates.note`. */
    method UpdateNote(note: Option<string>) returns (outcome: Outcome)
      requires Valid()
      modifies session, session.store
      ensures Valid()
      ensures outcome == Done <==> old(session.value).Obj?
      ensures old(session.value).Obj? ==>
        && session.value == Obj(SetNoteOf(old(session.value).obj, note))
        && session.store.items == Save(old(session.store.items), EntryKey(date), session.value, session.codec)
      ensures old(session.value).Text? ==>
        session.value == old(session.value) && session.store.items == old(session.store.items)
    {
      match session.value
      case Text(_) =>
        outcome := ThrewTypeError;
      case Obj(e) =>
        session.SetValue(Obj(SetNoteOf(e, note)));
        outcome := Done;
    }

    /** `useRemoveFoods`'s guest `mutate({ date, selectedIds })`. The `date` argument is never
        read (the parameter shadows the hook's `date` and is unused): the key written is the
        hook's own. */
    method RemoveFoods(date: Date, selectedIds: seq<Id>) returns (outcome: Outcome)
      requires Valid()
      modifies session, session.store
      ensures Valid()
      ensures outcome == Done <==> old(session.value).Obj?
      ensures old(session.value).Obj? ==>
        && session.value == Obj(RemoveFoodsFrom(old(session.value).obj, selectedIds))
        && session.store.items == Save(old(session.store.items), EntryKey(this.date), session.value, session.codec)
      ensures old(session.value).Text? ==>
        session.value == old(session.value) && session.store.items == old(session.store.items)
    {
      match session.value
      case Text(_) =>
        outcome := ThrewTypeError;
      case Obj(e) =>
        session.SetValue(Obj(RemoveFoodsFrom(e, selectedIds)));
        outcome := Done;
    }
  }

  /** A date the guest has never written reads as the empty entry `{eaten: [], toEat: [], note: ""}`. */
  lemma NewDateReadsEmptyEntry(items: map<string, string>, date: Date, c: Codec<Entry>)
    requires EntryKey(date) !in items
    ensures Read(items, EntryKey(date), EmptyEntry, c) == Obj(Entry([], [], Some("")))
  {
  }

  /** A guest write for one date leaves what every other date's entry reads as unchanged,
      and a later read of the date itself gives the value written. */
  lemma GuestWriteIsolation(items: map<string, string>, date: Date, other: Date, x: Value<Entry>, c: Codec<Entry>)
    requires Sound(c)
    ensures Read(Save(items, EntryKey(date), x, c), EntryKey(date), EmptyEntry, c) == x
    ensures other != date ==>
      Read(Save(items, EntryKey(date), x, c), EntryKey(other), EmptyEntry, c) == Read(items, EntryKey(other), EmptyEntry, c)
  {
    EntryKeyInjective(date, other);
    ReadAfterSave(items, EntryKey(date), x, EmptyEntry, c);
  }

  // ---------------------------------------------------------------------------
  // Authenticated path: the optimistic protocol of useUpdateEntry and the
  // invalidations of useAddFood and useRemoveFoods
  // ---------------------------------------------------------------------------

  /** `newData.updates`: any of `eaten`, `toEat` and `note`, each possibly `undefined`. */
  datatype Updates = Updates(eaten: Option<seq<FoodEntry>>, toEat: Option<seq<FoodEntry>>, note: Option<string>)

  /** The variables of `updateDiaryEntry`: `{ date, updates }`. */
  datatype UpdateVariables = UpdateVariables(date: Date, updates: Updates)

  /** The variables of `addFoodToEntryList` and `removeFoodsByIds` as far as the hooks read
      them: the date they invalidate. The rest goes to the server unread. */
  datatype ServerVariables = ServerVariables(date: Date)

  /** The optimistic value `{ ...prev, ...updates }`: `updates` is `{ note }` when `note` is
      defined and `{ eaten, toEat }` otherwise, so either only the note or only the two
      lists are replaced, and every other field of the cached entry is kept. */
  function MergeUpdates(prev: Option<Cached>, u: Updates): (r: Cached)
    ensures u.note.Some? ==>
      r.note == u.note && r.eaten == Base(prev).eaten && r.toEat == Base(prev).toEat && r.rest == Base(prev).rest
    ensures u.note.None? ==>
      r.eaten == u.eaten && r.toEat == u.toEat && r.note == Base(prev).note && r.rest == Base(prev).rest
  {
    if u.note.Some? then Base(prev).(note := u.note)
    else Base(prev).(eaten := u.eaten, toEat := u.toEat)
  }

  /** `useUpdateEntry`'s `onMutate`: snapshot the cached entry, then write the merge. The
      snapshot is the value before the merge and is returned as the rollback context. */
  method UpdateOnMutate(cache: Cache, newData: UpdateVariables) returns (rollback: Option<Cached>)
    modifies cache
    ensures rollback == Lookup(old(cache.data), newData.date)
    ensures cache.data == old(cache.data)[newData.date := MergeUpdates(rollback, newData.updates)]
    ensures cache.stale == old(cache.stale)
  {
    rollback := cache.GetQueryData(newData.date);
    cache.SetQueryData(newData.date, Some(MergeUpdates(rollback, newData.updates)));
  }

  /** `useUpdateEntry`'s `onError`: put the snapshot back under the same date key. */
  method UpdateOnError(cache: Cache, newData: UpdateVariables, rollback: Option<Cached>)
    modifies cache
    ensures cache.data == Put(old(cache.data), newData.date, rollback)
    ensures cache.stale == old(cache.stale)
  {
    cache.SetQueryData(newData.date, rollback);
  }

  /** What `updateDiaryEntry` resolves with, as far as `onSettled` reads it: the date of the
      entry the server returns. */
  datatype UpdateResponse = UpdateResponse(date: Date)

  /** `useUpdateEntry`'s `onSettled: (newData, _err) => invalidateQueries(["entry", newData.date])`.
      react-query passes the request's result as the first argument, and `undefined` (`None`)
      when it failed; `undefined.date` then throws before anything is invalidated. */
  method UpdateOnSettled(cache: Cache, newData: Option<UpdateResponse>) returns (outcome: Outcome)
    modifies cache
    ensures cache.data == old(cache.data)
    ensures newData.Some? ==> outcome == Done && cache.stale == old(cache.stale) + {newData.value.date}
    ensures newData.None? ==> outcome == ThrewTypeError && cache.stale == old(cache.stale)
  {
    match newData
    case None =>
      outcome := ThrewTypeError;
    case Some(response) =>
      cache.InvalidateQueries(response.date);
      outcome := Done;
  }

  /** One whole server update with no other write in between, as written: `onMutate`, the
      request (whose failure, or else whose response, is supplied), `onError` on failure,
      then `onSettled` with the response. A failed update leaves the cached data exactly as
      it was and marks nothing stale, since `onSettled` throws; a successful one leaves the
      merge and marks the response's date stale. `settled` is how `onSettled` ended. */
  method RunUpdateEntry(cache: Cache, newData: UpdateVariables, failed: bool, response: UpdateResponse)
    returns (settled: Outcome)
    modifies cache
    ensures failed ==> cache.data == old(cache.data) && cache.stale == old(cache.stale) && settled == ThrewTypeError
    ensures !failed ==>
      && cache.data == old(cache.data)[newData.date := MergeUpdates(Lookup(old(cache.data), newData.date), newData.updates)]
      && cache.stale == old(cache.stale) + {response.date}
      && settled == Done
  {
    var rollback := UpdateOnMutate(cache, newData);
    if failed {
      UpdateOnError(cache, newData, rollback);
      PutBackRestores(old(cache.data), newData.date, MergeUpdates(rollback, newData.updates));
      settled := UpdateOnSettled(cache, None);
    } else {
      settled := UpdateOnSettled(cache, Some(response));
    }
  }

  /** The evidently intended `onSettled`: `(_data, _err, newData) => invalidateQueries(["entry",
      newData.date])`, keyed by the request's own variables, which react-query passes on
      success and on failure alike. */
  method UpdateOnSettledByVariables(cache: Cache, newData: UpdateVariables)
    modifies cache
    ensures cache.data == old(cache.data)
    ensures cache.stale == old(cache.stale) + {newData.date}
  {
    cache.InvalidateQueries(newData.date);
  }

  /** One whole server update with the intended `onSettled`: the data is as in
      `RunUpdateEntry`, and the updated date is marked stale whether or not the request
      failed, so this mutation always has the entry refetched from the server. */
  method RunUpdateEntryCorrected(cache: Cache, newData: UpdateVariables, failed: bool)
    modifies cache
    ensures failed ==> cache.data == old(cache.data)
    ensures !failed ==>
      cache.data == old(cache.data)[newData.date := MergeUpdates(Lookup(old(cache.data), newData.date), newData.updates)]
    ensures cache.stale == old(cache.stale) + {newData.date}
  {
    var rollback := UpdateOnMutate(cache, newData);
    if failed {
      UpdateOnError(cache, newData, rollback);
      PutBackRestores(old(cache.data), newData.date, MergeUpdates(rollback, newData.updates));
    }
    UpdateOnSettledByVariables(cache, newData);
  }

  /** A failed update of a date whose data is cached and fresh: as written, the date is not
      invalidated afterwards (`asWritten`), so this mutation does not have the entry refetched;
      with the intended `onSettled` it is invalidated (`corrected`). */
  method FailedUpdateStaleness(date: Date, entry: Cached, updates: Updates) returns (asWritten: bool, corrected: bool)
    ensures !asWritten
    ensures corrected
  {
    var newData := UpdateVariables(date, updates);
    var cache := new Cache();
    cache.Fetched(date, entry);
    var settled := RunUpdateEntry(cache, newData, true, UpdateResponse(date));
    asWritten := date in cache.stale;
    var cache2 := new Cache();
    cache2.Fetched(date, entry);
    RunUpdateEntryCorrected(cache2, newData, true);
    corrected := date in cache2.stale;
  }

  /** The `onSuccess` of `useAddFood` and `useRemoveFoods`: invalidate `variables.date`. */
  method InvalidateOnSuccess(cache: Cache, variables: ServerVariables)
    modifies cache
    ensures cache.data == old(cache.data)
    ensures cache.stale == old(cache.stale) + {variables.date}
  {
    cache.InvalidateQueries(variables.date);
  }

  /** A server add-food or remove-foods request: the cache is invalidated for `variables.date`
      only when the request succeeds, and its data is never written. */
  method RunServerMutation(cache: Cache, variables: ServerVariables, succeeded: bool)
    modifies cache
    ensures cache.data == old(cache.data)
    ensures cache.stale == if succeeded then old(cache.stale) + {variables.date} else old(cache.stale)
  {
    if succeeded {
      InvalidateOnSuccess(cache, variables);
    }
  }

  /** Two server updates of one date in flight, the second's snapshot taken after the
      first's merge: if the second fails, its rollback restores the first's merge, not the
      entry as it was before either. */
  lemma OverlappingRollbackKeepsFirstMerge(m: map<Date, Cached>, d: Date, u1: Updates, u2: Updates)
    ensures var afterFirst := m[d := MergeUpdates(Lookup(m, d), u1)];
      var rollback2 := Lookup(afterFirst, d);
      Put(afterFirst[d := MergeUpdates(rollback2, u2)], d, rollback2) == afterFirst
  {
    var afterFirst := m[d := MergeUpdates(Lookup(m, d), u1)];
    PutBackRestores(afterFirst, d, MergeUpdates(Lookup(afterFirst, d), u2));
  }

  // ---------------------------------------------------------------------------
  // Path selection
  // ---------------------------------------------------------------------------

  /** Where a query result's `data` came from. */
  datatype QueryData = FromSession(value: Value<Entry>) | FromServer(cached: Option<Cached>)

  /** The part of a react-query result that the diary reads. */
  datatype QueryResult = QueryResult(data: QueryData, isLoading: bool, isSuccess: bool)

  /** `useSessionQuery`'s result, shaped like a react-query result: never loading, always a
      success, with the session hook's value as `data`. */
  function SessionQuery(value: Value<Entry>): (q: QueryResult)
    ensures q.data == FromSession(value) && !q.isLoading && q.isSuccess
  {
    QueryResult(FromSession(value), false, true)
  }

  /** `enabled: !isGuestUser`: the server query runs only for an authenticated identity. */
  predicate ServerQueryEnabled(isGuestUser: bool): (enabled: bool)
    ensures enabled <==> !isGuestUser
  {
    !isGuestUser
  }

  /** `useDiaryEntry`'s choice of result. */
  function DiaryEntryQuery(isGuestUser: bool, sessionValue: Value<Entry>, serverQuery: QueryResult): (q: QueryResult)
    ensures isGuestUser ==> q.data == FromSession(sessionValue) && !q.isLoading && q.isSuccess
    ensures !isGuestUser ==> q == serverQuery
  {
    if isGuestUser then SessionQuery(sessionValue) else serverQuery
  }

  /** A guest is never handed the server's data, and an authenticated user never the
      session's: the path is fixed by the flag alone. */
  lemma PathSelection(isGuestUser: bool, sessionValue: Value<Entry>, serverQuery: QueryResult)
    requires serverQuery.data.FromServer?
    ensures DiaryEntryQuery(isGuestUser, sessionValue, serverQuery).data.FromSession? <==> isGuestUser
    ensures ServerQueryEnabled(isGuestUser) <==> !isGuestUser
  {
  }

  /** The `data.note` the diary screen reads off a query result (`data = {}` when absent).
      A raw string from session storage has no `note` property. */
  function DataNote(q: QueryResult): (n: Option<string>)
    ensures q.data.FromSession? && q.data.value.Obj? ==> n == q.data.value.obj.note
    ensures q.data.FromSession? && q.data.value.Text? ==> n == None
    ensures q.data.FromServer? ==> n == (if q.data.cached.Some? then q.data.cached.value.note else None)
  {
    match q.data
    case FromSession(Obj(e)) => e.note
    case FromSession(Text(_)) => None
    case FromServer(Some(c)) => c.note
    case FromServer(None) => None
  }

  /** `useDiaryEntry`'s session side: the `useSessionStorage` it mounts for the selected date.
      Its date changes when the diary navigates to another day. */
  class DiaryEntrySession {
    const isGuestUser: bool
    const session: SessionState<Entry>
    var date: Date

    ghost predicate Valid()
      reads this, session
    {
      session.key == EntryKey(date) && session.default == EmptyEntry
    }

    constructor(store: Store, isGuestUser: bool, date: Date, codec: Codec<Entry>)
      modifies store
      ensures Valid() && fresh(session)
      ensures this.isGuestUser == isGuestUser && this.date == date
      ensures session.store == store && session.codec == codec
      ensures session.value == Read(old(store.items), EntryKey(date), EmptyEntry, codec)
      ensures store.items == Save(old(store.items), EntryKey(date), session.value, codec)
    {
      this.isGuestUser := isGuestUser;
      this.date := date;
      session := new SessionState(store, EntryKey(date), EmptyEntry, codec);
    }

    /** The hook's result for the current render, given the server query's result. */
    function Query(serverQuery: QueryResult): (q: QueryResult)
      reads this, session
      ensures isGuestUser ==> q == SessionQuery(session.value)
      ensures !isGuestUser ==> q == serverQuery
    {
      DiaryEntryQuery(isGuestUser, session.value, serverQuery)
    }

    /** A re-render for another date, as written: the session hook's key becomes the new
        date's, its value is not re-read (`SessionState.SetKey`), and the save effect writes the
        previous date's value under the new date's key. */
    method ChangeDate(d: Date)
      requires Valid()
      modifies this, session, session.store
      ensures Valid() && date == d
      ensures session.value == old(session.value)
      ensures session.store.items ==
        if d == old(date) then old(session.store.items)
        else Save(old(session.store.items), EntryKey(d), old(session.value), session.codec)
    {
      EntryKeyInjective(d, date);
      date := d;
      session.SetKey(EntryKey(d));
    }

    /** The intended date change: the session value is re-read for the new key before the save
        effect runs (`SessionState.SetKeyReloading`), so the hook holds the new date's stored
        entry and no date's entry is overwritten. */
    method ChangeDateReloading(d: Date)
      requires Valid()
      modifies this, session, session.store
      ensures Valid() && date == d
      ensures d != old(date) ==> session.value == Read(old(session.store.items), EntryKey(d), EmptyEntry, session.codec)
      ensures d != old(date) ==>
        session.store.items == Save(old(session.store.items), EntryKey(d), session.value, session.codec)
      ensures d == old(date) ==> session.value == old(session.value) && session.store.items == old(session.store.items)
    {
      EntryKeyInjective(d, date);
      date := d;
      session.SetKeyReloading(EntryKey(d));
    }
  }

  /** `useAddFood`'s `mutate`, on whichever path `isGuestUser` selects. */
  method AddFood(isGuestUser: bool, guest: GuestMutator, cache: Cache, variables: ServerVariables,
                 listName: ListName, items: Details, freshId: Id, succeeded: bool) returns (outcome: Outcome)
    requires guest.Valid()
    modifies guest, guest.session, guest.session.store, cache
    ensures guest.Valid()
    ensures isGuestUser ==> cache.data == old(cache.data) && cache.stale == old(cache.stale)
    ensures isGuestUser && old(guest.session.value).Obj? ==>
      && outcome == Done && guest.isSuccess
      && guest.session.value == Obj(AddFoodTo(old(guest.session.value).obj, listName, FoodEntry(freshId, items)))
      && guest.session.store.items ==
           Save(old(guest.session.store.items), EntryKey(guest.date), guest.session.value, guest.session.codec)
    ensures isGuestUser && old(guest.session.value).Text? ==>
      && outcome == ThrewTypeError
      && guest.isSuccess == old(guest.isSuccess)
      && guest.session.value == old(guest.session.value)
      && guest.session.store.items == old(guest.session.store.items)
    ensures !isGuestUser ==>
      && outcome == Done
      && guest.isSuccess == old(guest.isSuccess)
      && guest.session.value == old(guest.session.value)
      && guest.session.store.items == old(guest.session.store.items)
      && cache.data == old(cache.data)
      && cache.stale == if succeeded then old(cache.stale) + {variables.date} else old(cache.stale)
  {
    if isGuestUser {
      outcome := guest.AddFood(listName, items, freshId);
    } else {
      RunServerMutation(cache, variables, succeeded);
      outcome := Done;
    }
  }

  /** `useUpdateEntry`'s `mutate`, on whichever path `isGuestUser` selects. The guest path
      writes only `updates.note`. react-query's `mutate` swallows the rejection of a failed
      request, so the server path returns normally either way. */
  method UpdateEntry(isGuestUser: bool, guest: GuestMutator, cache: Cache, newData: UpdateVariables,
                     failed: bool, response: UpdateResponse) returns (outcome: Outcome)
    requires guest.Valid()
    modifies guest.session, guest.session.store, cache
    ensures guest.Valid() && guest.isSuccess == old(guest.isSuccess)
    ensures isGuestUser ==> cache.data == old(cache.data) && cache.stale == old(cache.stale)
    ensures isGuestUser && old(guest.session.value).Obj? ==>
      && outcome == Done
      && guest.session.value == Obj(SetNoteOf(old(guest.session.value).obj, newData.updates.note))
      && guest.session.store.items ==
           Save(old(guest.session.store.items), EntryKey(guest.date), guest.session.value, guest.session.codec)
    ensures isGuestUser && old(guest.session.value).Text? ==>
      && outcome == ThrewTypeError
      && guest.session.value == old(guest.session.value)
      && guest.session.store.items == old(guest.session.store.items)
    ensures !isGuestUser ==>
      && outcome == Done
      && guest.session.value == old(guest.session.value)
      && guest.session.store.items == old(guest.session.store.items)
      && (failed ==> cache.data == old(cache.data) && cache.stale == old(cache.stale))
      && (!failed ==>
            && cache.data == old(cache.data)[newData.date := MergeUpdates(Lookup(old(cache.data), newData.date), newData.updates)]
            && cache.stale == old(cache.stale) + {response.date})
  {
    if isGuestUser {
      outcome := guest.UpdateNote(newData.updates.note);
    } else {
      var _ := RunUpdateEntry(cache, newData, failed, response);
      outcome := Done;
    }
  }

  /** `useRemoveFoods`'s `mutate({ date, selectedIds })`, on whichever path `isGuestUser` selects. */
  method RemoveFoods(isGuestUser: bool, guest: GuestMutator, cache: Cache, variables: ServerVariables,
                     selectedIds: seq<Id>, succeeded: bool) returns (outcome: Outcome)
    requires guest.Valid()
    modifies guest.session, guest.session.store, cache
    ensures guest.Valid() && guest.isSuccess == old(guest.isSuccess)
    ensures isGuestUser ==> cache.data == old(cache.data) && cache.stale == old(cache.stale)
    ensures isGuestUser && old(guest.session.value).Obj? ==>
      && outcome == Done
      && guest.session.value == Obj(RemoveFoodsFrom(old(guest.session.value).obj, selectedIds))
      && guest.session.store.items ==
           Save(old(guest.session.store.items), EntryKey(guest.date), guest.session.value, guest.session.codec)
    ensures isGuestUser && old(guest.session.value).Text? ==>
      && outcome == ThrewTypeError
      && guest.session.value == old(guest.session.value)
      && guest.session.store.items == old(guest.session.store.items)
    ensures !isGuestUser ==>
      && outcome == Done
      && guest.session.value == old(guest.session.value)
      && guest.session.store.items == old(guest.session.store.items)
      && cache.data == old(cache.data)
      && cache.stale == if succeeded then old(cache.stale) + {variables.date} else old(cache.stale)
  {
    if isGuestUser {
      outcome := guest.RemoveFoods(variables.date, selectedIds);
    } else {
      RunServerMutation(cache, variables, succeeded);
      outcome := Done;
    }
  }
}
