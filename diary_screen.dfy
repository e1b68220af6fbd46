/** The renderless logic of the `Diary` screen: the edit-mode food selection,
    the note kept in step with the loaded entry, the flag that swallows the
    first debounced note after a date change, and the screen's own optimistic
    note update. The debounced note is supplied by the caller as the value
    `useDebounce` delivers on each render. */
module Diary {
  import opened Entries
  import opened QueryCache

  // ---------------------------------------------------------------------------
  // Food selection
  // ---------------------------------------------------------------------------

  /** `handleSelectFood(food)`: outside edit mode nothing changes; in edit mode a food whose
      `_id` is already selected is dropped (every item with that `_id`), and any other food
      is appended. */
  function SelectFood(showSelectBtn: bool, selected: seq<FoodEntry>, food: FoodEntry): (r: seq<FoodEntry>)
    ensures !showSelectBtn ==> r == selected
    ensures showSelectBtn && food.id in Ids(selected) ==>
      && (forall x :: x in r <==> x in selected && x.id != food.id)
      && (forall x :: multiset(r)[x] == if x.id == food.id then 0 else multiset(selected)[x])
      && IsSubsequence(r, selected)
    ensures showSelectBtn && food.id !in Ids(selected) ==> r == selected + [food]
  {
    if !showSelectBtn then selected
    else if food.id in Ids(selected) then
      WithoutIsSubsequence(selected, [food.id]);
      WithoutCounts(selected, [food.id]);
      Without(selected, [food.id])
    else selected + [food]
  }

  /** The selection never holds two items with one `_id`, if it did not before. */
  lemma SelectFoodKeepsIdsUnique(showSelectBtn: bool, selected: seq<FoodEntry>, food: FoodEntry)
    requires UniqueIds(selected)
    ensures UniqueIds(SelectFood(showSelectBtn, selected, food))
  {
    if showSelectBtn {
      if food.id in Ids(selected) {
        WithoutPreservesUniqueIds(selected, [food.id]);
      } else {
        var t := selected + [food];
        forall i, j | 0 <= i < j < |t| ensures t[i].id != t[j].id {
          if j == |selected| {
            assert t[i] == selected[i] && Ids(selected)[i] == selected[i].id;
          } else {
            assert t[i] == selected[i] && t[j] == selected[j];
          }
        }
      }
    }
  }

  /** Selecting a food that is not selected and then selecting it again gives back the
      selection as it was. */
  lemma SelectFoodTwiceRestores(selected: seq<FoodEntry>, food: FoodEntry)
    requires food.id !in Ids(selected)
    ensures SelectFood(true, SelectFood(true, selected, food), food) == selected
  {
    var once := selected + [food];
    assert food.id in Ids(once) by {
      assert Ids(once)[|selected|] == food.id;
    }
    InIds(selected, food.id);
    WithoutConcat(selected, [food], [food.id]);
    WithoutKeepsUnselected(selected, [food.id]);
    assert Without([food], [food.id]) == [];
  }

  /** Selecting an already selected food twice drops it and then appends it: the food
      moves to the end of the selection. */
  lemma SelectFoodTwiceWhenSelected(selected: seq<FoodEntry>, food: FoodEntry)
    requires food.id in Ids(selected)
    ensures SelectFood(true, SelectFood(true, selected, food), food) == Without(selected, [food.id]) + [food]
  {
    var once := Without(selected, [food.id]);
    InIds(once, food.id);
  }

  // ---------------------------------------------------------------------------
  // The debounced note
  // ---------------------------------------------------------------------------

  /** What the debounce effect leaves behind: the new `debounceHookSet.current`, and the note it
      sends to the server, if any. */
  datatype Effect = Effect(hookSet: bool, issued: Option<string>)

  /** One run of the effect on `[debouncedNote]`: `null` (`None`) does nothing; otherwise a clear
      flag is set and the note swallowed, and a set flag lets the note through. */
  function DebounceEffect(hookSet: bool, debounced: Option<string>): (e: Effect)
    ensures debounced.None? ==> e == Effect(hookSet, None)
    ensures debounced.Some? ==> e.hookSet
    ensures e.issued.Some? <==> hookSet && debounced.Some?
    ensures e.issued.Some? ==> e.issued == debounced
  {
    match debounced
    case None => Effect(hookSet, None)
    case Some(text) => if !hookSet then Effect(true, None) else Effect(true, Some(text))
  }

  /** The notes sent for a run of debounced values, each one a fresh run of the effect. */
  function Issued(hookSet: bool, delivered: seq<Option<string>>): (r: seq<string>)
    ensures forall t :: t in r ==> Some(t) in delivered
    decreases |delivered|
  {
    if delivered == [] then []
    else
      assert delivered == [delivered[0]] + delivered[1..];
      var e := DebounceEffect(hookSet, delivered[0]);
      (if e.issued.Some? then [e.issued.value] else []) + Issued(e.hookSet, delivered[1..])
  }

  /** The non-null values of a run, in order. */
  function NonNull(delivered: seq<Option<string>>): (r: seq<string>)
    ensures |r| <= |delivered|
    ensures forall t :: t in r <==> Some(t) in delivered
  {
    if delivered == [] then []
    else
      assert delivered == [delivered[0]] + delivered[1..];
      (if delivered[0].Some? then [delivered[0].value] else []) + NonNull(delivered[1..])
  }

  /** The non-null values of two runs one after the other are those of the first run followed
      by those of the second: `NonNull` keeps the delivery order. */
  lemma {:induction false} NonNullConcat(a: seq<Option<string>>, b: seq<Option<string>>)
    ensures NonNull(a + b) == NonNull(a) + NonNull(b)
  {
    if a == [] {
      assert a + b == b;
    } else {
      assert (a + b)[0] == a[0] && (a + b)[1..] == a[1..] + b;
      NonNullConcat(a[1..], b);
    }
  }

  /** A null debounced note never sends anything, whatever the flag. */
  lemma NullNeverSends(hookSet: bool)
    ensures DebounceEffect(hookSet, None).issued == None
    ensures DebounceEffect(hookSet, None).hookSet == hookSet
  {
  }

  /** Once the flag is set, every non-null debounced note is sent, each exactly once and in order. */
  lemma {:induction false} IssuedOnceSet(delivered: seq<Option<string>>)
    ensures Issued(true, delivered) == NonNull(delivered)
  {
    if delivered != [] {
      IssuedOnceSet(delivered[1..]);
    }
  }

  /** After the flag is reset by a date change, the first non-null debounced note is swallowed
      and every later one is sent. */
  lemma {:induction false} IssuedAfterReset(delivered: seq<Option<string>>)
    ensures Issued(false, delivered) == if NonNull(delivered) == [] then [] else NonNull(delivered)[1..]
  {
    if delivered != [] {
      if delivered[0].Some? {
        IssuedOnceSet(delivered[1..]);
        assert NonNull(delivered) == [delivered[0].value] + NonNull(delivered[1..]);
      } else {
        IssuedAfterReset(delivered[1..]);
      }
    }
  }

  /** The evidently intended debounce effect. `loaded` is the note the note effect last loaded
      from the query, or `None` once the user has typed since. A debounced value is swallowed
      exactly when it is that loaded note, however late the load arrived; any other value is a
      user's edit and is sent. */
  function DebounceEffectIntended(hookSet: bool, loaded: Option<string>, debounced: Option<string>): (e: Effect)
    ensures debounced.None? ==> e == Effect(hookSet, None)
    ensures debounced.Some? ==> e.hookSet
    ensures e.issued.Some? <==> debounced.Some? && debounced != loaded
    ensures e.issued.Some? ==> e.issued == debounced
  {
    match debounced
    case None => Effect(hookSet, None)
    case Some(text) => if loaded == Some(text) then Effect(true, None) else Effect(true, Some(text))
  }

  /** The intended effect never sends the loaded note, sends every other non-null value, and,
      once the user has typed (nothing loaded is pending) and the flag is set, agrees with the
      effect as written. */
  lemma IntendedSendsEveryEdit(hookSet: bool, loaded: Option<string>, debounced: Option<string>)
    ensures debounced.Some? && debounced == loaded ==> DebounceEffectIntended(hookSet, loaded, debounced).issued == None
    ensures debounced.Some? && debounced != loaded ==>
      DebounceEffectIntended(hookSet, loaded, debounced).issued == debounced
    ensures hookSet && loaded.None? ==> DebounceEffectIntended(hookSet, loaded, debounced) == DebounceEffect(hookSet, debounced)
  {
  }

  /** The local note the effect on `[data.note]` sets: the loaded note when it is truthy,
      and `""` otherwise. */
  function NoteFromData(dataNote: Option<string>): (n: string)
    ensures dataNote.Some? && dataNote.value != "" ==> n == dataNote.value
    ensures dataNote.None? || dataNote.value == "" ==> n == ""
  {
    if dataNote.Some? && dataNote.value != "" then dataNote.value else ""
  }

  /** `updateNoteMutation.mutate({ date: selectedDate, updates: { note } })`. */
  datatype NoteRequest = NoteRequest(date: Date, note: string)

  /** The state of one mounted `Diary` screen. `dataNote` and `debouncedNote` are the values
      the two value-dependent effects last ran with: an effect re-runs only on a render whose
      value differs. `loadedNote` is the note the note effect last set, until the user types;
      only the intended debounce effect (`RenderIntended`) reads it. */
  class Screen {
    var selectedDate: Date
    var showSelectBtn: bool
    var selectedFoods: seq<FoodEntry>
    var note: Option<string>
    var debounceHookSet: bool
    var dataNote: Option<string>
    var debouncedNote: Option<string>
    var loadedNote: Option<string>

    ghost predicate Valid()
      reads this
    {
      UniqueIds(selectedFoods)
    }

    /** Mount: edit mode off, nothing selected, note `null`; then the effects run in source
        order. The note effect sets the note from `data.note`, the date effect clears the flag,
        and the debounce effect sees `useDebounce`'s first value, the initial note `null`, so
        it does nothing. */
    constructor(date: Date, dataNote: Option<string>)
      ensures Valid()
      ensures selectedDate == date && !showSelectBtn && selectedFoods == []
      ensures note == Some(NoteFromData(dataNote)) && !debounceHookSet
      ensures this.dataNote == dataNote && debouncedNote == None
      ensures loadedNote == note
    {
      selectedDate := date;
      showSelectBtn := false;
      selectedFoods := [];
      this.dataNote := dataNote;
      note := Some(NoteFromData(dataNote));
      debounceHookSet := false;
      debouncedNote := None;
      loadedNote := note;
    }

    /** `handleDateChange(date)`: navigate to the date's route and leave edit mode. The
        selection is kept. */
    method HandleDateChange(date: Date) returns (route: string)
      requires Valid()
      modifies this
      ensures Valid()
      ensures route == "/diary/" + date
      ensures !showSelectBtn
      ensures selectedFoods == old(selectedFoods) && selectedDate == old(selectedDate)
      ensures note == old(note) && debounceHookSet == old(debounceHookSet)
      ensures dataNote == old(dataNote) && debouncedNote == old(debouncedNote) && loadedNote == old(loadedNote)
    {
      route := "/diary/" + date;
      showSelectBtn := false;
    }

    /** `toggleShowSelectBtn()`: clear the selection and flip edit mode. */
    method ToggleShowSelectBtn()
      modifies this
      ensures Valid()
      ensures selectedFoods == [] && showSelectBtn == !old(showSelectBtn)
      ensures selectedDate == old(selectedDate) && note == old(note) && debounceHookSet == old(debounceHookSet)
      ensures dataNote == old(dataNote) && debouncedNote == old(debouncedNote) && loadedNote == old(loadedNote)
    {
      selectedFoods := [];
      showSelectBtn := !showSelectBtn;
    }

    /** `handleSelectFood(food)`. */
    method HandleSelectFood(food: FoodEntry)
      requires Valid()
      modifies this
      ensures Valid()
      ensures selectedFoods == SelectFood(old(showSelectBtn), old(selectedFoods), food)
      ensures showSelectBtn == old(showSelectBtn) && selectedDate == old(selectedDate)
      ensures note == old(note) && debounceHookSet == old(debounceHookSet)
      ensures dataNote == old(dataNote) && debouncedNote == old(debouncedNote) && loadedNote == old(loadedNote)
    {
      SelectFoodKeepsIdsUnique(showSelectBtn, selectedFoods, food);
      selectedFoods := SelectFood(showSelectBtn, selectedFoods, food);
    }

    /** The note field's `onChange`: `setNote(e.target.value)`. The note is now the user's, so
        no loaded note is pending. */
    method TypeNote(text: string)
      modifies this`note, this`loadedNote
      ensures note == Some(text) && loadedNote == None
    {
      note := Some(text);
      loadedNote := None;
    }

    /** A render with the route's date, the query's `data.note` and `useDebounce`'s current
        value; the three effects then run in source order, each only if its dependency
        changed. Returns the update the debounce effect sends, if any. */
    method Render(date: Date, newDataNote: Option<string>, newDebounced: Option<string>) returns (request: Option<NoteRequest>)
      requires Valid()
      modifies this
      ensures Valid()
      ensures selectedDate == date
      ensures showSelectBtn == old(showSelectBtn) && selectedFoods == old(selectedFoods)
      ensures dataNote == newDataNote && debouncedNote == newDebounced
      ensures note == if newDataNote != old(dataNote) then Some(NoteFromData(newDataNote)) else old(note)
      ensures loadedNote == if newDataNote != old(dataNote) then Some(NoteFromData(newDataNote)) else old(loadedNote)
      ensures var flag := if date != old(selectedDate) then false else old(debounceHookSet);
        if newDebounced != old(debouncedNote) then
          var e := DebounceEffect(flag, newDebounced);
          debounceHookSet == e.hookSet &&
          request == (if e.issued.Some? then Some(NoteRequest(date, e.issued.value)) else None)
        else
          debounceHookSet == flag && request == None
    {
      var dateChanged := date != selectedDate;
      selectedDate := date;
      if newDataNote != dataNote {
        dataNote := newDataNote;
        note := Some(NoteFromData(newDataNote));
        loadedNote := note;
      }
      if dateChanged {
        debounceHookSet := false;
      }
      request := None;
      if newDebounced != debouncedNote {
        debouncedNote := newDebounced;
        var e := DebounceEffect(debounceHookSet, newDebounced);
        debounceHookSet := e.hookSet;
        if e.issued.Some? {
          request := Some(NoteRequest(selectedDate, e.issued.value));
        }
      }
    }

    /** `Render` with the intended debounce effect, given the loaded note that is pending after
        this render's note effect. */
    method RenderIntended(date: Date, newDataNote: Option<string>, newDebounced: Option<string>) returns (request: Option<NoteRequest>)
      requires Valid()
      modifies this
      ensures Valid()
      ensures selectedDate == date
      ensures showSelectBtn == old(showSelectBtn) && selectedFoods == old(selectedFoods)
      ensures dataNote == newDataNote && debouncedNote == newDebounced
      ensures note == if newDataNote != old(dataNote) then Some(NoteFromData(newDataNote)) else old(note)
      ensures loadedNote == if newDataNote != old(dataNote) then Some(NoteFromData(newDataNote)) else old(loadedNote)
      ensures var flag := if date != old(selectedDate) then false else old(debounceHookSet);
        if newDebounced != old(debouncedNote) then
          var e := DebounceEffectIntended(flag, loadedNote, newDebounced);
          debounceHookSet == e.hookSet &&
          request == (if e.issued.Some? then Some(NoteRequest(date, e.issued.value)) else None)
        else
          debounceHookSet == flag && request == None
    {
      var dateChanged := date != selectedDate;
      selectedDate := date;
      if newDataNote != dataNote {
        dataNote := newDataNote;
        note := Some(NoteFromData(newDataNote));
        loadedNote := note;
      }
      if dateChanged {
        debounceHookSet := false;
      }
      request := None;
      if newDebounced != debouncedNote {
        debouncedNote := newDebounced;
        var e := DebounceEffectIntended(debounceHookSet, loadedNote, newDebounced);
        debounceHookSet := e.hookSet;
        if e.issued.Some? {
          request := Some(NoteRequest(selectedDate, e.issued.value));
        }
      }
    }
  }

  /** When the new date's note equals the old date's, the note effect does not re-run, the
      debounced value does not change, and the flag the date change cleared stays clear: the
      first note the user then types is swallowed (`swallowed` is what its render sends),
      and only a second edit is sent. */
  method EditAfterSameNoteDate(a: Date, b: Date, typed: string) returns (swallowed: Option<NoteRequest>, sent: Option<NoteRequest>)
    requires a != b && typed != ""
    ensures swallowed == None
    ensures sent == Some(NoteRequest(b, typed + "!"))
  {
    var screen := new Screen(a, None);
    var r := screen.Render(a, None, Some(""));
    assert r == None && screen.debounceHookSet;
    r := screen.Render(b, None, Some(""));
    assert r == None && !screen.debounceHookSet;
    screen.TypeNote(typed);
    swallowed := screen.Render(b, None, Some(typed));
    sent := screen.Render(b, None, Some(typed + "!"));
  }

  /** The same steps as `EditAfterSameNoteDate` with the intended effect: the first edit after
      the date change is sent. */
  method EditAfterSameNoteDateIntended(a: Date, b: Date, typed: string) returns (first: Option<NoteRequest>)
    requires a != b && typed != ""
    ensures first == Some(NoteRequest(b, typed))
  {
    var screen := new Screen(a, None);
    var r := screen.RenderIntended(a, None, Some(""));
    assert r == None && screen.debounceHookSet;
    r := screen.RenderIntended(b, None, Some(""));
    assert r == None && !screen.debounceHookSet;
    screen.TypeNote(typed);
    first := screen.RenderIntended(b, None, Some(typed));
  }

  /** With the intended effect the initial load of a note is still not sent: mounting on a date
      whose note is `loaded` sends nothing until the user types something else, which is sent. */
  method LoadThenEditIntended(date: Date, loaded: string, typed: string) returns (onLoad: Option<NoteRequest>, onEdit: Option<NoteRequest>)
    requires typed != loaded
    ensures onLoad == None
    ensures onEdit == Some(NoteRequest(date, typed))
  {
    var screen := new Screen(date, Some(loaded));
    onLoad := screen.RenderIntended(date, Some(loaded), Some(loaded));
    screen.TypeNote(typed);
    onEdit := screen.RenderIntended(date, Some(loaded), Some(typed));
  }

  /** A mount whose fetch lands after the first debounce: the empty note of the missing data is
      debounced first and sets the flag, then the fetched note `l` arrives and is debounced in
      turn. As written, that note is sent although the user typed nothing. */
  method SlowLoadIsSent(date: Date, l: string) returns (sent: Option<NoteRequest>)
    requires l != ""
    ensures sent == Some(NoteRequest(date, l))
  {
    var screen := new Screen(date, None);
    var r := screen.Render(date, None, Some(""));
    assert r == None && screen.debounceHookSet;
    r := screen.Render(date, Some(l), Some(""));
    assert r == None;
    sent := screen.Render(date, Some(l), Some(l));
  }

  /** The same slow load with the intended effect sends nothing, and the user's next, different
      note is sent. */
  method SlowLoadThenEditIntended(date: Date, l: string, typed: string) returns (onLoad: seq<Option<NoteRequest>>, onEdit: Option<NoteRequest>)
    requires l != "" && typed != l
    ensures onLoad == [None, None, None]
    ensures onEdit == Some(NoteRequest(date, typed))
  {
    var screen := new Screen(date, None);
    var r1 := screen.RenderIntended(date, None, Some(""));
    var r2 := screen.RenderIntended(date, Some(l), Some(""));
    var r3 := screen.RenderIntended(date, Some(l), Some(l));
    onLoad := [r1, r2, r3];
    screen.TypeNote(typed);
    onEdit := screen.RenderIntended(date, Some(l), Some(typed));
  }

  // ---------------------------------------------------------------------------
  // The screen's optimistic note update
  // ---------------------------------------------------------------------------

  /** `{ ...prev, note: newData.updates.note }`: only the note is replaced. */
  function WithNote(prev: Option<Cached>, note: string): (r: Cached)
    ensures r.note == Some(note)
    ensures r.eaten == Base(prev).eaten && r.toEat == Base(prev).toEat && r.rest == Base(prev).rest
  {
    Base(prev).(note := Some(note))
  }

  /** `onMutate`'s result `{ previousEntry }`. */
  datatype NoteContext = NoteContext(previousEntry: Option<Cached>)

  /** `updateNoteMutation`'s `onMutate`: snapshot the entry for `selectedDate`, then replace
      only its note. react-query fixes a mutation's handlers when `mutate` is called, so
      `selectedDate` is the date of the render that sent the request. */
  method NoteOnMutate(cache: Cache, selectedDate: Date, newData: NoteRequest) returns (context: NoteContext)
    modifies cache
    ensures context.previousEntry == Lookup(old(cache.data), selectedDate)
    ensures cache.data == old(cache.data)[selectedDate := WithNote(context.previousEntry, newData.note)]
    ensures cache.stale == old(cache.stale)
  {
    var previousEntry := cache.GetQueryData(selectedDate);
    cache.SetQueryData(selectedDate, Some(WithNote(previousEntry, newData.note)));
    context := NoteContext(previousEntry);
  }

  /** `updateNoteMutation`'s `onError`: put `rollback.previousEntry` back. */
  method NoteOnError(cache: Cache, selectedDate: Date, rollback: NoteContext)
    modifies cache
    ensures cache.data == Put(old(cache.data), selectedDate, rollback.previousEntry)
    ensures cache.stale == old(cache.stale)
  {
    cache.SetQueryData(selectedDate, rollback.previousEntry);
  }

  /** `updateNoteMutation`'s `onSettled`: invalidate `selectedDate`. */
  method NoteOnSettled(cache: Cache, selectedDate: Date)
    modifies cache
    ensures cache.data == old(cache.data)
    ensures cache.stale == old(cache.stale) + {selectedDate}
  {
    cache.InvalidateQueries(selectedDate);
  }

  /** One whole note update with no other write in between. A failure leaves every cached
      entry as it was; a success leaves the new note in the entry for `selectedDate`; either
      way `selectedDate` is then stale. */
  method RunNoteMutation(cache: Cache, selectedDate: Date, newData: NoteRequest, failed: bool)
    modifies cache
    ensures failed ==> cache.data == old(cache.data)
    ensures !failed ==>
      cache.data == old(cache.data)[selectedDate := WithNote(Lookup(old(cache.data), selectedDate), newData.note)]
    ensures cache.stale == old(cache.stale) + {selectedDate}
  {
    var context := NoteOnMutate(cache, selectedDate, newData);
    if failed {
      NoteOnError(cache, selectedDate, context);
      PutBackRestores(old(cache.data), selectedDate, WithNote(context.previousEntry, newData.note));
    }
    NoteOnSettled(cache, selectedDate);
  }
}
