# Diary-entry logic of the calorie-tracker web client, in Dafny

This project models the part of the calorie-tracker browser client that keeps a
diary entry (the foods eaten, the foods still to eat, and a free-text note for
one calendar day) in step with where it is stored, and proves what each
operation does to it.

- **Session storage** (`session_storage.dfy`, module `SessionStorage`). The
  `useSessionStorage` hook holds a React state value and mirrors it, JSON-encoded,
  into the browser's `sessionStorage` under one key. JSON is abstract: a `Codec`
  is an `encode`/`decode` pair where decode may fail. When decode fails, the hook
  holds the raw stored string, so the hook's value is `Obj(v)` or `Text(s)`. The
  store is a class over a `map<string, string>`. Each mounted hook is a
  `SessionState` object with its own `value`, and several hooks can share one store.
- **The diary hooks** (`use_diary.dfy`, module `UseDiary`). Each of `useAddFood`,
  `useUpdateEntry` and `useRemoveFoods` has two paths:
  - a guest path, which mutates the entry held by its own session hook under
    `"entry-" + date`;
  - an authenticated path, which talks to the server through the react-query
    cache (`query_cache.dfy`, module `QueryCache`). The cache holds a map from
    date to cached entry and a set of stale dates.

  `useUpdateEntry` writes optimistically: it takes a snapshot, merges the update
  into the cache, restores the snapshot on error, and, when the request settles,
  invalidates the date named by the server's response (a failed request has none,
  so its `onSettled` throws). `useDiaryEntry` returns the session result to a guest and
  the server query's result to anyone else.
- **The diary screen** (`diary_screen.dfy`, module `Diary`). This covers:
  - the edit-mode food selection;
  - the note effect;
  - the `debounceHookSet` flag, which swallows the first debounced note after a
    date change;
  - the screen's own optimistic note mutation.

  A render is one method, `Screen.Render`. It runs the three effects in source
  order, and each runs only when its dependency changed.
- **Entries** (`entries.dfy`, module `Entries`). The data model, plus the
  `filter`-by-`_id` that remove-foods and the selection toggle share. It comes with
  lemmas on order, membership, idempotence and uniqueness of ids.

The caller supplies what the code gets from outside:
- whether a request failed;
- the response a successful update resolves with, which `onSettled` reads;
- the fresh `_id` from `uuidv4()`;
- the value `useDebounce` delivers on each render;
- the server query's result.

## Model

| member | source | states |
|---|---|---|
| `Entries.Entry.WithList` | client_web/src/hooks/useDiary.js:78 | assigning one list of an entry replaces that list and keeps the other list and the note |
| `Entries.EntryKey` | client_web/src/hooks/useDiary.js:22 | the guest key for a date is the six characters `entry-` followed by the date itself |
| `Entries.EntryKeyInjective` | client_web/src/hooks/useDiary.js:22 | the keys `entry-${date}` of two dates are equal exactly when the dates are, so a guest write for one date never lands on another's key |
| `Entries.Ids` | client_web/src/components/Diary/index.js:97 | the ids of a list, one per item and in the items' order |
| `Entries.InIds` | client_web/src/components/Diary/index.js:97-98 | `ids.includes(id)` holds exactly when some item of the list carries `id` |
| `Entries.Without` | client_web/src/hooks/useDiary.js:168-173 | filtering by selected ids keeps exactly the items whose `_id` is not selected, and never lengthens the list |
| `Entries.WithoutCounts` | client_web/src/hooks/useDiary.js:168-173 | the filter keeps every copy of each item whose `_id` is not selected and no copy of any other, so with `WithoutIsSubsequence` the result is exactly the unselected items in input order |
| `Entries.WithoutIsSubsequence` | client_web/src/hooks/useDiary.js:168-173 | the filtered list is a subsequence of the input: survivors keep their relative order |
| `Entries.WithoutConcat` | client_web/src/hooks/useDiary.js:168-173 | filtering a concatenation is the concatenation of the filtered parts |
| `Entries.WithoutKeepsUnselected` | client_web/src/hooks/useDiary.js:168-173 | a list with no selected id comes out of the filter unchanged |
| `Entries.WithoutIdempotent` | client_web/src/hooks/useDiary.js:168-173 | filtering twice by the same ids equals filtering once |
| `Entries.WithoutPreservesUniqueIds` | client_web/src/hooks/useDiary.js:168-173 | filtering a list whose ids are distinct gives a list whose ids are distinct |
| `SessionStorage.Read` | client_web/src/hooks/useSessionStorage.js:3-14 | reading a key gives the default for a missing or empty item; otherwise it gives what the stored text decodes to, or the raw text itself when it does not decode |
| `SessionStorage.Save` | client_web/src/hooks/useSessionStorage.js:16-21 | saving sets the key to the value's encoding, adds no other key, and leaves every other key's text as it was |
| `SessionStorage.StorageGuardNeverHolds` | client_web/src/hooks/useSessionStorage.js:4 | `typeof sessionStorage === undefined` compares a string with `undefined` and is never true, so neither the read nor the save (line 18) short-circuits; the proof is one datatype disequality |
| `SessionStorage.ReadMissingIsDefault` | client_web/src/hooks/useSessionStorage.js:6-14 | a missing key, or one holding `""`, reads as the object default (its `JSON.parse` throws and the catch returns it) |
| `SessionStorage.ReadUndecodableIsRaw` | client_web/src/hooks/useSessionStorage.js:8-14 | a stored string that fails to decode is returned raw, not replaced by the default |
| `SessionStorage.ReadAfterSave` | client_web/src/hooks/useSessionStorage.js:6-20 | with a codec whose decode inverts its encode, reading a key after saving a value there gives the value back |
| `SessionStorage.SaveLeavesOtherKeys` | client_web/src/hooks/useSessionStorage.js:17-21 | a save touches no other key: its presence, its stored string and what it reads as are unchanged |
| `SessionStorage.ReadAfterClear` | client_web/src/hooks/useSessionStorage.js:33 | after the store is cleared, every key reads as its default (one branch of the read) |
| `SessionStorage.SaveOfReadIsInvisible` | client_web/src/hooks/useSessionStorage.js:24-31 | saving the value just read back under its key changes what no key reads as, so the first run of the save effect after a mount is harmless |
| `SessionStorage.StaleKeyChangeLosesEntry` | client_web/src/hooks/useSessionStorage.js:24-31 | if the old key's value differs from the new key's, saving the old key's value under the new key makes the new key read as the old value, so the new key's entry is lost |
| `SessionStorage.Store.GetItem` | client_web/src/hooks/useSessionStorage.js:6 | `getItem` gives the stored string, or `null` for a missing key |
| `SessionStorage.Store.SetItem` | client_web/src/hooks/useSessionStorage.js:20 | `setItem` overwrites one key and nothing else |
| `SessionStorage.Store.Clear` | client_web/src/hooks/useSessionStorage.js:33 | `clear` leaves the store empty |
| `SessionStorage.GetValueFromSessionStorage` | client_web/src/hooks/useSessionStorage.js:3-14 | the read gives the default for a missing or empty item, the decoded value when decode succeeds, and the raw string otherwise, and changes nothing |
| `SessionStorage.SaveValueToSessionStorage` | client_web/src/hooks/useSessionStorage.js:16-21 | the save overwrites the key with the encoding of the value and touches no other key |
| `SessionStorage.SessionState.constructor` | client_web/src/hooks/useSessionStorage.js:23-31 | at mount the state is the result of one read, and the save effect then writes that value's encoding under the key |
| `SessionStorage.SessionState.SetValue` | client_web/src/hooks/useSessionStorage.js:29-31 | setting the value saves its encoding under the current key, and only there |
| `SessionStorage.SessionState.SetKey` | client_web/src/hooks/useSessionStorage.js:23-31 | a re-render with a new key keeps the old value (no re-read) and saves it under the new key; with the same key nothing happens |
| `SessionStorage.SessionState.SetKeyReloading` | client_web/src/hooks/useSessionStorage.js:23-31 | the corrected key change: the value is re-read from the new key, and it is that value that gets saved there |
| `SessionStorage.SessionState.ClearSessionStorage` | client_web/src/hooks/useSessionStorage.js:33 | `clearSessionStorage` empties the whole store, not just this hook's key |
| `QueryCache.Lookup` | client_web/src/hooks/useDiary.js:110 | `getQueryData` gives a value exactly when the date has data, and then it gives that data |
| `QueryCache.Put` | client_web/src/hooks/useDiary.js:118-126 | `setQueryData` with a value stores it for the date; with `undefined` the date has no data; every other date keeps its presence and its data |
| `QueryCache.Base` | client_web/src/hooks/useDiary.js:118-121 | the spread `{ ...prev }` is the cached entry, or the empty object when there is none |
| `QueryCache.PutBackRestores` | client_web/src/hooks/useDiary.js:110-127 | writing a date and then putting back the value `getQueryData` gave before restores the whole cache, also when the date had no data |
| `QueryCache.PutLeavesOtherDates` | client_web/src/hooks/useDiary.js:118-126 | a write or a put for one date leaves every other date's cached value as it was |
| `QueryCache.Cache.GetQueryData` | client_web/src/hooks/useDiary.js:110 | `getQueryData` returns the cached value for the date, or `undefined` |
| `QueryCache.Cache.SetQueryData` | client_web/src/hooks/useDiary.js:118-126 | `setQueryData` replaces the one date's value, which `undefined` removes |
| `QueryCache.Cache.InvalidateQueries` | client_web/src/hooks/useDiary.js:91 | `invalidateQueries` marks the date stale and keeps its cached value |
| `QueryCache.Cache.Fetched` | client_web/src/hooks/useDiary.js:43-53 | a completed fetch of the entry stores the server's entry and clears the date's stale mark |
| `UseDiary.AddFoodTo` | client_web/src/hooks/useDiary.js:75-80 | guest add-food appends the item to the end of the named list; the other list and the note are unchanged |
| `UseDiary.SetNoteOf` | client_web/src/hooks/useDiary.js:140-144 | guest update sets the note to `updates.note` and keeps `eaten` and `toEat` |
| `UseDiary.RemoveFoodsFrom` | client_web/src/hooks/useDiary.js:167-181 | guest remove keeps every copy of each unselected item and no item with a selected id, in their relative order, in each list, and keeps the note |
| `UseDiary.RemovedIdsAreGone` | client_web/src/hooks/useDiary.js:167-181 | after guest remove, no item of either list carries a selected id |
| `UseDiary.AddFoodKeepsIdsUnique` | client_web/src/hooks/useDiary.js:75-80 | when the new `_id` is unused in the entry, add-food keeps the ids of both lists distinct |
| `UseDiary.RemoveFoodsKeepsIdsUnique` | client_web/src/hooks/useDiary.js:167-181 | remove-foods keeps the ids of both lists distinct |
| `UseDiary.GuestMutator.constructor` | client_web/src/hooks/useDiary.js:67-72 | each guest mutator mounts its own session hook on `entry-${date}`, with the empty entry as the default |
| `UseDiary.GuestMutator.AddFood` | client_web/src/hooks/useDiary.js:75-82 | guest add-food appends `{ ...items, _id }` with the fresh id and saves under the hook's key only. It then sets `isSuccess` (line 73). On a raw string value it throws and changes nothing |
| `UseDiary.GuestMutator.UpdateNote` | client_web/src/hooks/useDiary.js:140-144 | guest update replaces only the note and saves under the hook's key only; on a raw string value it throws and changes nothing |
| `UseDiary.GuestMutator.RemoveFoods` | client_web/src/hooks/useDiary.js:167-182 | guest remove filters both lists and saves under the hook's own key; the `date` argument is ignored; on a raw string it throws and changes nothing |
| `UseDiary.GuestWriteIsolation` | client_web/src/hooks/useDiary.js:161-181 | a guest write for one date reads back as written, and every other date's entry reads as before |
| `UseDiary.NewDateReadsEmptyEntry` | client_web/src/hooks/useDiary.js:68-72 | with the guest default `EmptyEntry`, a date with nothing stored reads as `{eaten: [], toEat: [], note: ""}` |
| `UseDiary.MergeUpdates` | client_web/src/hooks/useDiary.js:112-121 | the optimistic merge sets only the note when `updates.note` is defined and otherwise only `eaten` and `toEat`; every other field is kept |
| `UseDiary.UpdateOnMutate` | client_web/src/hooks/useDiary.js:107-124 | `onMutate` returns the cached value as it was before the merge, writes the merge for `newData.date` and nothing else |
| `UseDiary.UpdateOnError` | client_web/src/hooks/useDiary.js:125-127 | `onError` puts the snapshot back under the same date key |
| `UseDiary.UpdateOnSettled` | client_web/src/hooks/useDiary.js:128-130 | `onSettled` reads `.date` of its first argument: with a response it invalidates the response's date; with the `undefined` react-query passes after a failure it throws a `TypeError` and invalidates nothing; it never writes data |
| `UseDiary.RunUpdateEntry` | client_web/src/hooks/useDiary.js:106-131 | as written: a failed update leaves the cached data exactly as before and marks nothing stale, because `onSettled` throws; a successful one leaves the merge and marks the response's date stale |
| `UseDiary.UpdateOnSettledByVariables` | client_web/src/hooks/useDiary.js:128-130 | corrected `onSettled`: invalidates the request's own `newData.date`, which react-query passes on failure too, and writes no data |
| `UseDiary.RunUpdateEntryCorrected` | client_web/src/hooks/useDiary.js:106-131 | corrected run: the data outcome is that of `RunUpdateEntry`, and the updated date is stale afterwards whether or not the request failed |
| `UseDiary.FailedUpdateStaleness` | client_web/src/hooks/useDiary.js:125-130 | after a failed update of a fresh cached date, the as-written run leaves the date not invalidated, so this mutation does not refetch it, and the corrected run invalidates it |
| `UseDiary.InvalidateOnSuccess` | client_web/src/hooks/useDiary.js:90-92 | the add-food `onSuccess` invalidates `variables.date` and writes no data, and the remove-foods one (lines 188-190) does the same |
| `UseDiary.RunServerMutation` | client_web/src/hooks/useDiary.js:187-191 | a server add-food or remove-foods marks `variables.date` stale only when the request succeeds, and never writes cached data |
| `UseDiary.OverlappingRollbackKeepsFirstMerge` | client_web/src/hooks/useDiary.js:107-127 | when a second update of a date starts before the first settles and then fails, its rollback restores the first update's merge, not the entry from before both |
| `UseDiary.SessionQuery` | client_web/src/hooks/useDiary.js:35-39 | the session result has the hook's value as `data`, `isLoading` false and `isSuccess` true |
| `UseDiary.ServerQueryEnabled` | client_web/src/hooks/useDiary.js:47 | the server query is enabled exactly for an identity that is not a guest |
| `UseDiary.DiaryEntryQuery` | client_web/src/hooks/useDiary.js:57-59 | a guest gets the session result, never loading and always a success; anyone else gets the server query's result unchanged |
| `UseDiary.PathSelection` | client_web/src/hooks/useDiary.js:47-59 | the result's data comes from the session exactly when the identity is a guest; the second clause only restates `enabled: !isGuestUser` |
| `UseDiary.DataNote` | client_web/src/components/Diary/index.js:32 | `data.note` is the note of a session or cached entry. It is `undefined` for a missing entry, because `data` then defaults to `{}`, and for a raw string, because `data` stays the string and a string has no `note` property |
| `UseDiary.DiaryEntrySession.constructor` | client_web/src/hooks/useDiary.js:21-26 | `useDiaryEntry` mounts a session hook on `entry-${date}` with the empty entry as the default |
| `UseDiary.DiaryEntrySession.Query` | client_web/src/hooks/useDiary.js:35-59 | the hook's result is the session result for a guest and the server's otherwise |
| `UseDiary.DiaryEntrySession.ChangeDate` | client_web/src/hooks/useDiary.js:22 | as written: a re-render for another date keeps the session value (no re-read) and saves the previous date's value under the new date's key; with the same date nothing changes |
| `UseDiary.DiaryEntrySession.ChangeDateReloading` | client_web/src/hooks/useDiary.js:22 | corrected: a re-render for another date re-reads that date's entry before saving, so the new date's stored entry is what the hook holds and is kept |
| `UseDiary.AddFood` | client_web/src/hooks/useDiary.js:95-97 | for a guest: the guest add-food's new value, the save under `entry-${date}` only, and `isSuccess`; on a raw string the `TypeError` with nothing changed; the cache untouched. Otherwise the server mutation, with session storage and `isSuccess` untouched |
| `UseDiary.UpdateEntry` | client_web/src/hooks/useDiary.js:149-151 | for a guest: the note update saved under `entry-${date}` only, or the `TypeError` with nothing changed, and the cache untouched. Otherwise the optimistic server protocol as written (a failure restores the data and marks nothing stale), with session storage untouched |
| `UseDiary.RemoveFoods` | client_web/src/hooks/useDiary.js:193-195 | for a guest: the filtered entry saved under `entry-${date}` only, or the `TypeError` with nothing changed, and the cache untouched. Otherwise the server mutation, with session storage untouched |
| `Diary.SelectFood` | client_web/src/components/Diary/index.js:95-107 | with edit mode off the selection is unchanged. With it on, an already selected `_id` is filtered out (every item with it goes, every copy of every other item stays, in order) and any other food is appended |
| `Diary.SelectFoodKeepsIdsUnique` | client_web/src/components/Diary/index.js:97-105 | toggling a food never creates two selected items with one `_id` |
| `Diary.SelectFoodTwiceRestores` | client_web/src/components/Diary/index.js:97-105 | selecting an unselected food twice returns the selection to its prior value |
| `Diary.SelectFoodTwiceWhenSelected` | client_web/src/components/Diary/index.js:97-105 | selecting an already selected food twice moves it to the end of the selection |
| `Diary.DebounceEffect` | client_web/src/components/Diary/index.js:69-83 | one run of the effect: `null` does nothing; any other value sets the flag; a note is sent exactly when the flag was already set and the value is non-null, and it is that value |
| `Diary.Issued` | client_web/src/components/Diary/index.js:69-83 | the notes sent over a run of debounced values, each run of the effect in turn; every note sent is one of the values delivered |
| `Diary.NonNull` | client_web/src/components/Diary/index.js:70 | the non-null debounced values: exactly the strings delivered, never more entries than were delivered |
| `Diary.NonNullConcat` | client_web/src/components/Diary/index.js:70 | `NonNull` of two runs in a row is that of the first followed by that of the second, so it keeps the delivery order |
| `Diary.NullNeverSends` | client_web/src/components/Diary/index.js:70 | a `null` debounced note sends nothing and leaves the flag as it was (one branch of the effect) |
| `Diary.IssuedOnceSet` | client_web/src/components/Diary/index.js:69-83 | once the flag is set, every non-null debounced note is sent exactly once, in order |
| `Diary.IssuedAfterReset` | client_web/src/components/Diary/index.js:64-83 | after the flag is reset, the first non-null debounced note is swallowed and every later one is sent |
| `Diary.NoteFromData` | client_web/src/components/Diary/index.js:54-60 | the local note becomes `data.note` when it is truthy and `""` otherwise |
| `Diary.Screen.constructor` | client_web/src/components/Diary/index.js:24-68 | at mount edit mode is off, nothing is selected, the note comes from `data.note`, and the flag is clear |
| `Diary.Screen.HandleDateChange` | client_web/src/components/Diary/index.js:85-88 | a date change pushes the date's route and always turns edit mode off; the selection is kept |
| `Diary.Screen.ToggleShowSelectBtn` | client_web/src/components/Diary/index.js:90-93 | the toggle empties the selection and negates edit mode |
| `Diary.Screen.HandleSelectFood` | client_web/src/components/Diary/index.js:95-107 | the selection becomes the toggle of the food, and the selected ids stay distinct |
| `Diary.Screen.TypeNote` | client_web/src/components/Diary/index.js:235-237 | typing sets the local note to the field's text; from then on no loaded note is pending |
| `Diary.Screen.Render` | client_web/src/components/Diary/index.js:54-83 | a render resets the note when `data.note` changed and clears the flag when the date changed. When the debounced note changed, it runs the debounce effect, which sends `{date: selectedDate, updates: {note}}` exactly when the flag was set and the note is non-null |
| `Diary.EditAfterSameNoteDate` | client_web/src/components/Diary/index.js:54-83 | after a change to a date whose note equals the previous date's, the user's first edit sends nothing and only the next one is sent |
| `Diary.DebounceEffectIntended` | client_web/src/components/Diary/index.js:64-83 | corrected effect: `null` does nothing; any other value sets the flag; a value is sent exactly when it is not the note the note effect last loaded and the user has not typed over since |
| `Diary.IntendedSendsEveryEdit` | client_web/src/components/Diary/index.js:64-83 | corrected effect: the pending loaded note is never sent, every other non-null value is sent, and once the user has typed and the flag is set it behaves as written |
| `Diary.Screen.RenderIntended` | client_web/src/components/Diary/index.js:54-83 | corrected render: as `Render`, with the note effect recording the note it loads and the debounce effect swallowing a value exactly when it is that pending loaded note |
| `Diary.EditAfterSameNoteDateIntended` | client_web/src/components/Diary/index.js:64-83 | with the corrected effect, the user's first edit after a change to a same-note date is sent |
| `Diary.LoadThenEditIntended` | client_web/src/components/Diary/index.js:54-83 | with the corrected effect, a note present at mount sends nothing when debounced, and the user's next, different note is sent |
| `Diary.SlowLoadIsSent` | client_web/src/components/Diary/index.js:54-83 | as written: when the entry's note arrives after the first debounce (the empty note of the missing data already set the flag), that loaded note is sent although the user typed nothing |
| `Diary.SlowLoadThenEditIntended` | client_web/src/components/Diary/index.js:54-83 | with the corrected effect, the same slow load sends nothing on any of its three renders, and the user's next, different note is sent |
| `Diary.WithNote` | client_web/src/components/Diary/index.js:41-44 | the screen's optimistic value replaces only the note and keeps every other field |
| `Diary.NoteOnMutate` | client_web/src/components/Diary/index.js:36-47 | the screen's `onMutate` snapshots the entry for `selectedDate`, replaces only its note, and returns the snapshot |
| `Diary.NoteOnError` | client_web/src/components/Diary/index.js:48-50 | the screen's `onError` restores that snapshot under `selectedDate` |
| `Diary.NoteOnSettled` | client_web/src/components/Diary/index.js:51 | the screen's `onSettled` invalidates `selectedDate` |
| `Diary.RunNoteMutation` | client_web/src/components/Diary/index.js:35-52 | a failed note update leaves the cache data as it was, a successful one leaves the new note, and `selectedDate` is stale either way |

## Left out

- All JSX rendering, styling and routing. `history.push` is modelled as the returned route string, and `dateOnly` as the identity on the route's date.
- `useDiaryEntry`'s `eatenList`/`toEatList` state (`client_web/src/hooks/useDiary.js:17-18,28-33,48-51`) is left out. It only feeds the sortable "Test list" display.
- Network requests (`getDiaryEntryByDate`, `addFoodToEntryList`, `updateDiaryEntry`, `removeFoodsByIds`) are not modelled. The caller supplies whether each request failed and the server query's result.
- react-query internals are left out: the awaited `cancelQueries`, refetch scheduling, and the status bookkeeping `setQueryData` does. Invalidation is a stale flag, and a completed fetch clears it.
- The `stale` set models invalidation only. react-query's time-based staleness (`staleTime`) and its background refetches on window focus or remount are left out, so a date not in `stale` can still be refetched by them.
- `uuidv4` is a fresh-id parameter. Whether it is unused in the entry is a precondition of the uniqueness lemma only.
- `JSON.stringify`/`JSON.parse` are an abstract codec. A stored string that parses to something other than an entry object is treated like one that fails to parse.
- The hook's `defaultValue = null` and non-object defaults are left out, because every caller passes an object. A string default would itself be parsed.
- `console.log`/`console.error` are left out.
- A `listName` other than `eaten` or `toEat` is left out.
- The gap between a state setter and the save effect that follows it is not modelled. The two are one step here.
- Stale closures between renders are not modelled. Each guest `mutate` reads the `sessionEntry` of the render that created it and, for remove-foods, builds a new entry from it, so two calls before a re-render keep only the second call's result. The model applies each call to the value the previous one left.
- `useDebounce` is not part of this model; its timer is left out. The model takes the value it delivers on each render, and assumes its first value is the initial note, `null`.
- `useAddFood`'s `enabled: !isGuestUser` is not a mutation option and has no effect, so it is not modelled.
- The older `client_web/src/components/diary/index.js`, `client_web/src/components/SelectedFood/index.js`, `useAuth`, the API's user model and its database connection are outside the modelled core. `isGuestUser` is an input.
- `UseDiary.RunUpdateEntry` states the outcome only for an update with no other cache write between `onMutate` and `onError`. The overlapping case is stated separately by `UseDiary.OverlappingRollbackKeepsFirstMerge`.
- `Diary.RunNoteMutation` also assumes no other cache write between its handlers.
- The model follows the code in three places where a caller might expect otherwise:
  - a stored value that fails to parse comes back raw, rather than falling back to the empty entry;
  - on that raw value the guest mutations throw a `TypeError`, rather than writing an entry;
  - `useUpdateEntry`'s `onSettled` takes its key from the server's response rather than from the request's date, and after a failed request there is no response, so nothing is invalidated and this mutation does not refetch the rolled-back entry (see Findings).
- The guest mutation hooks (`UseDiary.GuestMutator`) are modelled for one date per mount. A mounted `useAddFood`, `useUpdateEntry` or `useRemoveFoods` whose `date` argument changes would keep its old value and save it under the new key (the key-change Finding, `SessionState.SetKey`); the model does not express that change for them, only for `useDiaryEntry` (`DiaryEntrySession.ChangeDate`).

## Findings

| source | as written | input that shows it | evidently intended | confidence | as-written member | corrected member |
|---|---|---|---|---|---|---|
| client_web/src/hooks/useSessionStorage.js:23-31 | when the key changes on a re-render, the state keeps the previous key's value, and the save effect writes that value under the new key | a guest viewing date A (stored entry eA) navigates the still-mounted diary to date B, whose stored entry eB differs from eA; afterwards `entry-B` holds eA and eB is lost | re-read the value from the new key when the key changes, so `entry-B` keeps eB | not executed; medium (it relies on the diary screen staying mounted across date routes) | `SessionStorage.SessionState.SetKey`, `SessionStorage.StaleKeyChangeLosesEntry`, `UseDiary.DiaryEntrySession.ChangeDate` | `SessionStorage.SessionState.SetKeyReloading`, `SessionStorage.SaveOfReadIsInvisible`, `UseDiary.DiaryEntrySession.ChangeDateReloading` |
| client_web/src/hooks/useDiary.js:128-130 | `onSettled: (newData, _err)` reads `.date` of its first argument, which react-query sets to the request's result and to `undefined` after a failure; a failed update therefore throws in `onSettled` and never invalidates the entry | an authenticated update of a cached, fresh date whose request fails: `onError` restores the snapshot, `onSettled` throws, and the date is not stale, so this mutation does not refetch the entry | invalidate `["entry", newData.date]` from the third argument, the request's variables, on success and failure alike | not executed; high (react-query v3 calls `onSettled(undefined, error, variables, context)`) | `UseDiary.UpdateOnSettled`, `UseDiary.RunUpdateEntry`, `UseDiary.FailedUpdateStaleness` | `UseDiary.UpdateOnSettledByVariables`, `UseDiary.RunUpdateEntryCorrected`, `UseDiary.FailedUpdateStaleness` |
| client_web/src/components/Diary/index.js:64-83 | the flag that suppresses a debounced note is set by the first non-null debounced note after a date change or mount, whatever it is, rather than by the loaded note | (1) a change from date A to date B whose notes are equal: `data.note` does not change, no loaded note is delivered, and the user's first edit on B is swallowed; (2) a mount whose fetch lands after the first debounce: the empty note of the missing data sets the flag, and the fetched note is then sent without any edit | swallow exactly the note loaded from the query until the user types, and send every edit | not executed; medium (case 1 needs two dates with equal notes, such as two empty ones; case 2 needs a fetch slower than the 1000 ms debounce) | `Diary.Screen.Render`, `Diary.EditAfterSameNoteDate`, `Diary.SlowLoadIsSent` | `Diary.Screen.RenderIntended`, `Diary.DebounceEffectIntended`, `Diary.IntendedSendsEveryEdit`, `Diary.EditAfterSameNoteDateIntended`, `Diary.LoadThenEditIntended`, `Diary.SlowLoadThenEditIntended` |
