/** The react-query cache as the diary code uses it: one cached value per
    query key `["entry", date]` (so keyed here by the date alone), and a stale
    flag per key that `invalidateQueries` raises and a completed refetch lowers (invalidation
    only, not react-query's time-based staleness). */
module QueryCache {
  import opened Entries

  /** A server diary entry as held in the cache, field by field. `None` is a field that is
      missing or `undefined`; `rest` holds the fields the client never writes
      (`totalEatenKJ`, the date, database ids). */
  datatype Cached = Cached(
    eaten: Option<seq<FoodEntry>>,
    toEat: Option<seq<FoodEntry>>,
    note: Option<string>,
    rest: map<string, string>)

  /** The object a spread of `prev` starts from: `{ ...prev }`, where `{ ...undefined }` is `{}`. */
  function Base(prev: Option<Cached>): (b: Cached)
    ensures prev.Some? ==> b == prev.value
    ensures prev.None? ==> b.eaten == None && b.toEat == None && b.note == None && b.rest == map[]
  {
    match prev
    case Some(c) => c
    case None => Cached(None, None, None, map[])
  }

  /** `getQueryData(["entry", date])`: `None` is its `undefined`. */
  function Lookup(m: map<Date, Cached>, date: Date): (r: Option<Cached>)
    ensures r.Some? <==> date in m
    ensures r.Some? ==> r.value == m[date]
  {
    if date in m then Some(m[date]) else None
  }

  /** `setQueryData(["entry", date], v)`: setting `undefined` leaves no data for the key. */
  function Put(m: map<Date, Cached>, date: Date, v: Option<Cached>): (r: map<Date, Cached>)
    ensures v.Some? ==> date in r && r[date] == v.value
    ensures v.None? ==> date !in r
    ensures forall d :: d != date ==> (d in r <==> d in m)
    ensures forall d :: d in m && d != date ==> r[d] == m[d]
  {
    match v
    case Some(c) => m[date := c]
    case None => m - {date}
  }

  /** Writing a date and then putting back what `getQueryData` returned before the write
      restores the whole cache, whether or not the date had data. */
  lemma PutBackRestores(m: map<Date, Cached>, date: Date, c: Cached)
    ensures Put(m[date := c], date, Lookup(m, date)) == m
  {
    if date !in m {
      assert m[date := c] - {date} == m;
    }
  }

  /** A write, or a put, for one date leaves every other date's data as it was. */
  lemma PutLeavesOtherDates(m: map<Date, Cached>, date: Date, other: Date, v: Option<Cached>)
    requires other != date
    ensures Lookup(Put(m, date, v), other) == Lookup(m, other)
  {
  }

  /** The shared `queryClient`, reduced to the entry queries. */
  class Cache {
    var data: map<Date, Cached>
    var stale: set<Date>

    constructor()
      ensures data == map[] && stale == {}
    {
      data := map[];
      stale := {};
    }

    method GetQueryData(date: Date) returns (r: Option<Cached>)
      ensures r == Lookup(data, date)
    {
      r := if date in data then Some(data[date]) else None;
    }

    method SetQueryData(date: Date, v: Option<Cached>)
      modifies this
      ensures data == Put(old(data), date, v)
      ensures stale == old(stale)
    {
      data := Put(data, date, v);
    }

    /** `invalidateQueries(["entry", date])`: marks the date stale so its query refetches;
        the cached value stays until the refetch lands. */
    method InvalidateQueries(date: Date)
      modifies this
      ensures data == old(data)
      ensures stale == old(stale) + {date}
    {
      stale := stale + {date};
    }

    /** A fetch of `getDiaryEntryByDate(date)` completing with the server's entry. */
    method Fetched(date: Date, entry: Cached)
      modifies this
      ensures data == old(data)[date := entry]
      ensures stale == old(stale) - {date}
    {
      data := data[date := entry];
      stale := stale - {date};
    }
  }
}
