/** The diary's values: food entries, the entry stored for one date, and the
    list operations the client performs on them (the `filter` by `_id` used by
    remove-foods and by the selection toggle). */
module Entries {

  /** An optional JavaScript value: `None` stands for `undefined` (or a missing key). */
  datatype Option<+T> = None | Some(value: T)

  /** A food entry's `_id` (a UUID on the guest path, a database id on the server path). */
  type Id = string

  /** A calendar day as the client passes it around (the output of `dateOnly`). */
  type Date = string

  /** The fields of a food entry other than `_id` (the chosen food and its chosen options).
      The logic modelled here never looks inside them. */
  type Details = map<string, string>

  datatype FoodEntry = FoodEntry(id: Id, details: Details)

  /** The two lists of a diary entry, as named by the `listName` argument of add-food. */
  datatype ListName = Eaten | ToEat {
    function Other(): (o: ListName)
      ensures o != this
    {
      match this
      case Eaten => ToEat
      case ToEat => Eaten
    }
  }

  /** A diary entry `{eaten, toEat, note}` as the guest path stores it. */
  datatype Entry = Entry(eaten: seq<FoodEntry>, toEat: seq<FoodEntry>, note: Option<string>) {

    function List(l: ListName): seq<FoodEntry> {
      match l
      case Eaten => eaten
      case ToEat => toEat
    }

    /** The entry with list `l` replaced by `s` (the assignment `entry[listName] = s`). */
    function WithList(l: ListName, s: seq<FoodEntry>): (r: Entry)
      ensures r.List(l) == s
      ensures r.List(l.Other()) == List(l.Other())
      ensures r.note == note
    {
      match l
      case Eaten => this.(eaten := s)
      case ToEat => this.(toEat := s)
    }
  }

  /** The default value the guest hooks hand to session storage. */
  const EmptyEntry := Entry([], [], Some(""))

  /** The session-storage key of the guest entry for `date`: the template `entry-${date}`. */
  function EntryKey(date: Date): (k: string)
    ensures |k| == 6 + |date| && k[..6] == "entry-" && k[6..] == date
  {
    "entry-" + date
  }

  /** Distinct dates never share a storage key, so a write for one date cannot touch another's entry. */
  lemma EntryKeyInjective(a: Date, b: Date)
    ensures EntryKey(a) == EntryKey(b) <==> a == b
  {
    if EntryKey(a) == EntryKey(b) {
      assert a == EntryKey(a)[6..];
      assert b == EntryKey(b)[6..];
    }
  }

  /** The ids of a list, in order: `list.map(({ _id }) => _id)`. */
  function Ids(s: seq<FoodEntry>): (r: seq<Id>)
    ensures |r| == |s|
    ensures forall i :: 0 <= i < |s| ==> r[i] == s[i].id
  {
    if s == [] then [] else [s[0].id] + Ids(s[1..])
  }

  /** `id` occurs in `Ids(s)` exactly when some item of `s` carries it. */
  lemma InIds(s: seq<FoodEntry>, id: Id)
    ensures id in Ids(s) <==> exists x :: x in s && x.id == id
  {
    if id in Ids(s) {
      var i :| 0 <= i < |s| && Ids(s)[i] == id;
      assert s[i] in s;
    }
    if exists x :: x in s && x.id == id {
      var x :| x in s && x.id == id;
      var i :| 0 <= i < |s| && s[i] == x;
      assert Ids(s)[i] == id;
    }
  }

  /** The list without the items whose `_id` is in `ids`:
      `list.filter((item) => !ids.includes(item._id))`. */
  function Without(s: seq<FoodEntry>, ids: seq<Id>): (r: seq<FoodEntry>)
    ensures forall x :: x in r <==> x in s && x.id !in ids
    ensures |r| <= |s|
  {
    if s == [] then []
    else if s[0].id in ids then Without(s[1..], ids)
    else [s[0]] + Without(s[1..], ids)
  }

  /** Filtering keeps every copy of every item whose id is not selected, and no copy of
      any other: it drops no repeated item. */
  lemma {:induction false} WithoutCounts(s: seq<FoodEntry>, ids: seq<Id>)
    ensures forall x :: multiset(Without(s, ids))[x] == if x.id in ids then 0 else multiset(s)[x]
  {
    if s != [] {
      WithoutCounts(s[1..], ids);
      assert s == [s[0]] + s[1..];
    }
  }

  /** `a` is `b` with some items left out, the rest in their original order. */
  predicate IsSubsequence<T(==)>(a: seq<T>, b: seq<T>)
    decreases |b|
  {
    if a == [] then true
    else if b == [] then false
    else (a[0] == b[0] && IsSubsequence(a[1..], b[1..])) || IsSubsequence(a, b[1..])
  }

  /** No two items of a list share an `_id`. */
  predicate UniqueIds(s: seq<FoodEntry>) {
    forall i, j :: 0 <= i < j < |s| ==> s[i].id != s[j].id
  }

  /** Filtering keeps the surviving items in their relative order. */
  lemma {:induction false} WithoutIsSubsequence(s: seq<FoodEntry>, ids: seq<Id>)
    ensures IsSubsequence(Without(s, ids), s)
  {
    if s != [] {
      WithoutIsSubsequence(s[1..], ids);
      if s[0].id !in ids {
        var r := Without(s, ids);
        assert r[0] == s[0] && r[1..] == Without(s[1..], ids);
      }
    }
  }

  /** Filtering a concatenation filters each part: the order of survivors is that of the input. */
  lemma {:induction false} WithoutConcat(a: seq<FoodEntry>, b: seq<FoodEntry>, ids: seq<Id>)
    ensures Without(a + b, ids) == Without(a, ids) + Without(b, ids)
  {
    if a == [] {
      assert a + b == b;
    } else {
      assert (a + b)[0] == a[0] && (a + b)[1..] == a[1..] + b;
      WithoutConcat(a[1..], b, ids);
    }
  }

  /** A list none of whose ids is selected comes out of the filter unchanged. */
  lemma {:induction false} WithoutKeepsUnselected(s: seq<FoodEntry>, ids: seq<Id>)
    requires forall x :: x in s ==> x.id !in ids
    ensures Without(s, ids) == s
  {
    if s != [] {
      assert s[0] in s;
      assert forall x :: x in s[1..] ==> x in s;
      WithoutKeepsUnselected(s[1..], ids);
      assert s == [s[0]] + s[1..];
    }
  }

  /** Filtering twice by the same ids is filtering once. */
  lemma WithoutIdempotent(s: seq<FoodEntry>, ids: seq<Id>)
    ensures Without(Without(s, ids), ids) == Without(s, ids)
  {
    WithoutKeepsUnselected(Without(s, ids), ids);
  }

  /** Filtering never introduces two items with one id. */
  lemma {:induction false} WithoutPreservesUniqueIds(s: seq<FoodEntry>, ids: seq<Id>)
    requires UniqueIds(s)
    ensures UniqueIds(Without(s, ids))
  {
    if s != [] {
      var t := s[1..];
      assert UniqueIds(t) by {
        forall i, j | 0 <= i < j < |t| ensures t[i].id != t[j].id {
          assert t[i] == s[i + 1] && t[j] == s[j + 1];
        }
      }
      WithoutPreservesUniqueIds(t, ids);
      if s[0].id !in ids {
        var w := Without(t, ids);
        forall k | 0 <= k < |w| ensures w[k].id != s[0].id {
          assert w[k] in w;
          var j :| 0 <= j < |t| && t[j] == w[k];
          assert s[j + 1] == t[j];
        }
        ConsPreservesUniqueIds(s[0], w);
      }
    }
  }

  /** Putting an item whose id the list does not use in front of it keeps ids distinct. */
  lemma ConsPreservesUniqueIds(a: FoodEntry, w: seq<FoodEntry>)
    requires UniqueIds(w)
    requires forall k :: 0 <= k < |w| ==> w[k].id != a.id
    ensures UniqueIds([a] + w)
  {
    var r := [a] + w;
    forall i, j | 0 <= i < j < |r| ensures r[i].id != r[j].id {
      if i == 0 {
        assert r[j] == w[j - 1];
      } else {
        assert r[i] == w[i - 1] && r[j] == w[j - 1];
      }
    }
  }
}
