/** The list of sensors found by a scan: one entry per sensor address, whose signal
    strength is refreshed on every report and which can be kept ordered by signal
    strength, strongest first. */
module SearchResults {
  import opened Sdk

  /** Java `short`: the type of a reported signal strength. */
  newtype Rssi = x: int | -0x8000 <= x < 0x8000

  /** What the SDK reports for a found sensor; immutable. */
  datatype SearchResult = SearchResult(macaddress: Address, rssi: Rssi)

  /** An entry of the list (`MutableSearchResult`): a fixed address and an rssi that
      `Update` refreshes. */
  datatype Entry = Entry(address: Address, rssi: Rssi)

  datatype Error = IllegalState(message: string)

  datatype Outcome = Pass | Fail(error: Error)

  const MANUAL_ADD_MESSAGE := "Do not add items manual, use the adapter as a SearchCallback"

  /** `MutableSearchResult.from`: the entry for a freshly found sensor. */
  function From(sr: SearchResult): Entry
  {
    Entry(sr.macaddress, sr.rssi)
  }

  function AddressSet(s: seq<Entry>): set<Address>
  {
    set e | e in s :: e.address
  }

  ghost predicate UniqueAddresses(s: seq<Entry>)
  {
    forall i, j :: 0 <= i < |s| && 0 <= j < |s| && s[i].address == s[j].address ==> i == j
  }

  /** Ordered by rssi, strongest first (the comparator `rhs.rssi - lhs.rssi`). */
  ghost predicate SortedByRssi(s: seq<Entry>)
  {
    forall i, j :: 0 <= i < j < |s| ==> s[i].rssi >= s[j].rssi
  }

  /** The position of the first entry with address `a`, if there is one. */
  function IndexOf(s: seq<Entry>, a: Address): (r: Option<nat>)
    ensures r.None? <==> forall j :: 0 <= j < |s| ==> s[j].address != a
    ensures r.Some? ==> r.value < |s| && s[r.value].address == a
    ensures r.Some? ==> forall j :: 0 <= j < r.value ==> s[j].address != a
  {
    if s == [] then None
    else if s[0].address == a then Some(0)
    else match IndexOf(s[1..], a)
      case None => None
      case Some(k) => Some(k + 1)
  }

  /** Insert `e` into a list ordered strongest first, ahead of the entries that are
      not stronger than it. */
  function Insert(e: Entry, s: seq<Entry>): seq<Entry>
  {
    if s == [] || e.rssi >= s[0].rssi then [e] + s
    else [s[0]] + Insert(e, s[1..])
  }

  /** The list ordered strongest first; entries of equal rssi keep their order, as
      with the stable sort of `ArrayAdapter.sort`. */
  function SortByRssi(s: seq<Entry>): seq<Entry>
  {
    if s == [] then [] else Insert(s[0], SortByRssi(s[1..]))
  }

  /** The list after a report, before any sorting: the rssi of the entry with the
      reported address is replaced, or an entry for the new address is appended. */
  function Placed(items: seq<Entry>, sr: SearchResult): seq<Entry>
  {
    match IndexOf(items, sr.macaddress)
    case Some(k) => items[k := Entry(items[k].address, sr.rssi)]
    case None => items + [From(sr)]
  }

  /** The list after `update` with the given sorting flag. */
  function Upsert(items: seq<Entry>, sr: SearchResult, sorting: bool): seq<Entry>
  {
    var placed := Placed(items, sr);
    if sorting then SortByRssi(placed) else placed
  }

  lemma {:induction false} InsertPermutes(e: Entry, s: seq<Entry>)
    ensures multiset(Insert(e, s)) == multiset(s) + multiset{e}
  {
    if s == [] || e.rssi >= s[0].rssi {
    } else {
      InsertPermutes(e, s[1..]);
      assert s == [s[0]] + s[1..];
    }
  }

  /** Inserting an entry no stronger than `b` into a list of entries no stronger
      than `b` yields a list of entries no stronger than `b`. */
  lemma {:induction false} InsertBelow(e: Entry, t: seq<Entry>, b: Rssi)
    requires e.rssi <= b
    requires forall i :: 0 <= i < |t| ==> t[i].rssi <= b
    ensures forall i :: 0 <= i < |Insert(e, t)| ==> Insert(e, t)[i].rssi <= b
  {
    if t != [] && e.rssi < t[0].rssi {
      InsertBelow(e, t[1..], b);
    }
  }

  lemma {:induction false} InsertSorted(e: Entry, s: seq<Entry>)
    requires SortedByRssi(s)
    ensures SortedByRssi(Insert(e, s))
  {
    if s == [] || e.rssi >= s[0].rssi {
    } else {
      var t := s[1..];
      assert SortedByRssi(t);
      InsertSorted(e, t);
      var r := Insert(e, t);
      InsertBelow(e, t, s[0].rssi);
      forall i, j | 0 <= i < j < |[s[0]] + r| ensures ([s[0]] + r)[i].rssi >= ([s[0]] + r)[j].rssi {
        if i == 0 {
          assert ([s[0]] + r)[j] == r[j - 1];
        } else {
          assert ([s[0]] + r)[i] == r[i - 1] && ([s[0]] + r)[j] == r[j - 1];
        }
      }
    }
  }

  /** Sorting rearranges the list: the same entries, each as often. */
  lemma {:induction false} SortPermutes(s: seq<Entry>)
    ensures multiset(SortByRssi(s)) == multiset(s)
  {
    if s != [] {
      SortPermutes(s[1..]);
      InsertPermutes(s[0], SortByRssi(s[1..]));
      assert s == [s[0]] + s[1..];
    }
  }

  /** Sorting orders the list strongest first. */
  lemma {:induction false} SortSorts(s: seq<Entry>)
    ensures SortedByRssi(SortByRssi(s))
  {
    if s != [] {
      SortSorts(s[1..]);
      InsertSorted(s[0], SortByRssi(s[1..]));
    }
  }

  lemma MultisetSameMembers(s: seq<Entry>, t: seq<Entry>)
    requires multiset(s) == multiset(t)
    ensures forall e :: e in s <==> e in t
    ensures AddressSet(s) == AddressSet(t) && |s| == |t|
  {
    forall e ensures e in s <==> e in t {
      assert e in s <==> e in multiset(s);
      assert e in t <==> e in multiset(t);
    }
    assert |multiset(s)| == |multiset(t)|;
  }

  lemma UniqueCons(x: Entry, s: seq<Entry>)
    requires UniqueAddresses(s) && x.address !in AddressSet(s)
    ensures UniqueAddresses([x] + s)
  {
    var t := [x] + s;
    forall i, j | 0 <= i < |t| && 0 <= j < |t| && t[i].address == t[j].address ensures i == j {
      if i != 0 && j != 0 {
        assert t[i] == s[i - 1] && t[j] == s[j - 1];
      }
    }
  }

  lemma UniqueTail(s: seq<Entry>)
    requires s != [] && UniqueAddresses(s)
    ensures UniqueAddresses(s[1..]) && s[0].address !in AddressSet(s[1..])
  {
    var t := s[1..];
    forall i, j | 0 <= i < |t| && 0 <= j < |t| && t[i].address == t[j].address ensures i == j {
      assert s[i + 1] == t[i] && s[j + 1] == t[j];
    }
  }

  lemma {:induction false} InsertKeepsUnique(e: Entry, s: seq<Entry>)
    requires UniqueAddresses(s) && e.address !in AddressSet(s)
    ensures UniqueAddresses(Insert(e, s))
  {
    if s == [] || e.rssi >= s[0].rssi {
      UniqueCons(e, s);
    } else {
      UniqueTail(s);
      var t := s[1..];
      assert AddressSet(t) <= AddressSet(s) by {
        forall a | a in AddressSet(t) ensures a in AddressSet(s) {
          var x :| x in t && x.address == a;
          assert x in s;
        }
      }
      InsertKeepsUnique(e, t);
      InsertPermutes(e, t);
      var r := Insert(e, t);
      MultisetSameMembers(r, t + [e]);
      assert AddressSet(t + [e]) == AddressSet(t) + {e.address};
      UniqueCons(s[0], r);
    }
  }

  /** Sorting never makes two entries share an address. */
  lemma {:induction false} SortKeepsUnique(s: seq<Entry>)
    requires UniqueAddresses(s)
    ensures UniqueAddresses(SortByRssi(s))
  {
    if s != [] {
      UniqueTail(s);
      SortKeepsUnique(s[1..]);
      SortPermutes(s[1..]);
      MultisetSameMembers(SortByRssi(s[1..]), s[1..]);
      InsertKeepsUnique(s[0], SortByRssi(s[1..]));
    }
  }

  /** A report for an address already in the list replaces that entry's rssi and
      changes nothing else; without sorting the entry keeps its position. */
  lemma UpsertKnownAddress(items: seq<Entry>, sr: SearchResult, sorting: bool, k: nat)
    requires k < |items| && items[k].address == sr.macaddress && UniqueAddresses(items)
    ensures var r := Upsert(items, sr, sorting);
      && |r| == |items|
      && multiset(r) == multiset(items[k := Entry(sr.macaddress, sr.rssi)])
      && (!sorting ==> r == items[k := Entry(sr.macaddress, sr.rssi)])
      && (sorting ==> SortedByRssi(r))
  {
    assert IndexOf(items, sr.macaddress) == Some(k);
    var p := Placed(items, sr);
    if sorting {
      SortPermutes(p);
      SortSorts(p);
      MultisetSameMembers(SortByRssi(p), p);
    }
  }

  /** A report for an address not in the list adds exactly one entry, for that
      address with that rssi; without sorting it goes at the end. */
  lemma UpsertNewAddress(items: seq<Entry>, sr: SearchResult, sorting: bool)
    requires sr.macaddress !in AddressSet(items)
    ensures var r := Upsert(items, sr, sorting);
      && |r| == |items| + 1
      && multiset(r) == multiset(items) + multiset{From(sr)}
      && (!sorting ==> r == items + [From(sr)])
      && (sorting ==> SortedByRssi(r))
  {
    var p := Placed(items, sr);
    if sorting {
      SortPermutes(p);
      SortSorts(p);
      MultisetSameMembers(SortByRssi(p), p);
    }
  }

  /** Entries for other addresses are carried over unchanged, and every entry of
      the result is either carried over or the reported one. */
  lemma UpsertKeepsOthers(items: seq<Entry>, sr: SearchResult, sorting: bool)
    ensures var r := Upsert(items, sr, sorting);
      && (forall e :: e in items && e.address != sr.macaddress ==> e in r)
      && (forall e :: e in r ==> e in items || e == Entry(sr.macaddress, sr.rssi))
  {
    var p := Placed(items, sr);
    match IndexOf(items, sr.macaddress) {
    case Some(k) =>
      forall e | e in items && e.address != sr.macaddress ensures e in p {
        var j :| 0 <= j < |items| && items[j] == e;
        assert p[j] == e;
      }
      forall e | e in p ensures e in items || e == Entry(sr.macaddress, sr.rssi) {
        var j :| 0 <= j < |p| && p[j] == e;
        if j != k { assert items[j] == e; }
      }
    case None =>
    }
    if sorting {
      SortPermutes(p);
      MultisetSameMembers(SortByRssi(p), p);
    }
  }

  /** `update` keeps addresses pairwise distinct, and an address, once listed, stays
      listed: the addresses afterwards are those before plus the reported one. */
  lemma UpsertKeepsUnique(items: seq<Entry>, sr: SearchResult, sorting: bool)
    requires UniqueAddresses(items)
    ensures UniqueAddresses(Upsert(items, sr, sorting))
    ensures AddressSet(Upsert(items, sr, sorting)) == AddressSet(items) + {sr.macaddress}
  {
    var p := Placed(items, sr);
    match IndexOf(items, sr.macaddress) {
    case Some(k) =>
      assert p == items[k := Entry(items[k].address, sr.rssi)];
      forall i, j | 0 <= i < |p| && 0 <= j < |p| && p[i].address == p[j].address ensures i == j {
        assert p[i].address == items[i].address && p[j].address == items[j].address;
      }
      forall a ensures a in AddressSet(p) <==> a in AddressSet(items) + {sr.macaddress} {
        if a in AddressSet(p) {
          var e :| e in p && e.address == a;
          var j :| 0 <= j < |p| && p[j] == e;
          assert items[j] in items;
        }
        if a in AddressSet(items) {
          var e :| e in items && e.address == a;
          var j :| 0 <= j < |items| && items[j] == e;
          assert p[j] in p;
        }
        if a == sr.macaddress {
          assert p[k] in p;
        }
      }
    case None =>
      assert forall j :: 0 <= j < |items| ==> items[j].address != sr.macaddress;
      assert AddressSet(p) == AddressSet(items) + {sr.macaddress} by {
        forall a ensures a in AddressSet(p) <==> a in AddressSet(items) + {sr.macaddress} {
          if a in AddressSet(p) {
            var e :| e in p && e.address == a;
            assert e in items || e == From(sr);
          }
          if a in AddressSet(items) {
            var e :| e in items && e.address == a;
            assert e in p;
          }
          if a == sr.macaddress {
            assert From(sr) in p;
          }
        }
      }
    }
    if sorting {
      SortKeepsUnique(p);
      SortPermutes(p);
      MultisetSameMembers(SortByRssi(p), p);
    }
  }

  /** The adapter behind the sensor-selection dialog (`SearchResultAdapter`). */
  class SearchResultAdapter {
    /** The adapter's list (`getItem(i)` is `items[i]`, `getCount()` is `|items|`). */
    var items: seq<Entry>
    var sorting: bool

    ghost predicate Valid()
      reads this
    {
      UniqueAddresses(items)
    }

    constructor ()
      ensures Valid() && items == [] && !sorting
    {
      items := [];
      sorting := false;
    }

    method SetSorting(on: bool)
      modifies this
      ensures sorting == on && items == old(items)
    {
      sorting := on;
    }

    /** `onBandFound`: a scan reported a sensor. */
    method OnBandFound(sensor: SearchResult)
      requires Valid()
      modifies this
      ensures Valid()
      ensures items == Upsert(old(items), sensor, sorting) && sorting == old(sorting)
    {
      Update(sensor);
    }

    /** `update`: refresh the rssi of the entry with the reported address, or append
        a new entry; then re-sort if sorting is on. */
    method Update(sr: SearchResult)
      requires Valid()
      modifies this
      ensures Valid()
      ensures items == Upsert(old(items), sr, sorting) && sorting == old(sorting)
    {
      UpsertKeepsUnique(items, sr, sorting);
      var i := 0;
      while i < |items|
        invariant 0 <= i <= |items|
        invariant items == old(items) && sorting == old(sorting)
        invariant forall j :: 0 <= j < i ==> items[j].address != sr.macaddress
      {
        if items[i].address == sr.macaddress {
          assert IndexOf(items, sr.macaddress) == Some(i);
          items := items[i := Entry(items[i].address, sr.rssi)];
          if sorting {
            items := SortByRssi(items);
          }
          return;
        }
        i := i + 1;
      }
      items := items + [From(sr)];
      if sorting {
        items := SortByRssi(items);
      }
    }

    /** Manual insertion is refused: the list changes only through scan reports. */
    method Add(e: Entry) returns (r: Outcome)
      ensures r == Fail(IllegalState(MANUAL_ADD_MESSAGE))
    {
      r := Fail(IllegalState(MANUAL_ADD_MESSAGE));
    }

    /** Both `addAll` overloads refuse as `add` does. */
    method AddAll(es: seq<Entry>) returns (r: Outcome)
      ensures r == Fail(IllegalState(MANUAL_ADD_MESSAGE))
    {
      r := Fail(IllegalState(MANUAL_ADD_MESSAGE));
    }

    /** `clear` (inherited from the list adapter): empties the list. */
    method Clear()
      modifies this
      ensures Valid() && items == [] && sorting == old(sorting)
    {
      items := [];
    }
  }
}
