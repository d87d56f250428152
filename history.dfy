/**
 * The search-history store: a list of cities kept in one JSON file, with
 * add-if-absent (names compared ignoring case), list-all and remove-by-id.
 *
 * The file is the field `store`: `None` when it is absent or not valid
 * JSON, otherwise the list of cities it holds. Case folding is the function `lower`
 * (JavaScript's `toLowerCase`), and the identifier of a new city is supplied
 * by the caller in place of the UUID generator.
 */
module HistoryService {
  import opened Wrappers

  datatype City = City(name: string, id: string)

  /** The two names are equal ignoring case. */
  predicate SameName(lower: string -> string, a: string, b: string) {
    lower(a) == lower(b)
  }

  /** The index of the first city whose name equals `name` ignoring case, if any. */
  function FindByName(lower: string -> string, cities: seq<City>, name: string): (r: Option<nat>)
    ensures r.None? <==> forall i :: 0 <= i < |cities| ==> !SameName(lower, cities[i].name, name)
    ensures r.Some? ==> r.value < |cities| && SameName(lower, cities[r.value].name, name)
    ensures r.Some? ==> forall j :: 0 <= j < r.value ==> !SameName(lower, cities[j].name, name)
    decreases |cities|
  {
    if cities == [] then None
    else if SameName(lower, cities[0].name, name) then Some(0)
    else match FindByName(lower, cities[1..], name)
      case None => None
      case Some(i) => Some(i + 1)
  }

  /** The list after adding `name`: unchanged when the name is already there, else one city appended. */
  function Added(lower: string -> string, cities: seq<City>, name: string, newId: string): (r: seq<City>)
    ensures FindByName(lower, cities, name).Some? ==> r == cities
    ensures FindByName(lower, cities, name).None? ==> |r| == |cities| + 1 && r[..|cities|] == cities && r[|cities|] == City(name, newId)
  {
    if FindByName(lower, cities, name).Some? then cities else cities + [City(name, newId)]
  }

  /** No two stored names are equal ignoring case. */
  ghost predicate DistinctNames(lower: string -> string, cities: seq<City>) {
    forall i, j :: 0 <= i < j < |cities| ==> !SameName(lower, cities[i].name, cities[j].name)
  }

  /** The number of stored cities whose identifier is `id`. */
  function Count(cities: seq<City>, id: string): (n: nat)
    ensures n <= |cities|
    ensures n == 0 <==> forall i :: 0 <= i < |cities| ==> cities[i].id != id
    decreases |cities|
  {
    if cities == [] then 0
    else (if cities[0].id == id then 1 else 0) + Count(cities[1..], id)
  }

  /** The list with every city whose identifier is `id` filtered out. */
  function Without(cities: seq<City>, id: string): (r: seq<City>)
    ensures |r| == |cities| - Count(cities, id)
    ensures forall c :: c in r <==> c in cities && c.id != id
    ensures Count(cities, id) == 0 ==> r == cities
    decreases |cities|
  {
    if cities == [] then []
    else (if cities[0].id == id then [] else [cities[0]]) + Without(cities[1..], id)
  }

  /** Adding keeps stored names distinct ignoring case. */
  lemma AddedKeepsDistinct(lower: string -> string, cities: seq<City>, name: string, newId: string)
    requires DistinctNames(lower, cities)
    ensures DistinctNames(lower, Added(lower, cities, name, newId))
  {
  }

  /**
   * Adding a name, then the same name in any casing, stores the same list as
   * adding it once; the second add finds the first one's city.
   */
  lemma AddedIdempotent(lower: string -> string, cities: seq<City>, name1: string, id1: string, name2: string, id2: string)
    requires SameName(lower, name1, name2)
    ensures var once := Added(lower, cities, name1, id1);
      Added(lower, once, name2, id2) == once && FindByName(lower, once, name2).Some?
  {
  }

  /** After adding a name to a list of distinct names, exactly one stored city carries it ignoring case. */
  lemma AddedLeavesOneMatch(lower: string -> string, cities: seq<City>, name: string, newId: string)
    requires DistinctNames(lower, cities)
    ensures var r := Added(lower, cities, name, newId);
      exists i :: 0 <= i < |r| && SameName(lower, r[i].name, name) &&
        forall j :: 0 <= j < |r| && SameName(lower, r[j].name, name) ==> j == i
  {
    var r := Added(lower, cities, name, newId);
    AddedKeepsDistinct(lower, cities, name, newId);
    AddedIdempotent(lower, cities, name, newId, name, newId);
    var i := FindByName(lower, r, name).value;
    forall j | 0 <= j < |r| && SameName(lower, r[j].name, name) ensures j == i {
      if j < i {
        assert false;
      } else if j > i {
        assert false;
      }
    }
  }

  /** Filtering keeps relative order: it distributes over concatenation. */
  lemma {:induction false} WithoutConcat(a: seq<City>, b: seq<City>, id: string)
    ensures Without(a + b, id) == Without(a, id) + Without(b, id)
    decreases |a|
  {
    if a == [] {
      assert a + b == b;
    } else {
      assert (a + b)[0] == a[0] && (a + b)[1..] == a[1..] + b;
      WithoutConcat(a[1..], b, id);
    }
  }

  /**
   * Filtering keeps every copy of each city without the identifier and no
   * copy of any city with it.
   */
  lemma {:induction false} WithoutMultiplicity(cities: seq<City>, id: string)
    ensures forall c :: multiset(Without(cities, id))[c] == if c.id == id then 0 else multiset(cities)[c]
    decreases |cities|
  {
    if cities != [] {
      WithoutMultiplicity(cities[1..], id);
      assert cities == [cities[0]] + cities[1..];
    }
  }

  /** Removing keeps stored names distinct ignoring case. */
  lemma {:induction false} WithoutKeepsDistinct(lower: string -> string, cities: seq<City>, id: string)
    requires DistinctNames(lower, cities)
    ensures DistinctNames(lower, Without(cities, id))
    decreases |cities|
  {
    if cities != [] {
      var rest := cities[1..];
      assert DistinctNames(lower, rest) by {
        forall i, j | 0 <= i < j < |rest| ensures !SameName(lower, rest[i].name, rest[j].name) {
          assert rest[i] == cities[i + 1] && rest[j] == cities[j + 1];
        }
      }
      WithoutKeepsDistinct(lower, rest, id);
      var tail := Without(rest, id);
      if cities[0].id != id {
        assert Without(cities, id) == [cities[0]] + tail;
        forall k | 0 <= k < |tail| ensures !SameName(lower, cities[0].name, tail[k].name) {
          assert tail[k] in rest;
          var j :| 0 <= j < |rest| && rest[j] == tail[k];
          assert cities[j + 1] == tail[k];
        }
        ConsKeepsDistinct(lower, cities[0], tail);
      }
    }
  }

  /** A city whose name differs from every name of a distinct list can be put in front of it. */
  lemma ConsKeepsDistinct(lower: string -> string, c: City, tail: seq<City>)
    requires DistinctNames(lower, tail)
    requires forall k :: 0 <= k < |tail| ==> !SameName(lower, c.name, tail[k].name)
    ensures DistinctNames(lower, [c] + tail)
  {
    var r := [c] + tail;
    forall i, j | 0 <= i < j < |r| ensures !SameName(lower, r[i].name, r[j].name) {
      if i == 0 {
        assert r[j] == tail[j - 1];
      } else {
        assert r[i] == tail[i - 1] && r[j] == tail[j - 1];
      }
    }
  }

  /** After filtering, no stored city has the identifier. */
  lemma WithoutRemovesAll(cities: seq<City>, id: string)
    ensures forall k :: 0 <= k < |Without(cities, id)| ==> Without(cities, id)[k].id != id
  {
  }

  class HistoryService {
    /** Case folding applied to both names before comparing. */
    const lower: string -> string
    /** The history file: `None` when absent or not valid JSON, else its list. */
    var store: Option<seq<City>>

    constructor(lower: string -> string, file: Option<seq<City>>)
      ensures this.lower == lower && store == file
    {
      this.lower := lower;
      store := file;
    }

    /** The stored list; an absent file or one that is not valid JSON reads as the empty list. */
    function Read(): (cities: seq<City>)
      reads this
    {
      if store.Some? then store.value else []
    }

    /** The stored cities in file order, or none when the file is absent or not valid JSON. */
    method GetCities() returns (cities: seq<City>)
      ensures store.None? ==> cities == []
      ensures store.Some? ==> cities == store.value
    {
      cities := Read();
    }

    /**
     * Returns the first stored city with the same name ignoring case and
     * writes nothing; otherwise appends a city with the given name and id,
     * writes the whole list and returns the new city.
     */
    method AddCity(cityName: string, newId: string) returns (city: City)
      modifies this
      ensures match FindByName(lower, old(Read()), cityName)
        case Some(i) => city == old(Read())[i] && store == old(store)
        case None => city == City(cityName, newId) && store == Some(old(Read()) + [city])
      ensures Read() == Added(lower, old(Read()), cityName, newId)
    {
      var cities := Read();
      var existing := FindByName(lower, cities, cityName);
      if existing.Some? {
        return cities[existing.value];
      }
      city := City(cityName, newId);
      cities := cities + [city];
      store := Some(cities);
    }

    /**
     * Filters out every city with the identifier; writes the filtered list
     * and answers true only when that changed the length.
     */
    method RemoveCity(id: string) returns (removed: bool)
      modifies this
      ensures removed <==> exists i :: 0 <= i < |old(Read())| && old(Read())[i].id == id
      ensures removed ==> store == Some(Without(old(Read()), id))
      ensures !removed ==> store == old(store)
      ensures Read() == Without(old(Read()), id)
    {
      var cities := Read();
      var initialLength := |cities|;
      var filteredCities := Without(cities, id);
      if |filteredCities| == initialLength {
        return false;
      }
      store := Some(filteredCities);
      removed := true;
    }
  }
}
