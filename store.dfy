/** The planet store: an ordered, in-memory collection of planets and the
    five operations the API offers on it (list, get, create, update and
    delete). Records are looked up by id, first match wins; ids are not
    required to be unique. */
module PlanetStore {
  import opened Planets
  import opened Validation

  /** What an operation reports: its result, the first validation fault
      of the request body, or that no record has the requested id. */
  datatype Outcome<T> = Success(value: T) | ValidationError(fault: Fault) | NotFound

  /** A path id that did not parse as a number is `None` and matches no record. */
  predicate Matches(p: Planet, id: Option<int>)
  {
    id == Some(p.id)
  }

  /** The position of the first record with id `id`, searching from the front. */
  function FindIndex(s: seq<Planet>, id: Option<int>): (r: Option<nat>)
    ensures r.Some? ==>
      r.value < |s| && Matches(s[r.value], id)
      && forall j :: 0 <= j < r.value ==> !Matches(s[j], id)
    ensures r.None? <==> forall j :: 0 <= j < |s| ==> !Matches(s[j], id)
  {
    if s == [] then None
    else if Matches(s[0], id) then Some(0)
    else match FindIndex(s[1..], id)
      case None => None
      case Some(k) => Some(k + 1)
  }

  /** `s` with every record of id `id` removed, the others kept with their
      multiplicity (`WithoutCounts`) and their order (`WithoutAppend`);
      `WithoutMembers` says which records remain. */
  function Without(s: seq<Planet>, id: Option<int>): (r: seq<Planet>)
    ensures |r| <= |s|
    ensures forall i :: 0 <= i < |r| ==> !Matches(r[i], id)
  {
    if s == [] then []
    else (if Matches(s[0], id) then [] else [s[0]]) + Without(s[1..], id)
  }

  /** Removal keeps exactly the records whose id differs, and shortens the
      collection exactly when some record has the id. */
  lemma {:induction false} WithoutMembers(s: seq<Planet>, id: Option<int>)
    ensures forall p :: p in Without(s, id) <==> p in s && !Matches(p, id)
    ensures |Without(s, id)| < |s| <==> exists p :: p in s && Matches(p, id)
  {
    if s != [] {
      assert s == [s[0]] + s[1..];
      WithoutMembers(s[1..], id);
    }
  }

  /** Removal drops every copy of a record with the id and keeps every copy
      of any other record. */
  lemma {:induction false} WithoutCounts(s: seq<Planet>, id: Option<int>, p: Planet)
    ensures multiset(Without(s, id))[p] == if Matches(p, id) then 0 else multiset(s)[p]
  {
    if s != [] {
      assert s == [s[0]] + s[1..];
      WithoutCounts(s[1..], id, p);
    }
  }

  /** Removing by id distributes over concatenation: what survives of each
      part survives in the same order, so the relative order of the kept
      records never changes. */
  lemma {:induction false} WithoutAppend(a: seq<Planet>, b: seq<Planet>, id: Option<int>)
    ensures Without(a + b, id) == Without(a, id) + Without(b, id)
  {
    if a == [] {
      assert a + b == b;
    } else {
      var head := if Matches(a[0], id) then [] else [a[0]];
      calc {
        Without(a + b, id);
        head + Without((a + b)[1..], id);
        { assert (a + b)[1..] == a[1..] + b; }
        head + Without(a[1..] + b, id);
        { WithoutAppend(a[1..], b, id); }
        head + (Without(a[1..], id) + Without(b, id));
        Without(a, id) + Without(b, id);
      }
    }
  }

  /** When no record has the id, removal returns the collection unchanged. */
  lemma {:induction false} WithoutNoMatch(s: seq<Planet>, id: Option<int>)
    requires forall p :: p in s ==> !Matches(p, id)
    ensures Without(s, id) == s
  {
    if s != [] {
      assert s == [s[0]] + s[1..];
      WithoutNoMatch(s[1..], id);
    }
  }

  /** After removal nothing with that id is left, and removing again
      changes nothing. */
  lemma WithoutIdempotent(s: seq<Planet>, id: Option<int>)
    ensures FindIndex(Without(s, id), id).None?
    ensures Without(Without(s, id), id) == Without(s, id)
  {
    WithoutNoMatch(Without(s, id), id);
  }

  /** Appending a record leaves earlier matches first; the new record is
      found only when nothing before it has its id. */
  lemma {:induction false} FindAppend(s: seq<Planet>, p: Planet, id: Option<int>)
    ensures FindIndex(s + [p], id) ==
      if FindIndex(s, id).Some? then FindIndex(s, id)
      else if Matches(p, id) then Some(|s|)
      else None
  {
    if s != [] {
      assert (s + [p])[1..] == s[1..] + [p];
      FindAppend(s[1..], p, id);
    }
  }

  /** The search looks only at ids, so renaming records never moves a match. */
  lemma {:induction false} FindSameIds(s: seq<Planet>, t: seq<Planet>, id: Option<int>)
    requires |s| == |t|
    requires forall j :: 0 <= j < |s| ==> s[j].id == t[j].id
    ensures FindIndex(s, id) == FindIndex(t, id)
  {
    if s != [] {
      FindSameIds(s[1..], t[1..], id);
    }
  }

  /** The store, holding the collection as process-wide state. */
  class Store {
    var planets: seq<Planet>

    /** Every stored record passed the create schema when it came in. */
    ghost predicate Valid()
      reads this
    {
      forall p :: p in planets ==> WellFormed(p)
    }

    /** A fresh process starts with Earth and Mars. */
    constructor ()
      ensures Valid() && planets == Seed
    {
      planets := Seed;
    }

    /** The whole collection, in insertion order. */
    function List(): (r: seq<Planet>)
      reads this
      ensures r == planets
    {
      planets
    }

    /** The first record with the given id, or `NotFound` when there is none. */
    function Get(id: Option<int>): (r: Outcome<Planet>)
      reads this
      ensures r.Success? || r.NotFound?
      ensures r.NotFound? <==> forall p :: p in planets ==> !Matches(p, id)
      ensures r.Success? ==>
        exists k :: 0 <= k < |planets| && planets[k] == r.value && Matches(r.value, id)
          && forall j :: 0 <= j < k ==> !Matches(planets[j], id)
    {
      match FindIndex(planets, id)
      case None => NotFound
      case Some(k) => Success(planets[k])
    }

    /** Validate the body, then append the record; an existing record with
        the same id does not stop it. */
    method Create(c: Candidate) returns (r: Outcome<Planet>)
      requires Valid()
      modifies this
      ensures Valid()
      ensures ValidatePlanet(c).Fail? ==>
        r == ValidationError(ValidatePlanet(c).fault) && planets == old(planets)
      ensures ValidatePlanet(c).Pass? ==>
        r == Success(ValidatePlanet(c).value) && planets == old(planets) + [r.value]
      ensures r.Success? ==> Get(Some(r.value.id)).Success?
      ensures r.Success? && (forall p :: p in old(planets) ==> p.id != r.value.id) ==>
        Get(Some(r.value.id)) == r
    {
      match ValidatePlanet(c)
      case Fail(fault) =>
        r := ValidationError(fault);
      case Pass(p) =>
        FindAppend(planets, p, Some(p.id));
        planets := planets + [p];
        r := Success(p);
    }

    /** Validate the new name before looking up the id, then rename the
        first record with that id in place. */
    method Update(id: Option<int>, name: Option<Value>) returns (r: Outcome<Planet>)
      requires Valid()
      modifies this
      ensures Valid()
      ensures ValidateRename(name).Fail? ==>
        r == ValidationError(ValidateRename(name).fault) && planets == old(planets)
      ensures ValidateRename(name).Pass? && FindIndex(old(planets), id).None? ==>
        r == NotFound && planets == old(planets)
      ensures ValidateRename(name).Pass? && FindIndex(old(planets), id).Some? ==>
        var k := FindIndex(old(planets), id).value;
        planets == old(planets)[k := Planet(old(planets)[k].id, ValidateRename(name).value)]
        && r == Success(planets[k])
      ensures r.Success? ==>
        |planets| == |old(planets)|
        && (forall j :: 0 <= j < |planets| ==> planets[j].id == old(planets)[j].id)
        && Get(id) == r
    {
      match ValidateRename(name)
      case Fail(fault) =>
        r := ValidationError(fault);
      case Pass(newName) =>
        match FindIndex(planets, id)
        case None =>
          r := NotFound;
        case Some(k) =>
          ghost var before := planets;
          assert before[k] in before;
          planets := planets[k := Planet(planets[k].id, newName)];
          FindSameIds(before, planets, id);
          r := Success(planets[k]);
    }

    /** Drop every record with the given id; succeed only if that made the
        collection shorter. */
    method Delete(id: Option<int>) returns (r: Outcome<()>)
      requires Valid()
      modifies this
      ensures Valid()
      ensures planets == Without(old(planets), id)
      ensures r.Success? || r.NotFound?
      ensures r.Success? <==> exists p :: p in old(planets) && Matches(p, id)
      ensures r.NotFound? ==> planets == old(planets)
      ensures Get(id) == NotFound
    {
      var initialLength := |planets|;
      WithoutMembers(planets, id);
      planets := Without(planets, id);
      if |planets| < initialLength {
        r := Success(());
      } else {
        WithoutNoMatch(old(planets), id);
        r := NotFound;
      }
    }
  }

  /** Lookups on a fresh store. */
  method GetScenario()
  {
    var store := new Store();
    assert store.Get(Some(1)) == Success(Planet(1, "Earth"));
    assert store.Get(Some(99)) == NotFound;
  }

  /** Creating Jupiter, then a body without an id, on a fresh store. */
  method CreateScenario()
  {
    var store := new Store();
    var created := store.Create(Candidate(Some(Num(3.0)), Some(Str("Jupiter"))));
    assert created == Success(Planet(3, "Jupiter"));
    assert store.List() == [Planet(1, "Earth"), Planet(2, "Mars"), Planet(3, "Jupiter")];
    var noId := store.Create(Candidate(None, Some(Str("NoId"))));
    assert noId == ValidationError(Fault(IdField, Required));
  }

  /** Renaming Mars, an unknown id, and an empty body, on a fresh store. */
  method UpdateScenario()
  {
    var store := new Store();
    var renamed := store.Update(Some(2), Some(Str("New Mars")));
    assert renamed == Success(Planet(2, "New Mars"));
    assert store.List() == [Planet(1, "Earth"), Planet(2, "New Mars")];
    var missing := store.Update(Some(99), Some(Str("X")));
    assert missing == NotFound;
    var empty := store.Update(Some(2), None);
    assert empty == ValidationError(Fault(NameField, Required));
  }

  /** Deleting twice on a fresh store. */
  method DeleteScenario()
  {
    var store := new Store();
    assert Planet(1, "Earth") in store.List() && Matches(Planet(1, "Earth"), Some(1));
    var deleted := store.Delete(Some(1));
    assert deleted.Success?;
    assert store.List() == [Planet(2, "Mars")];
    var again := store.Delete(Some(1));
    assert again == NotFound && store.List() == [Planet(2, "Mars")];
  }
}
