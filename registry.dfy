/** The car dealership's in-memory registry: a list of car records, seeded
    with three cars, with lookup, create, partial update, delete and search.
    Each HTTP handler becomes one function (the read-only ones) or one method
    of `CarStore` (the ones that change the list); a `Response` value stands
    for the JSON body and status code the handler would send. */
module CarRegistry {
  import opened Options
  import opened Sequences

  datatype Car = Car(id: int, make: string, model: string, year: int, color: string, price: int)

  /** A JSON request body, already parsed. Each of the five known keys is
      present or absent; `extraKeys` counts the object's other keys, which
      matter only for whether it is empty. */
  datatype Body = Body(
    make: Option<string>,
    model: Option<string>,
    year: Option<int>,
    color: Option<string>,
    price: Option<int>,
    extraKeys: nat)

  /** The query parameters of a search, already parsed; a price bound that is
      not an integer arrives as `None`. */
  datatype Query = Query(
    make: Option<string>,
    model: Option<string>,
    minPrice: Option<int>,
    maxPrice: Option<int>)

  datatype Response =
    | CarBody(car: Car)                     // 200, the record
    | CreatedBody(car: Car)                 // 201, the new record
    | ErrorBody(status: int, error: string) // {"error": ...} with its status
    | MessageBody(message: string)          // 200, {"message": ...}

  const NotFound := ErrorBody(404, "Car not found")
  const FieldsRequired := ErrorBody(400, "All fields required: make, model, year, color, price")
  const NoData := ErrorBody(400, "No data provided")
  const Deleted := MessageBody("Car deleted successfully")

  /** The records the process starts with. */
  function Seed(): (s: seq<Car>)
    ensures |s| == 3
    ensures forall i :: 0 <= i < |s| ==> s[i].id == i + 1
    ensures s[0].make == "Toyota" && s[1].make == "Honda" && s[2].make == "Ford"
  {
    [ Car(1, "Toyota", "Camry", 2020, "Blue", 25000),
      Car(2, "Honda", "Civic", 2019, "Red", 22000),
      Car(3, "Ford", "Mustang", 2021, "Black", 35000) ]
  }

  // ---------------------------------------------------------------------
  // Lookup

  /** No record before position `k` has the id. */
  ghost predicate NoIdBefore(cars: seq<Car>, id: int, k: nat)
    requires k <= |cars|
  {
    forall j :: 0 <= j < k ==> cars[j].id != id
  }

  /** The position of the first record with the id, as `next` over a
      generator finds it. */
  function FirstIndex(cars: seq<Car>, id: int): (r: Option<nat>)
    ensures r.Some? ==> r.value < |cars| && cars[r.value].id == id && NoIdBefore(cars, id, r.value)
    ensures r.None? ==> NoIdBefore(cars, id, |cars|)
  {
    if cars == [] then None
    else if cars[0].id == id then Some(0)
    else match FirstIndex(cars[1..], id)
      case None => None
      case Some(i) => Some(i + 1)
  }

  /** GET /cars/<id>: the first record with the id, or 404. The route's
      `<int:...>` converter accepts only non-negative integers, so the id of
      every handler that takes one from the path is a `nat`. */
  function GetCar(cars: seq<Car>, id: nat): (r: Response)
    ensures r.CarBody? || r == NotFound
    ensures r == NotFound <==> NoIdBefore(cars, id, |cars|)
    ensures r.CarBody? ==>
      exists i :: 0 <= i < |cars| && cars[i] == r.car && r.car.id == id && NoIdBefore(cars, id, i)
  {
    match FirstIndex(cars, id)
    case None => NotFound
    case Some(i) => CarBody(cars[i])
  }

  /** Where the first record with an id is depends only on the ids. */
  lemma {:induction false} FirstIndexSameIds(s: seq<Car>, t: seq<Car>, id: int)
    requires |s| == |t|
    requires forall j :: 0 <= j < |s| ==> s[j].id == t[j].id
    ensures FirstIndex(s, id) == FirstIndex(t, id)
  {
    if s != [] {
      FirstIndexSameIds(s[1..], t[1..], id);
    }
  }

  // ---------------------------------------------------------------------
  // Create

  /** The create handler's validation passes: a body is present and has all
      five fields (a body with all five is never empty). */
  predicate HasAllFields(body: Option<Body>)
    ensures HasAllFields(body) ==> body.Some? && KeyCount(body.value) >= 5
    ensures HasAllFields(body) ==> !IsEmpty(body)
  {
    body.Some? && body.value.make.Some? && body.value.model.Some? &&
    body.value.year.Some? && body.value.color.Some? && body.value.price.Some?
  }

  /** The record the create handler builds from a validated body. */
  function NewCar(id: int, body: Body): (c: Car)
    requires HasAllFields(Some(body))
    ensures c.id == id
    ensures Some(c.make) == body.make && Some(c.model) == body.model && Some(c.year) == body.year
    ensures Some(c.color) == body.color && Some(c.price) == body.price
  {
    Car(id, body.make.value, body.model.value, body.year.value, body.color.value, body.price.value)
  }

  // ---------------------------------------------------------------------
  // Update

  /** The number of keys of the JSON object. */
  function KeyCount(b: Body): (n: nat)
  {
    (if b.make.Some? then 1 else 0) + (if b.model.Some? then 1 else 0) +
    (if b.year.Some? then 1 else 0) + (if b.color.Some? then 1 else 0) +
    (if b.price.Some? then 1 else 0) + b.extraKeys
  }

  /** Python's `not data`: no body at all, or a JSON object without keys. */
  predicate IsEmpty(body: Option<Body>)
    ensures IsEmpty(body) <==> body.None? || KeyCount(body.value) == 0
  {
    body.None? ||
    (body.value.make.None? && body.value.model.None? && body.value.year.None? &&
     body.value.color.None? && body.value.price.None? && body.value.extraKeys == 0)
  }

  /** The record after the update handler's five `data.get(key, old)`
      assignments: every field the body gives is overwritten, every other
      field and the id are kept. */
  function Patch(c: Car, body: Body): (r: Car)
    ensures r.id == c.id
    ensures r.make == (if body.make.Some? then body.make.value else c.make)
    ensures r.model == (if body.model.Some? then body.model.value else c.model)
    ensures r.year == (if body.year.Some? then body.year.value else c.year)
    ensures r.color == (if body.color.Some? then body.color.value else c.color)
    ensures r.price == (if body.price.Some? then body.price.value else c.price)
  {
    c.(make := body.make.GetOr(c.make),
       model := body.model.GetOr(c.model),
       year := body.year.GetOr(c.year),
       color := body.color.GetOr(c.color),
       price := body.price.GetOr(c.price))
  }

  /** Sending the same update twice has the effect of sending it once. */
  lemma PatchIdempotent(c: Car, body: Body)
    ensures Patch(Patch(c, body), body) == Patch(c, body)
  {
  }

  /** A body that names none of the five fields (only unknown keys) passes the
      empty check and leaves the record as it was. */
  lemma PatchWithoutFields(c: Car, body: Body)
    requires body.make.None? && body.model.None? && body.year.None?
    requires body.color.None? && body.price.None?
    ensures Patch(c, body) == c
  {
  }

  /** After a successful update, looking the id up again finds the updated
      record: the id is kept, so the first match stays where it was. */
  lemma UpdateThenGet(cars: seq<Car>, id: nat, i: nat, body: Body)
    requires FirstIndex(cars, id) == Some(i)
    ensures i < |cars|
    ensures GetCar(cars[i := Patch(cars[i], body)], id) == CarBody(Patch(cars[i], body))
  {
    var after := cars[i := Patch(cars[i], body)];
    FirstIndexSameIds(cars, after, id);
  }

  // ---------------------------------------------------------------------
  // Delete

  /** The delete handler's condition `car["id"] != car_id`. */
  function IdIsNot(id: int): (keep: Car -> bool)
  {
    (c: Car) => c.id != id
  }

  /** Deleting keeps exactly the records with another id, in order and with
      their multiplicity, and drops every record with the id. */
  lemma DeleteKeepsOthers(cars: seq<Car>, id: int)
    ensures IsSubsequence(Filter(cars, IdIsNot(id)), cars)
    ensures NoIdBefore(Filter(cars, IdIsNot(id)), id, |Filter(cars, IdIsNot(id))|)
    ensures forall c :: multiset(Filter(cars, IdIsNot(id)))[c] == if c.id == id then 0 else multiset(cars)[c]
  {
    FilterIsSubsequence(cars, IdIsNot(id));
    FilterCount(cars, IdIsNot(id));
  }

  /** Deleting the same id twice leaves the same list as deleting it once. */
  lemma DeleteTwice(cars: seq<Car>, id: int)
    ensures Filter(Filter(cars, IdIsNot(id)), IdIsNot(id)) == Filter(cars, IdIsNot(id))
  {
    FilterIdempotent(cars, IdIsNot(id));
  }

  /** Deleting an id no record has leaves the list unchanged. */
  lemma DeleteAbsent(cars: seq<Car>, id: int)
    requires NoIdBefore(cars, id, |cars|)
    ensures Filter(cars, IdIsNot(id)) == cars
  {
    FilterKeepsAll(cars, IdIsNot(id));
  }

  // ---------------------------------------------------------------------
  // Id assignment

  /** Ids come from the length of the list, so a delete followed by a create
      reuses an id still in use: from the seed, deleting car 2 leaves two
      records, the next create gets id 3 like the Ford, and looking up id 3
      finds the Ford, not the new car. */
  lemma DeleteThenAddCollides(body: Body)
    requires HasAllFields(Some(body))
    ensures var kept := Filter(Seed(), IdIsNot(2));
            var after := kept + [NewCar(|kept| + 1, body)];
            |after| == 3 && after[1].id == 3 && after[2].id == 3 &&
            GetCar(after, 3) == CarBody(Seed()[2])
  {
    var s := Seed();
    assert Filter(s, IdIsNot(2)) == [s[0], s[2]] by {
      assert s[1..][1..] == [s[2]];
    }
  }

  /** When no record holds the next id yet, the new record is the one a lookup
      of its id finds. */
  lemma AddThenGet(cars: seq<Car>, body: Body)
    requires HasAllFields(Some(body))
    requires NoIdBefore(cars, |cars| + 1, |cars|)
    ensures GetCar(cars + [NewCar(|cars| + 1, body)], |cars| + 1) == CarBody(NewCar(|cars| + 1, body))
  {
    var after := cars + [NewCar(|cars| + 1, body)];
    assert after[|cars|].id == |cars| + 1;
    assert NoIdBefore(after, |cars| + 1, |cars|);
    match FirstIndex(after, |cars| + 1)
    case None =>
    case Some(k) =>
      assert k == |cars|;
  }

  // ---------------------------------------------------------------------
  // Search

  /** Python's `str.lower()` restricted to ASCII letters. */
  function LowerChar(ch: char): (r: char)
  {
    if 'A' <= ch <= 'Z' then (ch as int + 32) as char else ch
  }

  function Lower(s: string): (r: string)
    ensures |r| == |s|
    ensures forall i :: 0 <= i < |s| ==> r[i] == LowerChar(s[i])
    ensures forall i :: 0 <= i < |r| ==> !('A' <= r[i] <= 'Z')
  {
    seq(|s|, i requires 0 <= i < |s| => LowerChar(s[i]))
  }

  /** Lowering twice is lowering once. */
  lemma LowerIdempotent(s: string)
    ensures Lower(Lower(s)) == Lower(s)
  {
  }

  /** `if make:` on a string parameter: present and not the empty string. */
  predicate Given(p: Option<string>)
  {
    p.Some? && p.value != ""
  }

  /** `if min_price:` on an integer parameter: present and not zero. */
  predicate Nonzero(p: Option<int>)
  {
    p.Some? && p.value != 0
  }

  function MakeIs(make: string): (keep: Car -> bool)
  {
    (c: Car) => Lower(c.make) == Lower(make)
  }

  function ModelIs(model: string): (keep: Car -> bool)
  {
    (c: Car) => Lower(c.model) == Lower(model)
  }

  function PriceAtLeast(bound: int): (keep: Car -> bool)
  {
    (c: Car) => c.price >= bound
  }

  function PriceAtMost(bound: int): (keep: Car -> bool)
  {
    (c: Car) => c.price <= bound
  }

  /** A record meets every filter the query switches on. */
  predicate Satisfies(q: Query, c: Car)
  {
    (Given(q.make) ==> Lower(c.make) == Lower(q.make.value)) &&
    (Given(q.model) ==> Lower(c.model) == Lower(q.model.value)) &&
    (Nonzero(q.minPrice) ==> c.price >= q.minPrice.value) &&
    (Nonzero(q.maxPrice) ==> c.price <= q.maxPrice.value)
  }

  /** The search as a single pass over the list. */
  function MatchesQuery(q: Query): (keep: Car -> bool)
  {
    (c: Car) => Satisfies(q, c)
  }

  /** An optional filter stage is a filter on "not switched on, or passes". */
  lemma FilterWhen(s: seq<Car>, on: bool, keep: Car -> bool, guarded: Car -> bool)
    requires forall c :: guarded(c) == (on ==> keep(c))
    ensures (if on then Filter(s, keep) else s) == Filter(s, guarded)
  {
    if on {
      FilterSameCondition(s, keep, guarded);
    } else {
      FilterKeepsAll(s, guarded);
    }
  }

  /** One more optional stage on a list already filtered by `prev`. */
  lemma SearchStage(cars: seq<Car>, s: seq<Car>, on: bool, keep: Car -> bool,
                    prev: Car -> bool, guarded: Car -> bool, next: Car -> bool)
    requires s == Filter(cars, prev)
    requires forall c :: guarded(c) == (on ==> keep(c))
    requires forall c :: next(c) == (prev(c) && guarded(c))
    ensures (if on then Filter(s, keep) else s) == Filter(cars, next)
  {
    FilterWhen(s, on, keep, guarded);
    FilterFusion(cars, prev, guarded, next);
  }

  /** GET /cars/search: the four optional filters applied one after another,
      each narrowing the previous result. */
  function SearchCars(cars: seq<Car>, q: Query): (r: seq<Car>)
    ensures r == Filter(cars, MatchesQuery(q))
    ensures IsSubsequence(r, cars)
    ensures forall i :: 0 <= i < |r| ==> Satisfies(q, r[i])
    ensures forall c :: multiset(r)[c] == if Satisfies(q, c) then multiset(cars)[c] else 0
  {
    var byMake := if Given(q.make) then Filter(cars, MakeIs(q.make.value)) else cars;
    var byModel := if Given(q.model) then Filter(byMake, ModelIs(q.model.value)) else byMake;
    var byMin := if Nonzero(q.minPrice) then Filter(byModel, PriceAtLeast(q.minPrice.value)) else byModel;
    var byMax := if Nonzero(q.maxPrice) then Filter(byMin, PriceAtMost(q.maxPrice.value)) else byMin;
    SearchIsOnePass(cars, q, byMake, byModel, byMin, byMax);
    FilterIsSubsequence(cars, MatchesQuery(q));
    FilterCount(cars, MatchesQuery(q));
    byMax
  }

  /** The chained filters select what one pass with `Satisfies` selects. */
  lemma SearchIsOnePass(cars: seq<Car>, q: Query, byMake: seq<Car>, byModel: seq<Car>, byMin: seq<Car>, byMax: seq<Car>)
    requires byMake == if Given(q.make) then Filter(cars, MakeIs(q.make.value)) else cars
    requires byModel == if Given(q.model) then Filter(byMake, ModelIs(q.model.value)) else byMake
    requires byMin == if Nonzero(q.minPrice) then Filter(byModel, PriceAtLeast(q.minPrice.value)) else byModel
    requires byMax == if Nonzero(q.maxPrice) then Filter(byMin, PriceAtMost(q.maxPrice.value)) else byMin
    ensures byMax == Filter(cars, MatchesQuery(q))
  {
    var g1: Car -> bool := (c: Car) => Given(q.make) ==> Lower(c.make) == Lower(q.make.value);
    var g2: Car -> bool := (c: Car) => Given(q.model) ==> Lower(c.model) == Lower(q.model.value);
    var g3: Car -> bool := (c: Car) => Nonzero(q.minPrice) ==> c.price >= q.minPrice.value;
    var g4: Car -> bool := (c: Car) => Nonzero(q.maxPrice) ==> c.price <= q.maxPrice.value;
    var g12: Car -> bool := c => g1(c) && g2(c);
    var g123: Car -> bool := c => g12(c) && g3(c);

    FilterWhen(cars, Given(q.make), MakeIs(q.make.GetOr("")), g1);
    SearchStage(cars, byMake, Given(q.model), ModelIs(q.model.GetOr("")), g1, g2, g12);
    SearchStage(cars, byModel, Nonzero(q.minPrice), PriceAtLeast(q.minPrice.GetOr(0)), g12, g3, g123);
    SearchStage(cars, byMin, Nonzero(q.maxPrice), PriceAtMost(q.maxPrice.GetOr(0)), g123, g4, MatchesQuery(q));
  }

  /** With no filter switched on the search returns the whole list. */
  lemma SearchNoFilters(cars: seq<Car>, q: Query)
    requires !Given(q.make) && !Given(q.model) && !Nonzero(q.minPrice) && !Nonzero(q.maxPrice)
    ensures SearchCars(cars, q) == cars
  {
    FilterKeepsAll(cars, MatchesQuery(q));
  }

  /** A price bound of 0 is skipped as if it had not been sent. */
  lemma SearchZeroBoundIgnored(cars: seq<Car>, q: Query)
    ensures SearchCars(cars, q.(minPrice := Some(0))) == SearchCars(cars, q.(minPrice := None))
    ensures SearchCars(cars, q.(maxPrice := Some(0))) == SearchCars(cars, q.(maxPrice := None))
  {
    FilterSameCondition(cars, MatchesQuery(q.(minPrice := Some(0))), MatchesQuery(q.(minPrice := None)));
    FilterSameCondition(cars, MatchesQuery(q.(maxPrice := Some(0))), MatchesQuery(q.(maxPrice := None)));
  }

  /** An empty `make` or `model` parameter is skipped as if it had not been
      sent. */
  lemma SearchEmptyStringIgnored(cars: seq<Car>, q: Query)
    ensures SearchCars(cars, q.(make := Some(""))) == SearchCars(cars, q.(make := None))
    ensures SearchCars(cars, q.(model := Some(""))) == SearchCars(cars, q.(model := None))
  {
    FilterSameCondition(cars, MatchesQuery(q.(make := Some(""))), MatchesQuery(q.(make := None)));
    FilterSameCondition(cars, MatchesQuery(q.(model := Some(""))), MatchesQuery(q.(model := None)));
  }

  /** The case of the `make` and `model` parameters does not matter: sending
      them lower-cased gives the same result. */
  lemma SearchIgnoresQueryCase(cars: seq<Car>, q: Query, m: string)
    ensures SearchCars(cars, q.(make := Some(m))) == SearchCars(cars, q.(make := Some(Lower(m))))
    ensures SearchCars(cars, q.(model := Some(m))) == SearchCars(cars, q.(model := Some(Lower(m))))
  {
    LowerIdempotent(m);
    FilterSameCondition(cars, MatchesQuery(q.(make := Some(m))), MatchesQuery(q.(make := Some(Lower(m)))));
    FilterSameCondition(cars, MatchesQuery(q.(model := Some(m))), MatchesQuery(q.(model := Some(Lower(m)))));
  }

  /** Searching the seed for make "hONDA" finds the Civic: the make is
      compared without regard to case. */
  lemma SearchMakeAnyCase()
    ensures SearchCars(Seed(), Query(Some("hONDA"), None, None, None)) == [Seed()[1]]
  {
    var s := Seed();
    var q := Query(Some("hONDA"), None, None, None);
    assert Lower("hONDA") == "honda";
    assert Lower("Honda") == "honda";
    assert !Satisfies(q, s[0]) by { assert Lower("Toyota")[0] == 't'; }
    assert Satisfies(q, s[1]);
    assert !Satisfies(q, s[2]) by { assert |Lower("Ford")| == 4; }
    var keep := MatchesQuery(q);
    assert Filter(s[2..], keep) == [] by { assert s[2..][1..] == []; }
    assert Filter(s[1..], keep) == [s[1]] by { assert s[1..][1..] == s[2..]; }
    assert Filter(s, keep) == [s[1]];
  }

  // ---------------------------------------------------------------------
  // The store

  /** The process-wide list of cars and the handlers that change it. */
  class CarStore {
    var cars: seq<Car>

    constructor ()
      ensures cars == Seed()
    {
      cars := Seed();
    }

    /** POST /cars: 400 without a change unless the body has all five fields;
        otherwise appends a record numbered `len(cars) + 1` and returns it. */
    method AddCar(body: Option<Body>) returns (r: Response)
      modifies this
      ensures !HasAllFields(body) ==> r == FieldsRequired && cars == old(cars)
      ensures HasAllFields(body) ==>
        r == CreatedBody(NewCar(|old(cars)| + 1, body.value)) && cars == old(cars) + [r.car]
    {
      if !HasAllFields(body) {
        return FieldsRequired;
      }
      var car := NewCar(|cars| + 1, body.value);
      cars := cars + [car];
      r := CreatedBody(car);
    }

    /** PUT /cars/<id>: 404 when no record has the id (checked first), 400
        for an empty body, otherwise overwrites the given fields of the first
        record with the id and returns it. Nothing else changes. */
    method UpdateCar(id: nat, body: Option<Body>) returns (r: Response)
      modifies this
      ensures FirstIndex(old(cars), id).None? ==> r == NotFound && cars == old(cars)
      ensures FirstIndex(old(cars), id).Some? && IsEmpty(body) ==> r == NoData && cars == old(cars)
      ensures FirstIndex(old(cars), id).Some? && !IsEmpty(body) ==>
        var i := FirstIndex(old(cars), id).value;
        cars == old(cars)[i := Patch(old(cars)[i], body.value)] && r == CarBody(cars[i])
    {
      var found := FirstIndex(cars, id);
      if found.None? {
        return NotFound;
      }
      if IsEmpty(body) {
        return NoData;
      }
      var i := found.value;
      var data := body.value;
      var car := cars[i];
      car := car.(make := data.make.GetOr(car.make));
      car := car.(model := data.model.GetOr(car.model));
      car := car.(year := data.year.GetOr(car.year));
      car := car.(color := data.color.GetOr(car.color));
      car := car.(price := data.price.GetOr(car.price));
      cars := cars[i := car];
      r := CarBody(car);
    }

    /** DELETE /cars/<id>: rebuilds the list without every record that has
        the id, and reports success whether or not anything was removed. */
    method DeleteCar(id: nat) returns (r: Response)
      modifies this
      ensures r == Deleted
      ensures cars == Filter(old(cars), IdIsNot(id))
    {
      var kept: seq<Car> := [];
      var i := 0;
      while i < |cars|
        invariant 0 <= i <= |cars|
        invariant cars == old(cars)
        invariant kept == Filter(cars[..i], IdIsNot(id))
      {
        FilterAppend(cars[..i], cars[i], IdIsNot(id));
        assert cars[..i + 1] == cars[..i] + [cars[i]];
        if cars[i].id != id {
          kept := kept + [cars[i]];
        }
        i := i + 1;
      }
      assert cars[..i] == cars;
      cars := kept;
      r := Deleted;
    }
  }

  /** A client of the store: from the seed, DELETE /cars/2 and then a
      complete POST /cars leave two records numbered 3. */
  method SeedDeleteThenAdd(body: Body) returns (ids: seq<int>, created: Response)
    requires HasAllFields(Some(body))
    ensures created == CreatedBody(NewCar(3, body))
    ensures ids == [1, 3, 3]
  {
    var store := new CarStore();
    var deleted := store.DeleteCar(2);
    created := store.AddCar(Some(body));
    DeleteThenAddCollides(body);
    ids := [store.cars[0].id, store.cars[1].id, store.cars[2].id];
  }
}
