# Car dealership registry, in Dafny

This project models the in-memory car registry behind a small Flask web API
(`backend/main.py`). The registry is a process-wide list of car records. It
starts with three seeded cars. Five of the API's handlers that work on it are
modelled:

- **get**: look up a car by id.
- **create**: append a validated new record.
- **update**: overwrite given fields of a record in place.
- **delete**: remove every record with an id.
- **search**: narrow the list with up to four optional filters.

The Dafny sources are organised as follows:

- `options.dfy`: module `Options`. `Option` stands for a request field or
  query parameter that may be absent. `GetOr` is Python's `dict.get(key, default)`.
- `sequences.dfy`: module `Sequences`. `Filter` is Python's conditional list
  comprehension `[x for x in s if keep(x)]`. The module also holds the lemmas
  the handlers rely on: order is kept (`IsSubsequence`), elements keep their
  multiplicity, appending one element, filtering twice, replacing the condition
  with one that agrees on every element (`FilterSameCondition`), and fusing two
  filters.
- `registry.dfy`: module `CarRegistry`.
  - Records: `Car`; a parsed request body `Body` whose five fields are each
    optional; a parsed search `Query`.
  - `Response`, which stands in for the JSON body and status code.
  - The read-only handlers as functions over the list: `GetCar`, `SearchCars`.
  - The class `CarStore`. Its field `cars` is the global list, and its methods
    `AddCar`, `UpdateCar` and `DeleteCar` change it.

Each handler's result is a `Response` value:

| value | stands for |
|---|---|
| `CarBody(car)` | 200 with the record |
| `CreatedBody(car)` | 201 |
| `NotFound` | 404 `{"error": "Car not found"}` |
| `FieldsRequired` | 400 `{"error": "All fields required: make, model, year, color, price"}` |
| `NoData` | 400 `{"error": "No data provided"}` |
| `Deleted` | 200 `{"message": "Car deleted successfully"}` |

Two quirks of the code are reproduced on purpose and proved as lemmas:

- **Id collisions.** The new id is `len(cars) + 1`, so after a delete it can
  repeat a live id. From the seed, deleting car 2 and then creating a car gives
  two records with id 3, and a lookup of 3 still finds the Ford
  (`DeleteThenAddCollides`, `SeedDeleteThenAdd`).
- **Falsy filters.** A `min_price` or `max_price` of `0` is skipped
  (`SearchZeroBoundIgnored`, `SearchNoFilters`). `if make:` likewise treats an
  empty `make` or `model` string (`?make=`) as false, so it is skipped as well
  (`SearchEmptyStringIgnored`).

Further facts about the code:

- Ids are not kept unique. `len(cars) + 1` can repeat a live id after a
  delete, so the model has no uniqueness invariant.
- The update handler's empty-body check is Python's `not data`, which is true
  for a dictionary exactly when it has no keys (`IsEmpty`, `KeyCount`). A body
  holding only unknown keys is therefore not empty. It gets 200 and changes
  nothing (`Body.extraKeys`, `PatchWithoutFields`).
- Ids in the path come through Flask's `<int:car_id>` converter, which matches
  only non-negative integers. The handlers' `id` parameter is a `nat`.

## Model

| member | source | states |
|---|---|---|
| `CarRegistry.Seed` | backend/main.py:6-10 | the initial list is exactly three records, Toyota, Honda and Ford in that order, with ids 1, 2, 3 |
| `CarRegistry.CarStore.constructor` | backend/main.py:6-10 | a new store holds exactly the seed list |
| `CarRegistry.FirstIndex` | backend/main.py:22 | the position found holds the id and no earlier record has it; when none is found, no record has the id |
| `CarRegistry.GetCar` | backend/main.py:20-25 | 404 exactly when no record has the id; otherwise the record returned has the id and sits at a position before which no record has it (the first match) |
| `CarRegistry.FirstIndexSameIds` | backend/main.py:48 | two lists with the same ids position by position have the same first match for every id |
| `CarRegistry.HasAllFields` | backend/main.py:30-32 | the create check passes only for a present body with all five fields, which therefore has at least five keys and is never empty |
| `CarRegistry.IsEmpty` | backend/main.py:52-53 | `not data` holds exactly when there is no body, or the body is an object with no keys at all |
| `CarRegistry.NewCar` | backend/main.py:35-42 | the created record has the given id and exactly the five field values of the body |
| `CarRegistry.CarStore.AddCar` | backend/main.py:27-44 | a missing body or one lacking any of the five fields gives 400 and leaves the list unchanged; otherwise exactly one record, numbered old length + 1 with the body's fields, is appended, it is returned with 201, and all earlier records are unchanged |
| `CarRegistry.AddThenGet` | backend/main.py:20-44 | when no record holds the next id, a lookup of that id after a create finds the new record |
| `CarRegistry.Patch` | backend/main.py:56-60 | the id is kept; each of the five fields is the body's value when the body gives it and the old value otherwise |
| `CarRegistry.PatchIdempotent` | backend/main.py:56-60 | applying the same update body twice gives the same record as applying it once |
| `CarRegistry.PatchWithoutFields` | backend/main.py:53-60 | a non-empty body naming none of the five fields leaves the record unchanged |
| `CarRegistry.CarStore.UpdateCar` | backend/main.py:46-61 | an unknown id gives 404 (checked before the body) with no change; a known id with an empty body gives 400 with no change; otherwise only the first record with the id is replaced by its patched version, the length and every other record are unchanged, and the updated record is returned |
| `CarRegistry.UpdateThenGet` | backend/main.py:48-61 | after a successful update, a lookup of the same id returns the updated record |
| `CarRegistry.CarStore.DeleteCar` | backend/main.py:63-67 | the new list is the old list filtered to the records whose id differs, and the result is always the success message |
| `CarRegistry.DeleteKeepsOthers` | backend/main.py:66 | after a delete, no record has the id; the rest keep their order and each keeps its multiplicity |
| `CarRegistry.DeleteTwice` | backend/main.py:66-67 | deleting the same id twice leaves the same list as deleting it once |
| `CarRegistry.DeleteAbsent` | backend/main.py:66-67 | deleting an id that no record has leaves the list unchanged |
| `CarRegistry.DeleteThenAddCollides` | backend/main.py:36-66 | from the seed, deleting id 2 and creating a car yields three records of which the last two both have id 3, and a lookup of 3 returns the Ford |
| `CarRegistry.SeedDeleteThenAdd` | backend/main.py:6-66 | the same collision reached through the store's constructor, `DeleteCar` and `AddCar`: the ids are 1, 3, 3 and the create returns 201 with id 3 |
| `Sequences.Filter` | backend/main.py:66 | a conditional list comprehension: its result is no longer than the input and every element satisfies the condition |
| `CarRegistry.LowerIdempotent` | backend/main.py:79-81 | lowering a string twice gives the same string as lowering it once |
| `CarRegistry.Lower` | backend/main.py:79-81 | the result has the input's length, is the input lowered character by character, and contains no upper-case ASCII letter |
| `CarRegistry.SearchCars` | backend/main.py:69-87 | the result equals a single filter pass with "meets every active filter"; it is a subsequence of the list in the same order; every element matches make and model ignoring case and lies within the given non-zero price bounds; every record of the list that meets the filters is kept as often as it occurs |
| `CarRegistry.SearchIsOnePass` | backend/main.py:76-85 | the four chained optional filters select exactly what one pass with the conjunction of the active filters selects |
| `CarRegistry.SearchNoFilters` | backend/main.py:76-87 | with no filter active, including bounds of 0 and empty strings, the search returns the whole list |
| `CarRegistry.SearchEmptyStringIgnored` | backend/main.py:78-81 | an empty `make` or `model` parameter gives the same result as leaving it out |
| `CarRegistry.SearchIgnoresQueryCase` | backend/main.py:78-81 | for every list and query, sending the `make` or `model` value in any case gives the same result as sending it lower-cased |
| `CarRegistry.SearchZeroBoundIgnored` | backend/main.py:82-85 | a `min_price` or `max_price` of 0 gives the same result as leaving that bound out |
| `CarRegistry.SearchMakeAnyCase` | backend/main.py:78-79 | searching the seed for make "hONDA" returns exactly the Civic record |

## Left out

- Flask routing, `jsonify` and HTTP status plumbing are left out; handler results are `Response` values instead.
- The welcome string of the home route is left out.
- `app.run` and the host/port binding are left out. They are I/O.
- The list-all handler is left out as a separate member. It returns the `cars` field unchanged, and the constructor's contract covers the list right after startup.
- `request.get_json()` body parsing is not modelled. Its output is the `Option<Body>` input.
- Query-string conversion is not modelled. Its output is `Query`: a price bound that is not an integer arrives as `None`, as `type=int` makes it.
- A request body that is valid JSON but not an object (a list, a number) is not modelled.
- Dynamic typing of the fields is not modelled. `year` and `price` are `int` and `make`, `model` and `color` are strings, so non-numeric years and prices, floating-point prices, and a JSON `null` written into a field through `data.get` are out of scope.
- For the same reason, a non-string `make` or `model` is out of scope. Create accepts such a value because it only checks that the key is present. A later search on that field then fails in `.lower()` with a server error (500), and the model has no such outcome.
- A negative id in the path is not modelled. It does not match the `<int:car_id>` route, so Flask answers with a routing 404 before any handler runs, whereas the model's handlers take only `nat` ids.
- Lower: models `str.lower()` on ASCII letters only. Full Unicode case mapping is not reproduced.
- Records are values in a `seq`, and `UpdateCar` replaces the matched element. The Python handler mutates the matched dictionary in place; no other live reference to it survives a request, so aliasing is not modelled.
- The global list is shared across requests without locking. Each operation is modelled as atomic and sequential, so concurrency is not modelled.
- Id uniqueness is not an invariant of the model, because the code does not maintain it.
