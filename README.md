# Student records service: a verified model

This project models the core of a small HTTP service for student records that
is backed by a document database: the student domain model (an `Address` and a
`Student` validated on construction, with conversion to and from a mapping) and
the five request handlers (create, list, fetch, partial update, delete).

- `json.dfy` has `Wrappers` (Option, Result) and `Json`. `Json.Value` is the
  JSON-like value of request bodies and stored documents: None, integers,
  strings and nested dicts. A body or a document is a `Doc`, a map from keys to
  values, so it can carry unknown keys, lack required keys (Python's
  `KeyError`) and hold a non-dict address. `Truthy` is Python's truthiness,
  which the constructors' `not x` checks use.
- `models.dfy` (module `Models`, from `models.py`) is pure. It has the
  `Address`/`Student` datatypes, the constructors as `Result`-returning
  functions (`NewAddress`, `NewStudent`), `AddressToMapping`,
  `StudentToMapping` and `FromMapping`, plus the round-trip lemmas.
- `routes.dfy` (module `Routes`, from `routes.py`) replaces the database with
  a map from an opaque id string to the stored document (`Docs`). Create,
  fetch, update and delete each have a specification function on that map
  (`CreateResult`, `FetchResult`, `UpdateResult`, `DeleteResult`) giving the
  response and the new map, with the service's promises proved as lemmas.
  List has no single specification function. Its specification is the set
  `MatchingIds` of the records the filters select, stated directly on the
  documents, together with the projection `Project`. Every handler also has
  a method of the class `StudentStore`, which holds the collection as a
  mutable field and does the handler step by step. The update's two
  field-checking loops are `CheckUpdateFields`. The step-by-step building of
  `update_data` is `BuildUpdateData`/`BuildAddress`. The list query is built
  incrementally in `StudentStore.List`, and the store's
  `find(...).to_list(1000)` is `Find`.

The model includes its own account of the parts of MongoDB the handlers rely
on:
- A filter is a map from a dotted path to a condition (`Query`). `Lookup`
  follows a path such as `address.country` through nested dicts and finds
  nothing when a segment is missing or is not a dict. A document `Matches`
  when every condition `Holds`. An equality condition needs the exact value.
  `$gte` with an integer bound matches only integer values at least that
  bound, never a missing field, a string, a dict or None.
- `$set` replaces each field it names and keeps every other field
  (`Merged`). It counts as a modification only when the document changes,
  which `UpdateResult` decides by comparing the merge with the stored
  document.

Responses are `Routes.Response`: one constructor per outcome, each with its
status code (`Status`: 201, 200, 204, 400, 404, 500) and its payload. The 404
payload is always `{"detail": "Student not found"}`. A 400 names its cause,
`Models.Error` for create and the unknown-field kinds for update. A 500 stands
for an exception the handler does not catch.

Every stored document has the shape `insert_one(student.to_dict())` gives it:
the keys `_id`, `name`, `age` and `address` exactly, its own id under `_id`,
and a dict as its address. `WellFormed` states this and every handler keeps
it. The id of a new record is an input to `Create` (`newId`), with the
precondition that it is not in use. That is the storage's promise, not the
client's.

The model follows what the code does in these cases:
- The address constructor only rejects falsy values (`not city`,
  models.py:6). So a city or country may be any truthy value, such as a
  non-zero integer, not only a non-empty string.
- Update answers 404 when the write modifies nothing, even though the record
  exists (routes.py:245-246).
- A string address in an update body is iterated character by character. A
  non-empty string is refused with 400. The empty string passes, and the
  stored address is written back unchanged. An integer or None address raises
  a `TypeError`, modelled as a 500.

## Model

| member | source | states |
|---|---|---|
| `Models.NewAddress` | models.py:5-9 | succeeds exactly when city and country are both truthy, and then holds exactly those values; otherwise fails with the address error |
| `Models.AddressToMapping` | models.py:11-15 | the address mapping has exactly the keys city and country |
| `Models.NewStudent` | models.py:18-34 | checks run in order: a name that is not a non-empty string fails first, then an age that is not a non-negative integer, then a non-dict address, then a missing or falsy city/country; it succeeds exactly when all pass, and then holds exactly the given name, age, city and country |
| `Models.StudentToMapping` | models.py:36-41 | the mapping has exactly the keys name, age and address, and no `id` or `_id` |
| `Models.FromMapping` | models.py:43-49 | a missing name, then age, then address gives a missing-key error for that key; a missing-key error happens exactly when a required key is absent, so it is distinct from a validation error; once all three keys are present, the result is exactly the constructor's (`NewStudent`), with its ordered errors; it succeeds exactly when all three are present and valid, whatever other keys the mapping holds; a success is a valid student |
| `Models.FromMappingIgnoresExtraKeys` | models.py:43-49 | a mapping is read exactly as its restriction to name, age and address, so extra keys such as a client-sent `id` play no part |
| `Models.FromMappingRoundTrip` | models.py:36-49 | `from_dict(to_dict(s))` gives back `s` for every valid student |
| `Models.FromMappingKeepsValues` | models.py:43-49 | a student read from a mapping holds that mapping's name, age, city and country |
| `Models.ConstructionExamples` | models.py:20-34 | an empty name, a negative age and an empty city are refused with the matching error; a complete record is accepted |
| `Routes.StoredForm` | routes.py:48 | the inserted document is well-shaped under its new id and carries the student mapping's name, age and address |
| `Routes.CreateResult` | routes.py:40-52 | the handler repeats `from_dict`'s construction (routes.py:41-45), modelled by `FromMapping`: a body it refuses gives 400 with that error and stores nothing; 201 comes exactly when name, age and address are present and valid, extra keys ignored; success gives 201 with the new id and adds exactly one record, leaving the others unchanged; the collection invariant is kept |
| `Routes.StudentStore.Create` | routes.py:40-52 | the store's new state and the response are those of `CreateResult` |
| `Routes.Lookup` | routes.py:86 | the value under a dotted path such as `address.country`: nothing for an empty path or a missing first key, the stored value for a one-segment path, and nothing when the path runs through a value that is not a dict |
| `Routes.Holds` | routes.py:86-88 | a condition never holds of a missing field, and `$gte` with an integer bound never holds of a value that is not an integer |
| `Routes.Matches` | routes.py:90 | the empty query matches every document, and a matching document has a value under every path of the query |
| `Routes.BuildQuery` | routes.py:83-88 | the query has at most the paths `address.country` and `age`; the country condition is present exactly when a non-empty country is given, and is equality with it; the age condition is present exactly when an age is given, 0 included, and is `$gte` that age |
| `Routes.QueryMeaning` | routes.py:83-88 | the incrementally built query matches a document exactly when the country filter (only for a non-empty country, exact match on `address.country`) and the age filter (whenever an age is given, 0 included, `age >= value`) both hold |
| `Routes.HitsAreMatching` | routes.py:83-90 | the documents the built query finds are exactly the ones the filters select |
| `Routes.Find` | routes.py:90-91 | returns min(1000, number of matches) distinct matching documents, in an order the store chooses |
| `Routes.Project` | routes.py:95-98 | the projection has exactly the keys name and age, with the stored values, and no address or id |
| `Routes.ProjectAll` | routes.py:93-100 | the projection is applied to every fetched document, in order |
| `Routes.StudentStore.List` | routes.py:82-100 | the result is min(1000, number of selected records) distinct records that satisfy both filters, each projected to name and age |
| `Routes.ListExample` | routes.py:83-91 | of A (20, IN), B (25, IN) and C (25, US), country IN with age 22 selects only B |
| `Routes.FetchResult` | routes.py:139-146 | an absent id gives 404; a present id gives the stored fields with `id` equal to the key and no `_id` |
| `Routes.StudentStore.Fetch` | routes.py:138-146 | the reshaping of the fetched document agrees with `FetchResult` |
| `Routes.UpdateFieldsError` | routes.py:196-211 | the check answers nothing, 400 for an unknown field, 400 for an unknown address field, or 500; 400 for an unknown field comes exactly when a top-level key is not allowed, whatever the address; with allowed keys: no address passes, a dict address passes exactly when its keys are city/country and otherwise gives the unknown-address-field 400, the empty string passes and any other string gives that 400, and an integer or None address, which cannot be iterated, gives 500 exactly |
| `Routes.CheckUpdateFields` | routes.py:196-211 | the two loops, leaving at the first disallowed key, compute the field check `UpdateFieldsError` |
| `Routes.PassedFields` | routes.py:196-211 | a body passes exactly when it has only allowed top-level keys and its address, if any, is a dict with only city/country keys or the empty string |
| `Routes.OneCharacterNotAllowed` | routes.py:206-207 | a non-empty string address is refused, since its first character is not an allowed address field |
| `Routes.StoredAddress` | routes.py:231 | the stored address dict, or an empty dict when the record has none; the copy is the value itself, since values are immutable in the model |
| `Routes.SuppliedAddress` | routes.py:233-237 | the sub-fields the `'city' in ...` and `'country' in ...` tests find: a dict address supplies its own entries; any other address supplies no city or country; for the empty string, the only other address that passes the field check, this holds because `in` on a string tests for a substring |
| `Routes.MergeAddress` | routes.py:230-237 | the merged address has the stored sub-fields plus the supplied city and country; a supplied city or country replaces the stored one; every other stored sub-field keeps its value; no other supplied key is copied in |
| `Routes.UpdateData` | routes.py:219-237 | `update_data` has exactly the supplied allowed fields; a supplied name or age is copied unvalidated; a supplied address becomes the merge of the stored address with the supplied one |
| `Routes.Merged` | routes.py:239-243 | after `$set`, the document has its stored fields plus the written ones; each written field takes its `update_data` value; every field the body does not name, `_id` included, keeps its stored value |
| `Routes.UpdateResult` | routes.py:190-248 | the outcome is 204, 404, 400 or 500; anything but 204 leaves the collection unchanged; no other record changes; the collection invariant is kept |
| `Routes.UpdateRejectsUnknownField` | routes.py:197-202 | any top-level key outside name/age/address gives 400 with the collection unchanged, whether or not the id exists |
| `Routes.UpdateRejectsUnknownAddressField` | routes.py:205-211 | any address key outside city/country gives 400 with the collection unchanged, before any read |
| `Routes.UpdateNonIterableAddress` | routes.py:205-206 | an integer or None address raises in the field check (500) and nothing changes |
| `Routes.UpdateUnknownId` | routes.py:213-217 | after the field check, an absent id gives 404 with the collection unchanged |
| `Routes.UpdateMerges` | routes.py:239-246 | once the field check passes and the id exists, the record becomes its merge and nothing else changes; 204 exactly when the merge changed the record, 404 when the write changes nothing |
| `Routes.MergedFields` | routes.py:219-243 | name and age are replaced only when supplied, with no value validated; the address is the stored address with only the supplied city/country overwritten, so an unsupplied sub-field keeps its stored value; `_id` and the key set are kept |
| `Routes.MergeKeepsShape` | routes.py:239-243 | the merged `$set` keeps a stored document's shape |
| `Routes.BuildUpdateData` | routes.py:219-237 | building `update_data` step by step gives the merge `UpdateData` |
| `Routes.BuildAddress` | routes.py:230-237 | writing the supplied city and country into a copy of the stored address gives the merged address |
| `Routes.UpdateCityKeepsCountry` | routes.py:229-237 | with stored address {Pune, IN}, updating only the city to Mumbai stores {Mumbai, IN} |
| `Routes.StudentStore.Update` | routes.py:190-248 | the store's new state and the response are those of `UpdateResult` |
| `Routes.DeleteResult` | routes.py:281-286 | a present id is removed, and only it, with `{}`; an absent id gives 404 with the collection unchanged; the collection invariant is kept |
| `Routes.DeleteTwice` | routes.py:281-284 | a second delete of the same id gives 404 and changes nothing |
| `Routes.StudentStore.Delete` | routes.py:280-286 | the store's new state and the response are those of `DeleteResult` |
| `Routes.CreateThenFetch` | routes.py:40-49 | after a successful create, fetching the new id gives that id and exactly the name, age, city and country the record was created with |
| `Routes.NotFoundEverywhere` | routes.py:139-284 | on an absent id, fetch, update (once the field check passes) and delete all give 404 and change nothing |

## Left out

- `database.py`: environment loading and database client construction are I/O plumbing. The database is the in-memory `Docs` map.
- FastAPI routing, decorators, OpenAPI metadata, `Body`/`Query`/`Path` parsing and HTTP serialisation. A request body that is not a JSON object, for example, is refused by the framework before any handler runs.
- `async`/`await`, and the race between update's read and write (last write wins). Each handler runs as one atomic step.
- `ObjectId(id)` parsing: ids are opaque strings, so the uncaught `InvalidId` for a malformed id is not modelled. Generating ids is left to the caller of `Create` through `newId`.
- Database and connection failures, and MongoDB quirks. One quirk: an empty `$set` is treated as a write that modifies nothing, so it gives 404.
- The 64-bit limit on stored integers. The driver refuses an integer outside the signed 64-bit range with an `OverflowError`, which the handlers do not catch (a 500): at `insert_one` in create, at `update_one` in update, and at `find` in list for an `age` filter. The model's integers are unbounded, so for an age such as 2^63 it answers 201, 204 or 200 instead.
- Routes.StudentStore.List: the result order is whatever the store chooses. The model states which records are returned, not their order.
- The exact text of the 400 detail messages. The model keeps their kind (`Models.Error`, `UnknownField`, `UnknownAddressField`). Which disallowed key the message names depends on set and dict iteration order.
- Booleans, floats and lists are not `Json.Value`s. So Python's treatment of `True` as an integer age, and update's behaviour on a list address, are outside the model.
- Stored documents that this service did not write. `WellFormed` assumes every document has the shape that create gives it.
