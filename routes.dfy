/**
 * The request handlers of the student service over an abstract store: the
 * students collection is a map from an opaque id to the stored document.
 *
 * Create, fetch, update and delete each have a specification function on
 * the collection (the response and the new collection), with the properties
 * the service promises proved about it. List is specified by the set of
 * selected ids, `MatchingIds`, and the projection `Project`. Every handler
 * has a method of `StudentStore` that performs it step by step on the
 * store's state and is proved to agree with its specification.
 */
module Routes {
  import opened Wrappers
  import opened Json
  import opened Models

  /** The students collection: every stored document under its id. */
  type Docs = map<string, Doc>

  /** `cursor.to_list(length=1000)`. */
  const ListCap: nat := 1000

  const AllowedTopLevelFields: set<string> := {"name", "age", "address"}
  const AllowedAddressFields: set<string> := {"city", "country"}

  /** The keys of every stored document: what `insert_one(student.to_dict())`
      stores, the store's own `_id` included. */
  const StoredKeys: set<string> := {"_id", "name", "age", "address"}

  /** Why a request was refused with 400. */
  datatype Cause =
    | Invalid(error: Error)  // a KeyError or ValueError from building the Student
    | UnknownField           // "Invalid field: ..."
    | UnknownAddressField    // "Invalid address field: ..."

  /** What a handler answers: a status code (see `Status`) and a payload. */
  datatype Response =
    | Created(id: string)    // 201 {"id": id}
    | Listed(data: seq<Doc>) // 200 {"data": [...]}
    | Fetched(student: Doc)  // 200 the student document
    | Deleted                // 200 {}
    | Updated                // 204, no body
    | BadRequest(cause: Cause)
    | NotFound               // 404 {"detail": "Student not found"}
    | ServerError            // 500: an exception the handler does not catch
  {
    function Status(): int {
      match this
      case Created(_) => 201
      case Listed(_) => 200
      case Fetched(_) => 200
      case Deleted => 200
      case Updated => 204
      case BadRequest(_) => 400
      case NotFound => 404
      case ServerError => 500
    }
  }

  /** A stored document: the student fields plus its own id under `_id`,
      with a dict for its address. */
  predicate Shaped(id: string, d: Doc) {
    d.Keys == StoredKeys && d["_id"] == Str(id) && d["address"].Obj?
  }

  /** The invariant of the collection, kept by every handler. */
  predicate WellFormed(docs: Docs) {
    forall id :: id in docs ==> Shaped(id, docs[id])
  }

  // ---------------------------------------------------------------- create

  /** The document `insert_one` stores for a new student under `id`. */
  function StoredForm(s: Student, id: string): (d: Doc)
    ensures Shaped(id, d)
    ensures forall k :: k in StudentKeys ==> d[k] == StudentToMapping(s)[k]
  {
    StudentToMapping(s)["_id" := Str(id)]
  }

  /** `create_student`, where `newId` is the id the store assigns: a body the
      model refuses gives 400 and stores nothing; otherwise exactly one
      record is added, under the new id. */
  function CreateResult(docs: Docs, body: Doc, newId: string): (r: (Response, Docs))
    requires newId !in docs
    ensures r.0.BadRequest? || r.0 == Created(newId)
    ensures r.0.BadRequest? <==> FromMapping(body).Failure?
    ensures r.0.Created? <==>
              StudentKeys <= body.Keys
              && IsName(body["name"]) && IsAge(body["age"]) && IsCompleteAddress(body["address"])
    ensures r.0.BadRequest? ==> r.0.cause == Invalid(FromMapping(body).error) && r.1 == docs
    ensures r.0.Created? ==>
              && r.1.Keys == docs.Keys + {newId}
              && (forall id :: id in docs ==> r.1[id] == docs[id])
              && r.1[newId] == StoredForm(FromMapping(body).value, newId)
    ensures WellFormed(docs) ==> WellFormed(r.1)
  {
    match FromMapping(body)
    case Failure(e) => (BadRequest(Invalid(e)), docs)
    case Success(s) => (Created(newId), docs[newId := StoredForm(s, newId)])
  }

  // ------------------------------------------------------------------ list

  /** One condition of a query: `value` or `{"$gte": bound}`. */
  datatype Condition = Equals(v: Value) | AtLeast(bound: int)

  /** A query: each condition under its dotted path, split at the dots. */
  type Query = map<seq<string>, Condition>

  /** The value a dotted path such as `address.country` names in a document,
      if any: each segment but the last must name a nested dict. */
  function Lookup(doc: Doc, path: seq<string>): (r: Option<Value>)
    ensures |path| == 0 ==> r.None?
    ensures |path| > 0 && path[0] !in doc ==> r.None?
    ensures |path| == 1 && path[0] in doc ==> r == Some(doc[path[0]])
    ensures |path| > 1 && path[0] in doc && !doc[path[0]].Obj? ==> r.None?
    decreases |path|
  {
    if |path| == 0 || path[0] !in doc then None
    else if |path| == 1 then Some(doc[path[0]])
    else match doc[path[0]]
      case Obj(f) => Lookup(f, path[1..])
      case _ => None
  }

  /** Whether one condition holds of the value at its path. Neither kind
      matches a missing field, and `$gte` with an integer bound only matches
      integers, never a string, a dict or None. */
  predicate Holds(c: Condition, v: Option<Value>)
    ensures Holds(c, v) ==> v.Some?
    ensures c.AtLeast? && v.Some? && !v.value.Int? ==> !Holds(c, v)
  {
    match c
    case Equals(x) => v == Some(x)
    case AtLeast(b) => v.Some? && v.value.Int? && v.value.i >= b
  }

  /** Whether a document matches a query: every condition holds. The empty
      query matches every document, and a matching document has a value
      under every path of the query. */
  predicate Matches(q: Query, doc: Doc)
    ensures q == map[] ==> Matches(q, doc)
    ensures Matches(q, doc) ==> forall p :: p in q ==> Lookup(doc, p).Some?
  {
    forall p :: p in q ==> Holds(q[p], Lookup(doc, p))
  }

  /** The query `list_students` builds: a country condition only for a
      non-empty country, an age condition whenever an age is given. */
  function BuildQuery(country: Option<string>, age: Option<int>): (q: Query)
    ensures q.Keys <= {["address", "country"], ["age"]}
    ensures ["address", "country"] in q <==> country.Some? && country.value != ""
    ensures ["address", "country"] in q ==> q[["address", "country"]] == Equals(Str(country.value))
    ensures ["age"] in q <==> age.Some?
    ensures ["age"] in q ==> q[["age"]] == AtLeast(age.value)
  {
    var byCountry: Query :=
      if country.Some? && country.value != "" then map[["address", "country"] := Equals(Str(country.value))]
      else map[];
    if age.Some? then byCountry[["age"] := AtLeast(age.value)] else byCountry
  }

  /** The selection the list filters describe, stated directly on a document. */
  predicate Selected(country: Option<string>, age: Option<int>, doc: Doc) {
    && (country.Some? && country.value != "" ==>
          && "address" in doc && doc["address"].Obj?
          && "country" in doc["address"].fields
          && doc["address"].fields["country"] == Str(country.value))
    && (age.Some? ==> "age" in doc && doc["age"].Int? && doc["age"].i >= age.value)
  }

  /** The query built from the filters matches exactly the documents that the
      filters select: both filters combine with AND, and an empty country
      filters nothing. */
  lemma QueryMeaning(country: Option<string>, age: Option<int>, doc: Doc)
    ensures Matches(BuildQuery(country, age), doc) <==> Selected(country, age, doc)
  {
    var q := BuildQuery(country, age);
    var cp, ap := ["address", "country"], ["age"];
    assert cp != ap;
    assert q.Keys <= {cp, ap};
    assert Lookup(doc, ap) == if "age" in doc then Some(doc["age"]) else None;
    assert Lookup(doc, cp) ==
      if "address" in doc && doc["address"].Obj? && "country" in doc["address"].fields
      then Some(doc["address"].fields["country"]) else None;
    if Matches(q, doc) {
      if country.Some? && country.value != "" { assert cp in q && q[cp] == Equals(Str(country.value)); }
      if age.Some? { assert ap in q && q[ap] == AtLeast(age.value); }
    }
  }

  /** The ids of the stored documents the filters select. */
  function MatchingIds(docs: Docs, country: Option<string>, age: Option<int>): set<string> {
    set id | id in docs && Selected(country, age, docs[id])
  }

  /** The list projection of one document: exactly its name and age. */
  function Project(doc: Doc): (r: Doc)
    requires "name" in doc && "age" in doc
    ensures r.Keys == {"name", "age"}
    ensures r["name"] == doc["name"] && r["age"] == doc["age"]
    ensures "address" !in r && "_id" !in r
  {
    map k | k in {"name", "age"} :: doc[k]
  }

  /** The projection applied to every fetched document. */
  function ProjectAll(docs: seq<Doc>): (r: seq<Doc>)
    requires forall i :: 0 <= i < |docs| ==> "name" in docs[i] && "age" in docs[i]
    ensures |r| == |docs|
    ensures forall i :: 0 <= i < |docs| ==> r[i] == Project(docs[i])
  {
    seq(|docs|, i requires 0 <= i < |docs| && "name" in docs[i] && "age" in docs[i] => Project(docs[i]))
  }

  function Min(a: nat, b: nat): nat {
    if a <= b then a else b
  }

  /** Of A (20, IN), B (25, IN) and C (25, US), only B is at least 22 years
      old and lives in IN. */
  lemma ListExample(docs: Docs)
    requires docs == map[
      "a" := map["name" := Str("A"), "age" := Int(20), "address" := Obj(map["country" := Str("IN")])],
      "b" := map["name" := Str("B"), "age" := Int(25), "address" := Obj(map["country" := Str("IN")])],
      "c" := map["name" := Str("C"), "age" := Int(25), "address" := Obj(map["country" := Str("US")])]]
    ensures MatchingIds(docs, Some("IN"), Some(22)) == {"b"}
  {
    assert Str("US") != Str("IN");
    assert "b" in MatchingIds(docs, Some("IN"), Some(22));
  }

  // ----------------------------------------------------------------- fetch

  /** `fetch_student`: an unknown id gives 404; a known one gives its stored
      fields with the id under `id` instead of `_id`. */
  function FetchResult(docs: Docs, id: string): (r: Response)
    ensures id !in docs ==> r == NotFound
    ensures id in docs ==>
              && r.Fetched?
              && r.student.Keys == docs[id].Keys - {"_id"} + {"id"}
              && r.student["id"] == Str(id)
              && (forall k :: k in r.student && k != "id" ==> r.student[k] == docs[id][k])
  {
    if id !in docs then NotFound else Fetched(docs[id]["id" := Str(id)] - {"_id"})
  }

  // ---------------------------------------------------------------- update

  /** The field check of `update_student`, done before anything is read: a
      top-level key outside the allowed fields gives 400; so does an address
      key outside the allowed address fields, where iterating a string address
      yields its one-character strings and iterating an integer or None raises
      a TypeError (500). `None` means the body passes. The top-level keys are
      checked first, so an unknown top-level key wins over any address. */
  function UpdateFieldsError(body: Doc): (r: Option<Response>)
    ensures r.None? || r == Some(BadRequest(UnknownField))
            || r == Some(BadRequest(UnknownAddressField)) || r == Some(ServerError)
    ensures r == Some(BadRequest(UnknownField)) <==> !(body.Keys <= AllowedTopLevelFields)
    ensures body.Keys <= AllowedTopLevelFields && "address" !in body ==> r.None?
    ensures body.Keys <= AllowedTopLevelFields && "address" in body && body["address"].Obj? ==>
              (r.None? <==> body["address"].fields.Keys <= AllowedAddressFields)
              && (r.Some? ==> r.value == BadRequest(UnknownAddressField))
    ensures body.Keys <= AllowedTopLevelFields && "address" in body && body["address"].Str? ==>
              r == if body["address"].s == "" then None else Some(BadRequest(UnknownAddressField))
    ensures r == Some(ServerError) <==>
              body.Keys <= AllowedTopLevelFields && "address" in body
              && (body["address"].Int? || body["address"].Null?)
  {
    if exists k :: k in body && k !in AllowedTopLevelFields then Some(BadRequest(UnknownField))
    else if "address" !in body then None
    else match body["address"]
      case Obj(f) =>
        if exists k :: k in f && k !in AllowedAddressFields then Some(BadRequest(UnknownAddressField))
        else None
      case Str(s) =>
        OneCharacterNotAllowed(s);
        if exists i :: 0 <= i < |s| && [s[i]] !in AllowedAddressFields then Some(BadRequest(UnknownAddressField))
        else None
      case _ => Some(ServerError)
  }

  /** A body passes the field check exactly when it has only allowed keys
      and its address, if any, is a dict with only allowed keys or the empty
      string. */
  lemma PassedFields(body: Doc)
    ensures UpdateFieldsError(body).None? <==>
              && body.Keys <= AllowedTopLevelFields
              && ("address" in body ==>
                    || (body["address"].Obj? && body["address"].fields.Keys <= AllowedAddressFields)
                    || body["address"] == Str(""))
  {
    if "address" in body && body["address"].Str? {
      OneCharacterNotAllowed(body["address"].s);
    }
  }

  /** A non-empty string address is refused: its first character, as a
      one-character string, is neither "city" nor "country". */
  lemma OneCharacterNotAllowed(s: string)
    ensures |s| > 0 ==> [s[0]] !in AllowedAddressFields
  {
    if |s| > 0 {
      assert |[s[0]]| == 1 && |"city"| == 4 && |"country"| == 7;
    }
  }

  /** `student.get('address', {}).copy()`: the stored address, or an empty
      dict when the record has none. Values are immutable here, so the copy
      is the value itself. */
  function StoredAddress(stored: Doc): (a: map<string, Value>)
    requires "address" in stored ==> stored["address"].Obj?
    ensures "address" in stored ==> a == stored["address"].fields
    ensures "address" !in stored ==> a == map[]
  {
    if "address" in stored then stored["address"].fields else map[]
  }

  /** The address sub-fields a body supplies, as the tests
      `'city' in student_update['address']` and `'country' in ...` see them:
      a dict's own entries. The only other address that passes the field
      check is the empty string, and on a string `in` tests for a substring,
      which "city" and "country" are not of "", so it supplies nothing. */
  function SuppliedAddress(v: Value): (a: map<string, Value>)
    ensures v.Obj? ==> a == v.fields
    ensures v == Str("") ==> a == map[]
    ensures !v.Obj? ==> a.Keys * AllowedAddressFields == {}
  {
    if v.Obj? then v.fields else map[]
  }

  /** The merged address: the stored address with only the supplied city
      and country overwritten: a supplied city or country replaces the
      stored one, every other stored sub-field is kept, and no other supplied
      key is copied in. */
  function MergeAddress(current: map<string, Value>, supplied: map<string, Value>): (m: map<string, Value>)
    ensures m.Keys == current.Keys + supplied.Keys * AllowedAddressFields
    ensures forall k :: k in supplied && k in AllowedAddressFields ==> m[k] == supplied[k]
    ensures forall k :: k in current && (k !in supplied || k !in AllowedAddressFields) ==> m[k] == current[k]
  {
    current + map k | k in supplied.Keys * AllowedAddressFields :: supplied[k]
  }

  /** `update_data`: the supplied name and age, and, when an address is
      supplied, the merged address. Only allowed fields are written, none of
      their values is validated, and the address written is always a dict. */
  function UpdateData(body: Doc, stored: Doc): (u: Doc)
    requires "address" in stored ==> stored["address"].Obj?
    ensures u.Keys == body.Keys * AllowedTopLevelFields
    ensures "name" in body ==> u["name"] == body["name"]
    ensures "age" in body ==> u["age"] == body["age"]
    ensures "address" in body ==>
              u["address"] == Obj(MergeAddress(StoredAddress(stored), SuppliedAddress(body["address"])))
  {
    map k | k in body.Keys * AllowedTopLevelFields ::
      if k == "address" then Obj(MergeAddress(StoredAddress(stored), SuppliedAddress(body["address"])))
      else body[k]
  }

  /** The stored document after `$set` with `update_data`: the fields written
      replace the stored ones, and every field not written, `_id` included,
      keeps its stored value. */
  function Merged(current: Doc, body: Doc): (m: Doc)
    requires "address" in current ==> current["address"].Obj?
    ensures m.Keys == current.Keys + body.Keys * AllowedTopLevelFields
    ensures forall k :: k in current && k !in body ==> m[k] == current[k]
    ensures forall k :: k in body && k in AllowedTopLevelFields ==> m[k] == UpdateData(body, current)[k]
  {
    current + UpdateData(body, current)
  }

  /** `update_student`: the field check, then the lookup, then the merged
      `$set`; a write that changes nothing is reported as 404. */
  function UpdateResult(docs: Docs, id: string, body: Doc): (r: (Response, Docs))
    requires WellFormed(docs)
    ensures r.0.Updated? || r.0.NotFound? || r.0.ServerError?
            || r.0 == BadRequest(UnknownField) || r.0 == BadRequest(UnknownAddressField)
    ensures !r.0.Updated? ==> r.1 == docs
    ensures r.1.Keys == docs.Keys
    ensures forall other :: other in docs && other != id ==> r.1[other] == docs[other]
    ensures WellFormed(r.1)
  {
    var rejected := UpdateFieldsError(body);
    if rejected.Some? then (rejected.value, docs)
    else if id !in docs then (NotFound, docs)
    else
      var current := docs[id];
      var merged := Merged(current, body);
      MergeKeepsShape(id, current, body);
      if merged == current then (NotFound, docs) else (Updated, docs[id := merged])
  }

  /** The merged `$set` keeps a stored document's shape. */
  lemma MergeKeepsShape(id: string, current: Doc, body: Doc)
    requires Shaped(id, current)
    ensures Shaped(id, Merged(current, body))
  {
    var upd := UpdateData(body, current);
    assert upd.Keys <= AllowedTopLevelFields;
    assert "address" in upd ==> upd["address"].Obj?;
  }

  /** The merge of a body that passed the field check: a supplied name or age
      replaces the stored one (whatever its value: nothing is validated), the
      address is the stored address with only the supplied sub-fields
      overwritten, and `_id` is kept. */
  lemma MergedFields(id: string, before: Doc, body: Doc)
    requires Shaped(id, before)
    requires body.Keys <= AllowedTopLevelFields
    requires "address" in body ==> SuppliedAddress(body["address"]).Keys <= AllowedAddressFields
    ensures var now := Merged(before, body);
            && now.Keys == before.Keys
            && now["_id"] == Str(id)
            && now["name"] == (if "name" in body then body["name"] else before["name"])
            && now["age"] == (if "age" in body then body["age"] else before["age"])
            && now["address"] == (if "address" in body
                                  then Obj(before["address"].fields + SuppliedAddress(body["address"]))
                                  else before["address"])
  {
    var upd := UpdateData(body, before);
    assert StoredAddress(before) == before["address"].fields;
    if "address" in body {
      var supplied := SuppliedAddress(body["address"]);
      assert MergeAddress(before["address"].fields, supplied) == before["address"].fields + supplied;
      assert upd["address"] == Obj(before["address"].fields + supplied);
    }
  }

  /** A top-level key outside name, age and address gives 400 and leaves the
      collection unchanged, whether or not the id exists. */
  lemma UpdateRejectsUnknownField(docs: Docs, id: string, body: Doc, key: string)
    requires WellFormed(docs)
    requires key in body && key !in AllowedTopLevelFields
    ensures UpdateResult(docs, id, body) == (BadRequest(UnknownField), docs)
  {
  }

  /** With allowed top-level keys, an address key outside city and country
      gives 400 and leaves the collection unchanged. */
  lemma UpdateRejectsUnknownAddressField(docs: Docs, id: string, body: Doc, key: string)
    requires WellFormed(docs)
    requires body.Keys <= AllowedTopLevelFields
    requires "address" in body && body["address"].Obj?
    requires key in body["address"].fields && key !in AllowedAddressFields
    ensures UpdateResult(docs, id, body) == (BadRequest(UnknownAddressField), docs)
  {
    assert !exists k :: k in body && k !in AllowedTopLevelFields;
    assert UpdateFieldsError(body) == Some(BadRequest(UnknownAddressField));
  }

  /** An address that is an integer or None cannot be iterated: the field
      check raises a TypeError, answered with 500, and nothing changes. */
  lemma UpdateNonIterableAddress(docs: Docs, id: string, body: Doc)
    requires WellFormed(docs)
    requires body.Keys <= AllowedTopLevelFields
    requires "address" in body && (body["address"].Int? || body["address"].Null?)
    ensures UpdateResult(docs, id, body) == (ServerError, docs)
  {
  }

  /** After the field check, an unknown id gives 404 and no change. */
  lemma UpdateUnknownId(docs: Docs, id: string, body: Doc)
    requires WellFormed(docs)
    requires UpdateFieldsError(body).None? && id !in docs
    ensures UpdateResult(docs, id, body) == (NotFound, docs)
  {
  }

  /** Once the field check passes and the id exists, the record becomes its
      merge, which `MergedFields` describes, and nothing else changes; the
      answer is 204 exactly when the record changed and 404 when the write
      changes nothing. */
  lemma UpdateMerges(docs: Docs, id: string, body: Doc)
    requires WellFormed(docs)
    requires UpdateFieldsError(body).None? && id in docs
    ensures body.Keys <= AllowedTopLevelFields
    ensures "address" in body ==> SuppliedAddress(body["address"]).Keys <= AllowedAddressFields
    ensures var (r, after) := UpdateResult(docs, id, body);
            && after == docs[id := Merged(docs[id], body)]
            && (r == Updated <==> Merged(docs[id], body) != docs[id])
            && (r == NotFound <==> Merged(docs[id], body) == docs[id])
  {
    PassedFields(body);
  }

  /** A partial address update: supplying only the city keeps the stored
      country. */
  lemma UpdateCityKeepsCountry(docs: Docs, id: string)
    requires WellFormed(docs) && id in docs
    requires docs[id]["address"] == Obj(map["city" := Str("Pune"), "country" := Str("IN")])
    ensures var after := UpdateResult(docs, id, map["address" := Obj(map["city" := Str("Mumbai")])]).1;
            var address := after[id]["address"];
            && address.Obj?
            && address.fields.Keys == {"city", "country"}
            && address.fields["city"] == Str("Mumbai")
            && address.fields["country"] == Str("IN")
  {
    var body := map["address" := Obj(map["city" := Str("Mumbai")])];
    UpdateMerges(docs, id, body);
    MergedFields(id, docs[id], body);
  }

  // ---------------------------------------------------------------- delete

  /** `delete_student`: removes exactly the record with the id and answers
      `{}`, or answers 404 and changes nothing. */
  function DeleteResult(docs: Docs, id: string): (r: (Response, Docs))
    ensures id in docs ==> r.0 == Deleted && r.1.Keys == docs.Keys - {id} && |r.1| == |docs| - 1
    ensures id !in docs ==> r == (NotFound, docs)
    ensures forall k :: k in r.1 ==> k in docs && r.1[k] == docs[k]
    ensures WellFormed(docs) ==> WellFormed(r.1)
  {
    if id in docs then (Deleted, docs - {id}) else (NotFound, docs)
  }

  /** Deleting the same id twice: the second delete gives 404 and changes
      nothing. */
  lemma DeleteTwice(docs: Docs, id: string)
    ensures var after := DeleteResult(docs, id).1;
            DeleteResult(after, id) == (NotFound, after)
  {
    var after := DeleteResult(docs, id).1;
    assert id !in after;
  }

  // ------------------------------------------------- across the handlers

  /** A created student can be fetched under the new id, with the same name,
      age, city and country it was created with. */
  lemma CreateThenFetch(docs: Docs, body: Doc, newId: string)
    requires newId !in docs
    requires FromMapping(body).Success?
    ensures var (r, after) := CreateResult(docs, body, newId);
            var f := FetchResult(after, newId);
            && r == Created(newId)
            && f.Fetched?
            && f.student.Keys == {"id", "name", "age", "address"}
            && f.student["id"] == Str(newId)
            && f.student["name"] == body["name"]
            && f.student["age"] == body["age"]
            && f.student["address"].Obj?
            && f.student["address"].fields["city"] == Get(body["address"].fields, "city")
            && f.student["address"].fields["country"] == Get(body["address"].fields, "country")
  {
    var s := FromMapping(body).value;
    FromMappingKeepsValues(body, s);
    var after := CreateResult(docs, body, newId).1;
    assert after[newId] == StoredForm(s, newId);
  }

  /** An id that is not stored gives 404 from fetch, update (once the body
      passes the field check) and delete, and neither changes the collection. */
  lemma NotFoundEverywhere(docs: Docs, id: string, body: Doc)
    requires WellFormed(docs) && id !in docs
    requires UpdateFieldsError(body).None?
    ensures FetchResult(docs, id) == NotFound
    ensures UpdateResult(docs, id, body) == (NotFound, docs)
    ensures DeleteResult(docs, id) == (NotFound, docs)
  {
  }

  // ----------------------------------------------------------------- store

  /** The handlers' view of the database: the students collection, changed
      in place by create, update and delete. */
  class StudentStore {
    var docs: Docs

    ghost predicate Valid()
      reads this
    {
      WellFormed(docs)
    }

    constructor ()
      ensures Valid() && docs == map[]
    {
      docs := map[];
    }

    /** `create_student`, with `newId` the unused id the store assigns. */
    method Create(body: Doc, newId: string) returns (r: Response)
      requires Valid() && newId !in docs
      modifies this
      ensures Valid()
      ensures (r, docs) == CreateResult(old(docs), body, newId)
    {
      var student := FromMapping(body);
      if student.Failure? {
        return BadRequest(Invalid(student.error));
      }
      docs := docs[newId := StoredForm(student.value, newId)];
      r := Created(newId);
    }

    /** `list_students`: at most `ListCap` of the selected documents, in an
      order the store chooses, each projected to its name and age. `picked`
      names the ids of the documents returned. */
    method List(country: Option<string>, age: Option<int>) returns (r: Response, ghost picked: seq<string>)
      requires Valid()
      ensures r.Listed? && |r.data| == |picked|
      ensures |picked| == Min(ListCap, |MatchingIds(docs, country, age)|)
      ensures forall i, j :: 0 <= i < j < |picked| ==> picked[i] != picked[j]
      ensures forall i :: 0 <= i < |picked| ==>
                picked[i] in MatchingIds(docs, country, age) && r.data[i] == Project(docs[picked[i]])
    {
      var query: Query := map[];
      if country.Some? && country.value != "" {
        query := query[["address", "country"] := Equals(Str(country.value))];
      }
      if age.Some? {
        query := query[["age"] := AtLeast(age.value)];
      }
      assert query == BuildQuery(country, age);
      var students;
      students, picked := Find(docs, query);
      HitsAreMatching(docs, country, age);
      r := Listed(ProjectAll(students));
    }

    /** `fetch_student`: the stored document reshaped so that `_id` becomes `id`. */
    method Fetch(id: string) returns (r: Response)
      ensures r == FetchResult(docs, id)
    {
      if id !in docs {
        return NotFound;
      }
      var student := docs[id];
      student := student["id" := Str(id)];
      student := student - {"_id"};
      r := Fetched(student);
    }

    /** `update_student`: check the fields, read the record, build
      `update_data` and write it with `$set`. */
    method Update(id: string, body: Doc) returns (r: Response)
      requires Valid()
      modifies this
      ensures Valid()
      ensures (r, docs) == UpdateResult(old(docs), id, body)
    {
      var rejected := CheckUpdateFields(body);
      if rejected.Some? {
        return rejected.value;
      }
      if id !in docs {
        return NotFound;
      }
      var student := docs[id];
      var updateData := BuildUpdateData(body, student);
      var merged := student + updateData;
      assert merged == Merged(student, body);
      MergeKeepsShape(id, student, body);
      if merged == student {
        return NotFound;
      }
      docs := docs[id := merged];
      r := Updated;
    }

    /** `delete_student`. */
    method Delete(id: string) returns (r: Response)
      requires Valid()
      modifies this
      ensures Valid()
      ensures (r, docs) == DeleteResult(old(docs), id)
    {
      if id !in docs {
        return NotFound;
      }
      docs := docs - {id};
      r := Deleted;
    }
  }

  /** The field check of `update_student` as its two loops run it, each
      leaving at the first key that is not allowed. */
  method CheckUpdateFields(body: Doc) returns (r: Option<Response>)
    ensures r == UpdateFieldsError(body)
  {
    var keys := body.Keys;
    while keys != {}
      invariant keys <= body.Keys
      invariant forall k :: k in body && k !in keys ==> k in AllowedTopLevelFields
      decreases keys
    {
      var key :| key in keys;
      if key !in AllowedTopLevelFields {
        return Some(BadRequest(UnknownField));
      }
      keys := keys - {key};
    }
    if "address" in body {
      match body["address"]
      case Obj(fields) =>
        var subKeys := fields.Keys;
        while subKeys != {}
          invariant subKeys <= fields.Keys
          invariant forall k :: k in fields && k !in subKeys ==> k in AllowedAddressFields
          decreases subKeys
        {
          var key :| key in subKeys;
          if key !in AllowedAddressFields {
            return Some(BadRequest(UnknownAddressField));
          }
          subKeys := subKeys - {key};
        }
      case Str(s) =>
        // the loop stops at the first character: no one-character string is allowed
        OneCharacterNotAllowed(s);
        if |s| > 0 {
          return Some(BadRequest(UnknownAddressField));
        }
      case _ =>
        return Some(ServerError);
    }
    r := None;
  }

  /** `update_data` as `update_student` builds it: the supplied name and
      age, then a copy of the stored address with the supplied city and
      country written into it. */
  method BuildUpdateData(body: Doc, student: Doc) returns (updateData: Doc)
    requires UpdateFieldsError(body).None?
    requires "address" in student ==> student["address"].Obj?
    ensures updateData == UpdateData(body, student)
  {
    PassedFields(body);
    updateData := map[];
    if "name" in body {
      updateData := updateData["name" := body["name"]];
    }
    if "age" in body {
      updateData := updateData["age" := body["age"]];
    }
    if "address" in body {
      var address := BuildAddress(StoredAddress(student), SuppliedAddress(body["address"]));
      updateData := updateData["address" := Obj(address)];
    }
  }

  /** The address of `update_data`: a copy of the stored address into which
      the supplied city and country are written. */
  method BuildAddress(stored: map<string, Value>, supplied: map<string, Value>) returns (address: map<string, Value>)
    ensures address == MergeAddress(stored, supplied)
  {
    address := stored;
    if "city" in supplied {
      address := address["city" := supplied["city"]];
    }
    if "country" in supplied {
      address := address["country" := supplied["country"]];
    }
  }

  /** The ids of the documents a query matches. */
  function Hits(docs: Docs, q: Query): set<string> {
    set id | id in docs && Matches(q, docs[id])
  }

  /** The built query hits exactly the ids the filters select. */
  lemma HitsAreMatching(docs: Docs, country: Option<string>, age: Option<int>)
    ensures Hits(docs, BuildQuery(country, age)) == MatchingIds(docs, country, age)
  {
    forall id | id in docs {
      QueryMeaning(country, age, docs[id]);
    }
  }

  /** `db.students.find(query).to_list(length=1000)`: up to `ListCap`
      distinct matching documents, in an order the store chooses, with
      `picked` the ids they are stored under. */
  method Find(docs: Docs, q: Query) returns (found: seq<Doc>, picked: seq<string>)
    ensures |found| == |picked| == Min(ListCap, |Hits(docs, q)|)
    ensures forall i, j :: 0 <= i < j < |picked| ==> picked[i] != picked[j]
    ensures forall i :: 0 <= i < |picked| ==> picked[i] in Hits(docs, q) && found[i] == docs[picked[i]]
  {
    ghost var hits := Hits(docs, q);
    ghost var seen: set<string> := {};
    found, picked := [], [];
    var remaining := docs.Keys;
    while remaining != {} && |found| < ListCap
      invariant remaining <= docs.Keys
      invariant |found| == |picked| == |seen| <= ListCap
      invariant seen <= hits && seen !! remaining
      invariant forall id :: id in hits && id !in remaining ==> id in seen
      invariant forall i :: 0 <= i < |picked| ==> picked[i] in seen && found[i] == docs[picked[i]]
      invariant forall i, j :: 0 <= i < j < |picked| ==> picked[i] != picked[j]
      decreases remaining
    {
      var id :| id in remaining;
      if Matches(q, docs[id]) {
        assert id in hits;
        found := found + [docs[id]];
        picked := picked + [id];
        seen := seen + {id};
      }
      remaining := remaining - {id};
    }
    if remaining != {} {
      SubsetSize(seen, hits);
    } else {
      assert seen == hits;
    }
  }

  /** A subset is no larger than its superset. */
  lemma {:induction false} SubsetSize(a: set<string>, b: set<string>)
    requires a <= b
    ensures |a| <= |b|
  {
    if a != {} {
      var x :| x in a;
      SubsetSize(a - {x}, b - {x});
    }
  }
}
