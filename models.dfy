/**
 * The student domain model: Address and Student values that are validated
 * when they are constructed, and their conversion to and from the mapping
 * that is stored and sent over the API.
 */
module Models {
  import opened Wrappers
  import opened Json

  /** Why building a Student failed: the `KeyError` of a required key that is
      absent, or one of the `ValueError`s the constructors raise. */
  datatype Error =
    | MissingKey(key: string)
    | InvalidName        // "Name must be a non-empty string"
    | InvalidAge         // "Age must be a non-negative integer"
    | AddressNotDict     // "Address must be a dictionary"
    | AddressIncomplete  // "City and country are required"

  /** The keys of a student mapping (and the keys `from_dict` reads). */
  const StudentKeys: set<string> := {"name", "age", "address"}

  /** An address. The constructor only rejects falsy values, so city and
      country are any truthy values, not necessarily strings. */
  datatype Address = Address(city: Value, country: Value) {
    predicate Valid() { Truthy(city) && Truthy(country) }
  }

  datatype Student = Student(name: string, age: nat, address: Address) {
    predicate Valid() { name != "" && address.Valid() }
  }

  /** What the name check accepts: a non-empty string. */
  predicate IsName(v: Value) { v.Str? && |v.s| > 0 }

  /** What the age check accepts: a non-negative integer. */
  predicate IsAge(v: Value) { v.Int? && v.i >= 0 }

  /** What the address check accepts: a dict whose city and country are both present and truthy. */
  predicate IsCompleteAddress(v: Value) {
    v.Obj? && Truthy(Get(v.fields, "city")) && Truthy(Get(v.fields, "country"))
  }

  /** `Address(city, country)`. */
  function NewAddress(city: Value, country: Value): (r: Result<Address, Error>)
    ensures r.Success? <==> Truthy(city) && Truthy(country)
    ensures r.Success? ==> r.value.Valid() && r.value.city == city && r.value.country == country
    ensures r.Failure? ==> r.error == AddressIncomplete
  {
    if !Truthy(city) || !Truthy(country) then Failure(AddressIncomplete)
    else Success(Address(city, country))
  }

  /** `Address.to_dict`. */
  function AddressToMapping(a: Address): (m: Doc)
    ensures m.Keys == {"city", "country"}
  {
    map["city" := a.city, "country" := a.country]
  }

  /** `Student(name, age, address)`: the checks run in the order name, age,
      address-is-a-dict, city-and-country, and the first that fails decides. */
  function NewStudent(name: Value, age: Value, address: Value): (r: Result<Student, Error>)
    ensures !IsName(name) ==> r == Failure(InvalidName)
    ensures IsName(name) && !IsAge(age) ==> r == Failure(InvalidAge)
    ensures IsName(name) && IsAge(age) && !address.Obj? ==> r == Failure(AddressNotDict)
    ensures IsName(name) && IsAge(age) && address.Obj? && !IsCompleteAddress(address) ==>
              r == Failure(AddressIncomplete)
    ensures r.Success? <==> IsName(name) && IsAge(age) && IsCompleteAddress(address)
    ensures r.Success? ==>
              && r.value.Valid()
              && name == Str(r.value.name)
              && age == Int(r.value.age)
              && r.value.address.city == Get(address.fields, "city")
              && r.value.address.country == Get(address.fields, "country")
  {
    if !Truthy(name) || !name.Str? then Failure(InvalidName)
    else if !age.Int? || age.i < 0 then Failure(InvalidAge)
    else if !address.Obj? then Failure(AddressNotDict)
    else
      match NewAddress(Get(address.fields, "city"), Get(address.fields, "country"))
      case Failure(e) => Failure(e)
      case Success(a) => Success(Student(name.s, age.i, a))
  }

  /** `Student.to_dict`: no identity field; the id is a storage concern. */
  function StudentToMapping(s: Student): (m: Doc)
    ensures m.Keys == StudentKeys
    ensures "id" !in m && "_id" !in m
  {
    map["name" := Str(s.name), "age" := Int(s.age), "address" := Obj(AddressToMapping(s.address))]
  }

  /** `Student.from_dict`: the keys are read in the order name, age, address
      before any value is checked; once all three are present the
      constructor's checks decide, and any other key is ignored. */
  function FromMapping(data: Doc): (r: Result<Student, Error>)
    ensures "name" !in data ==> r == Failure(MissingKey("name"))
    ensures "name" in data && "age" !in data ==> r == Failure(MissingKey("age"))
    ensures "name" in data && "age" in data && "address" !in data ==> r == Failure(MissingKey("address"))
    ensures (r.Failure? && r.error.MissingKey?) <==> !(StudentKeys <= data.Keys)
    ensures StudentKeys <= data.Keys ==> r == NewStudent(data["name"], data["age"], data["address"])
    ensures r.Success? <==>
              StudentKeys <= data.Keys
              && IsName(data["name"]) && IsAge(data["age"]) && IsCompleteAddress(data["address"])
    ensures r.Success? ==> r.value.Valid()
  {
    if "name" !in data then Failure(MissingKey("name"))
    else if "age" !in data then Failure(MissingKey("age"))
    else if "address" !in data then Failure(MissingKey("address"))
    else NewStudent(data["name"], data["age"], data["address"])
  }

  /** `from_dict(s.to_dict())` gives back `s` for every valid student. */
  lemma FromMappingRoundTrip(s: Student)
    requires s.Valid()
    ensures FromMapping(StudentToMapping(s)) == Success(s)
  {
    var m := StudentToMapping(s);
    var fields := AddressToMapping(s.address);
    assert m["name"] == Str(s.name) && m["age"] == Int(s.age) && m["address"] == Obj(fields);
    assert Get(fields, "city") == s.address.city && Get(fields, "country") == s.address.country;
  }

  /** Keys other than name, age and address play no part: a mapping is
      read exactly as its restriction to those three keys. */
  lemma FromMappingIgnoresExtraKeys(data: Doc)
    ensures FromMapping(data) == FromMapping(map k | k in data && k in StudentKeys :: data[k])
  {
    var core := map k | k in data && k in StudentKeys :: data[k];
    assert forall k :: k in StudentKeys ==> (k in core <==> k in data);
  }

  /** A student read from a mapping holds exactly the mapping's name, age,
      city and country, so writing it back reproduces those values. */
  lemma FromMappingKeepsValues(data: Doc, s: Student)
    requires FromMapping(data) == Success(s)
    ensures StudentKeys <= data.Keys && data["address"].Obj?
    ensures var m := StudentToMapping(s);
            && m["name"] == data["name"]
            && m["age"] == data["age"]
            && AddressToMapping(s.address)["city"] == Get(data["address"].fields, "city")
            && AddressToMapping(s.address)["country"] == Get(data["address"].fields, "country")
  {
  }

  /** Four constructions: an empty name, a negative age or an empty city is
      refused with its own error; a complete record is accepted. */
  lemma ConstructionExamples()
    ensures var ab := Obj(map["city" := Str("A"), "country" := Str("B")]);
            && NewStudent(Str(""), Int(5), ab) == Failure(InvalidName)
            && NewStudent(Str("Ann"), Int(-1), ab) == Failure(InvalidAge)
            && NewStudent(Str("Ann"), Int(5), Obj(map["city" := Str(""), "country" := Str("B")]))
               == Failure(AddressIncomplete)
            && NewStudent(Str("Ann"), Int(5), ab)
               == Success(Student("Ann", 5, Address(Str("A"), Str("B"))))
  {
  }
}
