/** The five customer tools: their argument shapes, the remote call each makes,
    and the text envelope each returns on success and on failure. */
module CustomerTools {
  import opened Js
  import opened Mcp

  // -----------------------------------------------------------------------
  // Argument shapes

  /** The `customer` object of `create-customer`: every field is required
      except `custom_fields`. */
  datatype NewCustomer = NewCustomer(
    company: string, vat: string, phonenumber: string, country: int, city: string,
    zip: string, state: string, address: string, email: string,
    customFields: Option<map<string, Json>>)

  /** The `customer` object of `update-customer`: every field is optional. */
  datatype CustomerPatch = CustomerPatch(
    company: Option<string>, vat: Option<string>, phonenumber: Option<string>,
    country: Option<int>, city: Option<string>, zip: Option<string>,
    state: Option<string>, address: Option<string>, email: Option<string>,
    customFields: Option<map<string, Json>>)

  /** `{ id }` of `get-customer` and `delete-customer`. */
  datatype IdArgs = IdArgs(id: int)
  /** `{ customer }` of `create-customer`. */
  datatype CreateArgs = CreateArgs(customer: NewCustomer)
  /** `{ id, customer }` of `update-customer`. */
  datatype UpdateArgs = UpdateArgs(id: int, customer: CustomerPatch)

  /** The keys of a customer object, in the order the schemas list them. */
  const FieldNames: seq<string> :=
    ["company", "vat", "phonenumber", "country", "city", "zip", "state", "address", "email", "custom_fields"]

  // -----------------------------------------------------------------------
  // Reading the shapes from parsed JSON (unknown keys are dropped)

  function RequiredString(o: map<string, Json>, k: string): Option<string> {
    if k in o && o[k].JString? then Some(o[k].s) else None
  }

  function RequiredNumber(o: map<string, Json>, k: string): Option<int> {
    if k in o && o[k].JNumber? then Some(o[k].n) else None
  }

  /** An optional field: `Some(None)` when absent, `Some(Some(v))` when present
      with the right type, `None` when present with another type. */
  function OptionalString(o: map<string, Json>, k: string): Option<Option<string>> {
    if k !in o then Some(None) else if o[k].JString? then Some(Some(o[k].s)) else None
  }

  function OptionalNumber(o: map<string, Json>, k: string): Option<Option<int>> {
    if k !in o then Some(None) else if o[k].JNumber? then Some(Some(o[k].n)) else None
  }

  /** `z.record(z.any()).optional()`: absent, or any object. */
  function OptionalRecord(o: map<string, Json>, k: string): Option<Option<map<string, Json>>> {
    if k !in o then Some(None) else if o[k].JObject? then Some(Some(o[k].fields)) else None
  }

  /** The create schema applied to a `customer` object. */
  function DecodeNewCustomer(o: map<string, Json>): Option<NewCustomer> {
    var company, vat, phone := RequiredString(o, "company"), RequiredString(o, "vat"), RequiredString(o, "phonenumber");
    var country, city, zip := RequiredNumber(o, "country"), RequiredString(o, "city"), RequiredString(o, "zip");
    var state, address, email := RequiredString(o, "state"), RequiredString(o, "address"), RequiredString(o, "email");
    var custom := OptionalRecord(o, "custom_fields");
    if company.Some? && vat.Some? && phone.Some? && country.Some? && city.Some? && zip.Some?
       && state.Some? && address.Some? && email.Some? && custom.Some?
    then Some(NewCustomer(company.value, vat.value, phone.value, country.value, city.value,
                          zip.value, state.value, address.value, email.value, custom.value))
    else None
  }

  /** The update schema applied to a `customer` object. */
  function DecodePatch(o: map<string, Json>): Option<CustomerPatch> {
    var company, vat, phone := OptionalString(o, "company"), OptionalString(o, "vat"), OptionalString(o, "phonenumber");
    var country, city, zip := OptionalNumber(o, "country"), OptionalString(o, "city"), OptionalString(o, "zip");
    var state, address, email := OptionalString(o, "state"), OptionalString(o, "address"), OptionalString(o, "email");
    var custom := OptionalRecord(o, "custom_fields");
    if company.Some? && vat.Some? && phone.Some? && country.Some? && city.Some? && zip.Some?
       && state.Some? && address.Some? && email.Some? && custom.Some?
    then Some(CustomerPatch(company.value, vat.value, phone.value, country.value, city.value,
                            zip.value, state.value, address.value, email.value, custom.value))
    else None
  }

  // -----------------------------------------------------------------------
  // The objects handed to the customer service (absent fields are omitted)

  /** The JSON value a patch carries under key `k`, if any. */
  function PatchValue(p: CustomerPatch, k: string): Option<Json> {
    if k == "company" then StringValue(p.company)
    else if k == "vat" then StringValue(p.vat)
    else if k == "phonenumber" then StringValue(p.phonenumber)
    else if k == "country" then (if p.country.Some? then Some(JNumber(p.country.value)) else None)
    else if k == "city" then StringValue(p.city)
    else if k == "zip" then StringValue(p.zip)
    else if k == "state" then StringValue(p.state)
    else if k == "address" then StringValue(p.address)
    else if k == "email" then StringValue(p.email)
    else if k == "custom_fields" then (if p.customFields.Some? then Some(JObject(p.customFields.value)) else None)
    else None
  }

  function StringValue(v: Option<string>): Option<Json> {
    if v.Some? then Some(JString(v.value)) else None
  }

  /** The JSON object of a new customer. */
  function NewCustomerBody(c: NewCustomer): map<string, Json> {
    var o := map["company" := JString(c.company), "vat" := JString(c.vat),
                 "phonenumber" := JString(c.phonenumber), "country" := JNumber(c.country),
                 "city" := JString(c.city), "zip" := JString(c.zip), "state" := JString(c.state),
                 "address" := JString(c.address), "email" := JString(c.email)];
    if c.customFields.Some? then o["custom_fields" := JObject(c.customFields.value)] else o
  }

  /** The JSON object of a patch: the fields it carries and no others. */
  function PatchBody(p: CustomerPatch): map<string, Json> {
    map k | k in FieldNames && PatchValue(p, k).Some? :: PatchValue(p, k).value
  }

  /** The object a parsed input leaves once unknown keys are dropped. */
  function KnownFields(o: map<string, Json>): map<string, Json> {
    map k | k in o && k in FieldNames :: o[k]
  }

  // -----------------------------------------------------------------------
  // Remote calls and handlers

  /** A call on the customer service; the service itself is a parameter. */
  datatype Call =
    | ListCall
    | GetCall(id: int)
    | CreateCall(customer: NewCustomer)
    | UpdateCall(id: int, patch: CustomerPatch)
    | DeleteCall(id: int)

  const ListFailure: string := "Error listing customers"
  const CreateFailure: string := "Error creating customer"

  function GetFailure(id: int): string { "Error getting customer " + NumberString(id) }
  function UpdateFailure(id: int): string { "Error updating customer " + NumberString(id) }
  function DeleteFailure(id: int): string { "Error deleting customer " + NumberString(id) }
  function DeleteSuccess(id: int): string { "Customer " + NumberString(id) + " deleted successfully" }

  /** Serialise the service's value on success, or give the fixed failure text. */
  function Reply(outcome: Outcome<Json>, stringify: Json -> string, failure: string): (r: ToolResult)
    ensures IsSingleText(r)
    ensures outcome.Ok? ==> TextOf(r) == stringify(outcome.value)
    ensures outcome.Err? ==> TextOf(r) == failure
  {
    match outcome
    case Ok(v) => TextResult(stringify(v))
    case Err => TextResult(failure)
  }

  /** `list-customers`. */
  function ListCustomers(remote: Call -> Outcome<Json>, stringify: Json -> string): (r: ToolResult)
    ensures IsSingleText(r)
  {
    Reply(remote(ListCall), stringify, ListFailure)
  }

  /** `get-customer`. */
  function GetCustomer(args: IdArgs, remote: Call -> Outcome<Json>, stringify: Json -> string): (r: ToolResult)
    ensures IsSingleText(r)
  {
    Reply(remote(GetCall(args.id)), stringify, GetFailure(args.id))
  }

  /** `create-customer`. */
  function CreateCustomer(args: CreateArgs, remote: Call -> Outcome<Json>, stringify: Json -> string): (r: ToolResult)
    ensures IsSingleText(r)
  {
    Reply(remote(CreateCall(args.customer)), stringify, CreateFailure)
  }

  /** `update-customer`: the parsed patch goes to the service as it is. */
  function UpdateCustomer(args: UpdateArgs, remote: Call -> Outcome<Json>, stringify: Json -> string): (r: ToolResult)
    ensures IsSingleText(r)
  {
    Reply(remote(UpdateCall(args.id, args.customer)), stringify, UpdateFailure(args.id))
  }

  /** `delete-customer`: the service's value is not shown. */
  function DeleteCustomer(args: IdArgs, remote: Call -> Outcome<Json>): (r: ToolResult)
    ensures IsSingleText(r)
  {
    match remote(DeleteCall(args.id))
    case Ok(_) => TextResult(DeleteSuccess(args.id))
    case Err => TextResult(DeleteFailure(args.id))
  }

  // -----------------------------------------------------------------------
  // Properties

  /** On success, get, list, create and update show the serialisation of
      exactly the value the service returned for their call. */
  lemma SuccessShowsServiceValue(remote: Call -> Outcome<Json>, stringify: Json -> string, v: Json,
                                id: int, c: NewCustomer, p: CustomerPatch)
    ensures remote(ListCall) == Ok(v) ==> ListCustomers(remote, stringify) == TextResult(stringify(v))
    ensures remote(GetCall(id)) == Ok(v) ==> GetCustomer(IdArgs(id), remote, stringify) == TextResult(stringify(v))
    ensures remote(CreateCall(c)) == Ok(v) ==> CreateCustomer(CreateArgs(c), remote, stringify) == TextResult(stringify(v))
    ensures remote(UpdateCall(id, p)) == Ok(v) ==> UpdateCustomer(UpdateArgs(id, p), remote, stringify) == TextResult(stringify(v))
  {
  }

  /** On failure, list and create give fixed texts; get, update and delete
      give texts that name the requested id. */
  lemma FailureTexts(remote: Call -> Outcome<Json>, stringify: Json -> string, id: int, c: NewCustomer, p: CustomerPatch)
    ensures remote(ListCall).Err? ==> TextOf(ListCustomers(remote, stringify)) == "Error listing customers"
    ensures remote(CreateCall(c)).Err? ==> TextOf(CreateCustomer(CreateArgs(c), remote, stringify)) == "Error creating customer"
    ensures remote(GetCall(id)).Err? ==> TextOf(GetCustomer(IdArgs(id), remote, stringify)) == GetFailure(id)
    ensures remote(UpdateCall(id, p)).Err? ==> TextOf(UpdateCustomer(UpdateArgs(id, p), remote, stringify)) == UpdateFailure(id)
    ensures remote(DeleteCall(id)).Err? ==> TextOf(DeleteCustomer(IdArgs(id), remote)) == DeleteFailure(id)
  {
  }

  /** Each id-bearing failure text contains the decimal form of the id, and the
      id can be read back from the end of the text. */
  lemma FailureTextsNameId(id: int)
    ensures Contains(GetFailure(id), NumberString(id)) && Contains(UpdateFailure(id), NumberString(id))
    ensures Contains(DeleteFailure(id), NumberString(id))
    ensures ParseInt(GetFailure(id)[|"Error getting customer "|..]) == Num(id)
    ensures ParseInt(UpdateFailure(id)[|"Error updating customer "|..]) == Num(id)
    ensures ParseInt(DeleteFailure(id)[|"Error deleting customer "|..]) == Num(id)
  {
    ContainsSuffix("Error getting customer ", NumberString(id));
    ContainsSuffix("Error updating customer ", NumberString(id));
    ContainsSuffix("Error deleting customer ", NumberString(id));
    assert GetFailure(id)[|"Error getting customer "|..] == NumberString(id) + [];
    assert UpdateFailure(id)[|"Error updating customer "|..] == NumberString(id) + [];
    assert DeleteFailure(id)[|"Error deleting customer "|..] == NumberString(id) + [];
    ParseNumberString(id, []);
  }

  /** Different ids give different texts, so a reply identifies its request. */
  lemma FailureTextsDetermineId(a: int, b: int)
    ensures GetFailure(a) == GetFailure(b) ==> a == b
    ensures UpdateFailure(a) == UpdateFailure(b) ==> a == b
    ensures DeleteFailure(a) == DeleteFailure(b) ==> a == b
  {
    FailureTextsNameId(a);
    FailureTextsNameId(b);
  }

  lemma DeleteSuccessDeterminesId(a: int, b: int)
    ensures DeleteSuccess(a) == DeleteSuccess(b) ==> a == b
  {
    var tail := " deleted successfully";
    if DeleteSuccess(a) == DeleteSuccess(b) {
      SuccessTail(a, tail);
      SuccessTail(b, tail);
      ParseNumberString(a, tail);
      ParseNumberString(b, tail);
    }
  }

  lemma SuccessTail(id: int, tail: string)
    requires tail == " deleted successfully"
    ensures DeleteSuccess(id)[|"Customer "|..] == NumberString(id) + tail
  {
    var head := "Customer ";
    assert DeleteSuccess(id) == head + (NumberString(id) + tail);
  }

  /** The delete text does not depend on what the service returned. */
  lemma DeleteIgnoresServiceValue(remote1: Call -> Outcome<Json>, remote2: Call -> Outcome<Json>, id: int)
    requires remote1(DeleteCall(id)).Ok? && remote2(DeleteCall(id)).Ok?
    ensures DeleteCustomer(IdArgs(id), remote1) == DeleteCustomer(IdArgs(id), remote2) == TextResult(DeleteSuccess(id))
  {
  }

  /** Deleting customer 42 with a service that accepts it yields exactly
      `Customer 42 deleted successfully`. */
  lemma DeleteExample(remote: Call -> Outcome<Json>)
    requires remote(DeleteCall(42)).Ok?
    ensures DeleteCustomer(IdArgs(42), remote) == TextResult("Customer 42 deleted successfully")
  {
    assert NumberString(42) == "42" by {
      assert NaturalString(4) == "4";
      assert NaturalString(42) == NaturalString(4) + [DigitChar(2)];
    }
    assert DeleteSuccess(42) == "Customer 42 deleted successfully";
  }

  /** Getting customer 999 from a service that fails yields a text with `999`. */
  lemma GetFailureExample(remote: Call -> Outcome<Json>, stringify: Json -> string)
    requires remote(GetCall(999)).Err?
    ensures GetCustomer(IdArgs(999), remote, stringify) == TextResult("Error getting customer 999")
    ensures Contains(TextOf(GetCustomer(IdArgs(999), remote, stringify)), "999")
  {
    assert NumberString(999) == "999" by {
      assert NaturalString(9) == "9";
      assert NaturalString(99) == NaturalString(9) + [DigitChar(9)];
      assert NaturalString(999) == NaturalString(99) + [DigitChar(9)];
    }
    assert GetFailure(999) == "Error getting customer 999";
    ContainsSuffix("Error getting customer ", "999");
  }

  /** The update handler sees the service only through the one call it makes,
      carrying the caller's id and patch unchanged. */
  lemma UpdateMakesOneCall(args: UpdateArgs, remote1: Call -> Outcome<Json>, remote2: Call -> Outcome<Json>,
                          stringify: Json -> string)
    requires remote1(UpdateCall(args.id, args.customer)) == remote2(UpdateCall(args.id, args.customer))
    ensures UpdateCustomer(args, remote1, stringify) == UpdateCustomer(args, remote2, stringify)
  {
  }

  /** Under a key of the schema, the sent object holds what the patch carries. */
  lemma PatchBodyAt(p: CustomerPatch, k: string)
    requires k in FieldNames
    ensures k in PatchBody(p) <==> PatchValue(p, k).Some?
    ensures k in PatchBody(p) ==> PatchBody(p)[k] == PatchValue(p, k).value
  {
  }

  /** The object sent for a patch has exactly the fields the patch carries. */
  lemma PatchBodyKeys(p: CustomerPatch)
    ensures ("company" in PatchBody(p) <==> p.company.Some?) && ("vat" in PatchBody(p) <==> p.vat.Some?)
    ensures ("phonenumber" in PatchBody(p) <==> p.phonenumber.Some?) && ("country" in PatchBody(p) <==> p.country.Some?)
    ensures ("city" in PatchBody(p) <==> p.city.Some?) && ("zip" in PatchBody(p) <==> p.zip.Some?)
    ensures ("state" in PatchBody(p) <==> p.state.Some?) && ("address" in PatchBody(p) <==> p.address.Some?)
    ensures ("email" in PatchBody(p) <==> p.email.Some?) && ("custom_fields" in PatchBody(p) <==> p.customFields.Some?)
    ensures forall k :: k in PatchBody(p) ==> k in FieldNames
  {
    PatchBodyAt(p, "company"); PatchBodyAt(p, "vat"); PatchBodyAt(p, "phonenumber");
    PatchBodyAt(p, "country"); PatchBodyAt(p, "city"); PatchBodyAt(p, "zip");
    PatchBodyAt(p, "state"); PatchBodyAt(p, "address"); PatchBodyAt(p, "email");
    PatchBodyAt(p, "custom_fields");
  }

  /** Reading a sent patch with the update schema gives the same patch back. */
  lemma PatchRoundTrip(p: CustomerPatch)
    ensures DecodePatch(PatchBody(p)) == Some(p)
  {
    var b := PatchBody(p);
    assert OptionalString(b, "company") == Some(p.company) by { PatchBodyAt(p, "company"); }
    assert OptionalString(b, "vat") == Some(p.vat) by { PatchBodyAt(p, "vat"); }
    assert OptionalString(b, "phonenumber") == Some(p.phonenumber) by { PatchBodyAt(p, "phonenumber"); }
    assert OptionalNumber(b, "country") == Some(p.country) by { PatchBodyAt(p, "country"); }
    assert OptionalString(b, "city") == Some(p.city) by { PatchBodyAt(p, "city"); }
    assert OptionalString(b, "zip") == Some(p.zip) by { PatchBodyAt(p, "zip"); }
    assert OptionalString(b, "state") == Some(p.state) by { PatchBodyAt(p, "state"); }
    assert OptionalString(b, "address") == Some(p.address) by { PatchBodyAt(p, "address"); }
    assert OptionalString(b, "email") == Some(p.email) by { PatchBodyAt(p, "email"); }
    assert OptionalRecord(b, "custom_fields") == Some(p.customFields) by { PatchBodyAt(p, "custom_fields"); }
  }

  /** A key of the schema that the update schema accepted keeps its value. */
  lemma DecodedPatchAt(o: map<string, Json>, k: string)
    requires DecodePatch(o).Some? && k in FieldNames
    ensures PatchValue(DecodePatch(o).value, k) == if k in o then Some(o[k]) else None
  {
    if k == "company" {
      assert OptionalString(o, k).Some?;
    } else if k == "vat" {
      assert OptionalString(o, k).Some?;
    } else if k == "phonenumber" {
      assert OptionalString(o, k).Some?;
    } else if k == "country" {
      assert OptionalNumber(o, k).Some?;
    } else if k == "city" {
      assert OptionalString(o, k).Some?;
    } else if k == "zip" {
      assert OptionalString(o, k).Some?;
    } else if k == "state" {
      assert OptionalString(o, k).Some?;
    } else if k == "address" {
      assert OptionalString(o, k).Some?;
    } else if k == "email" {
      assert OptionalString(o, k).Some?;
    } else if k == "custom_fields" {
      assert OptionalRecord(o, k).Some?;
    }
  }

  /** What the update schema accepts is the known part of the input: writing
      the parsed patch out again gives that part, with no field added. */
  lemma PatchKeepsKnownFields(o: map<string, Json>)
    requires DecodePatch(o).Some?
    ensures PatchBody(DecodePatch(o).value) == KnownFields(o)
  {
    var p := DecodePatch(o).value;
    forall k | k in FieldNames
      ensures (k in PatchBody(p) <==> k in KnownFields(o))
      ensures k in KnownFields(o) ==> PatchBody(p)[k] == KnownFields(o)[k]
    {
      DecodedPatchAt(o, k);
      PatchBodyAt(p, k);
    }
    assert PatchBody(p) == KnownFields(o);
  }

  /** A key of the schema in a customer the create schema accepted keeps its
      value. */
  lemma DecodedCustomerAt(o: map<string, Json>, k: string)
    requires DecodeNewCustomer(o).Some? && k in FieldNames
    ensures k in NewCustomerBody(DecodeNewCustomer(o).value) <==> k in o
    ensures k in o ==> NewCustomerBody(DecodeNewCustomer(o).value)[k] == o[k]
  {
    if k == "custom_fields" {
      assert OptionalRecord(o, k).Some?;
    } else if k == "country" {
      assert RequiredNumber(o, k).Some?;
    } else {
      assert RequiredString(o, k).Some?;
    }
  }

  /** What the create schema accepts is the known part of the input: writing
      the parsed customer out again gives that part, with no field added. */
  lemma NewCustomerKeepsKnownFields(o: map<string, Json>)
    requires DecodeNewCustomer(o).Some?
    ensures NewCustomerBody(DecodeNewCustomer(o).value) == KnownFields(o)
  {
    var b := NewCustomerBody(DecodeNewCustomer(o).value);
    forall k | k in FieldNames
      ensures (k in b <==> k in KnownFields(o))
      ensures k in b ==> b[k] == KnownFields(o)[k]
    {
      DecodedCustomerAt(o, k);
    }
    assert forall k :: k in b ==> k in FieldNames;
    assert b.Keys == KnownFields(o).Keys;
  }

  /** Reading a sent customer with the create schema gives it back. */
  lemma NewCustomerRoundTrip(c: NewCustomer)
    ensures DecodeNewCustomer(NewCustomerBody(c)) == Some(c)
  {
    var b := NewCustomerBody(c);
    assert RequiredString(b, "company") == Some(c.company);
    assert RequiredString(b, "vat") == Some(c.vat);
    assert RequiredString(b, "phonenumber") == Some(c.phonenumber);
    assert RequiredNumber(b, "country") == Some(c.country);
    assert RequiredString(b, "city") == Some(c.city);
    assert RequiredString(b, "zip") == Some(c.zip);
    assert RequiredString(b, "state") == Some(c.state);
    assert RequiredString(b, "address") == Some(c.address);
    assert RequiredString(b, "email") == Some(c.email);
    assert OptionalRecord(b, "custom_fields") == Some(c.customFields);
  }

  /** The create schema rejects an object that lacks any field but
      `custom_fields`, and accepts one that lacks only `custom_fields`. */
  lemma CreateRequiresAllButCustomFields(c: NewCustomer, k: string)
    requires k in FieldNames
    ensures k != "custom_fields" ==> DecodeNewCustomer(NewCustomerBody(c) - {k}).None?
    ensures k == "custom_fields" ==> DecodeNewCustomer(NewCustomerBody(c) - {k}) == Some(c.(customFields := None))
  {
  }

  /** The update schema accepts the empty object: every field is optional. */
  lemma UpdateAcceptsEmpty()
    ensures DecodePatch(map[]) == Some(CustomerPatch(None, None, None, None, None, None, None, None, None, None))
  {
  }
}
