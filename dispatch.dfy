/** The tools the server registers at startup, how each call's arguments are
    read with the tool's schema, and the dispatch from a call to its handler. */
module Dispatch {
  import opened Js
  import opened Mcp
  import opened AuthService
  import AuthTools
  import opened CustomerTools
  import Catalog

  /** The names registered on the server, in order: `setupAuthTools` runs
      before `setupCustomerTools`. */
  const CustomerToolNames: seq<string> :=
    ["list-customers", "get-customer", "create-customer", "update-customer", "delete-customer"]

  function Registered(): seq<string> {
    AuthTools.ToolNames + CustomerToolNames
  }

  /** A tool call whose arguments passed the tool's schema. */
  datatype Invocation =
    | Validate(validateArgs: AuthTools.ValidateArgs)
    | List
    | Get(getArgs: IdArgs)
    | Create(createArgs: CreateArgs)
    | Update(updateArgs: UpdateArgs)
    | Delete(deleteArgs: IdArgs)

  function ToolName(i: Invocation): string {
    match i
    case Validate(_) => "validate-perfex-auth"
    case List => "list-customers"
    case Get(_) => "get-customer"
    case Create(_) => "create-customer"
    case Update(_) => "update-customer"
    case Delete(_) => "delete-customer"
  }

  /** What the handlers call out to: the validator's configuration and HTTP
      probe, the customer service, and `JSON.stringify`. */
  datatype Backend = Backend(
    auth: Service,
    probe: HttpGet -> ProbeOutcome,
    remote: Call -> Outcome<Json>,
    stringify: Json -> string)

  /** Run the registered handler of a call. Every call, whatever the remote
      systems do, yields exactly one text block. */
  function Invoke(b: Backend, i: Invocation): (r: ToolResult)
    ensures IsSingleText(r)
  {
    match i
    case Validate(args) => AuthTools.ValidatePerfexAuth(b.auth, args, b.probe)
    case List => ListCustomers(b.remote, b.stringify)
    case Get(args) => GetCustomer(args, b.remote, b.stringify)
    case Create(args) => CreateCustomer(args, b.remote, b.stringify)
    case Update(args) => UpdateCustomer(args, b.remote, b.stringify)
    case Delete(args) => DeleteCustomer(args, b.remote)
  }

  /** Each call reaches the handler registered under its name: the text is
      the serialised value of that tool's service call on success, that tool's
      failure text on failure, and for `validate-perfex-auth` the validator's
      verdict. */
  lemma InvokeTexts(b: Backend, i: Invocation)
    ensures i.List? ==> Invoke(b, i) == TextResult(
      if b.remote(ListCall).Ok? then b.stringify(b.remote(ListCall).value) else ListFailure)
    ensures i.Get? ==> var c := GetCall(i.getArgs.id);
      Invoke(b, i) == TextResult(
        if b.remote(c).Ok? then b.stringify(b.remote(c).value) else GetFailure(i.getArgs.id))
    ensures i.Create? ==> var c := CreateCall(i.createArgs.customer);
      Invoke(b, i) == TextResult(if b.remote(c).Ok? then b.stringify(b.remote(c).value) else CreateFailure)
    ensures i.Update? ==> var c := UpdateCall(i.updateArgs.id, i.updateArgs.customer);
      Invoke(b, i) == TextResult(
        if b.remote(c).Ok? then b.stringify(b.remote(c).value) else UpdateFailure(i.updateArgs.id))
    ensures i.Delete? ==> Invoke(b, i) == TextResult(
      if b.remote(DeleteCall(i.deleteArgs.id)).Ok? then DeleteSuccess(i.deleteArgs.id)
      else DeleteFailure(i.deleteArgs.id))
    ensures i.Validate? ==> var v := ValidateApiKey(b.auth, i.validateArgs.apiKey, b.probe);
      Invoke(b, i) == TextResult(if v.valid then AuthTools.ValidText else AuthTools.InvalidText)
  {
  }

  /** Deleting customer 42 end to end: the arguments `{id: 42}` decode to the
      delete call, and a service that accepts it yields exactly
      `Customer 42 deleted successfully`. */
  lemma DeleteScenario(b: Backend)
    requires b.remote(DeleteCall(42)).Ok?
    ensures DecodeArguments("delete-customer", map["id" := JNumber(42)]) == Some(Delete(IdArgs(42)))
    ensures Invoke(b, Delete(IdArgs(42))) == TextResult("Customer 42 deleted successfully")
  {
    DeleteExample(b.remote);
  }

  /** Getting customer 999 end to end from a service that fails yields exactly
      `Error getting customer 999`. */
  lemma GetFailureScenario(b: Backend)
    requires b.remote(GetCall(999)).Err?
    ensures DecodeArguments("get-customer", map["id" := JNumber(999)]) == Some(Get(IdArgs(999)))
    ensures Invoke(b, Get(IdArgs(999))) == TextResult("Error getting customer 999")
  {
    GetFailureExample(b.remote, b.stringify);
  }

  // -----------------------------------------------------------------------
  // Arguments

  /** The tool's schema applied to the call's `arguments` object; `None` for
      an unknown tool or arguments the schema rejects. */
  function DecodeArguments(name: string, args: map<string, Json>): (r: Option<Invocation>)
    ensures r.Some? ==> ToolName(r.value) == name
    // `id: z.number()` of get, update and delete
    ensures name == "get-customer" || name == "update-customer" || name == "delete-customer" ==>
      (r.Some? ==> "id" in args && args["id"].JNumber? && IdOf(r.value) == args["id"].n)
    // `customer: z.object(...)` of create and update
    ensures name == "create-customer" || name == "update-customer" ==>
      (r.Some? ==> "customer" in args && args["customer"].JObject?)
    // `apiKey: z.string().optional()`
    ensures name == "validate-perfex-auth" ==>
      (r.Some? <==> "apiKey" !in args || args["apiKey"].JString?)
    ensures name == "validate-perfex-auth" && r.Some? ==>
      r.value.validateArgs.apiKey == (if "apiKey" in args then Some(args["apiKey"].s) else None)
    // `{}`: any arguments
    ensures name == "list-customers" ==> r == Some(List)
    // `z.object` drops unknown keys, so only the schema's own keys decide
    ensures name == "get-customer" || name == "delete-customer" ==>
      (r.Some? <==> "id" in args && args["id"].JNumber?)
    ensures name == "create-customer" ==>
      (r.Some? <==> "customer" in args && args["customer"].JObject?
                    && DecodeNewCustomer(args["customer"].fields).Some?)
    ensures name == "create-customer" && r.Some? ==>
      r.value.createArgs.customer == DecodeNewCustomer(args["customer"].fields).value
    ensures name == "update-customer" ==>
      (r.Some? <==> "id" in args && args["id"].JNumber? && "customer" in args && args["customer"].JObject?
                    && DecodePatch(args["customer"].fields).Some?)
    ensures name == "update-customer" && r.Some? ==>
      r.value.updateArgs.customer == DecodePatch(args["customer"].fields).value
  {
    if name == "validate-perfex-auth" then
      var key := OptionalString(args, "apiKey");
      if key.Some? then Some(Validate(AuthTools.ValidateArgs(key.value))) else None
    else if name == "list-customers" then Some(List)
    else if name == "get-customer" then
      var id := RequiredNumber(args, "id");
      if id.Some? then Some(Get(IdArgs(id.value))) else None
    else if name == "create-customer" then
      if "customer" in args && args["customer"].JObject? then
        var c := DecodeNewCustomer(args["customer"].fields);
        if c.Some? then Some(Create(CreateArgs(c.value))) else None
      else None
    else if name == "update-customer" then
      var id := RequiredNumber(args, "id");
      if id.Some? && "customer" in args && args["customer"].JObject? then
        var p := DecodePatch(args["customer"].fields);
        if p.Some? then Some(Update(UpdateArgs(id.value, p.value))) else None
      else None
    else if name == "delete-customer" then
      var id := RequiredNumber(args, "id");
      if id.Some? then Some(Delete(IdArgs(id.value))) else None
    else None
  }

  /** The `id` a call carries; 0 for the calls without one. */
  function IdOf(i: Invocation): int {
    match i
    case Get(args) => args.id
    case Update(args) => args.id
    case Delete(args) => args.id
    case _ => 0
  }

  /** A get, update or delete call whose `id` is missing or not a number is
      rejected, and so is a create or update call whose `customer` is not an
      object. */
  lemma SchemaRejections(name: string, args: map<string, Json>)
    ensures ((name == "get-customer" || name == "update-customer" || name == "delete-customer")
             && ("id" !in args || !args["id"].JNumber?)) ==> DecodeArguments(name, args).None?
    ensures ((name == "create-customer" || name == "update-customer")
             && ("customer" !in args || !args["customer"].JObject?)) ==> DecodeArguments(name, args).None?
    ensures "apiKey" in args && !args["apiKey"].JString? ==> DecodeArguments("validate-perfex-auth", args).None?
  {
  }

  /** The `arguments` object a client sends for a call. */
  function EncodeArguments(i: Invocation): map<string, Json> {
    match i
    case Validate(args) => if args.apiKey.Some? then map["apiKey" := JString(args.apiKey.value)] else map[]
    case List => map[]
    case Get(args) => map["id" := JNumber(args.id)]
    case Create(args) => map["customer" := JObject(NewCustomerBody(args.customer))]
    case Update(args) => map["id" := JNumber(args.id), "customer" := JObject(PatchBody(args.customer))]
    case Delete(args) => map["id" := JNumber(args.id)]
  }

  /** Reading the arguments a client sent for a call gives that call back. */
  lemma ArgumentsRoundTrip(i: Invocation)
    ensures DecodeArguments(ToolName(i), EncodeArguments(i)) == Some(i)
  {
    match i
    case Create(args) => CreateArgumentsRoundTrip(args);
    case Update(args) => UpdateArgumentsRoundTrip(args);
    case _ =>
  }

  lemma CreateArgumentsRoundTrip(args: CreateArgs)
    ensures DecodeArguments("create-customer", EncodeArguments(Create(args))) == Some(Create(args))
  {
    NewCustomerRoundTrip(args.customer);
  }

  lemma UpdateArgumentsRoundTrip(args: UpdateArgs)
    ensures DecodeArguments("update-customer", EncodeArguments(Update(args))) == Some(Update(args))
  {
    var o := EncodeArguments(Update(args));
    assert RequiredNumber(o, "id") == Some(args.id);
    assert o["customer"] == JObject(PatchBody(args.customer));
    PatchRoundTrip(args.customer);
  }

  /** Only registered tools accept a call. */
  lemma OnlyRegisteredToolsAccept(name: string, args: map<string, Json>)
    ensures DecodeArguments(name, args).Some? ==> name in Registered()
  {
  }

  /** Every call names a registered tool, and every registered tool has a call. */
  lemma InvocationsCoverRegistry()
    ensures forall i: Invocation :: ToolName(i) in Registered()
    ensures forall name :: name in Registered() ==> exists i: Invocation :: ToolName(i) == name
  {
    assert ToolName(Validate(AuthTools.ValidateArgs(None))) == Registered()[0];
    assert ToolName(List) == Registered()[1];
    assert ToolName(Get(IdArgs(0))) == Registered()[2];
    assert ToolName(Update(UpdateArgs(0, CustomerPatch(None, None, None, None, None, None, None, None, None, None)))) == Registered()[4];
    assert ToolName(Delete(IdArgs(0))) == Registered()[5];
    var c := NewCustomer("", "", "", 0, "", "", "", "", "", None);
    assert ToolName(Create(CreateArgs(c))) == Registered()[3];
  }

  // -----------------------------------------------------------------------
  // The `/tools` list against the registrations

  /** No name is registered twice (the protocol server would refuse it). */
  lemma RegistryHasNoDuplicates()
    ensures forall i, j :: 0 <= i < j < |Registered()| ==> Registered()[i] != Registered()[j]
  {
  }

  /** The `/tools` list names exactly the registered tools, in the order they
      are registered. */
  lemma CatalogMatchesRegistry()
    ensures Catalog.Names(Catalog.Tools) == Registered()
    ensures (set n | n in Catalog.Names(Catalog.Tools)) == (set n | n in Registered())
  {
    var t, r := Catalog.Tools, Registered();
    assert |t| == |r| == 6;
    assert t[0].name == r[0] && t[1].name == r[1] && t[2].name == r[2];
    assert t[3].name == r[3] && t[4].name == r[4] && t[5].name == r[5];
    assert Catalog.Names(t) == r;
  }

  /** The `/tools` list describes the customer properties the schemas read,
      in the same order. */
  lemma CatalogMatchesSchemas()
    ensures Catalog.ParamNames(Catalog.CreateProperties) == FieldNames
    ensures Catalog.ParamNames(Catalog.UpdateProperties) == FieldNames
  {
    CreateNames();
    UpdateNames();
  }

  lemma CreateNames()
    ensures Catalog.ParamNames(Catalog.CreateProperties) == FieldNames
  {
    SameNames(Catalog.CreateProperties);
  }

  lemma UpdateNames()
    ensures Catalog.ParamNames(Catalog.UpdateProperties) == FieldNames
  {
    SameNames(Catalog.UpdateProperties);
  }

  /** In the `/tools` list, `create-customer` marks only `custom_fields` as
      optional and `update-customer` marks every property optional. */
  lemma CatalogOptionalFields()
    ensures FieldNames[9] == "custom_fields" && Catalog.CreateProperties[9].optional
    ensures forall i :: 0 <= i < 9 ==> !Catalog.CreateProperties[i].optional
    ensures forall p :: p in Catalog.UpdateProperties ==> p.optional
  {
  }

  /** The `type` the `/tools` list gives each customer property is the JSON
      type the update schema accepts under that key; the create list gives
      the same types (see `CreateKindsMatchReader` for the create schema). */
  lemma CatalogKindsMatchReaders(i: nat, v: Json)
    requires i < |FieldNames|
    ensures DecodePatch(map[FieldNames[i] := v]).Some? <==> Catalog.KindOf(v) == Catalog.UpdateProperties[i].kind
    ensures Catalog.CreateProperties[i].kind == Catalog.UpdateProperties[i].kind
  {
    var o := map[FieldNames[i] := v];
    if i == 3 {
      assert DecodePatch(o).Some? <==> OptionalNumber(o, "country").Some?;
    } else if i == 9 {
      assert DecodePatch(o).Some? <==> OptionalRecord(o, "custom_fields").Some?;
    } else {
      assert DecodePatch(o).Some? <==> OptionalString(o, FieldNames[i]).Some?;
    }
  }

  /** The `type` the `/tools` list gives each create property is the JSON
      type the create schema accepts under that key, in an otherwise valid
      customer. */
  lemma CreateKindsMatchReader(i: nat, c: NewCustomer, v: Json)
    requires i < |FieldNames|
    ensures DecodeNewCustomer(NewCustomerBody(c)[FieldNames[i] := v]).Some?
            <==> Catalog.KindOf(v) == Catalog.CreateProperties[i].kind
  {
    var k := FieldNames[i];
    if i == 3 {
      CreateReadsKey(c, k, v, RequiredNumber(NewCustomerBody(c)[k := v], k).Some?);
    } else if i == 9 {
      CreateReadsKey(c, k, v, OptionalRecord(NewCustomerBody(c)[k := v], k).Some?);
    } else {
      CreateReadsKey(c, k, v, RequiredString(NewCustomerBody(c)[k := v], k).Some?);
    }
  }

  /** Replacing one key of a valid customer leaves the other readers as they
      were, so acceptance depends on that key's reader alone. */
  lemma CreateReadsKey(c: NewCustomer, k: string, v: Json, accepted: bool)
    requires k in FieldNames
    requires accepted == if k == "country" then RequiredNumber(NewCustomerBody(c)[k := v], k).Some?
                         else if k == "custom_fields" then OptionalRecord(NewCustomerBody(c)[k := v], k).Some?
                         else RequiredString(NewCustomerBody(c)[k := v], k).Some?
    ensures DecodeNewCustomer(NewCustomerBody(c)[k := v]).Some? <==> accepted
  {
    var b := NewCustomerBody(c);
    var o := b[k := v];
    NewCustomerRoundTrip(c);
    OtherReadersKept(b, k, v, "company");
    OtherReadersKept(b, k, v, "vat");
    OtherReadersKept(b, k, v, "phonenumber");
    OtherReadersKept(b, k, v, "country");
    OtherReadersKept(b, k, v, "city");
    OtherReadersKept(b, k, v, "zip");
    OtherReadersKept(b, k, v, "state");
    OtherReadersKept(b, k, v, "address");
    OtherReadersKept(b, k, v, "email");
    OtherReadersKept(b, k, v, "custom_fields");
  }

  /** Replacing key `k` leaves every reader of another key `j` unchanged. */
  lemma OtherReadersKept(b: map<string, Json>, k: string, v: Json, j: string)
    ensures j != k ==> RequiredString(b[k := v], j) == RequiredString(b, j)
    ensures j != k ==> RequiredNumber(b[k := v], j) == RequiredNumber(b, j)
    ensures j != k ==> OptionalRecord(b[k := v], j) == OptionalRecord(b, j)
  {
  }

  /** The `type` of update's `id` in the `/tools` list is the JSON type its
      schema accepts. */
  lemma UpdateIdKind(v: Json)
    ensures DecodeArguments("update-customer", map["id" := v, "customer" := JObject(map[])]).Some?
            <==> Catalog.KindOf(v) == Catalog.Tools[4].parameters[0].kind
  {
    UpdateAcceptsEmpty();
  }

  /** The `type` of `id` and of `apiKey` in the `/tools` list is the JSON type
      their schemas accept. */
  lemma CatalogArgumentKinds(v: Json)
    ensures DecodeArguments("get-customer", map["id" := v]).Some? <==> Catalog.KindOf(v) == Catalog.Tools[2].parameters[0].kind
    ensures DecodeArguments("delete-customer", map["id" := v]).Some? <==> Catalog.KindOf(v) == Catalog.Tools[5].parameters[0].kind
    ensures DecodeArguments("validate-perfex-auth", map["apiKey" := v]).Some?
            <==> Catalog.KindOf(v) == Catalog.Tools[0].parameters[0].kind
  {
  }

  /** A create property the `/tools` list marks optional is exactly one the
      create schema lets a client leave out. */
  lemma CatalogOptionalMatchesReader(i: nat, c: NewCustomer)
    requires i < |FieldNames|
    ensures Catalog.CreateProperties[i].optional <==> DecodeNewCustomer(NewCustomerBody(c) - {FieldNames[i]}).Some?
  {
    CreateRequiresAllButCustomFields(c, FieldNames[i]);
  }

  lemma SameNames(props: seq<Catalog.Param>)
    requires |props| == |FieldNames|
    requires forall i :: 0 <= i < |props| ==> props[i].name == FieldNames[i]
    ensures Catalog.ParamNames(props) == FieldNames
  {
  }
}
