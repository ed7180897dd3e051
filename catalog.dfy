/** The static parts of the HTTP entry point: the tool list served at `/tools`
    and the listening port. */
module Catalog {
  import opened Js

  /** A parameter description: its name, its type, its `description` text if
      it has one, whether it may be left out, and for an object the
      descriptions of its properties. */
  datatype Param = Param(name: string, kind: string, description: Option<string>, optional: bool,
                         properties: seq<Param>)

  /** One entry of the `/tools` list. */
  datatype Entry = Entry(name: string, description: string, parameters: seq<Param>)

  function Required(name: string, kind: string): Param { Param(name, kind, None, false, []) }
  function Optional(name: string, kind: string): Param { Param(name, kind, None, true, []) }

  /** The `properties` of the `customer` parameter of `create-customer`. */
  const CreateProperties: seq<Param> := [
    Required("company", "string"), Required("vat", "string"), Required("phonenumber", "string"),
    Required("country", "number"), Required("city", "string"), Required("zip", "string"),
    Required("state", "string"), Required("address", "string"), Required("email", "string"),
    Optional("custom_fields", "object")
  ]

  /** The `properties` of the `customer` parameter of `update-customer`. */
  const UpdateProperties: seq<Param> := [
    Optional("company", "string"), Optional("vat", "string"), Optional("phonenumber", "string"),
    Optional("country", "number"), Optional("city", "string"), Optional("zip", "string"),
    Optional("state", "string"), Optional("address", "string"), Optional("email", "string"),
    Optional("custom_fields", "object")
  ]

  /** The `id` parameter of the get, update and delete entries. */
  const CustomerId: Param := Param("id", "number", Some("Customer ID"), false, [])

  /** The list `GET /tools` answers with. */
  const Tools: seq<Entry> := [
    Entry("validate-perfex-auth", "Validates the PerfexCRM API key",
          [Param("apiKey", "string", Some("API key to validate"), true, [])]),
    Entry("list-customers", "Lists all customers", []),
    Entry("get-customer", "Gets a customer by ID", [CustomerId]),
    Entry("create-customer", "Creates a new customer",
          [Param("customer", "object", Some("Customer data"), false, CreateProperties)]),
    Entry("update-customer", "Updates an existing customer",
          [CustomerId, Param("customer", "object", Some("Customer data to update"), false, UpdateProperties)]),
    Entry("delete-customer", "Deletes a customer", [CustomerId])
  ]

  /** The `type` word the list uses for a JSON value. */
  function KindOf(v: Json): string {
    match v
    case JNull => "null"
    case JBool(_) => "boolean"
    case JNumber(_) => "number"
    case JString(_) => "string"
    case JArray(_) => "array"
    case JObject(_) => "object"
  }

  /** The names of a list of entries, in order. */
  function Names(entries: seq<Entry>): (names: seq<string>)
    ensures |names| == |entries|
    ensures forall i :: 0 <= i < |entries| ==> names[i] == entries[i].name
  {
    if entries == [] then [] else [entries[0].name] + Names(entries[1..])
  }

  /** The names of a list of parameters, in order. */
  function ParamNames(params: seq<Param>): (names: seq<string>)
    ensures |names| == |params|
    ensures forall i :: 0 <= i < |params| ==> names[i] == params[i].name
  {
    seq(|params|, i requires 0 <= i < |params| => params[i].name)
  }

  // -----------------------------------------------------------------------
  // The port

  const DefaultPort: int := 3000

  /** `process.env.PORT ? parseInt(process.env.PORT) : 3000`, given PORT
      (`None` when unset). An empty PORT is falsy and also gives 3000. */
  function ListenPort(portEnv: Option<string>): (p: ParsedInt)
    ensures portEnv.None? || portEnv == Some("") ==> p == Num(3000)
    ensures portEnv.Some? && portEnv.value != "" ==> p == ParseInt(portEnv.value)
  {
    if portEnv.Some? && portEnv.value != "" then ParseInt(portEnv.value) else Num(DefaultPort)
  }

  /** A PORT written in decimal is the port used. */
  lemma DecimalPort(n: int)
    ensures ListenPort(Some(NumberString(n))) == Num(n)
  {
    ParseNumberString(n, []);
    assert NumberString(n) + [] == NumberString(n);
  }

  /** A set PORT whose first character after white space and sign is not a
      digit gives NaN, not the default. */
  lemma NonNumericPort(port: string)
    requires port != "" && (Magnitude(port) == [] || !IsDecimalDigit(Magnitude(port)[0]))
    ensures ListenPort(Some(port)) == NaN
  {
    ParseNoLeadingDigit(port);
  }
}
