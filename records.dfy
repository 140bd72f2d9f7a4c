/** Values exchanged with the address lookup service, and the JavaScript
    conventions (truthiness, `||`, string conversion of `undefined`) that the
    client applies to them. */
module Records {

  datatype Option<+T> = None | Some(value: T)

  datatype Result<+T> = Success(value: T) | Failure(error: string)

  /** One record as the service returns it. Every attribute may be missing
      (JavaScript `undefined`, modelled as `None`); numeric attributes such as
      a street id are carried in their decimal text form. The attribute names
      are those of the service: code, istat_code, id, name, display_name,
      display_street_type, display_municipality, province. */
  datatype Record = Record(
    code: Option<string>,
    istatCode: Option<string>,
    id: Option<string>,
    name: Option<string>,
    displayName: Option<string>,
    displayStreetType: Option<string>,
    displayMunicipality: Option<string>,
    province: Option<string>)

  /** JavaScript truthiness of an optional string: present and non-empty. */
  predicate Truthy(v: Option<string>)
  {
    v.Some? && v.value != ""
  }

  /** JavaScript truthiness of an optional number: present and non-zero. */
  predicate TruthyCount(n: Option<int>)
  {
    n.Some? && n.value != 0
  }

  /** JavaScript `a || b`: the first operand when it is truthy, else the second. */
  function Or(a: Option<string>, b: Option<string>): Option<string>
  {
    if Truthy(a) then a else b
  }

  /** A value converted to a string by concatenation or by assignment to an
      element's `value`: `undefined` becomes the text "undefined". */
  function StringValue(v: Option<string>): string
  {
    match v
    case Some(s) => s
    case None => "undefined"
  }

  /** A value assigned to `textContent`: `undefined` becomes the empty text. */
  function TextContent(v: Option<string>): string
  {
    match v
    case Some(s) => s
    case None => ""
  }
}
