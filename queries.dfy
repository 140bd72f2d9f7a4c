/** The data methods of the client: each builds a query (an endpoint and an
    ordered list of PostgREST-style filter parameters), and `Fetch` drops the
    absent parameters and hands the request to the transport, collapsing any
    failure to the empty result. */
module Queries {
  import opened Records

  /** A parameter value: a text (filters, orderings) or a number (limits). */
  datatype Arg = Text(text: string) | Count(count: int)

  /** What a data method hands to the fetch helper: the endpoint and its
      parameters in insertion order, each possibly absent. */
  datatype Query = Query(endpoint: string, params: seq<(string, Option<Arg>)>)

  /** What is sent: the base URL, the endpoint and the parameters that remain. */
  datatype Request = Request(base: string, endpoint: string, params: seq<(string, Arg)>)

  /** What the transport delivers: the decoded records, or a failure (network
      error, non-success status, undecodable body). */
  datatype Response = Received(records: seq<Record>) | Failed

  type Transport = Request -> Response

  const DefaultLimitMunicipalities := 50
  const DefaultLimitStreets := 100
  const ByName := "name.asc"
  const ByMunicipalityThenName := "municipality.asc,name.asc"

  /** The two filter operators the client writes into parameter values. */
  datatype Filter = Equals(operand: string) | Contains(term: string)

  /** The text of a filter value: `eq.<operand>` or `ilike.*<term>*`. */
  function Encode(f: Filter): string
  {
    match f
    case Equals(x) => "eq." + x
    case Contains(t) => "ilike.*" + t + "*"
  }

  /** Reads the operator and its operand back from a filter value. This is
      not the service's reading of `ilike` patterns (a `*` inside the term is
      a wildcard there); it only shows that the text encoding loses nothing. */
  function Decode(s: string): Option<Filter>
  {
    if |s| >= 3 && s[..3] == "eq." then Some(Equals(s[3..]))
    else if |s| >= 8 && s[..7] == "ilike.*" && s[|s| - 1] == '*' then Some(Contains(s[7..|s| - 1]))
    else None
  }

  /** The encoding is injective: each filter value is read back as the filter written. */
  lemma DecodeEncode(f: Filter)
    ensures Decode(Encode(f)) == Some(f)
  {
    var s := Encode(f);
    match f
    case Equals(x) =>
      assert s[..3] == "eq.";
      assert s[3..] == x;
    case Contains(t) =>
      assert s[0] == 'i';
      assert s[..7] == "ilike.*";
      assert s[7..|s| - 1] == t;
  }

  /** The parameters the fetch helper keeps: exactly those that are neither
      null nor undefined, in their original order. */
  function Present(raw: seq<(string, Option<Arg>)>): (sent: seq<(string, Arg)>)
    ensures |sent| <= |raw|
  {
    if raw == [] then []
    else if raw[0].1.Some? then [(raw[0].0, raw[0].1.value)] + Present(raw[1..])
    else Present(raw[1..])
  }

  /** A parameter is sent exactly when it was given with a value. */
  lemma {:induction false} PresentMembers(raw: seq<(string, Option<Arg>)>, k: string, v: Arg)
    ensures (k, v) in Present(raw) <==> (k, Some(v)) in raw
  {
    if raw != [] {
      PresentMembers(raw[1..], k, v);
      assert raw == [raw[0]] + raw[1..];
    }
  }

  /** Filtering distributes over concatenation, so it keeps the original order. */
  lemma {:induction false} PresentAppend(a: seq<(string, Option<Arg>)>, b: seq<(string, Option<Arg>)>)
    ensures Present(a + b) == Present(a) + Present(b)
  {
    if a == [] {
      assert a + b == b;
    } else {
      assert (a + b)[0] == a[0];
      assert (a + b)[1..] == a[1..] + b;
      PresentAppend(a[1..], b);
    }
  }

  /** The parameter names in the order they are sent. */
  function Keys(ps: seq<(string, Arg)>): (ks: seq<string>)
    ensures |ks| == |ps| && forall i :: 0 <= i < |ps| ==> ks[i] == ps[i].0
  {
    seq(|ps|, i requires 0 <= i < |ps| => ps[i].0)
  }

  /** The value sent under `key` (the first one, should there be several). */
  function Lookup(ps: seq<(string, Arg)>, key: string): Option<Arg>
  {
    if ps == [] then None
    else if ps[0].0 == key then Some(ps[0].1)
    else Lookup(ps[1..], key)
  }

  /** The parameters of `q` that reach the service. */
  function Sent(q: Query): seq<(string, Arg)>
  {
    Present(q.params)
  }

  function SentRequest(base: string, q: Query): Request
  {
    Request(base, q.endpoint, Sent(q))
  }

  /** The fetch helper: the transport's records, or the empty sequence when
      the transport fails, so a failure looks like "no matches". */
  function Fetch(net: Transport, base: string, q: Query): (records: seq<Record>)
    ensures net(SentRequest(base, q)).Failed? ==> records == []
    ensures net(SentRequest(base, q)).Received? ==> records == net(SentRequest(base, q)).records
  {
    match net(SentRequest(base, q))
    case Received(rs) => rs
    case Failed => []
  }

  /** A parameter list in which every value is present, as each data method builds it. */
  function Lift(ps: seq<(string, Arg)>): (raw: seq<(string, Option<Arg>)>)
    ensures |raw| == |ps| && forall i :: 0 <= i < |ps| ==> raw[i] == (ps[i].0, Some(ps[i].1))
  {
    seq(|ps|, i requires 0 <= i < |ps| => (ps[i].0, Some(ps[i].1)))
  }

  /** Filtering a list with every value present sends it unchanged. */
  lemma {:induction false} PresentLift(ps: seq<(string, Arg)>)
    ensures Present(Lift(ps)) == ps
  {
    if ps != [] {
      assert Lift(ps)[1..] == Lift(ps[1..]);
      PresentLift(ps[1..]);
    }
  }

  /** A key is found with the value of its first occurrence. */
  lemma {:induction false} LookupAt(ps: seq<(string, Arg)>, i: nat)
    requires i < |ps|
    requires forall j :: 0 <= j < i ==> ps[j].0 != ps[i].0
    ensures Lookup(ps, ps[i].0) == Some(ps[i].1)
  {
    if i > 0 {
      LookupAt(ps[1..], i - 1);
    }
  }

  /** A key that is not sent is looked up as absent. */
  lemma {:induction false} LookupAbsent(ps: seq<(string, Arg)>, key: string)
    requires forall i :: 0 <= i < |ps| ==> ps[i].0 != key
    ensures Lookup(ps, key) == None
  {
    if ps != [] {
      LookupAbsent(ps[1..], key);
    }
  }

  /** getRegions: every region, by name. */
  function RegionsQuery(): (q: Query)
    ensures q.endpoint == "regions"
    ensures Keys(Sent(q)) == ["order"]
    ensures Lookup(Sent(q), "order") == Some(Text(ByName))
  {
    var sent := [("order", Text(ByName))];
    PresentLift(sent);
    LookupAt(sent, 0);
    Query("regions", Lift(sent))
  }

  /** getProvinces: by name, restricted to a region exactly when its code is truthy. */
  function ProvincesQuery(regionCode: Option<string>): (q: Query)
    ensures q.endpoint == "provinces"
    ensures Keys(Sent(q)) == ["order"] + (if Truthy(regionCode) then ["region_code"] else [])
    ensures Lookup(Sent(q), "order") == Some(Text(ByName))
    ensures Lookup(Sent(q), "region_code")
         == if Truthy(regionCode) then Some(Text(Encode(Equals(regionCode.value)))) else None
  {
    var sent := [("order", Text(ByName))]
             + (if Truthy(regionCode) then [("region_code", Text(Encode(Equals(regionCode.value))))] else []);
    PresentLift(sent);
    LookupAt(sent, 0);
    if Truthy(regionCode) then LookupAt(sent, 1); Query("provinces", Lift(sent))
    else LookupAbsent(sent, "region_code"); Query("provinces", Lift(sent))
  }

  /** searchMunicipalities: name contains the query, at most `limit` (50 when
      the option is falsy) by name, restricted to a province exactly when its
      code is truthy. */
  function MunicipalitiesQuery(query: string, limit: Option<int>, provinceCode: Option<string>): (q: Query)
    ensures q.endpoint == "municipalities"
    ensures Keys(Sent(q)) == ["name", "limit", "order"] + (if Truthy(provinceCode) then ["province_code"] else [])
    ensures Lookup(Sent(q), "name") == Some(Text(Encode(Contains(query))))
    ensures Lookup(Sent(q), "limit") == Some(Count(if TruthyCount(limit) then limit.value else DefaultLimitMunicipalities))
    ensures Lookup(Sent(q), "order") == Some(Text(ByName))
    ensures Lookup(Sent(q), "province_code")
         == if Truthy(provinceCode) then Some(Text(Encode(Equals(provinceCode.value)))) else None
  {
    var sent := [("name", Text(Encode(Contains(query)))),
                 ("limit", Count(if TruthyCount(limit) then limit.value else DefaultLimitMunicipalities)),
                 ("order", Text(ByName))]
             + (if Truthy(provinceCode) then [("province_code", Text(Encode(Equals(provinceCode.value))))] else []);
    PresentLift(sent);
    LookupAt(sent, 0);
    LookupAt(sent, 1);
    LookupAt(sent, 2);
    if Truthy(provinceCode) then LookupAt(sent, 3); Query("municipalities", Lift(sent))
    else LookupAbsent(sent, "province_code"); Query("municipalities", Lift(sent))
  }

  /** searchStreets: name contains the query, at most `limit` (100 when the
      option is falsy). With a truthy ISTAT code, the streets of that
      municipality by name; otherwise all streets, by municipality then name. */
  function StreetsQuery(query: string, limit: Option<int>, istatCode: Option<string>): (q: Query)
    ensures q.endpoint == if Truthy(istatCode) then "streets" else "streets_full"
    ensures Keys(Sent(q)) == ["name", "limit"] + (if Truthy(istatCode) then ["istat_code", "order"] else ["order"])
    ensures Lookup(Sent(q), "name") == Some(Text(Encode(Contains(query))))
    ensures Lookup(Sent(q), "limit") == Some(Count(if TruthyCount(limit) then limit.value else DefaultLimitStreets))
    ensures Lookup(Sent(q), "order") == Some(Text(if Truthy(istatCode) then ByName else ByMunicipalityThenName))
    ensures Lookup(Sent(q), "istat_code")
         == if Truthy(istatCode) then Some(Text(Encode(Equals(istatCode.value)))) else None
  {
    var scoped := Truthy(istatCode);
    var sent := [("name", Text(Encode(Contains(query)))),
                 ("limit", Count(if TruthyCount(limit) then limit.value else DefaultLimitStreets))]
             + (if scoped then [("istat_code", Text(Encode(Equals(istatCode.value)))), ("order", Text(ByName))]
                else [("order", Text(ByMunicipalityThenName))]);
    PresentLift(sent);
    LookupAt(sent, 0);
    LookupAt(sent, 1);
    LookupAt(sent, 2);
    if scoped then LookupAt(sent, 3); Query("streets", Lift(sent))
    else LookupAbsent(sent, "istat_code"); Query("streets_full", Lift(sent))
  }

  /** The query of getAddressDetails: the record whose id equals `id`. */
  function AddressDetailsQuery(id: string): (q: Query)
    ensures q.endpoint == "address_details"
    ensures Keys(Sent(q)) == ["id"]
    ensures Lookup(Sent(q), "id") == Some(Text(Encode(Equals(id))))
  {
    var sent := [("id", Text(Encode(Equals(id))))];
    PresentLift(sent);
    LookupAt(sent, 0);
    Query("address_details", Lift(sent))
  }

  /** getAddressDetails: the first record fetched, or null when there is none. */
  function AddressDetails(net: Transport, base: string, id: string): (r: Option<Record>)
    ensures r.None? <==> Fetch(net, base, AddressDetailsQuery(id)) == []
    ensures r.Some? ==> r.value == Fetch(net, base, AddressDetailsQuery(id))[0]
  {
    var data := Fetch(net, base, AddressDetailsQuery(id));
    if |data| > 0 then Some(data[0]) else None
  }
}
