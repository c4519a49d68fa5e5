/** The carrier verification endpoint: the API-key gate, the guards on the MC
    number and the registry key, and the interpretation of the registry's JSON
    envelope (`content[0].carrier`) as a verification result. The registry request
    itself is an input: `Upstream` is what the request would yield if it is made. */
module Carrier {
  import opened Wrappers
  import opened Text
  import opened Json
  import opened Gate

  const RegistryBase := "https://mobile.fmcsa.dot.gov/qc/services/carriers/docket-number/"

  const MsgVerified := "Carrier verified and active"
  const MsgNotActive := "Carrier not active or not allowed to operate"
  const MsgNotFound := "Carrier not found"
  const MsgMissingMc := "MC number is required as a path parameter or query parameter"
  const MsgNoRegistryKey := "FMCSA API key not configured"
  const PrefixRequestError := "Error verifying carrier: "
  const PrefixUnexpected := "Unexpected error: "

  /** The outcome of the registry request: a transport, status or decoding failure
      (all `RequestException`s) with its text, or the decoded JSON body. */
  datatype Upstream = RequestFailed(cause: string) | Received(body: Json)

  datatype Address = Address(street: Json, city: Json, state: Json, zip: Json)

  /** `details` of the response: only the echoed MC number when no carrier was
      found, all fields otherwise. Pass-through fields keep whatever JSON value the
      registry sent. */
  datatype Details =
    | McOnly(mcNumber: string)
    | Full(mcNumber: string, allowedToOperate: bool, statusCode: string,
           legalName: Json, dbaName: Json, dotNumber: Json, address: Address)

  datatype Verification = Verification(verified: bool, message: string, details: Details)

  /** The Python exceptions that reading an unexpectedly shaped body raises. */
  datatype Fault =
    | NoAttribute(typeName: string, attribute: string)
    | NotSubscriptable(typeName: string)
    | IndexOutOfRange(kind: string)
    | MissingKey(key: string)

  /** `str(e)` of each such exception. */
  function FaultText(f: Fault): string {
    match f
    case NoAttribute(t, a) => "'" + t + "' object has no attribute '" + a + "'"
    case NotSubscriptable(t) => "'" + t + "' object is not subscriptable"
    case IndexOutOfRange(k) => k + " index out of range"
    case MissingKey(k) => k
  }

  /** The request made to the registry, if any, and the endpoint's response. */
  datatype Exchange = Exchange(request: Option<string>, response: Result<Verification, HttpError>)

  /** An MC number that passes `if not mc_number`. */
  predicate McGiven(mc: Option<string>) {
    mc.Some? && mc.value != ""
  }

  function RequestUrl(mc: string, registryKey: string): string {
    RegistryBase + mc + "?webKey=" + registryKey
  }

  function NotFound(mc: string): Verification {
    Verification(false, MsgNotFound, McOnly(mc))
  }

  /** `x[0]` on a parsed JSON value. */
  function Index0(j: Json): Result<Json, Fault> {
    match j
    case JArray(items) =>
      if |items| == 0 then Failure(IndexOutOfRange("list")) else Success(items[0])
    case JString(s) =>
      if |s| == 0 then Failure(IndexOutOfRange("string")) else Success(JString([s[0]]))
    case JObject(_) => Failure(MissingKey("0"))
    case _ => Failure(NotSubscriptable(TypeName(j)))
  }

  /** `carrier.get(field, default).upper()` */
  function UpperField(c: map<string, Json>, field: string, default: string): (r: Result<string, Fault>)
  {
    match Get(c, field, JString(default))
    case JString(s) => Success(Upper(s))
    case other => Failure(NoAttribute(TypeName(other), "upper"))
  }

  /** A flag field whose value is, ignoring case, the one-letter string [letter]. */
  predicate FlagIs(c: map<string, Json>, field: string, letter: char)
    requires 'A' <= letter <= 'Z'
  {
    field in c && c[field] in {JString([letter]), JString([(letter as int + 32) as char])}
  }

  /** A field `upper()` can be applied to: absent (the default is a string) or a string. */
  predicate Readable(c: map<string, Json>, field: string) {
    field !in c || c[field].JString?
  }

  /** The result built from a found `carrier` object. */
  function Describe(mc: string, c: map<string, Json>): (r: Result<Verification, Fault>)
    ensures r.Success? <==> Readable(c, "allowedToOperate") && Readable(c, "statusCode")
    ensures r.Failure? ==>
              r.error == NoAttribute(if !Readable(c, "allowedToOperate") then TypeName(c["allowedToOperate"])
                                     else TypeName(c["statusCode"]), "upper")
    ensures r.Success? ==> r.value.details.Full? && r.value.details.mcNumber == mc
    ensures r.Success? ==> (r.value.details.allowedToOperate <==> FlagIs(c, "allowedToOperate", 'Y'))
    ensures r.Success? ==> (r.value.verified <==> FlagIs(c, "allowedToOperate", 'Y') && FlagIs(c, "statusCode", 'A'))
    ensures r.Success? ==> (r.value.message == MsgVerified <==> r.value.verified)
    ensures r.Success? ==> (r.value.message == MsgNotActive <==> !r.value.verified)
    ensures r.Success? ==> r.value.details.statusCode == Upper(Get(c, "statusCode", JString("")).s)
    ensures r.Success? ==> IsUpperCase(r.value.details.statusCode)
    ensures r.Success? ==> r.value.details.legalName == Get(c, "legalName", JString(""))
    ensures r.Success? ==> r.value.details.dbaName == Get(c, "dbaName", JString(""))
    ensures r.Success? ==> r.value.details.dotNumber == Get(c, "dotNumber", JString(""))
    ensures r.Success? ==>
              r.value.details.address ==
              Address(Get(c, "phyStreet", JString("")), Get(c, "phyCity", JString("")),
                      Get(c, "phyState", JString("")), Get(c, "phyZipcode", JString("")))
  {
    match UpperField(c, "allowedToOperate", "N")
    case Failure(f) => Failure(f)
    case Success(allowedFlag) =>
      match UpperField(c, "statusCode", "")
      case Failure(f) => Failure(f)
      case Success(status) =>
        var allowed := allowedFlag == "Y";
        var verified := allowed && status == "A";
        var details := Full(mc, allowed, status,
                            Get(c, "legalName", JString("")),
                            Get(c, "dbaName", JString("")),
                            Get(c, "dotNumber", JString("")),
                            Address(Get(c, "phyStreet", JString("")),
                                    Get(c, "phyCity", JString("")),
                                    Get(c, "phyState", JString("")),
                                    Get(c, "phyZipcode", JString(""))));
        UpperIsLetter(Get(c, "allowedToOperate", JString("N")).s, 'Y');
        UpperIsLetter(Get(c, "statusCode", JString("")).s, 'A');
        UpperIsUpperCase(Get(c, "statusCode", JString("")).s);
        Success(Verification(verified, if verified then MsgVerified else MsgNotActive, details))
  }

  /** The body holds a non-empty carrier object at `content[0].carrier`, with
      `content` a list: the shape that leads to a full answer. */
  predicate Found(data: Json) {
    && data.JObject?
    && "content" in data.fields
    && data.fields["content"].JArray?
    && |data.fields["content"].items| > 0
    && data.fields["content"].items[0].JObject?
    && "carrier" in data.fields["content"].items[0].fields
    && data.fields["content"].items[0].fields["carrier"].JObject?
    && |data.fields["content"].items[0].fields["carrier"].fields| > 0
  }

  /** The fields of the carrier object of a body that has one. */
  function CarrierFields(data: Json): map<string, Json>
    requires Found(data)
  {
    data.fields["content"].items[0].fields["carrier"].fields
  }

  /** The body of the `try` after `response.json()`: the not-found test on
      `content[0].carrier`, then the mapping of the carrier object. */
  function Interpret(mc: string, data: Json): (r: Result<Verification, Fault>)
    ensures !data.JObject? ==> r == Failure(NoAttribute(TypeName(data), "get"))
    ensures r.Success? ==> r.value.details.mcNumber == mc
    ensures r.Success? && r.value.details.McOnly? ==> r.value == NotFound(mc)
    ensures r.Success? && r.value.details.Full? ==> Found(data)
    ensures Found(data) ==> r == Describe(mc, CarrierFields(data))
    ensures r.Failure? ==> !r.error.IndexOutOfRange?
  {
    if !data.JObject? then Failure(NoAttribute(TypeName(data), "get"))
    else
      var content := Get(data.fields, "content", JNull);
      if !Truthy(content) then Success(NotFound(mc))
      else
        match Index0(content)
        case Failure(f) => Failure(f)
        case Success(first) =>
          if !first.JObject? then Failure(NoAttribute(TypeName(first), "get"))
          else
            var carrier := Get(first.fields, "carrier", JNull);
            if !Truthy(carrier) then Success(NotFound(mc))
            else if !carrier.JObject? then Failure(NoAttribute(TypeName(carrier), "get"))
            else Describe(mc, carrier.fields)
  }

  /** `verify_carrier`, preceded by its `verify_api_key` dependency. */
  function VerifyCarrier(supplied: string, cfg: Config, mc: Option<string>, upstream: Upstream): (r: Exchange)
    ensures r.request.Some? <==> Ready(supplied, cfg, mc)
    ensures r.request.Some? ==> r.request.value == RequestUrl(mc.value, cfg.fmcsaApiKey)
    ensures supplied != cfg.apiKey ==> r.response == Failure(Forbidden)
    ensures supplied == cfg.apiKey && !McGiven(mc) ==> r.response == Failure(HttpError(400, MsgMissingMc))
    ensures supplied == cfg.apiKey && McGiven(mc) && cfg.fmcsaApiKey == "" ==>
      r.response == Failure(HttpError(500, MsgNoRegistryKey))
    ensures r.request.Some? && upstream.RequestFailed? ==>
      r.response == Failure(HttpError(500, PrefixRequestError + upstream.cause))
    ensures r.request.Some? && upstream.Received? ==>
      match Interpret(mc.value, upstream.body)
      case Success(v) => r.response == Success(v)
      case Failure(f) => r.response == Failure(HttpError(500, PrefixUnexpected + FaultText(f)))
  {
    match VerifyApiKey(supplied, cfg.apiKey)
    case Failure(e) => Exchange(None, Failure(e))
    case Success(_) =>
      if !McGiven(mc) then Exchange(None, Failure(HttpError(400, MsgMissingMc)))
      else if cfg.fmcsaApiKey == "" then Exchange(None, Failure(HttpError(500, MsgNoRegistryKey)))
      else
        var request := Some(RequestUrl(mc.value, cfg.fmcsaApiKey));
        match upstream
        case RequestFailed(cause) =>
          Exchange(request, Failure(HttpError(500, PrefixRequestError + cause)))
        case Received(body) =>
          match Interpret(mc.value, body)
          case Success(v) => Exchange(request, Success(v))
          case Failure(f) => Exchange(request, Failure(HttpError(500, PrefixUnexpected + FaultText(f))))
  }

  /** All three guards pass, so the registry request is made. */
  predicate Ready(supplied: string, cfg: Config, mc: Option<string>) {
    supplied == cfg.apiKey && McGiven(mc) && cfg.fmcsaApiKey != ""
  }

  /** When a guard fails, no request is made: the outcome is the same whatever the
      registry would have answered. */
  lemma NoRequestUnlessReady(supplied: string, cfg: Config, mc: Option<string>, u1: Upstream, u2: Upstream)
    requires !Ready(supplied, cfg, mc)
    ensures VerifyCarrier(supplied, cfg, mc, u1) == VerifyCarrier(supplied, cfg, mc, u2)
    ensures VerifyCarrier(supplied, cfg, mc, u1).request == None
  {
  }

  /** The body has no carrier: `content` is missing or falsy, or `content` is a
      list whose first entry is an object without a truthy `carrier`. */
  ghost predicate NoCarrier(data: Json) {
    && data.JObject?
    && var content := Get(data.fields, "content", JNull);
       || !Truthy(content)
       || (&& content.JArray?
           && |content.items| > 0
           && content.items[0].JObject?
           && !Truthy(Get(content.items[0].fields, "carrier", JNull)))
  }

  /** The body holds a carrier object allowed to operate with status `A`, the
      flags compared without regard to case. */
  ghost predicate Approves(data: Json) {
    && data.JObject?
    && "content" in data.fields
    && data.fields["content"].JArray?
    && var items := data.fields["content"].items;
       && |items| > 0
       && items[0].JObject?
       && "carrier" in items[0].fields
       && items[0].fields["carrier"].JObject?
       && FlagIs(items[0].fields["carrier"].fields, "allowedToOperate", 'Y')
       && FlagIs(items[0].fields["carrier"].fields, "statusCode", 'A')
  }

  /** "Carrier not found", with only the echoed MC number, is the answer exactly
      when the body has no carrier. */
  lemma NotFoundExactly(supplied: string, cfg: Config, mc: Option<string>, data: Json)
    requires Ready(supplied, cfg, mc)
    ensures var r := VerifyCarrier(supplied, cfg, mc, Received(data)).response;
            (r.Success? && r.value.details.McOnly?) <==> NoCarrier(data)
    ensures NoCarrier(data) ==>
              VerifyCarrier(supplied, cfg, mc, Received(data)).response
              == Success(Verification(false, MsgNotFound, McOnly(mc.value)))
  {
  }

  /** A carrier is verified exactly when the registry reports it allowed to operate
      (`Y` or `y`) and active (`A` or `a`). */
  lemma VerifiedExactly(supplied: string, cfg: Config, mc: Option<string>, data: Json)
    requires Ready(supplied, cfg, mc)
    ensures var r := VerifyCarrier(supplied, cfg, mc, Received(data)).response;
            (r.Success? && r.value.verified) <==> Approves(data)
  {
  }

  /** Every successful answer carries the message that matches its verdict, and a
      found carrier's status code is upper case. */
  lemma AnswerIsConsistent(supplied: string, cfg: Config, mc: Option<string>, u: Upstream)
    ensures var r := VerifyCarrier(supplied, cfg, mc, u).response;
            r.Success? ==>
              && (r.value.verified <==> r.value.message == MsgVerified)
              && r.value.message in {MsgVerified, MsgNotActive, MsgNotFound}
              && (r.value.details.McOnly? <==> r.value.message == MsgNotFound)
              && (r.value.details.Full? ==> IsUpperCase(r.value.details.statusCode))
              && r.value.details.mcNumber == mc.value
  {
  }

  /** The exceptions a JSON object body raises when it is malformed below the top
      level: a truthy `content` that is a dict has no key 0, one that is a number
      or bool cannot be indexed, a `content[0]` that is not a dict has no `get`,
      and neither has a truthy `carrier` that is not a dict. */
  lemma InterpretFaults(mc: string, data: Json)
    requires data.JObject?
    ensures var content := Get(data.fields, "content", JNull);
            Truthy(content) && !content.JArray? && !content.JString? ==>
              Interpret(mc, data)
              == Failure(if content.JObject? then MissingKey("0") else NotSubscriptable(TypeName(content)))
    ensures var content := Get(data.fields, "content", JNull);
            Truthy(content) && content.JString? ==> Interpret(mc, data) == Failure(NoAttribute("str", "get"))
    ensures var content := Get(data.fields, "content", JNull);
            Truthy(content) && content.JArray? && !content.items[0].JObject? ==>
              Interpret(mc, data) == Failure(NoAttribute(TypeName(content.items[0]), "get"))
    ensures var content := Get(data.fields, "content", JNull);
            && Truthy(content) && content.JArray? && content.items[0].JObject?
            && Truthy(Get(content.items[0].fields, "carrier", JNull))
            && "carrier" in content.items[0].fields
            && !content.items[0].fields["carrier"].JObject? ==>
              Interpret(mc, data)
              == Failure(NoAttribute(TypeName(content.items[0].fields["carrier"]), "get"))
    ensures FaultText(MissingKey("0")) == "0"
  {
  }

  /** Only `content[0]` is consulted: entries after the first never matter. */
  lemma OnlyFirstEntryConsulted(mc: string, fields: map<string, Json>, first: Json, rest1: seq<Json>, rest2: seq<Json>)
    ensures Interpret(mc, JObject(fields["content" := JArray([first] + rest1)]))
            == Interpret(mc, JObject(fields["content" := JArray([first] + rest2)]))
  {
  }

  /** Any failure once the request is made is a 500 whose detail names the cause:
      the request's own error text, or the unexpected exception's text. */
  lemma FailuresAfterRequest(supplied: string, cfg: Config, mc: Option<string>, u: Upstream)
    requires Ready(supplied, cfg, mc)
    ensures var r := VerifyCarrier(supplied, cfg, mc, u).response;
            r.Failure? ==>
              && r.error.status == 500
              && (u.RequestFailed? ==> r.error.detail == PrefixRequestError + u.cause)
              && (u.Received? ==>
                    exists f :: Interpret(mc.value, u.body) == Failure(f)
                                && r.error.detail == PrefixUnexpected + FaultText(f))
  {
  }

  /** A found carrier that is not approved is answered 200 with `verified=false`
      and "Carrier not active or not allowed to operate", provided its flags can be
      upper-cased; otherwise the answer is the 500 for the flag read first. */
  lemma NotActiveExactly(supplied: string, cfg: Config, mc: Option<string>, data: Json)
    requires Ready(supplied, cfg, mc)
    requires Found(data)
    ensures var r := VerifyCarrier(supplied, cfg, mc, Received(data)).response;
            && (r.Success? <==> Readable(CarrierFields(data), "allowedToOperate")
                                && Readable(CarrierFields(data), "statusCode"))
            && (r.Success? && !Approves(data) ==>
                  && !r.value.verified
                  && r.value.message == MsgNotActive
                  && r.value.details.Full?
                  && r.value.details.mcNumber == mc.value)
            && (r.Failure? ==> r.error.status == 500)
  {
  }

  /** The carrier endpoint answers 403 exactly when the key is wrong: no later
      failure is reported as "Invalid API key". */
  lemma CarrierForbiddenExactly(supplied: string, cfg: Config, mc: Option<string>, u: Upstream)
    ensures VerifyCarrier(supplied, cfg, mc, u).response == Failure(Forbidden) <==> supplied != cfg.apiKey
  {
  }
}
