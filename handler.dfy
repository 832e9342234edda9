/**
 * The serverless entry point of the minimal Netlify function: the
 * `calculate_human_design` that answers with type, strategy and authority
 * only, and `lambda_handler`, which checks the HTTP method and the request
 * fields before calling it. JSON decoding and the MD5 digest of the birth
 * minute are parameters.
 */
module Handler {
  import opened Wrappers
  import opened Text
  import opened Mandala
  import opened Centers
  import opened Classify
  import opened Orchestration

  // ---------------------------------------------------------------------------
  // calculate_human_design (minimal edition)

  /** The result dict: the birth minute, type, strategy, authority and the center states. */
  datatype Summary = Summary(input: Minute, typeName: string, strategy: string, authority: string, centers: CenterState)

  /** The summary of a birth minute whose centers the seed `seed` simulates. */
  function SummaryOf(m: Minute, seed: nat): Summary
  {
    var state := SimulatedCenters(seed);
    Summary(m, TypeName(Netlify, TypeOf(state)), Strategy(Netlify, TypeOf(state)), DetermineAuthority(state, Netlify), state)
  }

  /** What `calculate_human_design` answers: an error for a refused birth minute, the summary otherwise. */
  function Summarize(year: int, month: int, day: int, timeStr: string, centersDigest: Minute -> nat): Result<Summary, TimeError>
  {
    match ParseBirthMinute(year, month, day, timeStr)
    case Failure(e) => Failure(e)
    case Success(m) => Success(SummaryOf(m, centersDigest(m)))
  }

  /** `calculate_human_design`: parse the birth minute, simulate the centers, classify them. */
  method CalculateHumanDesign(year: int, month: int, day: int, timeStr: string, centersDigest: Minute -> nat)
    returns (r: Result<Summary, TimeError>)
    ensures r == Summarize(year, month, day, timeStr, centersDigest)
  {
    var parsed := ParseBirthMinute(year, month, day, timeStr);
    if parsed.Failure? {
      return Failure(parsed.error);
    }
    var m := parsed.value;
    var state := SimulateGateActivations(centersDigest(m));
    var typeName, strategy := DetermineType(state, Netlify);
    var authority := DetermineAuthority(state, Netlify);
    r := Success(Summary(m, typeName, strategy, authority, state));
  }

  /**
   * A summary describes its centers: the Reflector, with the Environmental
   * authority, exactly when the seed clears every center; any other type has
   * between three and seven defined centers.
   */
  lemma SummaryFacts(m: Minute, seed: nat)
    ensures var s := SummaryOf(m, seed);
      && (s.typeName == TypeName(Netlify, Reflector) <==> seed % 100 < 5)
      && (seed % 100 < 5 ==> s.authority == AuthorityText(Netlify, Environmental))
      && (seed % 100 >= 5 ==> 3 <= DefinedCount(s.centers) <= 7)
  {
    var state := SimulatedCenters(seed);
    SimulatedCount(seed);
    TypeClassification(state);
    TypeNamesDistinct(TypeOf(state));
    if seed % 100 < 5 {
      ReflectorIsEnvironmental(state);
    }
  }

  /** Distinct types have distinct names. */
  lemma TypeNamesDistinct(t: HdType)
    ensures TypeName(Netlify, t) == TypeName(Netlify, Reflector) <==> t == Reflector
  {
    if t != Reflector {
      assert TypeName(Netlify, t)[0] != 'R';
    }
  }

  // ---------------------------------------------------------------------------
  // lambda_handler

  /** A JSON value, as `json.loads` returns it; objects keep the last of duplicate keys. */
  datatype Json =
    | JNull
    | JBool(b: bool)
    | JInt(i: int)
    | JReal(r: real)
    | JStr(s: string)
    | JArray(items: seq<Json>)
    | JObject(fields: map<string, Json>)

  /** `event['body']`: absent, a string still to be decoded, or an already decoded value. */
  datatype Body = NoBody | Raw(text: string) | Decoded(value: Json)

  datatype Event = Event(httpMethod: Option<string>, body: Body)

  /** The body of a response. */
  datatype Reply =
    | Message(message: string)      // {'message': ...}
    | Refusal(error: string)        // {'error': ..., 'status': 'error'}
    | Rejected(reason: TimeError)   // the error dict of calculate_human_design, passed on
    | Answer(data: Summary)         // {'data': ..., 'status': 'success'}
    | ServerError                   // an unexpected exception, reported with its text

  datatype Response = Response(statusCode: int, reply: Reply)

  const REQUIRED_FIELDS: seq<string> := ["year", "month", "day", "time"]

  /** `field in data`: key of a dict, element of a list, substring of a string; None where Python raises TypeError. */
  function HasField(data: Json, field: string): Option<bool>
  {
    match data
    case JObject(fields) => Some(field in fields)
    case JArray(items) => Some(JStr(field) in items)
    case JStr(s) => Some(Contains(s, field))
    case _ => None
  }

  /** `[field for field in fields if field not in data]`, or None where a test raises. */
  function MissingFields(data: Json, fields: seq<string>): Option<seq<string>>
  {
    if fields == [] then Some([])
    else
      match HasField(data, fields[0])
      case None => None
      case Some(present) =>
        match MissingFields(data, fields[1..])
        case None => None
        case Some(rest) => Some((if present then [] else [fields[0]]) + rest)
  }

  /** `", ".join(names)`. */
  function JoinComma(names: seq<string>): string
  {
    if |names| <= 1 then (if names == [] then "" else names[0])
    else names[0] + ", " + JoinComma(names[1..])
  }

  /** `int(value)` for a decoded JSON value; None where Python raises ValueError or TypeError. */
  function JsonInt(value: Json): Option<int>
  {
    match value
    case JInt(i) => Some(i)
    case JBool(b) => Some(if b then 1 else 0)
    case JReal(r) => Some(Trunc(r))
    case JStr(s) => PyInt(s)
    case _ => None
  }

  /** What the handler does once the body is decoded into `data`. */
  function HandleData(data: Json, centersDigest: Minute -> nat): Response
  {
    match MissingFields(data, REQUIRED_FIELDS)
    case None => Response(500, ServerError)
    case Some(missing) =>
      if missing != [] then Response(400, Refusal("缺少必需字段: " + JoinComma(missing)))
      else if !data.JObject? then Response(500, ServerError)  // data['year'] on a list or a string
      else
        var fields := data.fields;
        MissingFieldsOfObject(fields, REQUIRED_FIELDS);
        assert forall n | n in REQUIRED_FIELDS :: n in fields by {
          forall n | n in REQUIRED_FIELDS ensures n in fields {
            assert n !in Absent(fields, REQUIRED_FIELDS);
          }
        }
        assert "year" in REQUIRED_FIELDS && "month" in REQUIRED_FIELDS && "day" in REQUIRED_FIELDS && "time" in REQUIRED_FIELDS;
        var (year, month, day) := (JsonInt(fields["year"]), JsonInt(fields["month"]), JsonInt(fields["day"]));
        if year.None? || month.None? || day.None? then Response(400, Refusal("年份、月份、日期必須是數字"))
        else if !fields["time"].JStr? || ':' !in fields["time"].s then Response(400, Refusal("時間格式必須為 \"HH:MM\""))
        else
          match Summarize(year.value, month.value, day.value, fields["time"].s, centersDigest)
          case Failure(e) => Response(400, Rejected(e))
          case Success(summary) => Response(200, Answer(summary))
  }

  /**
   * `lambda_handler`: OPTIONS is answered at once, any method but POST is
   * refused, a string body is decoded with `decode` (None where
   * `json.loads` raises), then the fields are checked and the chart
   * summarised.
   */
  function LambdaHandler(event: Event, decode: string -> Option<Json>, centersDigest: Minute -> nat): Response
  {
    if event.httpMethod == Some("OPTIONS") then Response(200, Message("OK"))
    else if event.httpMethod != Some("POST") then Response(405, Refusal("方法不允許，請使用 POST"))
    else
      var data := match event.body
        case NoBody => decode("{}")
        case Raw(text) => decode(text)
        case Decoded(value) => Some(value);
      if data.None? then Response(400, Refusal("無效的 JSON 格式"))
      else HandleData(data.value, centersDigest)
  }

  // ---------------------------------------------------------------------------
  // Properties of the handler

  /** The missing names are exactly the absent fields, in the order they are required. */
  lemma {:induction false} MissingFieldsOfObject(fields: map<string, Json>, names: seq<string>)
    ensures MissingFields(JObject(fields), names) == Some(Absent(fields, names))
  {
    if names != [] {
      MissingFieldsOfObject(fields, names[1..]);
    }
  }

  /** The names not among the keys, in order. */
  function Absent(fields: map<string, Json>, names: seq<string>): (r: seq<string>)
    ensures forall n :: n in r <==> n in names && n !in fields
  {
    if names == [] then [] else (if names[0] in fields then [] else [names[0]]) + Absent(fields, names[1..])
  }

  /** No name is absent when every name is a key. */
  lemma {:induction false} AbsentNone(fields: map<string, Json>, names: seq<string>)
    requires forall n | n in names :: n in fields
    ensures Absent(fields, names) == []
  {
    if names != [] {
      AbsentNone(fields, names[1..]);
    }
  }

  /** The method decides first: OPTIONS gets 200 and every method but POST gets 405. */
  lemma MethodChecks(event: Event, decode: string -> Option<Json>, centersDigest: Minute -> nat)
    ensures event.httpMethod == Some("OPTIONS") ==> LambdaHandler(event, decode, centersDigest).statusCode == 200
    ensures event.httpMethod != Some("OPTIONS") && event.httpMethod != Some("POST") ==>
      LambdaHandler(event, decode, centersDigest).statusCode == 405
  {
  }

  /** A POST whose object lacks some required fields gets 400 naming them in the order year, month, day, time. */
  lemma MissingFieldsRefused(fields: map<string, Json>, centersDigest: Minute -> nat)
    requires exists n | n in REQUIRED_FIELDS :: n !in fields
    ensures HandleData(JObject(fields), centersDigest) ==
      Response(400, Refusal("缺少必需字段: " + JoinComma(Absent(fields, REQUIRED_FIELDS))))
  {
    MissingFieldsOfObject(fields, REQUIRED_FIELDS);
    var n :| n in REQUIRED_FIELDS && n !in fields;
    assert n in Absent(fields, REQUIRED_FIELDS);
  }

  /**
   * With every field present, a year, month or day that `int()` refuses,
   * or a time that is not a string holding ':', gets 400 before any
   * calculation; otherwise the answer is the calculation's, 400 for a
   * refused birth minute and 200 with the summary for an accepted one.
   */
  lemma FieldChecks(fields: map<string, Json>, centersDigest: Minute -> nat)
    requires forall n | n in REQUIRED_FIELDS :: n in fields
    ensures var response := HandleData(JObject(fields), centersDigest);
      var (year, month, day) := (JsonInt(fields["year"]), JsonInt(fields["month"]), JsonInt(fields["day"]));
      var time := fields["time"];
      && (year.None? || month.None? || day.None? ==> response == Response(400, Refusal("年份、月份、日期必須是數字")))
      && (year.Some? && month.Some? && day.Some? ==>
            if !time.JStr? || ':' !in time.s then response == Response(400, Refusal("時間格式必須為 \"HH:MM\""))
            else match ParseBirthMinute(year.value, month.value, day.value, time.s)
              case Failure(e) => response == Response(400, Rejected(e))
              case Success(m) => response == Response(200, Answer(SummaryOf(m, centersDigest(m)))))
  {
    MissingFieldsOfObject(fields, REQUIRED_FIELDS);
    AbsentNone(fields, REQUIRED_FIELDS);
  }

  /**
   * A year written with more digits than `int()` accepts (leading zeros
   * included) is refused as not a number, whatever its value.
   */
  lemma OverlongYearRefused(fields: map<string, Json>, digits: string, centersDigest: Minute -> nat)
    requires forall n | n in REQUIRED_FIELDS :: n in fields
    requires fields["year"] == JStr(digits) && |digits| > MAX_STR_DIGITS && AllDigits(digits)
    ensures HandleData(JObject(fields), centersDigest) == Response(400, Refusal("年份、月份、日期必須是數字"))
  {
    PyIntDigitLimit(digits);
    FieldChecks(fields, centersDigest);
  }

  /** Every answer is 200, 400, 405 or 500, and 200 carries either the OK message or a summary. */
  lemma StatusCodes(event: Event, decode: string -> Option<Json>, centersDigest: Minute -> nat)
    ensures var response := LambdaHandler(event, decode, centersDigest);
      && response.statusCode in {200, 400, 405, 500}
      && (response.statusCode == 200 <==> response.reply.Message? || response.reply.Answer?)
  {
  }
}
