/**
 * The sports data service: building request URLs for TheSportsDB, turning one raw team
 * record into a `FootballTeam`, filtering a search response and picking the first entry of
 * a lookup response. The HTTP client is a function from URL to what the request produced.
 */
module SportsData {
  import opened Wrappers
  import opened TeamModels

  /** A decoded JSON value. Numbers are integers; floating-point numbers are not modelled. */
  datatype Json =
    | JNull
    | JBool(b: bool)
    | JNumber(n: int)
    | JString(s: string)
    | JArray(items: seq<Json>)
    | JObject(fields: map<string, Json>)

  /** Python truthiness of a decoded JSON value. */
  predicate Truthy(j: Json) {
    match j
    case JNull => false
    case JBool(b) => b
    case JNumber(n) => n != 0
    case JString(s) => |s| > 0
    case JArray(xs) => |xs| > 0
    case JObject(m) => |m| > 0
  }

  /** What a Python exception escaping the service would be. */
  datatype Raised =
    | AttributeError
    | TypeError
    | KeyError
    | IndexError
    | ValidationError(fields: seq<string>)
    | TransportError
    | JsonDecodeError

  /** What one GET request produced. */
  datatype Fetch =
    | Received(body: Json)   // a 2xx response whose body decoded as JSON
    | TimedOut               // the client's timeout (10 s, 5 s to connect) expired
    | BadStatus              // a non-2xx status, raised by the status check
    | ConnectFailed          // any other transport failure
    | UndecodableBody        // a 2xx response whose body is not JSON

  // ---------------------------------------------------------------- request URLs

  const ApiBaseUrl: string := "https://www.thesportsdb.com/api/v1/json"
  const ApiKey: string := "3"

  function UrlPrefix(): string { ApiBaseUrl + "/" + ApiKey + "/" }

  /** The full URL of an endpoint: base URL, key and endpoint joined by slashes. */
  function RequestUrl(endpoint: string): (url: string)
    ensures |url| == |UrlPrefix()| + |endpoint|
    ensures url[..|UrlPrefix()|] == UrlPrefix() && url[|UrlPrefix()|..] == endpoint
  {
    UrlPrefix() + endpoint
  }

  const SearchPath: string := "searchteams.php?t="
  const LookupPath: string := "lookupteam.php?id="

  /** The team name goes into the query string as given, without escaping. */
  function SearchEndpoint(teamName: string): (e: string)
    ensures |e| == |SearchPath| + |teamName|
    ensures e[..|SearchPath|] == SearchPath && e[|SearchPath|..] == teamName
  {
    SearchPath + teamName
  }

  function DetailsEndpoint(teamId: string): (e: string)
    ensures |e| == |LookupPath| + |teamId|
    ensures e[..|LookupPath|] == LookupPath && e[|LookupPath|..] == teamId
  {
    LookupPath + teamId
  }

  /** Different endpoints give different URLs. */
  lemma RequestUrlInjective(a: string, b: string)
    requires RequestUrl(a) == RequestUrl(b)
    ensures a == b
  {
    assert a == RequestUrl(a)[|UrlPrefix()|..];
  }

  /** Different team names give different search URLs. */
  lemma SearchUrlInjective(a: string, b: string)
    requires RequestUrl(SearchEndpoint(a)) == RequestUrl(SearchEndpoint(b))
    ensures a == b
  {
    RequestUrlInjective(SearchEndpoint(a), SearchEndpoint(b));
    assert a == SearchEndpoint(a)[|SearchPath|..];
  }

  /** A search URL is never a lookup URL. */
  lemma SearchAndLookupUrlsDiffer(teamName: string, teamId: string)
    ensures RequestUrl(SearchEndpoint(teamName)) != RequestUrl(DetailsEndpoint(teamId))
  {
    var p := |UrlPrefix()|;
    assert RequestUrl(SearchEndpoint(teamName))[p] == SearchEndpoint(teamName)[0] == 's';
    assert RequestUrl(DetailsEndpoint(teamId))[p] == DetailsEndpoint(teamId)[0] == 'l';
  }

  lemma SearchUrlExample()
    ensures RequestUrl(SearchEndpoint("Arsenal"))
         == "https://www.thesportsdb.com/api/v1/json/3/searchteams.php?t=Arsenal"
  {
  }

  // ---------------------------------------------------------------- one team record

  /** API keys of the twelve optional fields, in the record's declaration order. */
  const OptionalKeys: seq<string> := [
    "strAlternate", "intFormedYear", "strLeague", "strStadium", "strStadiumLocation",
    "strDescriptionEN", "strTeamBadge", "strTeamJersey", "strWebsite",
    "strFacebook", "strTwitter", "strYoutube" ]

  /** Names of the twelve optional fields, as a validation error reports them. */
  const OptionalNames: seq<string> := [
    "alternate_name", "formation_year", "league_name", "stadium_name", "stadium_location",
    "team_description", "badge_image_url", "jersey_image_url", "official_website",
    "facebook_url", "twitter_url", "youtube_url" ]

  /** The transform reads fifteen distinct keys, one per field of the record. */
  lemma FifteenSourceKeys()
    ensures |OptionalKeys| == 12 && |OptionalNames| == 12
    ensures forall i, j :: 0 <= i < j < 12 ==> OptionalKeys[i] != OptionalKeys[j] && OptionalNames[i] != OptionalNames[j]
    ensures forall i :: 0 <= i < 12 ==> OptionalKeys[i] !in {"idTeam", "strTeam", "strSport"}
  {
  }

  predicate IsSoccer(raw: map<string, Json>) {
    "strSport" in raw && raw["strSport"] == JString("Soccer")
  }

  /** A required string field read with default "": only a string value validates. */
  predicate RequiredValid(raw: map<string, Json>, key: string) {
    key !in raw || raw[key].JString?
  }

  /** An optional string field read with default None: absent, null and strings validate. */
  predicate OptionalValid(raw: map<string, Json>, key: string) {
    key !in raw || raw[key].JNull? || raw[key].JString?
  }

  function RequiredError(raw: map<string, Json>, name: string, key: string): seq<string> {
    if RequiredValid(raw, key) then [] else [name]
  }

  function OptionalError(raw: map<string, Json>, i: nat): seq<string>
    requires i < 12
  {
    if OptionalValid(raw, OptionalKeys[i]) then [] else [OptionalNames[i]]
  }

  function OptionalErrors(raw: map<string, Json>, lo: nat, hi: nat): seq<string>
    requires lo <= hi <= 12
    decreases hi - lo
  {
    if lo == hi then [] else OptionalError(raw, lo) + OptionalErrors(raw, lo + 1, hi)
  }

  /** The fields that fail validation, in the record's declaration order. */
  function InvalidFields(raw: map<string, Json>): seq<string> {
    RequiredError(raw, "team_id", "idTeam")
    + RequiredError(raw, "team_name", "strTeam")
    + OptionalErrors(raw, 0, 2)
    + RequiredError(raw, "sport_type", "strSport")
    + OptionalErrors(raw, 2, 12)
  }

  /** The value of a required field: its string, or "" when the key is absent. */
  function Text(raw: map<string, Json>, key: string): string {
    if key in raw && raw[key].JString? then raw[key].s else ""
  }

  /** The value of an optional field: its string, or None when absent or null. */
  function OptionalText(raw: map<string, Json>, key: string): Option<string> {
    if key in raw && raw[key].JString? then Some(raw[key].s) else None
  }

  /**
   * A raw record becomes a team only when its sport is exactly "Soccer"; a soccer record
   * with a field of the wrong type raises a validation error naming those fields.
   */
  function TransformApiDataToTeam(raw: map<string, Json>): (r: Result<Option<FootballTeam>, Raised>)
    ensures r.Success? && r.value.Some? <==> IsSoccer(raw) && InvalidFields(raw) == []
    ensures r.Failure? <==> IsSoccer(raw) && InvalidFields(raw) != []
    ensures r.Failure? ==> r.error == ValidationError(InvalidFields(raw))
    ensures r.Success? && r.value.Some? ==>
      var t := r.value.value;
      t.sportType == "Soccer" && t.teamId == Text(raw, "idTeam") && t.teamName == Text(raw, "strTeam")
      && forall i :: 0 <= i < 12 ==> OptionalFields(t)[i] == OptionalText(raw, OptionalKeys[i])
  {
    if !IsSoccer(raw) then Success(None)
    else if InvalidFields(raw) != [] then Failure(ValidationError(InvalidFields(raw)))
    else
      var optional := seq(12, i requires 0 <= i < 12 => OptionalText(raw, OptionalKeys[i]));
      Success(Some(TeamOf(Text(raw, "idTeam"), Text(raw, "strTeam"), Text(raw, "strSport"), optional)))
  }

  /** `raw` is a record the API would send for team `t`: strings where `t` has a value. */
  predicate Describes(raw: map<string, Json>, t: FootballTeam) {
    && t.sportType == "Soccer"
    && raw.Keys >= {"idTeam", "strTeam", "strSport"}
    && raw["idTeam"] == JString(t.teamId)
    && raw["strTeam"] == JString(t.teamName)
    && raw["strSport"] == JString(t.sportType)
    && forall i :: 0 <= i < 12 ==>
         match OptionalFields(t)[i]
         case None => OptionalKeys[i] !in raw || raw[OptionalKeys[i]] == JNull
         case Some(v) => OptionalKeys[i] in raw && raw[OptionalKeys[i]] == JString(v)
  }

  lemma {:induction false} NoOptionalErrors(raw: map<string, Json>, t: FootballTeam, lo: nat, hi: nat)
    requires Describes(raw, t) && lo <= hi <= 12
    ensures OptionalErrors(raw, lo, hi) == []
    decreases hi - lo
  {
    if lo < hi {
      assert OptionalValid(raw, OptionalKeys[lo]) by {
        match OptionalFields(t)[lo]
        case None =>
        case Some(v) =>
      }
      NoOptionalErrors(raw, t, lo + 1, hi);
    }
  }

  /** Round trip: the record the API sends for a soccer team transforms back into that team. */
  lemma TransformOfDescribedRecord(raw: map<string, Json>, t: FootballTeam)
    requires Describes(raw, t)
    ensures TransformApiDataToTeam(raw) == Success(Some(t))
  {
    NoOptionalErrors(raw, t, 0, 2);
    NoOptionalErrors(raw, t, 2, 12);
    assert InvalidFields(raw) == [];
    var u := TransformApiDataToTeam(raw).value.value;
    forall i | 0 <= i < 12
      ensures OptionalFields(u)[i] == OptionalFields(t)[i]
    {
      match OptionalFields(t)[i]
      case None =>
      case Some(v) =>
    }
    TeamDeterminedByFields(u, t);
  }

  lemma {:induction false} OptionalErrorReported(raw: map<string, Json>, i: nat, lo: nat, hi: nat)
    requires lo <= i < hi <= 12 && !OptionalValid(raw, OptionalKeys[i])
    ensures OptionalNames[i] in OptionalErrors(raw, lo, hi)
    decreases hi - lo
  {
    if lo == i {
      assert OptionalErrors(raw, lo, hi)[0] == OptionalNames[i];
    } else {
      OptionalErrorReported(raw, i, lo + 1, hi);
    }
  }

  /** An optional field holding anything but a string or null is named in the validation error. */
  lemma IllTypedOptionalIsReported(raw: map<string, Json>, i: nat)
    requires i < 12 && IsSoccer(raw)
    requires OptionalKeys[i] in raw && !raw[OptionalKeys[i]].JNull? && !raw[OptionalKeys[i]].JString?
    ensures TransformApiDataToTeam(raw).Failure?
    ensures OptionalNames[i] in TransformApiDataToTeam(raw).error.fields
  {
    if i < 2 {
      OptionalErrorReported(raw, i, 0, 2);
    } else {
      OptionalErrorReported(raw, i, 2, 12);
    }
  }

  // ---------------------------------------------------------------- search by name

  /** One entry of the teams list: the teams it contributes, or the exception it raises. */
  function FilterEntry(x: Json): (r: Result<seq<FootballTeam>, Raised>)
    ensures r.Success? ==> |r.value| <= 1
    ensures !x.JObject? ==> r == Failure(AttributeError)
    ensures x.JObject? && TransformApiDataToTeam(x.fields) == Success(None) ==> r == Success([])
    ensures x.JObject? && TransformApiDataToTeam(x.fields).Success? && TransformApiDataToTeam(x.fields).value.Some?
            ==> r == Success([TransformApiDataToTeam(x.fields).value.value])
    ensures x.JObject? && TransformApiDataToTeam(x.fields).Failure? ==> r == Failure(TransformApiDataToTeam(x.fields).error)
  {
    if !x.JObject? then Failure(AttributeError)
    else match TransformApiDataToTeam(x.fields)
      case Failure(e) => Failure(e)
      case Success(None) => Success([])
      case Success(Some(t)) => Success([t])
  }

  /** Both succeed and their teams are concatenated, or the first failure wins. */
  function Then(a: Result<seq<FootballTeam>, Raised>, b: Result<seq<FootballTeam>, Raised>): Result<seq<FootballTeam>, Raised> {
    if a.Failure? then a else if b.Failure? then b else Success(a.value + b.value)
  }

  /** The list comprehension: entries in order, non-soccer ones skipped, the first exception escaping. */
  function FilterTeams(xs: seq<Json>): (r: Result<seq<FootballTeam>, Raised>)
    ensures r.Success? ==> |r.value| <= |xs|
    ensures r.Success? ==> forall t :: t in r.value ==> t.sportType == "Soccer"
  {
    if xs == [] then Success([]) else Then(FilterEntry(xs[0]), FilterTeams(xs[1..]))
  }

  lemma ThenAssociative(a: Result<seq<FootballTeam>, Raised>, b: Result<seq<FootballTeam>, Raised>, c: Result<seq<FootballTeam>, Raised>)
    ensures Then(a, Then(b, c)) == Then(Then(a, b), c)
  {
    if a.Success? && b.Success? && c.Success? {
      assert a.value + (b.value + c.value) == (a.value + b.value) + c.value;
    }
  }

  /** Order is kept: the teams of a list are those of its first part followed by those of the rest. */
  lemma {:induction false} FilterTeamsAppend(xs: seq<Json>, ys: seq<Json>)
    ensures FilterTeams(xs + ys) == Then(FilterTeams(xs), FilterTeams(ys))
  {
    if xs == [] {
      assert xs + ys == ys;
      var r := FilterTeams(ys);
      if r.Success? { assert [] + r.value == r.value; }
    } else {
      assert (xs + ys)[0] == xs[0];
      assert (xs + ys)[1..] == xs[1..] + ys;
      FilterTeamsAppend(xs[1..], ys);
      ThenAssociative(FilterEntry(xs[0]), FilterTeams(xs[1..]), FilterTeams(ys));
    }
  }

  /** Entry `i` of `xs` is an object describing team `ts[i]`, for every `i`. */
  predicate AllDescribe(xs: seq<Json>, ts: seq<FootballTeam>) {
    |xs| == |ts| && forall i :: 0 <= i < |xs| ==> xs[i].JObject? && Describes(xs[i].fields, ts[i])
  }

  lemma DescribedEntry(x: Json, t: FootballTeam)
    requires x.JObject? && Describes(x.fields, t)
    ensures FilterEntry(x) == Success([t])
  {
    TransformOfDescribedRecord(x.fields, t);
  }

  /** A list of records describing soccer teams yields exactly those teams, in order. */
  lemma FilterTeamsFindsDescribed(xs: seq<Json>, ts: seq<FootballTeam>)
    requires AllDescribe(xs, ts)
    ensures FilterTeams(xs) == Success(ts)
  {
    var os := AllSome(ts);
    assert AllDescribeOrSkip(xs, os) by {
      forall i | 0 <= i < |xs|
        ensures xs[i].JObject? && DescribesOrSkips(xs[i].fields, os[i])
      {
        assert os[i] == Some(ts[i]);
      }
    }
    FilterTeamsKeepsSoccer(xs, os);
  }

  /** Every team, wrapped as present. */
  function AllSome(ts: seq<FootballTeam>): (os: seq<Option<FootballTeam>>)
    ensures |os| == |ts| && Somes(os) == ts
    ensures forall i :: 0 <= i < |ts| ==> os[i] == Some(ts[i])
  {
    if ts == [] then []
    else
      var rest := AllSome(ts[1..]);
      assert ([Some(ts[0])] + rest)[1..] == rest;
      assert [ts[0]] + ts[1..] == ts;
      [Some(ts[0])] + rest
  }

  lemma FilterTeamsCons(xs: seq<Json>, head: seq<FootballTeam>, rest: seq<FootballTeam>)
    requires xs != [] && FilterEntry(xs[0]) == Success(head) && FilterTeams(xs[1..]) == Success(rest)
    ensures FilterTeams(xs) == Success(head + rest)
  {
  }

  /** The teams among a list of optional teams, in order. */
  function Somes(os: seq<Option<FootballTeam>>): (r: seq<FootballTeam>)
    ensures |r| <= |os|
  {
    if os == [] then [] else (if os[0].Some? then [os[0].value] else []) + Somes(os[1..])
  }

  /**
   * Entry `i` of `xs` is an object describing team `os[i]`, or, where `os[i]` is
   * `None`, the record of a team of another sport.
   */
  predicate AllDescribeOrSkip(xs: seq<Json>, os: seq<Option<FootballTeam>>) {
    |xs| == |os| && forall i :: 0 <= i < |xs| ==> xs[i].JObject? && DescribesOrSkips(xs[i].fields, os[i])
  }

  predicate DescribesOrSkips(raw: map<string, Json>, o: Option<FootballTeam>) {
    match o
    case None => !IsSoccer(raw)
    case Some(t) => Describes(raw, t)
  }

  lemma AllDescribeOrSkipTail(xs: seq<Json>, os: seq<Option<FootballTeam>>)
    requires AllDescribeOrSkip(xs, os) && xs != []
    ensures AllDescribeOrSkip(xs[1..], os[1..])
  {
    forall i | 0 <= i < |xs| - 1
      ensures xs[1..][i].JObject? && DescribesOrSkips(xs[1..][i].fields, os[1..][i])
    {
      assert xs[1..][i] == xs[i + 1] && os[1..][i] == os[i + 1];
    }
  }

  /** A list mixing soccer team records with other sports' records yields exactly its soccer teams, in order. */
  lemma {:induction false} FilterTeamsKeepsSoccer(xs: seq<Json>, os: seq<Option<FootballTeam>>)
    requires AllDescribeOrSkip(xs, os)
    ensures FilterTeams(xs) == Success(Somes(os))
    decreases |xs|
  {
    if xs != [] {
      var head := if os[0].Some? then [os[0].value] else [];
      assert FilterEntry(xs[0]) == Success(head) by {
        if os[0].Some? {
          DescribedEntry(xs[0], os[0].value);
        }
      }
      assert FilterTeams(xs[1..]) == Success(Somes(os[1..])) by {
        AllDescribeOrSkipTail(xs, os);
        FilterTeamsKeepsSoccer(xs[1..], os[1..]);
      }
      FilterTeamsCons(xs, head, Somes(os[1..]));
    }
  }

  /** What iterating the "teams" value gives, as the code is written. */
  function TeamsOf(teams: Json): Result<seq<FootballTeam>, Raised> {
    match teams
    case JArray(xs) => FilterTeams(xs)
    // iterating a string or an object yields strings, which have no `get`
    case JString(s) => if s == [] then Success([]) else Failure(AttributeError)
    case JObject(m) => if m == map[] then Success([]) else Failure(AttributeError)
    // null, booleans and numbers are not iterable
    case _ => Failure(TypeError)
  }

  /** A decoded search response: a missing "teams" key reads as an empty list. */
  function SearchResults(body: Json): Result<seq<FootballTeam>, Raised> {
    if !body.JObject? then Failure(AttributeError)
    else TeamsOf(if "teams" in body.fields then body.fields["teams"] else JArray([]))
  }

  /**
   * Search teams by name, as written: a timeout or an error status gives an empty list;
   * other transport failures and an undecodable body escape.
   */
  function SearchTeamsByName(teamName: string, http: string -> Fetch): (r: Result<seq<FootballTeam>, Raised>)
    ensures http(RequestUrl(SearchEndpoint(teamName))) in {TimedOut, BadStatus} ==> r == Success([])
    ensures http(RequestUrl(SearchEndpoint(teamName))) == ConnectFailed ==> r == Failure(TransportError)
    ensures http(RequestUrl(SearchEndpoint(teamName))) == UndecodableBody ==> r == Failure(JsonDecodeError)
    ensures var f := http(RequestUrl(SearchEndpoint(teamName)));
      f.Received? && f.body.JObject? && "teams" !in f.body.fields ==> r == Success([])
    ensures r.Success? ==> forall t :: t in r.value ==> t.sportType == "Soccer"
  {
    match http(RequestUrl(SearchEndpoint(teamName)))
    case TimedOut => Success([])
    case BadStatus => Success([])
    case ConnectFailed => Failure(TransportError)
    case UndecodableBody => Failure(JsonDecodeError)
    case Received(body) => SearchResults(body)
  }

  /** A search response listing soccer team records yields those teams, in order. */
  lemma SearchFindsListedTeams(teamName: string, http: string -> Fetch, xs: seq<Json>, ts: seq<FootballTeam>)
    requires http(RequestUrl(SearchEndpoint(teamName))) == Received(JObject(map["teams" := JArray(xs)]))
    requires AllDescribe(xs, ts)
    ensures SearchTeamsByName(teamName, http) == Success(ts)
  {
    FilterTeamsFindsDescribed(xs, ts);
  }

  /** A response with "teams": null makes the search raise instead of returning no teams. */
  lemma SearchNullTeamsRaises(teamName: string, http: string -> Fetch)
    requires http(RequestUrl(SearchEndpoint(teamName))) == Received(JObject(map["teams" := JNull]))
    ensures SearchTeamsByName(teamName, http) == Failure(TypeError)
  {
  }

  /** The search with a null or otherwise falsy "teams" value read as an empty list. */
  function SearchResultsCorrected(body: Json): Result<seq<FootballTeam>, Raised> {
    if !body.JObject? then Failure(AttributeError)
    else if "teams" !in body.fields || !Truthy(body.fields["teams"]) then Success([])
    else TeamsOf(body.fields["teams"])
  }

  function SearchTeamsByNameCorrected(teamName: string, http: string -> Fetch): (r: Result<seq<FootballTeam>, Raised>)
    ensures http(RequestUrl(SearchEndpoint(teamName))) in {TimedOut, BadStatus} ==> r == Success([])
    ensures http(RequestUrl(SearchEndpoint(teamName))) == ConnectFailed ==> r == Failure(TransportError)
    ensures http(RequestUrl(SearchEndpoint(teamName))) == UndecodableBody ==> r == Failure(JsonDecodeError)
    ensures r.Success? ==> forall t :: t in r.value ==> t.sportType == "Soccer"
  {
    match http(RequestUrl(SearchEndpoint(teamName)))
    case TimedOut => Success([])
    case BadStatus => Success([])
    case ConnectFailed => Failure(TransportError)
    case UndecodableBody => Failure(JsonDecodeError)
    case Received(body) => SearchResultsCorrected(body)
  }

  /**
   * The corrected search returns no teams when "teams" is missing, null or empty, and
   * otherwise agrees with the search as written.
   */
  lemma SearchCorrectedHandlesNoTeams(teamName: string, http: string -> Fetch)
    ensures match http(RequestUrl(SearchEndpoint(teamName)))
      case Received(JObject(m)) =>
        if "teams" !in m || !Truthy(m["teams"])
        then SearchTeamsByNameCorrected(teamName, http) == Success([])
        else SearchTeamsByNameCorrected(teamName, http) == SearchTeamsByName(teamName, http)
      case _ => SearchTeamsByNameCorrected(teamName, http) == SearchTeamsByName(teamName, http)
  {
  }

  // ---------------------------------------------------------------- details by id

  /** Subscripting with 0. */
  function First(j: Json): Result<Json, Raised> {
    match j
    case JArray(xs) => if xs == [] then Failure(IndexError) else Success(xs[0])
    case JString(s) => if s == [] then Failure(IndexError) else Success(JString([s[0]]))
    case JObject(_) => Failure(KeyError)   // object keys are strings, never 0
    case _ => Failure(TypeError)
  }

  /** The first entry of a falsy "teams" value is taken from a one-element list holding null. */
  function FirstEntry(fields: map<string, Json>): Result<Json, Raised> {
    var teams := if "teams" in fields then fields["teams"] else JNull;
    First(if Truthy(teams) then teams else JArray([JNull]))
  }

  /** A decoded lookup response: only the first entry counts, and a falsy entry means no team. */
  function DetailsResult(body: Json): (r: Result<Option<FootballTeam>, Raised>)
    ensures body.JObject? && ("teams" !in body.fields || !Truthy(body.fields["teams"])) ==> r == Success(None)
    ensures body.JObject? && FirstEntry(body.fields).Success? && !Truthy(FirstEntry(body.fields).value) ==> r == Success(None)
    ensures r.Success? && r.value.Some? ==> r.value.value.sportType == "Soccer"
  {
    if !body.JObject? then Failure(AttributeError)
    else match FirstEntry(body.fields)
      case Failure(e) => Failure(e)
      case Success(raw) =>
        if !Truthy(raw) then Success(None)
        else if !raw.JObject? then Failure(AttributeError)
        else TransformApiDataToTeam(raw.fields)
  }

  /**
   * Look a team up by id: a timeout or an error status gives no team; other transport
   * failures and an undecodable body escape.
   */
  function GetTeamDetailsById(teamId: string, http: string -> Fetch): (r: Result<Option<FootballTeam>, Raised>)
    ensures http(RequestUrl(DetailsEndpoint(teamId))) in {TimedOut, BadStatus} ==> r == Success(None)
    ensures http(RequestUrl(DetailsEndpoint(teamId))) == ConnectFailed ==> r == Failure(TransportError)
    ensures http(RequestUrl(DetailsEndpoint(teamId))) == UndecodableBody ==> r == Failure(JsonDecodeError)
    ensures r.Success? && r.value.Some? ==> r.value.value.sportType == "Soccer"
  {
    match http(RequestUrl(DetailsEndpoint(teamId)))
    case TimedOut => Success(None)
    case BadStatus => Success(None)
    case ConnectFailed => Failure(TransportError)
    case UndecodableBody => Failure(JsonDecodeError)
    case Received(body) => DetailsResult(body)
  }

  /** Every entry after the first is ignored. */
  lemma DetailsUseFirstEntryOnly(m: map<string, Json>, x: Json, ys: seq<Json>)
    ensures DetailsResult(JObject(m["teams" := JArray([x] + ys)]))
         == DetailsResult(JObject(m["teams" := JArray([x])]))
  {
    assert ([x] + ys)[0] == x;
  }

  /** A lookup response whose first entry describes a soccer team yields that team. */
  lemma DetailsFindFirstTeam(teamId: string, http: string -> Fetch, raw: map<string, Json>, ys: seq<Json>, t: FootballTeam)
    requires http(RequestUrl(DetailsEndpoint(teamId))) == Received(JObject(map["teams" := JArray([JObject(raw)] + ys)]))
    requires Describes(raw, t)
    ensures GetTeamDetailsById(teamId, http) == Success(Some(t))
  {
    TransformOfDescribedRecord(raw, t);
    assert "idTeam" in raw;
    DetailsOfFirstEntry(raw, ys);
  }

  lemma DetailsOfFirstEntry(raw: map<string, Json>, ys: seq<Json>)
    requires |raw| > 0
    ensures DetailsResult(JObject(map["teams" := JArray([JObject(raw)] + ys)])) == TransformApiDataToTeam(raw)
  {
    var m := map["teams" := JArray([JObject(raw)] + ys)];
    assert FirstEntry(m) == Success(JObject(raw)) by {
      assert ([JObject(raw)] + ys)[0] == JObject(raw);
    }
    assert Truthy(JObject(raw));
  }
}
