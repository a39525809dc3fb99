/** The search side of the app: classifying a postal code, turning it into a
    geocoding request, reading the geocoder's answer, the search form's
    rules, and the controller that holds the map's centre and zoom and
    dispatches brewery fetches to the store. */
module App {
  import opened Wrappers
  import Strings
  import Breweries

  type Coordinate = Breweries.Coordinate

  datatype Country = US | UK

  /** The two postcode libraries, whose internals are not modelled:
      `isValidUK` and `parseUK` stand for the UK postcode grammar check and
      the normalised `postcode` field of its parse, `isValidUS` for the US
      ZIP check of the validator. */
  datatype PostcodeLibrary = PostcodeLibrary(
    isValidUK: string -> bool,
    parseUK: string -> string,
    isValidUS: string -> bool)

  /** The `[country, formattedPostal]` pair; `None` stands for `null`. */
  datatype Parsed = Parsed(country: Option<Country>, code: string)

  /** `parsePostal`: the UK grammar is tried first, then the US one. */
  function ParsePostal(lib: PostcodeLibrary, postalCode: string): (r: Parsed)
    ensures r.country == Some(UK) <==> lib.isValidUK(postalCode)
    ensures r.country == Some(US) <==> !lib.isValidUK(postalCode) && lib.isValidUS(postalCode)
    ensures r.country == Some(UK) ==> r.code == lib.parseUK(postalCode)
    ensures r.country == Some(US) ==> r.code == postalCode
    ensures r.country == None ==> r.code == ""
  {
    if lib.isValidUK(postalCode) then Parsed(Some(UK), lib.parseUK(postalCode))
    else if lib.isValidUS(postalCode) then Parsed(Some(US), postalCode)
    else Parsed(None, "")
  }

  /** When the UK check passes, what the US check says makes no difference. */
  lemma UKCheckTakesPriority(lib: PostcodeLibrary, other: PostcodeLibrary, postalCode: string)
    requires lib.isValidUK(postalCode) && other.isValidUK(postalCode)
    requires lib.parseUK(postalCode) == other.parseUK(postalCode)
    ensures ParsePostal(lib, postalCode) == ParsePostal(other, postalCode)
    ensures ParsePostal(lib, postalCode) == Parsed(Some(UK), lib.parseUK(postalCode))
  {
  }

  const UNKNOWN_POSTAL := "Could not find postal code. Please search again."

  /** The two geocoding services, one per country. */
  datatype GeoService = UsZipLatLng | UkPostcodeLatLng

  /** A geocoding request: the service, the query parameter's name and its
      value (before URL escaping). */
  datatype GeoRequest = GeoRequest(service: GeoService, param: string, value: string)

  /** The geocoder's answer body. */
  datatype GeoResponse = GeoResponse(status: int, msg: string, output: seq<Coordinate>)

  /** What the HTTP call yields: a body, or a rejection with a message. */
  datatype Transport = Received(body: GeoResponse) | TransportFailed(message: string)

  /** Why a search rejected: an `Error` thrown with a message, or the
      failure to read `output[0]` of an empty `output`. */
  datatype SearchError = Thrown(message: string) | NoOutput

  /** The first half of `searchPostal`: classify, then choose the service
      and the parameter, or reject before any request. */
  function Lookup(lib: PostcodeLibrary, postalCode: string): (r: Result<GeoRequest, SearchError>)
    ensures r.Err? <==> ParsePostal(lib, postalCode).country == None
    ensures r.Err? ==> r.error == Thrown(UNKNOWN_POSTAL)
    ensures lib.isValidUK(postalCode) ==>
              r == Ok(GeoRequest(UkPostcodeLatLng, "postcode", lib.parseUK(postalCode)))
    ensures !lib.isValidUK(postalCode) && lib.isValidUS(postalCode) ==>
              r == Ok(GeoRequest(UsZipLatLng, "zip", postalCode))
  {
    var parsed := ParsePostal(lib, postalCode);
    match parsed.country
    case None => Err(Thrown(UNKNOWN_POSTAL))
    case Some(US) => Ok(GeoRequest(UsZipLatLng, "zip", postalCode))
    case Some(UK) => Ok(GeoRequest(UkPostcodeLatLng, "postcode", parsed.code))
  }

  /** The geocoder's sentinel "no match" statuses. */
  predicate IsErrorStatus(status: int) {
    status == -3 || status == -2
  }

  /** The second half of `searchPostal`: read the geocoder's answer. */
  function Interpret(t: Transport): (r: Result<Coordinate, SearchError>)
    ensures t.TransportFailed? ==> r == Err(Thrown(t.message))
    ensures t.Received? && IsErrorStatus(t.body.status) ==> r == Err(Thrown(t.body.msg))
    ensures r.Ok? <==> t.Received? && !IsErrorStatus(t.body.status) && |t.body.output| > 0
    ensures r.Ok? ==> r.value == t.body.output[0]
  {
    match t
    case TransportFailed(message) => Err(Thrown(message))
    case Received(body) =>
      if IsErrorStatus(body.status) then Err(Thrown(body.msg))
      else if |body.output| == 0 then Err(NoOutput)
      else Ok(body.output[0])
  }

  /** `searchPostal` as a value: the coordinate found for `postalCode`, or
      why the search rejected. `geocoder` answers each request. */
  function Search(lib: PostcodeLibrary, postalCode: string, geocoder: GeoRequest -> Transport)
    : (r: Result<Coordinate, SearchError>)
    ensures ParsePostal(lib, postalCode).country == None ==> r == Err(Thrown(UNKNOWN_POSTAL))
    ensures r.Ok? ==>
              && Lookup(lib, postalCode).Ok?
              && var answer := geocoder(Lookup(lib, postalCode).value);
              && answer.Received?
              && !IsErrorStatus(answer.body.status)
              && |answer.body.output| > 0
              && r.value == answer.body.output[0]
    ensures r.Ok? <==>
              && Lookup(lib, postalCode).Ok?
              && geocoder(Lookup(lib, postalCode).value).Received?
              && !IsErrorStatus(geocoder(Lookup(lib, postalCode).value).body.status)
              && |geocoder(Lookup(lib, postalCode).value).body.output| > 0
    ensures Lookup(lib, postalCode).Ok? &&
            geocoder(Lookup(lib, postalCode).value).Received? &&
            IsErrorStatus(geocoder(Lookup(lib, postalCode).value).body.status) ==>
              r == Err(Thrown(geocoder(Lookup(lib, postalCode).value).body.msg))
    ensures Lookup(lib, postalCode).Ok? &&
            geocoder(Lookup(lib, postalCode).value).TransportFailed? ==>
              r == Err(Thrown(geocoder(Lookup(lib, postalCode).value).message))
  {
    match Lookup(lib, postalCode)
    case Err(e) => Err(e)
    case Ok(request) => Interpret(geocoder(request))
  }

  /** The search form's fields. */
  datatype FormValues = FormValues(postalCode: string, numResults: int)

  const INITIAL_VALUES := FormValues("91011", 50)

  const POSTAL_MESSAGE := "Must be a valid postal string"
  const MIN_MESSAGE := "must be at least 1"
  const MAX_MESSAGE := "cannot be above 50"

  /** The bounds the form's rules enforce. */
  predicate Accepts(v: FormValues) {
    4 <= |v.postalCode| <= 9 && 1 <= v.numResults <= 50
  }

  /** The messages of the form's rules that `v` breaks, in rule order:
      the postal code's length rule, then the lower and the upper bound on
      the number of results. */
  function Validate(v: FormValues): (errors: seq<string>)
    ensures errors == [] <==> Accepts(v)
    ensures POSTAL_MESSAGE in errors <==> !(4 <= |v.postalCode| <= 9)
    ensures MIN_MESSAGE in errors <==> v.numResults < 1
    ensures MAX_MESSAGE in errors <==> v.numResults > 50
  {
    (if 4 <= |v.postalCode| <= 9 then [] else [POSTAL_MESSAGE])
      + (if 1 <= v.numResults then [] else [MIN_MESSAGE])
      + (if v.numResults <= 50 then [] else [MAX_MESSAGE])
  }

  lemma InitialValuesAccepted()
    ensures Accepts(INITIAL_VALUES) && Validate(INITIAL_VALUES) == []
  {
  }

  /** The postal code as the brewery list and the details show it: the part
      before the first `-`, or all of it when there is none. */
  function DisplayPostal(postalCode: string): (r: string)
    ensures r <= postalCode
    ensures '-' !in r
    ensures '-' in postalCode ==> postalCode[|r|] == '-'
    ensures '-' !in postalCode ==> r == postalCode
  {
    Strings.SplitHead(postalCode, '-');
    Strings.Split(postalCode, '-')[0]
  }

  /** What the app does to the outside world, in order. */
  datatype Effect =
    | Geocode(request: GeoRequest)
    | Fetch(args: Breweries.FetchArgs)
    | ShowError(error: SearchError)

  /** The geocoding request a search sends, if it sends one. */
  function SearchRequests(lib: PostcodeLibrary, postalCode: string): (r: seq<Effect>)
    ensures |r| <= 1
    ensures r == [] <==> ParsePostal(lib, postalCode).country == None
    ensures r != [] ==> r[0] == Geocode(Lookup(lib, postalCode).value)
  {
    match Lookup(lib, postalCode)
    case Err(_) => []
    case Ok(request) => [Geocode(request)]
  }

  /** The effects of `onFinish`: the geocoding request, then either one fetch
      at the geocoded coordinate with the submitted number of results, or,
      on failure, the error message and nothing else. */
  function FinishEffects(lib: PostcodeLibrary, v: FormValues, geocoder: GeoRequest -> Transport)
    : (r: seq<Effect>)
    ensures |r| >= 1
    ensures forall i :: 0 <= i < |r| - 1 ==> r[i].Geocode?
    ensures r[|r| - 1].Fetch? <==> Search(lib, v.postalCode, geocoder).Ok?
    ensures Search(lib, v.postalCode, geocoder).Ok? ==>
              r[|r| - 1] == Fetch(Breweries.FetchArgs(Search(lib, v.postalCode, geocoder).value, v.numResults))
    ensures Search(lib, v.postalCode, geocoder).Err? ==>
              r[|r| - 1] == ShowError(Search(lib, v.postalCode, geocoder).error)
    ensures ParsePostal(lib, v.postalCode).country == None ==>
              r == [ShowError(Thrown(UNKNOWN_POSTAL))]
  {
    SearchRequests(lib, v.postalCode) +
      match Search(lib, v.postalCode, geocoder)
      case Ok(coordinates) => [Fetch(Breweries.FetchArgs(coordinates, v.numResults))]
      case Err(e) => [ShowError(e)]
  }

  const STARTING_CENTER := Breweries.Coordinate(34.16, -118.0798)
  const STARTING_ZOOM: real := 11.0
  /** The number of results asked for on mount and on every map move. */
  const VIEWPORT_RESULTS := 50

  /** Every fetch sent so far asked for between 1 and 50 results. */
  predicate FetchesBounded(effects: seq<Effect>) {
    forall i :: 0 <= i < |effects| && effects[i].Fetch? ==> 1 <= effects[i].args.numResults <= 50
  }

  /** The app's own state, the map's viewport, and the store it dispatches to. */
  class Controller {
    const store: Breweries.Slice
    var center: Coordinate
    var zoom: real
    /** Everything sent to the outside world, in order. */
    var effects: seq<Effect>

    ghost predicate Valid()
      reads this, store
    {
      store.Valid()
    }

    /** Mounting the app: the starting viewport, and one fetch of 50 at the
        starting centre. */
    constructor (store: Breweries.Slice)
      requires store.Valid()
      modifies store
      ensures this.store == store && Valid()
      ensures center == STARTING_CENTER && zoom == STARTING_ZOOM
      ensures effects == [Fetch(Breweries.FetchArgs(STARTING_CENTER, VIEWPORT_RESULTS))]
      ensures FetchesBounded(effects)
      ensures store.applied == old(store.applied) + [Breweries.Pending]
      ensures store.status == Breweries.Loading
      ensures store.breweries == old(store.breweries) && store.error == old(store.error)
    {
      this.store := store;
      center, zoom := STARTING_CENTER, STARTING_ZOOM;
      effects := [];
      new;
      Dispatch(Breweries.FetchArgs(STARTING_CENTER, VIEWPORT_RESULTS));
    }

    /** `dispatch(fetchBreweries(args))`: the pending action, then the request. */
    method Dispatch(args: Breweries.FetchArgs)
      requires Valid()
      modifies this, store
      ensures Valid()
      ensures effects == old(effects) + [Fetch(args)]
      ensures center == old(center) && zoom == old(zoom)
      ensures store.applied == old(store.applied) + [Breweries.Pending]
      ensures store.status == Breweries.Loading
      ensures store.breweries == old(store.breweries) && store.error == old(store.error)
    {
      store.OnPending();
      effects := effects + [Fetch(args)];
    }

    /** `searchPostal`: on success the map is recentred on the coordinate
        found, and the coordinate is returned. */
    method SearchPostal(lib: PostcodeLibrary, postalCode: string, geocoder: GeoRequest -> Transport)
      returns (r: Result<Coordinate, SearchError>)
      requires Valid()
      modifies this
      ensures Valid()
      ensures r == Search(lib, postalCode, geocoder)
      ensures effects == old(effects) + SearchRequests(lib, postalCode)
      ensures center == (if r.Ok? then r.value else old(center))
      ensures zoom == old(zoom)
    {
      var parsed := ParsePostal(lib, postalCode);
      if parsed.country == None {
        return Err(Thrown(UNKNOWN_POSTAL));
      }
      var request;
      if parsed.country == Some(US) {
        request := GeoRequest(UsZipLatLng, "zip", postalCode);
      } else {
        request := GeoRequest(UkPostcodeLatLng, "postcode", parsed.code);
      }
      effects := effects + [Geocode(request)];
      var answer := geocoder(request);
      if answer.TransportFailed? {
        return Err(Thrown(answer.message));
      }
      if answer.body.status == -3 || answer.body.status == -2 {
        return Err(Thrown(answer.body.msg));
      }
      if |answer.body.output| == 0 {
        return Err(NoOutput);
      }
      var coordinates := answer.body.output[0];
      center := coordinates;
      r := Ok(coordinates);
    }

    /** `onFinish`: search, then fetch with the submitted number of results;
        a failed search only shows its message. */
    method OnFinish(lib: PostcodeLibrary, values: FormValues, geocoder: GeoRequest -> Transport)
      requires Valid() && 1 <= values.numResults <= 50
      modifies this, store
      ensures Valid()
      ensures effects == old(effects) + FinishEffects(lib, values, geocoder)
      ensures old(FetchesBounded(effects)) ==> FetchesBounded(effects)
      ensures zoom == old(zoom)
      ensures Search(lib, values.postalCode, geocoder).Ok? ==>
                && center == Search(lib, values.postalCode, geocoder).value
                && store.applied == old(store.applied) + [Breweries.Pending]
                && store.status == Breweries.Loading
                && store.breweries == old(store.breweries) && store.error == old(store.error)
      ensures Search(lib, values.postalCode, geocoder).Err? ==>
                center == old(center) && unchanged(store)
    {
      var r := SearchPostal(lib, values.postalCode, geocoder);
      match r
      case Ok(coordinates) =>
        Dispatch(Breweries.FetchArgs(coordinates, values.numResults));
      case Err(e) =>
        effects := effects + [ShowError(e)];
    }

    /** Submitting the form: its rules are checked first, and only values
        that pass them reach `onFinish`. */
    method Submit(lib: PostcodeLibrary, values: FormValues, geocoder: GeoRequest -> Transport)
      returns (errors: seq<string>)
      requires Valid()
      modifies this, store
      ensures Valid()
      ensures errors == Validate(values)
      ensures errors != [] ==> unchanged(this) && unchanged(store)
      ensures errors == [] ==> effects == old(effects) + FinishEffects(lib, values, geocoder)
      ensures old(FetchesBounded(effects)) ==> FetchesBounded(effects)
      ensures errors == [] ==> zoom == old(zoom)
      ensures errors == [] && Search(lib, values.postalCode, geocoder).Ok? ==>
                && center == Search(lib, values.postalCode, geocoder).value
                && store.applied == old(store.applied) + [Breweries.Pending]
                && store.status == Breweries.Loading
                && store.breweries == old(store.breweries) && store.error == old(store.error)
      ensures errors == [] && Search(lib, values.postalCode, geocoder).Err? ==>
                center == old(center) && unchanged(store)
    {
      errors := Validate(values);
      if errors == [] {
        OnFinish(lib, values, geocoder);
      }
    }

    /** `onBoundsChanged`: the new viewport, and a fetch of 50 at its centre. */
    method OnBoundsChanged(newCenter: Coordinate, newZoom: real)
      requires Valid()
      modifies this, store
      ensures Valid()
      ensures center == newCenter && zoom == newZoom
      ensures effects == old(effects) + [Fetch(Breweries.FetchArgs(newCenter, VIEWPORT_RESULTS))]
      ensures old(FetchesBounded(effects)) ==> FetchesBounded(effects)
      ensures store.applied == old(store.applied) + [Breweries.Pending]
      ensures store.status == Breweries.Loading
      ensures store.breweries == old(store.breweries) && store.error == old(store.error)
    {
      center := newCenter;
      Dispatch(Breweries.FetchArgs(newCenter, VIEWPORT_RESULTS));
      zoom := newZoom;
    }
  }

  /** Two map moves in a row whose responses arrive in the opposite order:
      the map shows the second viewport, the list the first move's breweries. */
  method OverlappingMoves(c: Controller, first: Coordinate, second: Coordinate, zoom: real,
                          forFirst: seq<Breweries.Brewery>, forSecond: seq<Breweries.Brewery>)
    requires c.Valid()
    modifies c, c.store
    ensures c.Valid()
    ensures c.center == second && c.zoom == zoom
    ensures c.effects == old(c.effects) + [Fetch(Breweries.FetchArgs(first, VIEWPORT_RESULTS)),
                                           Fetch(Breweries.FetchArgs(second, VIEWPORT_RESULTS))]
    ensures c.store.breweries == forFirst && c.store.status == Breweries.Succeeded
    ensures c.store.error == old(c.store.error)
  {
    c.OnBoundsChanged(first, zoom);
    c.OnBoundsChanged(second, zoom);
    c.store.OnFulfilled(forSecond);
    c.store.OnFulfilled(forFirst);
  }
}
