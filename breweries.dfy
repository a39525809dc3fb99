/** The breweries store slice: the four-status loading state machine that
    holds the brewery list shown on the map, the reducers for the three
    lifecycle actions of the `fetchBreweries` thunk, and the query the thunk
    sends to the brewery directory. */
module Breweries {
  import opened Wrappers
  import Strings

  datatype LoadingState = Idle | Loading | Succeeded | Failed {
    /** The status string the store holds. */
    function Label(): (text: string)
      ensures StatusNamed(text) == Some(this)
    {
      match this
      case Idle => "idle"
      case Loading => "loading"
      case Succeeded => "succeeded"
      case Failed => "failed"
    }
  }

  /** The status a string names, if any: the inverse of `Label`. */
  function StatusNamed(text: string): Option<LoadingState> {
    if text == "idle" then Some(Idle)
    else if text == "loading" then Some(Loading)
    else if text == "succeeded" then Some(Succeeded)
    else if text == "failed" then Some(Failed)
    else None
  }

  /** Different statuses are different strings. */
  lemma LabelsDistinct(a: LoadingState, b: LoadingState)
    ensures a.Label() == b.Label() ==> a == b
  {
  }

  /** A point on the map. The values are carried, never computed with. */
  datatype Coordinate = Coordinate(latitude: real, longitude: real)

  /** One record of the directory's answer; absent optional fields are `None`. */
  datatype Brewery = Brewery(
    id: string,
    name: string,
    city: string,
    postalCode: string,
    street: Option<string>,
    phone: Option<string>,
    websiteUrl: Option<string>,
    latitude: string,
    longitude: string)

  /** The argument of `fetchBreweries`. */
  datatype FetchArgs = FetchArgs(coordinates: Coordinate, numResults: int)

  const ENDPOINT := "https://api.openbrewerydb.org/breweries"

  /** True of a rendered number that contains none of the URL's delimiters,
      as JavaScript's number-to-string conversion never does. */
  predicate Delimiterless(s: string) {
    '?' !in s && '&' !in s && '=' !in s && ',' !in s
  }

  /** The query string of the directory request; `show` renders a number
      the way a JavaScript template literal does. */
  /** Whatever the numbers render to, the query opens with the `by_dist`
      parameter and closes with the `per_page` one. */
  function Query(args: FetchArgs, show: real -> string): (q: string)
    ensures Strings.Split(q, '=')[0] == "by_dist"
    ensures var tail := "&per_page=" + show(args.numResults as real);
      |tail| <= |q| && q[|q| - |tail|..] == tail
  {
    var q := "by_dist=" + show(args.coordinates.latitude) + "," + show(args.coordinates.longitude)
      + "&per_page=" + show(args.numResults as real);
    assert q == "by_dist" + ['='] + q[8..];
    Strings.SplitAt("by_dist", '=', q[8..]);
    q
  }

  /** Whatever the numbers render to, the part before the first `?` is the
      directory endpoint and the part after it is the query. */
  function Url(args: FetchArgs, show: real -> string): (u: string)
    ensures Strings.Split(u, '?')[0] == ENDPOINT
    ensures |u| > |ENDPOINT| && u[|ENDPOINT| + 1..] == Query(args, show)
  {
    var u := ENDPOINT + "?" + Query(args, show);
    assert u == ENDPOINT + ['?'] + Query(args, show);
    assert '?' !in ENDPOINT by {
      assert forall i :: 0 <= i < |ENDPOINT| ==> ENDPOINT[i] != '?';
    }
    Strings.SplitAt(ENDPOINT, '?', Query(args, show));
    u
  }

  lemma NoQuestionMark(args: FetchArgs, show: real -> string)
    requires Delimiterless(show(args.coordinates.latitude))
    requires Delimiterless(show(args.coordinates.longitude))
    requires Delimiterless(show(args.numResults as real))
    ensures '?' !in ENDPOINT && '?' !in Query(args, show)
  {
  }

  /** Reading the URL back: the endpoint, then exactly two parameters,
      `by_dist` holding latitude and longitude in that order and `per_page`
      holding the number of results. */
  lemma QueryFields(args: FetchArgs, show: real -> string)
    requires Delimiterless(show(args.coordinates.latitude))
    requires Delimiterless(show(args.coordinates.longitude))
    requires Delimiterless(show(args.numResults as real))
    ensures Strings.Split(Url(args, show), '?') == [ENDPOINT, Query(args, show)]
    ensures var params := Strings.Split(Query(args, show), '&');
      && |params| == 2
      && Strings.Split(params[0], '=') ==
           ["by_dist", show(args.coordinates.latitude) + "," + show(args.coordinates.longitude)]
      && Strings.Split(Strings.Split(params[0], '=')[1], ',') ==
           [show(args.coordinates.latitude), show(args.coordinates.longitude)]
      && Strings.Split(params[1], '=') == ["per_page", show(args.numResults as real)]
  {
    var lat, lon, n := show(args.coordinates.latitude), show(args.coordinates.longitude), show(args.numResults as real);
    var byDist, perPage := "by_dist=" + lat + "," + lon, "per_page=" + n;
    var q := Query(args, show);
    assert q == byDist + ['&'] + perPage;
    assert Url(args, show) == ENDPOINT + ['?'] + q;
    NoQuestionMark(args, show);
    Strings.SplitPair(ENDPOINT, '?', q);
    Strings.SplitPair(byDist, '&', perPage);
    assert byDist == "by_dist" + ['='] + (lat + [','] + lon);
    Strings.SplitPair("by_dist", '=', lat + [','] + lon);
    Strings.SplitPair(lat, ',', lon);
    assert perPage == "per_page" + ['='] + n;
    Strings.SplitPair("per_page", '=', n);
  }

  /** The slice's state as a value. */
  datatype SliceState = SliceState(breweries: seq<Brewery>, status: LoadingState, error: Option<string>)

  /** The lifecycle actions of `fetchBreweries`, in the order they arrive. */
  datatype Action = Pending | Fulfilled(payload: seq<Brewery>) | Rejected(message: Option<string>)

  /** The initial state: no breweries, idle, and no error set. */
  const INITIAL := SliceState([], Idle, None)

  /** The reducers. */
  function Reduce(s: SliceState, a: Action): (r: SliceState)
    ensures r.status == StatusAfter(a)
    ensures r.breweries == (if a.Fulfilled? then a.payload else s.breweries)
    ensures r.error == (if a.Rejected? then a.message else s.error)
  {
    match a
    case Pending => s.(status := Loading)
    case Fulfilled(payload) => s.(status := Succeeded, breweries := payload)
    case Rejected(message) => s.(status := Failed, error := message)
  }

  /** The state after the actions have been applied one by one, in arrival order. */
  function ReduceAll(s: SliceState, actions: seq<Action>): (r: SliceState)
    ensures actions == [] ==> r == s
    ensures actions != [] ==> r.status != Idle
    ensures r.breweries == s.breweries ||
            exists i :: 0 <= i < |actions| && actions[i] == Fulfilled(r.breweries)
    ensures r.error == s.error ||
            exists i :: 0 <= i < |actions| && actions[i] == Rejected(r.error)
    decreases |actions|
  {
    if actions == [] then s
    else
      var rest := actions[1..];
      assert forall i :: 0 <= i < |rest| ==> rest[i] == actions[i + 1];
      ReduceAll(Reduce(s, actions[0]), rest)
  }

  /** The status each action leaves behind. */
  function StatusAfter(a: Action): LoadingState {
    match a
    case Pending => Loading
    case Fulfilled(_) => Succeeded
    case Rejected(_) => Failed
  }

  /** `actions[i]` is the last `Fulfilled` action of `actions`. */
  predicate LastFulfilledAt(actions: seq<Action>, i: int) {
    0 <= i < |actions| && actions[i].Fulfilled? &&
    forall j :: i < j < |actions| ==> !actions[j].Fulfilled?
  }

  /** `actions[i]` is the last `Rejected` action of `actions`. */
  predicate LastRejectedAt(actions: seq<Action>, i: int) {
    0 <= i < |actions| && actions[i].Rejected? &&
    forall j :: i < j < |actions| ==> !actions[j].Rejected?
  }

  /** The payload of the last `Fulfilled` action, or `init` when there is none. */
  function LatestBreweries(init: seq<Brewery>, actions: seq<Action>): (r: seq<Brewery>)
    ensures (forall i :: 0 <= i < |actions| ==> !actions[i].Fulfilled?) ==> r == init
    ensures forall i :: LastFulfilledAt(actions, i) ==> r == actions[i].payload
    decreases |actions|
  {
    if actions == [] then init
    else if actions[|actions| - 1].Fulfilled? then actions[|actions| - 1].payload
    else LatestBreweries(init, actions[..|actions| - 1])
  }

  /** The message of the last `Rejected` action, or `init` when there is none. */
  function LatestError(init: Option<string>, actions: seq<Action>): (r: Option<string>)
    ensures (forall i :: 0 <= i < |actions| ==> !actions[i].Rejected?) ==> r == init
    ensures forall i :: LastRejectedAt(actions, i) ==> r == actions[i].message
    decreases |actions|
  {
    if actions == [] then init
    else if actions[|actions| - 1].Rejected? then actions[|actions| - 1].message
    else LatestError(init, actions[..|actions| - 1])
  }

  lemma {:induction false} ReduceAllAppend(s: SliceState, actions: seq<Action>, a: Action)
    ensures ReduceAll(s, actions + [a]) == Reduce(ReduceAll(s, actions), a)
    decreases |actions|
  {
    if actions != [] {
      assert (actions + [a])[1..] == actions[1..] + [a];
      ReduceAllAppend(Reduce(s, actions[0]), actions[1..], a);
    }
  }

  /** Last applied wins, field by field: the list is the last fulfilled
      payload, the error the last rejection's message, the status that of
      the last action; nothing compares when a request was issued. */
  lemma {:induction false} LastAppliedWins(s: SliceState, actions: seq<Action>)
    ensures ReduceAll(s, actions).breweries == LatestBreweries(s.breweries, actions)
    ensures ReduceAll(s, actions).error == LatestError(s.error, actions)
    ensures ReduceAll(s, actions).status ==
              if actions == [] then s.status else StatusAfter(actions[|actions| - 1])
    decreases |actions|
  {
    if actions != [] {
      var front, last := actions[..|actions| - 1], actions[|actions| - 1];
      assert actions == front + [last];
      LastAppliedWins(s, front);
      ReduceAllAppend(s, front, last);
    }
  }

  /** Once any action has arrived the slice is never idle again, and from
      every state each of the other three statuses is one action away:
      no status is terminal. */
  lemma NeverIdleAgain(s: SliceState, actions: seq<Action>)
    requires actions != []
    ensures ReduceAll(s, actions).status != Idle
  {
    LastAppliedWins(s, actions);
  }

  lemma StatusReachable(s: SliceState, t: LoadingState)
    requires t != Idle
    ensures exists a :: Reduce(s, a).status == t
  {
    var a := match t
      case Loading => Pending
      case Succeeded => Fulfilled([])
      case _ => Rejected(None);
    assert Reduce(s, a).status == t;
  }

  /** Two overlapping fetches whose responses arrive in the opposite order to
      their requests: the slower, older response is the one left in the list. */
  lemma StaleResponseWins(s: SliceState, older: seq<Brewery>, newer: seq<Brewery>)
    ensures ReduceAll(s, [Pending, Pending, Fulfilled(newer), Fulfilled(older)]) ==
              SliceState(older, Succeeded, s.error)
  {
    LastAppliedWins(s, [Pending, Pending, Fulfilled(newer), Fulfilled(older)]);
  }

  /** The store's slice, updated in place by the reducers. */
  class Slice {
    var breweries: seq<Brewery>
    var status: LoadingState
    var error: Option<string>
    /** The lifecycle actions applied so far, in arrival order. */
    ghost var applied: seq<Action>

    function State(): SliceState
      reads this
    {
      SliceState(breweries, status, error)
    }

    ghost predicate Valid()
      reads this
    {
      State() == ReduceAll(INITIAL, applied)
    }

    constructor ()
      ensures Valid() && applied == []
      ensures breweries == [] && status == Idle && error == None
    {
      breweries, status, error := [], Idle, None;
      applied := [];
    }

    /** `pending`: loading, with the list and the error kept. */
    method OnPending()
      requires Valid()
      modifies this
      ensures Valid() && applied == old(applied) + [Pending]
      ensures status == Loading && breweries == old(breweries) && error == old(error)
    {
      ReduceAllAppend(INITIAL, applied, Pending);
      status := Loading;
      applied := applied + [Pending];
    }

    /** `fulfilled`: succeeded, the list replaced by a copy of the payload
      (an empty one too), the error kept. */
    method OnFulfilled(payload: seq<Brewery>)
      requires Valid()
      modifies this
      ensures Valid() && applied == old(applied) + [Fulfilled(payload)]
      ensures status == Succeeded && breweries == payload && error == old(error)
    {
      ReduceAllAppend(INITIAL, applied, Fulfilled(payload));
      status := Succeeded;
      breweries := payload;
      applied := applied + [Fulfilled(payload)];
    }

    /** `rejected`: failed, the error set to the action's message, the old
      list kept on show. */
    method OnRejected(message: Option<string>)
      requires Valid()
      modifies this
      ensures Valid() && applied == old(applied) + [Rejected(message)]
      ensures status == Failed && error == message && breweries == old(breweries)
    {
      ReduceAllAppend(INITIAL, applied, Rejected(message));
      status := Failed;
      error := message;
      applied := applied + [Rejected(message)];
    }
  }
}
