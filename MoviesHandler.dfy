/** MoviesHandler: routing of /movies, the validation rules for one movie and
    the POST admission pipeline (ordered early exits, validate every movie,
    then add every movie). The pure functions state what a request must
    produce; the class runs it step by step against the mutable store. */
module Handler {
  import opened Wrappers
  import opened Model
  import opened Text
  import opened Store
  import opened Http

  const MaxRequestSize: int := 1_000_000
  const FirstMovieYear: int := 1888

  /** What Gson's `fromJson(body, List<Movie>)` produced: a syntax failure, some
      other failure, a JSON `null`, or a list whose elements may be null.
      Exception messages may be null. */
  datatype Decoded =
    | SyntaxError(detail: Option<string>)
    | OtherFailure(detail: Option<string>)
    | NullList
    | Movies(items: seq<Option<Movie>>)

  /** The parts of an HttpExchange the handler reads: method, path, the first
      Content-Type header, the byte length of the body and how it decodes. */
  datatype Request = Request(
    requestMethod: string,
    path: string,
    contentType: Option<string>,
    bodyLength: nat,
    decoded: Decoded)

  // ---------------------------------------------------------------------
  // Routing

  datatype Route = NotFoundRoute | MethodNotAllowedRoute | GetRoute | PostRoute

  /** `handle` and `handleMoviesCollection`: only the exact path "/movies" is
      served, and on it only GET and POST. */
  function RouteOf(req: Request): (r: Route)
    ensures r == NotFoundRoute <==> req.path != "/movies"
    ensures r == GetRoute <==> req.path == "/movies" && req.requestMethod == "GET"
    ensures r == PostRoute <==> req.path == "/movies" && req.requestMethod == "POST"
    ensures r == MethodNotAllowedRoute <==>
      req.path == "/movies" && req.requestMethod != "GET" && req.requestMethod != "POST"
  {
    if req.path != "/movies" then NotFoundRoute
    else if req.requestMethod == "GET" then GetRoute
    else if req.requestMethod == "POST" then PostRoute
    else MethodNotAllowedRoute
  }

  // ---------------------------------------------------------------------
  // Validation of one movie

  const NullMovieMessage: string := "Movie cannot be null"
  const EmptyTitleMessage: string := "Movie title cannot be empty"
  const TooEarlyMessage: string := "Movie year cannot be earlier than 1888 (the birth of cinema)"
  const FutureMessage: string := "Movie year cannot be in the distant future"

  /** A title that `trim().isEmpty()` does not reject: it has a character
      above U+0020. */
  predicate HasVisibleChar(title: string) {
    exists i :: 0 <= i < |title| && !IsTrimmable(title[i])
  }

  /** The acceptance condition, stated independently of the rule order: a
      movie is present, has a non-blank title and a year in
      (1888, currentYear + 5]. */
  predicate IsAcceptable(movie: Option<Movie>, currentYear: int) {
    && movie.Some?
    && movie.value.title.Some?
    && HasVisibleChar(movie.value.title.value)
    && FirstMovieYear < movie.value.year <= currentYear + 5
  }

  /** `validateMovie`: None when the movie passes, otherwise the message of the
      IllegalArgumentException of the first rule that fails. The second lower
      bound test of the source (year < 1888, after year <= 1888 has already
      been rejected) is kept; its branch is never taken. */
  function ValidateMovie(movie: Option<Movie>, currentYear: int): (r: Option<string>)
    ensures r.None? <==> IsAcceptable(movie, currentYear)
  {
    if movie.None? then
      Some(NullMovieMessage)
    else
      var m := movie.value;
      if m.title.None? || Trim(m.title.value) == [] then
        Some(EmptyTitleMessage)
      else if m.year <= FirstMovieYear then
        Some(TooEarlyMessage)
      else if m.year < FirstMovieYear then
        Some(TooEarlyMessage)
      else if m.year > currentYear + 5 then
        Some(FutureMessage)
      else
        TrimEmptyIffBlank(m.title.value);
        None
  }

  /** The rules apply in order and the first that fails gives the message:
      null movie, blank title, year not after 1888, year beyond
      currentYear + 5. */
  lemma ValidationMessages(movie: Option<Movie>, currentYear: int)
    ensures var r := ValidateMovie(movie, currentYear);
      && (r == Some(NullMovieMessage) <==> movie.None?)
      && (r == Some(EmptyTitleMessage) <==>
            movie.Some? && (movie.value.title.None? || !HasVisibleChar(movie.value.title.value)))
      && (r == Some(TooEarlyMessage) <==>
            movie.Some? && movie.value.title.Some? && HasVisibleChar(movie.value.title.value)
            && movie.value.year <= FirstMovieYear)
      && (r == Some(FutureMessage) <==>
            movie.Some? && movie.value.title.Some? && HasVisibleChar(movie.value.title.value)
            && FirstMovieYear < movie.value.year && movie.value.year > currentYear + 5)
  {
    if movie.Some? {
      TrimEmptyIffBlank(movie.value.title.GetOr(""));
    }
  }

  /** The year message renders the threshold as Java's string concatenation
      does. */
  lemma TooEarlyMessageEmbedsYear()
    ensures TooEarlyMessage ==
      "Movie year cannot be earlier than " + IntToDecimal(FirstMovieYear) + " (the birth of cinema)"
  {
    var digits := IntToDecimal(FirstMovieYear);
    assert digits == "1888" by {
      assert NatToDecimal(18) == "18";
      assert NatToDecimal(188) == "188";
    }
  }

  /** The size message renders the limit as Java's string concatenation does. */
  lemma TooLargeMessageEmbedsLimit()
    ensures TooLargeMessage ==
      "Request body too large. Maximum size is " + IntToDecimal(MaxRequestSize) + " bytes."
  {
    var digits := IntToDecimal(MaxRequestSize);
    assert digits == "1000000" by {
      assert NatToDecimal(100) == "100";
      assert NatToDecimal(10000) == "10000";
    }
  }

  /** The year bounds at their edges: 1888 is rejected and 1889 accepted;
      currentYear + 5 is accepted and currentYear + 6 rejected. */
  lemma YearBoundaries(m: Movie, currentYear: int)
    requires m.title.Some? && HasVisibleChar(m.title.value)
    requires FirstMovieYear + 1 <= currentYear + 5
    ensures ValidateMovie(Some(m.(year := 1888)), currentYear) == Some(TooEarlyMessage)
    ensures ValidateMovie(Some(m.(year := 1889)), currentYear).None?
    ensures ValidateMovie(Some(m.(year := currentYear + 5)), currentYear).None?
    ensures ValidateMovie(Some(m.(year := currentYear + 6)), currentYear) == Some(FutureMessage)
  {
  }

  // ---------------------------------------------------------------------
  // Validation of a batch and commitment of a batch

  /** Element i is the first one that fails validation. */
  predicate FirstFailureAt(items: seq<Option<Movie>>, currentYear: int, i: int) {
    && 0 <= i < |items|
    && ValidateMovie(items[i], currentYear).Some?
    && forall j :: 0 <= j < i ==> ValidateMovie(items[j], currentYear).None?
  }

  /** The message of the first element that fails validation, or None when
      every element passes. */
  function FirstInvalid(items: seq<Option<Movie>>, currentYear: int): (r: Option<string>)
    ensures r.None? <==> forall i :: 0 <= i < |items| ==> ValidateMovie(items[i], currentYear).None?
    ensures forall i :: FirstFailureAt(items, currentYear, i) ==> r == ValidateMovie(items[i], currentYear)
  {
    if items == [] then None
    else
      var first := ValidateMovie(items[0], currentYear);
      if first.Some? then first
      else
        var rest := FirstInvalid(items[1..], currentYear);
        assert forall i :: 1 <= i < |items| ==> items[i] == items[1..][i - 1];
        assert forall i :: FirstFailureAt(items, currentYear, i) ==> FirstFailureAt(items[1..], currentYear, i - 1);
        rest
  }

  predicate AllPresent(items: seq<Option<Movie>>) {
    forall i :: 0 <= i < |items| ==> items[i].Some?
  }

  /** The movies of a list with no null element. */
  function Present(items: seq<Option<Movie>>): (r: seq<Movie>)
    requires AllPresent(items)
    ensures |r| == |items|
    ensures forall i :: 0 <= i < |items| ==> items[i] == Some(r[i])
  {
    seq(|items|, i requires 0 <= i < |items| => items[i].value)
  }

  /** The store after `addMovie` on each movie in order, and the movies as
      stored. */
  function AddAll(s: StoreState, movies: seq<Movie>): (StoreState, seq<Movie>)
    decreases |movies|
  {
    if movies == [] then (s, [])
    else
      var (s1, stored) := AddAll(s, movies[..|movies| - 1]);
      var last := movies[|movies| - 1];
      (Added(s1, last), stored + [Stamped(s1, last)])
  }

  /** Adding a batch in order hands out consecutive ids from the counter:
      movie i is stored, and returned, as the input with id nextId + i; no
      earlier entry changes and the invariant is kept. */
  lemma {:induction false} AddAllStamps(s: StoreState, movies: seq<Movie>)
    ensures var (s', created) := AddAll(s, movies);
      && s'.nextId == s.nextId + |movies|
      && |created| == |movies|
      && (forall i :: 0 <= i < |movies| ==> created[i] == movies[i].(id := s.nextId + i))
      && (forall k :: k in s'.movies <==> k in s.movies || s.nextId <= k < s.nextId + |movies|)
      && (forall i :: 0 <= i < |movies| ==> s'.movies[s.nextId + i] == created[i])
      && (forall k :: k in s.movies && k < s.nextId ==> s'.movies[k] == s.movies[k])
      && (Inv(s) ==> Inv(s'))
    decreases |movies|
  {
    if movies != [] {
      var prefix := movies[..|movies| - 1];
      AddAllStamps(s, prefix);
      assert forall i :: 0 <= i < |prefix| ==> prefix[i] == movies[i];
    }
  }

  // ---------------------------------------------------------------------
  // The POST pipeline

  const ContentTypeMessage: string := "Content-Type must be application/json"
  const TooLargeMessage: string := "Request body too large. Maximum size is 1000000 bytes."
  const EmptyBodyMessage: string := "Request body is empty"
  const NoMoviesMessage: string := "No movies provided"

  /** The Content-Type check: present and, ASCII-lowercased, starting with
      "application/json". */
  predicate AcceptsContentType(contentType: Option<string>) {
    contentType.Some? && StartsWith(ToLowerAscii(contentType.value), "application/json")
  }

  /** What `handlePostMovies` must send and the store it must leave, from the
      store it finds. */
  function PostOutcome(s: StoreState, req: Request, currentYear: int): (Response, StoreState) {
    if !AcceptsContentType(req.contentType) then (SendBadRequest(ContentTypeMessage), s)
    else if req.bodyLength > MaxRequestSize then (SendBadRequest(TooLargeMessage), s)
    else if req.bodyLength == 0 then (SendBadRequest(EmptyBodyMessage), s)
    else
      match req.decoded
      case SyntaxError(detail) => (SendBadRequest(Concat("Invalid JSON format: ", detail)), s)
      case OtherFailure(detail) => (SendError(500, Concat("Server error: ", detail)), s)
      case NullList => (SendBadRequest(NoMoviesMessage), s)
      case Movies(items) =>
        if items == [] then (SendBadRequest(NoMoviesMessage), s)
        else
          var invalid := FirstInvalid(items, currentYear);
          if invalid.Some? then
            (SendBadRequest(Concat("Invalid movie data: ", invalid)), s)
          else
            AllPresentWhenValid(items, currentYear);
            var (s', created) := AddAll(s, Present(items));
            (SendJson(201, MovieList(created)), s')
  }

  /** Validation rejects null elements, so a batch that passes has none. */
  lemma AllPresentWhenValid(items: seq<Option<Movie>>, currentYear: int)
    requires FirstInvalid(items, currentYear).None?
    ensures AllPresent(items)
  {
    forall i | 0 <= i < |items| ensures items[i].Some? {
      assert ValidateMovie(items[i], currentYear).None?;
    }
  }

  /** The batch a request carries once every check before validation has
      passed. */
  predicate PassesEarlyChecks(req: Request) {
    && AcceptsContentType(req.contentType)
    && 0 < req.bodyLength <= MaxRequestSize
    && req.decoded.Movies?
    && req.decoded.items != []
  }

  /** The early exits fire in their fixed order, each with 400 (500 for an
      unexpected decoding failure) and without touching the store. */
  lemma PostEarlyExits(s: StoreState, req: Request, currentYear: int)
    ensures var (resp, s') := PostOutcome(s, req, currentYear);
      && (!AcceptsContentType(req.contentType) ==>
            resp == SendBadRequest(ContentTypeMessage) && s' == s)
      && (AcceptsContentType(req.contentType) && req.bodyLength > MaxRequestSize ==>
            resp == SendBadRequest(TooLargeMessage) && s' == s)
      && (AcceptsContentType(req.contentType) && req.bodyLength == 0 ==>
            resp == SendBadRequest(EmptyBodyMessage) && s' == s)
      && (AcceptsContentType(req.contentType) && 0 < req.bodyLength <= MaxRequestSize ==>
            match req.decoded
            case SyntaxError(d) => resp.status == 400 && s' == s
              && IsErrorEnvelope(resp, Concat("Invalid JSON format: ", d))
            case OtherFailure(d) => resp.status == 500 && s' == s
              && IsErrorEnvelope(resp, Concat("Server error: ", d))
            case NullList => resp == SendBadRequest(NoMoviesMessage) && s' == s
            case Movies(items) => items == [] ==> resp == SendBadRequest(NoMoviesMessage) && s' == s)
  {
  }

  /** All or nothing: a batch with any invalid element is refused with the
      first failing element's message, and nothing of it is stored. */
  lemma {:induction false} PostAllOrNothing(s: StoreState, req: Request, currentYear: int, i: int)
    requires PassesEarlyChecks(req)
    requires FirstFailureAt(req.decoded.items, currentYear, i)
    ensures PostOutcome(s, req, currentYear).1 == s
    ensures PostOutcome(s, req, currentYear).0 ==
      SendBadRequest("Invalid movie data: " + ValidateMovie(req.decoded.items[i], currentYear).value)
  {
    var invalid := FirstInvalid(req.decoded.items, currentYear);
    assert invalid == ValidateMovie(req.decoded.items[i], currentYear);
  }

  /** A one-movie batch with a year before the first film is refused with the
      year rule's message and stores nothing. */
  lemma RejectsPreCinemaYear(s: StoreState, req: Request, currentYear: int, m: Movie)
    requires PassesEarlyChecks(req) && req.decoded.items == [Some(m)]
    requires m.title.Some? && HasVisibleChar(m.title.value) && m.year == 1800
    ensures PostOutcome(s, req, currentYear) == (SendBadRequest("Invalid movie data: " + TooEarlyMessage), s)
  {
    PostAllOrNothing(s, req, currentYear, 0);
    ValidationMessages(Some(m), currentYear);
  }

  /** A POST is created (201) exactly when every check passes and every movie
      validates; otherwise the store is left as it was. */
  lemma PostCreatedIff(s: StoreState, req: Request, currentYear: int)
    ensures PostOutcome(s, req, currentYear).0.status == 201 <==>
      PassesEarlyChecks(req)
      && forall i :: 0 <= i < |req.decoded.items| ==> IsAcceptable(req.decoded.items[i], currentYear)
    ensures PostOutcome(s, req, currentYear).0.status != 201 ==> PostOutcome(s, req, currentYear).1 == s
  {
  }

  /** A created response means every check passed. */
  lemma PostCreatedShape(s: StoreState, req: Request, currentYear: int)
    requires PostOutcome(s, req, currentYear).0.status == 201
    ensures PassesEarlyChecks(req) && FirstInvalid(req.decoded.items, currentYear).None?
  {
  }

  /** A batch that passes every check is committed as AddAll describes. */
  lemma PostCommits(s: StoreState, req: Request, currentYear: int)
    requires PassesEarlyChecks(req) && FirstInvalid(req.decoded.items, currentYear).None?
    ensures AllPresent(req.decoded.items)
    ensures var r := AddAll(s, Present(req.decoded.items));
      PostOutcome(s, req, currentYear) == (SendJson(201, MovieList(r.1)), r.0)
  {
    AllPresentWhenValid(req.decoded.items, currentYear);
    assert req.decoded == Movies(req.decoded.items);
    assert AcceptsContentType(req.contentType);
    assert 0 < req.bodyLength <= MaxRequestSize;
  }

  /** On success the movies are added in array order with consecutive ids from
      the counter found, the response lists them with those ids, and each new
      id is above every id already stored. */
  lemma PostSuccess(s: StoreState, req: Request, currentYear: int) returns (created: seq<Movie>, s': StoreState)
    requires Inv(s)
    requires PostOutcome(s, req, currentYear).0.status == 201
    ensures PostOutcome(s, req, currentYear) == (SendJson(201, MovieList(created)), s')
    ensures PassesEarlyChecks(req) && AllPresent(req.decoded.items)
    ensures Inv(s') && s'.nextId == s.nextId + |req.decoded.items|
    ensures |created| == |req.decoded.items|
    ensures forall i :: 0 <= i < |created| ==> created[i] == req.decoded.items[i].value.(id := s.nextId + i)
    ensures forall i :: 0 <= i < |created| ==> s.nextId + i in s'.movies && s'.movies[s.nextId + i] == created[i]
    ensures forall i, k :: 0 <= i < |created| && k in s.movies ==> k < created[i].id
    ensures forall k :: k in s.movies ==> k in s'.movies && s'.movies[k] == s.movies[k]
  {
    PostCreatedShape(s, req, currentYear);
    PostCommits(s, req, currentYear);
    var movies := Present(req.decoded.items);
    AddAllStamps(s, movies);
    created, s' := AddAll(s, movies).1, AddAll(s, movies).0;
  }

  // ---------------------------------------------------------------------
  // The handler object

  /** MoviesHandler holds the store it was constructed with; the store is the
      only state a request touches. */
  class MoviesHandler {
    const store: MoviesStore

    constructor (store: MoviesStore)
      ensures this.store == store
    {
      this.store := store;
    }

    /** `handle`: routing, then the GET or POST handling. Every response
        carries the JSON Content-Type. */
    method Handle(req: Request, currentYear: int) returns (resp: Response)
      requires store.Valid()
      modifies store
      ensures store.Valid()
      ensures resp.contentType == JsonContentType
      ensures RouteOf(req) == NotFoundRoute ==>
        resp == SendNotFound("Endpoint not found") && store.State() == old(store.State())
      ensures RouteOf(req) == MethodNotAllowedRoute ==>
        resp == SendMethodNotAllowed() && store.State() == old(store.State())
      ensures RouteOf(req) == GetRoute ==>
        && store.State() == old(store.State())
        && resp.status == 200 && resp.body.Json? && resp.body.payload.MovieList?
        && IsListing(resp.body.payload.movies, store.movies)
      ensures RouteOf(req) == PostRoute ==>
        (resp, store.State()) == PostOutcome(old(store.State()), req, currentYear)
    {
      if req.path == "/movies" {
        resp := HandleMoviesCollection(req, currentYear);
      } else {
        resp := SendNotFound("Endpoint not found");
      }
    }

    method HandleMoviesCollection(req: Request, currentYear: int) returns (resp: Response)
      requires req.path == "/movies"
      requires store.Valid()
      modifies store
      ensures store.Valid()
      ensures resp.contentType == JsonContentType
      ensures RouteOf(req) == MethodNotAllowedRoute ==>
        resp == SendMethodNotAllowed() && store.State() == old(store.State())
      ensures RouteOf(req) == GetRoute ==>
        && store.State() == old(store.State())
        && resp.status == 200 && resp.body.Json? && resp.body.payload.MovieList?
        && IsListing(resp.body.payload.movies, store.movies)
      ensures RouteOf(req) == PostRoute ==>
        (resp, store.State()) == PostOutcome(old(store.State()), req, currentYear)
    {
      if req.requestMethod == "GET" {
        resp := HandleGetMovies();
      } else if req.requestMethod == "POST" {
        resp := HandlePostMovies(req, currentYear);
      } else {
        resp := SendMethodNotAllowed();
      }
    }

    /** `handleGetMovies`: 200 with a snapshot of every stored movie. */
    method HandleGetMovies() returns (resp: Response)
      requires store.Valid()
      ensures resp.status == 200 && resp.contentType == JsonContentType
      ensures resp.body.Json? && resp.body.payload.MovieList?
      ensures IsListing(resp.body.payload.movies, store.movies)
    {
      var movies := store.GetAllMovies();
      resp := SendJson(200, MovieList(movies));
    }

    /** `handlePostMovies`: the early exits, one loop validating every movie,
        then a second loop adding every movie to the store. */
    method HandlePostMovies(req: Request, currentYear: int) returns (resp: Response)
      requires store.Valid()
      modifies store
      ensures store.Valid()
      ensures (resp, store.State()) == PostOutcome(old(store.State()), req, currentYear)
    {
      if !AcceptsContentType(req.contentType) {
        resp := SendBadRequest(ContentTypeMessage);
        return;
      }
      if req.bodyLength > MaxRequestSize {
        resp := SendBadRequest(TooLargeMessage);
        return;
      }
      if req.bodyLength == 0 {
        resp := SendBadRequest(EmptyBodyMessage);
        return;
      }
      match req.decoded {
        case SyntaxError(detail) =>
          resp := SendBadRequest(Concat("Invalid JSON format: ", detail));
        case OtherFailure(detail) =>
          resp := SendError(500, Concat("Server error: ", detail));
        case NullList =>
          resp := SendBadRequest(NoMoviesMessage);
        case Movies(items) =>
          if items == [] {
            resp := SendBadRequest(NoMoviesMessage);
            return;
          }
          var i := 0;
          while i < |items|
            invariant 0 <= i <= |items|
            invariant forall j :: 0 <= j < i ==> ValidateMovie(items[j], currentYear).None?
          {
            var failure := ValidateMovie(items[i], currentYear);
            if failure.Some? {
              resp := SendBadRequest(Concat("Invalid movie data: ", failure));
              return;
            }
            i := i + 1;
          }
          AllPresentWhenValid(items, currentYear);
          var created := AddMovies(Present(items));
          resp := SendJson(201, MovieList(created));
      }
    }

    /** The second loop of `handlePostMovies`: `addMovie` on each movie in
        order, collecting the movies as stored. */
    method AddMovies(movies: seq<Movie>) returns (created: seq<Movie>)
      requires store.Valid()
      modifies store
      ensures store.Valid()
      ensures (store.State(), created) == AddAll(old(store.State()), movies)
    {
      created := [];
      var i := 0;
      while i < |movies|
        invariant 0 <= i <= |movies|
        invariant store.Valid()
        invariant (store.State(), created) == AddAll(old(store.State()), movies[..i])
      {
        var stored := store.AddMovie(movies[i]);
        assert movies[..i + 1][..i] == movies[..i];
        created := created + [stored];
        i := i + 1;
      }
      assert movies[..i] == movies;
    }
  }
}
