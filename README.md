# java-movies-hub in Dafny

A model of the core of a small in-memory movie service. The service exposes
one HTTP endpoint, `/movies`:

- `GET` lists the stored movies.
- `POST` admits a JSON array of movies.

The model covers four pieces:

- **Store** (`MoviesStore.dfy`) models `MoviesStore`. It is a map from id to
  movie, plus a counter that starts at 1.
  - The pure part is `StoreState` with the transition functions `Added`,
    `Updated`, `Deleted` and `Cleared`. It states what each operation does.
  - The class `MoviesStore` has the map and the counter as mutable fields.
    Each of its methods is proved to perform the matching transition.
  - Lemmas about runs of operations show that ids are handed out
    consecutively and never reused between clears.
- **Handler** (`MoviesHandler.dfy`) models `MoviesHandler`. It covers:
  - routing (404 / 405 / GET / POST);
  - the four ordered rules of `validateMovie`;
  - the POST pipeline: ordered early exits, a loop that validates every movie,
    then a loop that adds every movie.

  The function `PostOutcome` states the response and the resulting store of a
  POST. The class `MoviesHandler` runs the same steps against the mutable
  store and is proved to match `PostOutcome`.
- **Http** (`BaseHttpHandler.dfy`) models the response side of
  `BaseHttpHandler`. Each `send*` helper becomes a response descriptor: status,
  Content-Type and body. `sendError` maps a status to a label and builds the
  error envelope.
- **JsonUtil** (`JsonUtil.dfy`) models the hand-written encoder:
  - `toJson` dispatches on the kind of value.
  - `listToJson` is a method with the StringBuilder loop. It is proved equal to
    the functional encoding.
  - `movieToJson` and `errorToJson` are the format templates. Each is proved
    equal to a generic flat-object rendering.
  - `escapeJson` is the two `String.replace` passes. It is proved equal to a
    per-character escape, which gives its escaping properties.

Support modules:

- `Wrappers.dfy`: Option, for Java's nullable references and `Optional`.
- `Model.dfy`: the `Movie` and `ErrorResponse` records.
- `Text.dfy`: the `java.lang.String` behaviour the service relies on. This is
  ASCII lower-casing, `startsWith`, `trim`, decimal rendering of integers, and
  `"null"` for a null operand of `+`.

The request is a value. It holds the method, the path, the Content-Type
header, the body length, and what Gson's decoding produced. The current year
is a parameter.

## Model

| member | source | states |
|---|---|---|
| Store.EmptyStore | src/main/ru/practicum/moviehub/store/MoviesStore.java:13-14 | a new store has no movies, its counter is 1 and the store invariant holds |
| Store.Stamped | src/main/ru/practicum/moviehub/store/MoviesStore.java:25-26 | the record addMovie stores carries the counter value as its id and agrees with the input in every other field |
| Store.Added | src/main/ru/practicum/moviehub/store/MoviesStore.java:24-29 | addMovie advances the counter by exactly 1, adds exactly the key it issued, stores the stamped record there, keeps every other entry, and preserves the invariant; the issued key was absent |
| Store.Updated | src/main/ru/practicum/moviehub/store/MoviesStore.java:31-38 | updateMovie on an absent id changes nothing; on a present id it replaces only that entry, with its id forced to the key; keys and counter never change and the invariant is kept |
| Store.Deleted | src/main/ru/practicum/moviehub/store/MoviesStore.java:40-42 | deleteMovie removes exactly that key, keeps every other entry and the counter, and keeps the invariant |
| Store.Cleared | src/main/ru/practicum/moviehub/store/MoviesStore.java:44-47 | clear gives the same state as a new store |
| Store.EmptyListing | src/test/ru/practicum/moviehub/http/MoviesApiTest.java:49-64 | listing an empty store gives the empty array |
| Store.ExtendListing | src/main/ru/practicum/moviehub/store/MoviesStore.java:16-18 | adding the movie of one more key to a partial copy of the values extends it, keeping one entry per key |
| Store.RunPreservesInv | src/main/ru/practicum/moviehub/store/MoviesStore.java:13-14 | any sequence of store operations keeps every key in [1, counter) with the movie under key k having id k |
| Store.IssuedIdsIncrease | src/main/ru/practicum/moviehub/store/MoviesStore.java:25 | between clears the ids handed out are the counter value, then the counter value plus 1, and so on; they strictly increase and exceed every key present at the start, so no id is reused; update and delete never move the counter |
| Store.FirstIdAfterClear | src/main/ru/practicum/moviehub/store/MoviesStore.java:44-47 | a fresh store and a just-cleared store both hand out id 1 next |
| Store.MoviesStore.constructor | src/main/ru/practicum/moviehub/store/MoviesStore.java:13-14 | the new object is an empty store with counter 1 |
| Store.MoviesStore.GetAllMovies | src/main/ru/practicum/moviehub/store/MoviesStore.java:16-18 | the result holds each stored movie exactly once, in some order; its length is the number of keys and the store is not changed |
| Store.MoviesStore.GetMovie | src/main/ru/practicum/moviehub/store/MoviesStore.java:20-22 | Some exactly when the key is present, and then it holds the stored movie, whose id is the key |
| Store.MoviesStore.AddMovie | src/main/ru/practicum/moviehub/store/MoviesStore.java:24-29 | performs Added; returns the stamped movie, whose id is the old counter value, which was not a key and is above every old key |
| Store.MoviesStore.UpdateMovie | src/main/ru/practicum/moviehub/store/MoviesStore.java:31-38 | performs Updated; returns Some of the movie with its id set to the key exactly when the key was present |
| Store.MoviesStore.DeleteMovie | src/main/ru/practicum/moviehub/store/MoviesStore.java:40-42 | performs Deleted; returns true exactly when the key was present |
| Store.MoviesStore.Clear | src/main/ru/practicum/moviehub/store/MoviesStore.java:44-47 | performs Cleared: the map is empty and the counter is 1 |
| Http.ErrorLabels | src/main/ru/practicum/moviehub/http/BaseHttpHandler.java:37-43 | 400, 404, 405 and 500 get "Bad Request", "Not Found", "Method Not Allowed" and "Internal Server Error", each label for exactly its status; "Error" exactly for every other status |
| Http.SendJson | src/main/ru/practicum/moviehub/http/BaseHttpHandler.java:16-27 | the response has the given status, the JSON Content-Type and the given payload as its body |
| Http.SendNoContent | src/main/ru/practicum/moviehub/http/BaseHttpHandler.java:29-33 | status 204, the JSON Content-Type and no body |
| Http.SendError | src/main/ru/practicum/moviehub/http/BaseHttpHandler.java:36-45 | the envelope's status is the HTTP status sent, its label is the label of that status, and its message is the caller's message verbatim |
| Http.SendMethodNotAllowed | src/main/ru/practicum/moviehub/http/BaseHttpHandler.java:47-49 | 405 with the message "Method not allowed" in a matching envelope |
| Http.SendNotFound | src/main/ru/practicum/moviehub/http/BaseHttpHandler.java:51-53 | 404 with the caller's message in a matching envelope |
| Http.SendBadRequest | src/main/ru/practicum/moviehub/http/BaseHttpHandler.java:55-57 | 400 with the caller's message in a matching envelope |
| Http.SendConflict | src/main/ru/practicum/moviehub/http/BaseHttpHandler.java:59-61 | 409 with the caller's message in a matching envelope |
| Http.HelperLabels | src/main/ru/practicum/moviehub/http/BaseHttpHandler.java:42 | the helpers' envelopes carry "Method Not Allowed", "Not Found" and "Bad Request"; sendConflict's 409 is not a mapped code, so it gets "Error" |
| Text.LowerChar | src/main/ru/practicum/moviehub/http/MoviesHandler.java:59 | ASCII upper-case letters move to lower case; every other character is unchanged |
| Text.ToLowerAscii | src/main/ru/practicum/moviehub/http/MoviesHandler.java:59 | the lower-cased header keeps its length and lowers each character in place |
| Text.LeadingBlanks | src/main/ru/practicum/moviehub/http/MoviesHandler.java:109 | the count of leading characters at or below U+0020 that trim removes, stopping at the first other character |
| Text.TrailingBlanks | src/main/ru/practicum/moviehub/http/MoviesHandler.java:109 | the same count at the end of the string |
| Text.Trim | src/main/ru/practicum/moviehub/http/MoviesHandler.java:109 | a trimmed string is no longer than the input, and when non-empty it starts and ends with a character above U+0020 |
| Text.TrimEmptyIffBlank | src/main/ru/practicum/moviehub/http/MoviesHandler.java:109 | trim().isEmpty() holds exactly when every character is at or below U+0020 |
| Text.NatToDecimal | src/main/ru/practicum/moviehub/http/MoviesHandler.java:67 | a number renders as a non-empty string of digits with no leading zero |
| Text.IntToDecimal | src/main/ru/practicum/moviehub/api/JsonUtil.java:39-40 | %d renders a non-empty string that starts with '-' exactly for negative values |
| Text.NatToDecimalRoundTrip | src/main/ru/practicum/moviehub/http/MoviesHandler.java:67 | reading the rendered digits back gives the number |
| Text.Concat | src/main/ru/practicum/moviehub/http/MoviesHandler.java:96-100 | the message starts with the fixed prefix and continues with the exception message, or with "null" when that is null |
| Handler.RouteOf | src/main/ru/practicum/moviehub/http/MoviesHandler.java:27-49 | 404 exactly for a path other than "/movies"; on "/movies", GET and POST are routed and every other method gets 405 |
| Handler.ValidateMovie | src/main/ru/practicum/moviehub/http/MoviesHandler.java:104-126 | a movie passes exactly when it is non-null, its title is non-null with a character above U+0020, and its year is in (1888, currentYear + 5] |
| Handler.ValidationMessages | src/main/ru/practicum/moviehub/http/MoviesHandler.java:104-126 | the rules apply in order and the first failing one gives the message: null movie, blank title, year not after 1888, year past currentYear + 5; the second lower-bound test never decides the outcome |
| Handler.TooEarlyMessageEmbedsYear | src/main/ru/practicum/moviehub/http/MoviesHandler.java:113-114 | the year message renders the 1888 threshold as Java's concatenation does |
| Handler.TooLargeMessageEmbedsLimit | src/main/ru/practicum/moviehub/http/MoviesHandler.java:67-68 | the size message renders the 1000000-byte limit as Java's concatenation does |
| Handler.YearBoundaries | src/main/ru/practicum/moviehub/http/MoviesHandler.java:112-125 | year 1888 is rejected and 1889 accepted; currentYear + 5 is accepted and currentYear + 6 rejected |
| Handler.FirstInvalid | src/main/ru/practicum/moviehub/http/MoviesHandler.java:86-88 | None exactly when every movie of the batch validates; otherwise the message of the first one that fails |
| Handler.Present | src/main/ru/practicum/moviehub/http/MoviesHandler.java:89-91 | a batch without nulls is the same list of movies, element by element |
| Handler.AllPresentWhenValid | src/main/ru/practicum/moviehub/http/MoviesHandler.java:105-107 | a batch that passes validation has no null element |
| Handler.AddAllStamps | src/main/ru/practicum/moviehub/http/MoviesHandler.java:89-91 | adding a batch in order gives movie i the id counter + i, stores it there, returns those stamped movies, advances the counter by the batch size, keeps every earlier entry and the invariant |
| Handler.PostEarlyExits | src/main/ru/practicum/moviehub/http/MoviesHandler.java:58-84 | the exits fire in this order, each leaving the store unchanged: a bad or missing Content-Type, a body over 1000000 bytes, an empty body, a decode failure (400 for a syntax error, 500 otherwise), and a null or empty list (400) |
| Handler.PostAllOrNothing | src/main/ru/practicum/moviehub/http/MoviesHandler.java:86-98 | when some movie is invalid, the response is 400 "Invalid movie data: " + the first failing movie's message, and the store is unchanged |
| Handler.RejectsPreCinemaYear | src/test/ru/practicum/moviehub/http/MoviesApiTest.java:234-253 | a one-movie batch with year 1800 is refused with "Invalid movie data: " followed by the year message, and stores nothing |
| Handler.PostCreatedIff | src/main/ru/practicum/moviehub/http/MoviesHandler.java:56-102 | a POST is answered 201 exactly when every early check passes and every movie is acceptable; any other answer leaves the store as it was |
| Handler.PostCreatedShape | src/main/ru/practicum/moviehub/http/MoviesHandler.java:86-93 | a 201 means the early checks passed and no movie failed validation |
| Handler.PostCommits | src/main/ru/practicum/moviehub/http/MoviesHandler.java:86-93 | a batch that passes every check is stored by adding its movies in order, and the response is 201 with the stored movies |
| Handler.PostSuccess | src/main/ru/practicum/moviehub/http/MoviesHandler.java:89-93 | on 201 the movies are added in array order with consecutive ids from the old counter; the response is the input list with those ids; each new id is above every old key; old entries are kept and the invariant holds |
| Handler.MoviesHandler.constructor | src/main/ru/practicum/moviehub/http/MoviesHandler.java:21-24 | the handler holds the store it is given |
| Handler.MoviesHandler.Handle | src/main/ru/practicum/moviehub/http/MoviesHandler.java:27-36 | 404 "Endpoint not found" off "/movies" and 405 for other methods, both with the store untouched; GET answers 200 with the store's movies, unchanged; POST performs PostOutcome; every response has the JSON Content-Type |
| Handler.MoviesHandler.HandleMoviesCollection | src/main/ru/practicum/moviehub/http/MoviesHandler.java:38-49 | on "/movies": GET, POST, or 405 with the store untouched |
| Handler.MoviesHandler.HandleGetMovies | src/main/ru/practicum/moviehub/http/MoviesHandler.java:51-54 | 200 with the JSON Content-Type and exactly the stored movies, each once |
| Handler.MoviesHandler.HandlePostMovies | src/main/ru/practicum/moviehub/http/MoviesHandler.java:56-102 | the early returns, the validating loop and the adding loop give exactly the response and store that PostOutcome states |
| Handler.MoviesHandler.AddMovies | src/main/ru/practicum/moviehub/http/MoviesHandler.java:89-91 | addMovie on each movie in order leaves the store and returns the movies as AddAll states |
| JsonUtil.ReplaceAllAppend | src/main/ru/practicum/moviehub/api/JsonUtil.java:58 | String.replace of one character distributes over concatenation |
| JsonUtil.EscapeEach | src/main/ru/practicum/moviehub/api/JsonUtil.java:58 | the per-character escape has no raw newline, every quote right after a backslash, and length \|s\| + #quotes + #newlines |
| JsonUtil.EscapeJsonIsCharwise | src/main/ru/practicum/moviehub/api/JsonUtil.java:56-59 | the two replace passes equal the per-character escape |
| JsonUtil.EscapeJsonProperties | src/main/ru/practicum/moviehub/api/JsonUtil.java:56-59 | escapeJson(null) is ""; the output has no raw newline, every quote is preceded by a backslash, and the length is \|s\| + #quotes + #newlines |
| JsonUtil.EscapeJsonIdentity | src/main/ru/practicum/moviehub/api/JsonUtil.java:58 | text with no quote and no newline is unchanged, backslashes included |
| JsonUtil.EscapeEachIdentity | src/main/ru/practicum/moviehub/api/JsonUtil.java:58 | the per-character escape leaves text with no quote and no newline unchanged |
| JsonUtil.Count | src/main/ru/practicum/moviehub/api/JsonUtil.java:58 | the number of occurrences of a character is at most the length |
| JsonUtil.FieldsJson | src/main/ru/practicum/moviehub/api/JsonUtil.java:37-54 | the encodings of an object's fields, in order, one per field |
| JsonUtil.JoinAppend | src/main/ru/practicum/moviehub/api/JsonUtil.java:26-34 | joining two non-empty runs puts exactly one comma between them |
| JsonUtil.JoinThree | src/main/ru/practicum/moviehub/api/JsonUtil.java:47-54 | three parts join as a, b, c with single commas |
| JsonUtil.JoinFour | src/main/ru/practicum/moviehub/api/JsonUtil.java:37-45 | four parts join as a, b, c, d with single commas |
| JsonUtil.MovieToJsonIsObject | src/main/ru/practicum/moviehub/api/JsonUtil.java:37-45 | the movie template is the flat object with keys id, title, year, director in that order, numbers in decimal and strings escaped and quoted; duration is never emitted and does not affect the output |
| JsonUtil.ErrorToJsonIsObject | src/main/ru/practicum/moviehub/api/JsonUtil.java:47-54 | the error template is the flat object with keys error, message, status in that order |
| JsonUtil.Encodings | src/main/ru/practicum/moviehub/api/JsonUtil.java:27-28 | one encoding per list element, in list order |
| JsonUtil.ToJsonDispatch | src/main/ru/practicum/moviehub/api/JsonUtil.java:10-19 | a value that is not a list, movie or error encodes as "{}"; the empty list as "[]"; a one-element list as its element in brackets; movies and errors as their objects |
| JsonUtil.ListToJson | src/main/ru/practicum/moviehub/api/JsonUtil.java:21-35 | the StringBuilder loop yields exactly the list encoding: "[]" when empty, otherwise the element encodings in order with a comma between neighbours, inside brackets |
| JsonUtil.ListJsonUnfolds | src/main/ru/practicum/moviehub/api/JsonUtil.java:26-34 | a list of two or more elements encodes as "[" + the first element + "," + the rest, joined + "]" |

## Left out

- Socket and stream I/O (`HttpExchange`, `readAllBytes`, `OutputStream`, `sendResponseHeaders`) is not modelled. A request is its method, path, first Content-Type header, body length and decoding result; a response is its status, Content-Type and payload.
- Gson is a foreign library. Decoding is an input of type `Decoded`: a syntax failure, another failure, JSON null, or a list whose elements may be null. The responses carry the payload value, not Gson's text.
- JsonUtil is its own component. The handler sends with Gson, so the handler's response bodies are not connected to `ToJson`.
- There is no parse-back round trip for JsonUtil. Backslashes are not escaped, so the encoding is not injective.
- The concurrency guarantees of `ConcurrentHashMap` and `AtomicLong` are not modelled. The store runs sequentially.
- `Year.now()` is the `currentYear` parameter. It is fixed for the whole request, while the source reads the clock once per validated movie.
- Store.MoviesStore.GetAllMovies: no iteration order is stated. `ConcurrentHashMap` promises none, and the loop picks keys in an unspecified order.
- Store.MoviesStore.AddMovie: the `long` to `int` cast of the counter, which wraps after 2^31 ids, is not modelled. Ids are unbounded integers.
- Store.MoviesStore.UpdateMovie: the store keeps values, so `setId` on the caller's object is modelled by the returned stamped movie. Aliasing between the caller's object and the stored one is not captured. A null movie, which throws in the source, is not a possible input.
- Text.ToLowerAscii: only ASCII letters are lowered. Java's full Unicode `toLowerCase(Locale.ROOT)` is not modelled.
- `%d` always renders plain ASCII digits. Locale-dependent digits are not modelled.
- An `IOException` while writing the response, after headers were sent, is not modelled.
- The server bootstrap (`MoviesServer`: port binding, start and stop) and the Gson type token (`ListOfMoviesTypeToken`) are not part of this model.
- `Movie` and `ErrorResponse` are not in the source files. They are modelled from their uses: the getters, `setId`, `new Movie(title, duration, year, director)` and `new ErrorResponse(error, message, status)`.
