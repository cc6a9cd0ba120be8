/** The in-memory movie store: a map from id to movie plus an id counter that
    starts at 1. The pure part (StoreState and its transitions) states what each
    operation does; the class MoviesStore is the mutable object the handler
    holds, and each of its methods is proved to perform the matching
    transition. */
module Store {
  import opened Wrappers
  import opened Model

  /** The abstract value of a store: the map and the next id to hand out. */
  datatype StoreState = StoreState(movies: map<int, Movie>, nextId: int)

  /** The store's invariant: the counter is at least 1, every key lies in
      [1, nextId) and every movie is stored under its own id. */
  ghost predicate Inv(s: StoreState) {
    && s.nextId >= 1
    && forall k :: k in s.movies ==> 1 <= k < s.nextId && s.movies[k].id == k
  }

  /** A new store: no movies, counter at 1. */
  function EmptyStore(): (s: StoreState)
    ensures Inv(s) && s.movies == map[]
  {
    StoreState(map[], 1)
  }

  /** The record `addMovie` stores and returns: the input stamped with the
      current counter value. */
  function Stamped(s: StoreState, m: Movie): (r: Movie)
    ensures r.id == s.nextId
    ensures r.(id := m.id) == m
  {
    m.(id := s.nextId)
  }

  /** State after `addMovie(m)`. */
  function Added(s: StoreState, m: Movie): (r: StoreState)
    ensures r.nextId == s.nextId + 1
    ensures r.movies.Keys == s.movies.Keys + {s.nextId}
    ensures r.movies[s.nextId] == Stamped(s, m)
    ensures forall k :: k in s.movies && k != s.nextId ==> r.movies[k] == s.movies[k]
    ensures Inv(s) ==> Inv(r) && s.nextId !in s.movies
  {
    StoreState(s.movies[s.nextId := Stamped(s, m)], s.nextId + 1)
  }

  /** State after `updateMovie(id, m)`: only a present key is overwritten,
      with the movie's id forced to the key; keys and counter never change. */
  function Updated(s: StoreState, id: int, m: Movie): (r: StoreState)
    ensures r.nextId == s.nextId
    ensures r.movies.Keys == s.movies.Keys
    ensures id !in s.movies ==> r == s
    ensures id in s.movies ==> r.movies[id] == m.(id := id)
    ensures forall k :: k in s.movies && k != id ==> r.movies[k] == s.movies[k]
    ensures Inv(s) ==> Inv(r)
  {
    if id in s.movies then StoreState(s.movies[id := m.(id := id)], s.nextId) else s
  }

  /** State after `deleteMovie(id)`: the key is gone, the counter stays. */
  function Deleted(s: StoreState, id: int): (r: StoreState)
    ensures r.nextId == s.nextId
    ensures r.movies.Keys == s.movies.Keys - {id}
    ensures forall k :: k in r.movies ==> r.movies[k] == s.movies[k]
    ensures Inv(s) ==> Inv(r)
  {
    StoreState(s.movies - {id}, s.nextId)
  }

  /** State after `clear()`: the same as a new store. */
  function Cleared(s: StoreState): (r: StoreState)
    ensures r == EmptyStore()
  {
    StoreState(map[], 1)
  }

  /** `r` lists, in some order and once each, the movies stored under the
      keys in `done`. */
  ghost predicate ListsKeys(r: seq<Movie>, movies: map<int, Movie>, done: set<int>) {
    && done <= movies.Keys
    && |r| == |done|
    && (forall i :: 0 <= i < |r| ==> r[i].id in done && movies[r[i].id] == r[i])
    && (forall i, j :: 0 <= i < j < |r| ==> r[i].id != r[j].id)
    && (forall k :: k in done ==> movies[k] in r)
  }

  /** `r` is a snapshot of the map's values in some order: one entry per key,
      each entry the movie stored under its id, and every stored movie present. */
  ghost predicate IsListing(r: seq<Movie>, movies: map<int, Movie>) {
    ListsKeys(r, movies, movies.Keys)
  }

  /** The listing of an empty store is the empty list. */
  lemma EmptyListing(r: seq<Movie>)
    requires IsListing(r, map[])
    ensures r == []
  {
  }

  /** Appending the movie of one more key extends a partial listing, provided
      the store keeps every movie under its own id. */
  lemma ExtendListing(r: seq<Movie>, movies: map<int, Movie>, done: set<int>, k: int)
    requires forall k' :: k' in movies ==> movies[k'].id == k'
    requires ListsKeys(r, movies, done)
    requires k in movies && k !in done
    ensures ListsKeys(r + [movies[k]], movies, done + {k})
  {
    var r' := r + [movies[k]];
    forall k' | k' in done + {k} ensures movies[k'] in r' {
      if k' != k {
        assert movies[k'] in r;
      } else {
        assert r'[|r|] == movies[k];
      }
    }
  }

  /** A non-empty set of keys has a member to pick. */
  lemma NonEmptyHasKey(keys: set<int>)
    requires keys != {}
    ensures exists k :: k in keys
  {
    if forall k :: k !in keys {
      assert false;
    }
  }

  /** The operations on a store, as a client issues them one after another. */
  datatype Op =
    | AddOp(movie: Movie)
    | UpdateOp(id: int, movie: Movie)
    | DeleteOp(id: int)
    | GetOp(id: int)
    | GetAllOp
    | ClearOp

  function Apply(s: StoreState, op: Op): StoreState {
    match op
    case AddOp(m) => Added(s, m)
    case UpdateOp(id, m) => Updated(s, id, m)
    case DeleteOp(id) => Deleted(s, id)
    case GetOp(_) => s
    case GetAllOp => s
    case ClearOp => Cleared(s)
  }

  /** The state after running `ops` in order from `s`. */
  function Run(s: StoreState, ops: seq<Op>): StoreState
    decreases |ops|
  {
    if ops == [] then s else Run(Apply(s, ops[0]), ops[1..])
  }

  /** The ids `addMovie` hands out while `ops` run from `s`, in order. */
  function IssuedIds(s: StoreState, ops: seq<Op>): seq<int>
    decreases |ops|
  {
    if ops == [] then []
    else if ops[0].AddOp? then [s.nextId] + IssuedIds(Apply(s, ops[0]), ops[1..])
    else IssuedIds(Apply(s, ops[0]), ops[1..])
  }

  predicate NoClear(ops: seq<Op>) {
    forall i :: 0 <= i < |ops| ==> !ops[i].ClearOp?
  }

  /** Every sequence of operations keeps the invariant. */
  lemma {:induction false} RunPreservesInv(s: StoreState, ops: seq<Op>)
    requires Inv(s)
    ensures Inv(Run(s, ops))
    decreases |ops|
  {
    if ops != [] {
      RunPreservesInv(Apply(s, ops[0]), ops[1..]);
    }
  }

  /** Between clears, ids are handed out consecutively from the counter:
      each issued id is strictly greater than every id issued before it and
      than every key present at the start, so no id is ever reused. */
  lemma {:induction false} IssuedIdsIncrease(s: StoreState, ops: seq<Op>)
    requires Inv(s)
    requires NoClear(ops)
    ensures Run(s, ops).nextId == s.nextId + |IssuedIds(s, ops)|
    ensures forall i :: 0 <= i < |IssuedIds(s, ops)| ==> IssuedIds(s, ops)[i] == s.nextId + i
    ensures forall i, j :: 0 <= i < j < |IssuedIds(s, ops)| ==> IssuedIds(s, ops)[i] < IssuedIds(s, ops)[j]
    ensures forall i, k :: 0 <= i < |IssuedIds(s, ops)| && k in s.movies ==> k < IssuedIds(s, ops)[i]
    decreases |ops|
  {
    if ops != [] {
      var s' := Apply(s, ops[0]);
      assert NoClear(ops[1..]) by {
        forall i | 0 <= i < |ops[1..]| ensures !ops[1..][i].ClearOp? {
          assert ops[1..][i] == ops[i + 1];
        }
      }
      IssuedIdsIncrease(s', ops[1..]);
      assert !ops[0].ClearOp?;
    }
  }

  /** A fresh store and a just-cleared store both hand out id 1 next. */
  lemma FirstIdAfterClear(s: StoreState, m: Movie)
    ensures Stamped(EmptyStore(), m).id == 1
    ensures Stamped(Cleared(s), m).id == 1
    ensures IssuedIds(s, [ClearOp, AddOp(m)]) == [1]
  {
    var ops := [ClearOp, AddOp(m)];
    assert ops[1..] == [AddOp(m)];
    assert [AddOp(m)][1..] == [];
    var c := Cleared(s);
    assert IssuedIds(c, [AddOp(m)]) == [c.nextId] + IssuedIds(Added(c, m), []);
    assert IssuedIds(s, ops) == IssuedIds(c, [AddOp(m)]);
  }

  /** MoviesStore: the Java class, with `movies` as a map field and the
      AtomicLong counter as an integer field, run sequentially. */
  class MoviesStore {
    var movies: map<int, Movie>
    var nextId: int

    function State(): StoreState
      reads this
    {
      StoreState(movies, nextId)
    }

    ghost predicate Valid()
      reads this
    {
      Inv(State())
    }

    constructor ()
      ensures Valid() && State() == EmptyStore()
    {
      movies := map[];
      nextId := 1;
    }

    /** `getAllMovies`: a copy of the map's values, in no promised order. */
    method GetAllMovies() returns (r: seq<Movie>)
      requires Valid()
      ensures IsListing(r, movies)
    {
      r := [];
      var remaining := movies.Keys;
      ghost var done: set<int> := {};
      while remaining != {}
        invariant remaining !! done && remaining + done == movies.Keys
        invariant ListsKeys(r, movies, done)
        decreases |remaining|
      {
        NonEmptyHasKey(remaining);
        var k :| k in remaining;
        ExtendListing(r, movies, done, k);
        r := r + [movies[k]];
        remaining := remaining - {k};
        done := done + {k};
      }
    }

    /** `getMovie`: the movie under `id`, if any. */
    method GetMovie(id: int) returns (r: Option<Movie>)
      requires Valid()
      ensures r.Some? <==> id in movies
      ensures r.Some? ==> r.value == movies[id] && r.value.id == id
    {
      if id in movies {
        r := Some(movies[id]);
      } else {
        r := None;
      }
    }

    /** `addMovie`: stamps the counter into the movie, stores it under that
        id, returns it and advances the counter by one. */
    method AddMovie(movie: Movie) returns (stored: Movie)
      requires Valid()
      modifies this
      ensures Valid()
      ensures stored == Stamped(old(State()), movie)
      ensures State() == Added(old(State()), movie)
      ensures stored.id == old(nextId) && stored.id !in old(movies)
      ensures forall k :: k in old(movies) ==> k < stored.id
    {
      var id := nextId;
      nextId := nextId + 1;
      stored := movie.(id := id);
      movies := movies[id := stored];
    }

    /** `updateMovie`: overwrites an existing entry, forcing its id to the key. */
    method UpdateMovie(id: int, movie: Movie) returns (r: Option<Movie>)
      requires Valid()
      modifies this
      ensures Valid()
      ensures State() == Updated(old(State()), id, movie)
      ensures r.Some? <==> id in old(movies)
      ensures r.Some? ==> r.value == movie.(id := id)
    {
      if id in movies {
        var updated := movie.(id := id);
        movies := movies[id := updated];
        r := Some(updated);
      } else {
        r := None;
      }
    }

    /** `deleteMovie`: true exactly when a movie was stored under `id`. */
    method DeleteMovie(id: int) returns (removed: bool)
      requires Valid()
      modifies this
      ensures Valid()
      ensures State() == Deleted(old(State()), id)
      ensures removed <==> id in old(movies)
    {
      removed := id in movies;
      movies := movies - {id};
    }

    /** `clear`: empties the map and resets the counter to 1. */
    method Clear()
      requires Valid()
      modifies this
      ensures Valid()
      ensures State() == Cleared(old(State()))
      ensures movies == map[] && nextId == 1
    {
      movies := map[];
      nextId := 1;
    }
  }
}
