/** `MoviesService`: an in-memory list of movie records, looked up, deleted and updated
    by id. The list is the service's one field; the pure functions below give the array
    operations the service uses (`find`, `filter`, object spread), and the methods of
    `MoviesService` are specified by them. */
module Movies {
  import opened Wrappers

  /** A stored movie record. */
  datatype Movie = Movie(id: int, title: string, year: int, genres: seq<string>)

  /** The fields a client gives `create`. */
  datatype MovieData = MovieData(title: string, year: int, genres: seq<string>)

  /** The fields a client gives `update`; an absent field keeps the stored value. An id in
      the patch is spread over the stored one like any other field. */
  datatype MoviePatch = MoviePatch(id: Option<int>, title: Option<string>, year: Option<int>, genres: Option<seq<string>>)

  /** The not-found error `getOne` throws. */
  datatype MovieError = NotFound(id: int)

  /** `{ id, ...movieData }`: a record with the given id and the client's fields. */
  function WithId(id: int, data: MovieData): (m: Movie)
    ensures m.id == id && m.title == data.title && m.year == data.year && m.genres == data.genres
  {
    Movie(id, data.title, data.year, data.genres)
  }

  /** `{ ...movie, ...patch }`: every field the patch holds overrides the stored one, the
      id included; every field it lacks keeps the stored value. */
  function Merge(m: Movie, patch: MoviePatch): (r: Movie)
    ensures r.id == (if patch.id.Some? then patch.id.value else m.id)
    ensures r.title == (if patch.title.Some? then patch.title.value else m.title)
    ensures r.year == (if patch.year.Some? then patch.year.value else m.year)
    ensures r.genres == (if patch.genres.Some? then patch.genres.value else m.genres)
  {
    Movie(if patch.id.Some? then patch.id.value else m.id,
          if patch.title.Some? then patch.title.value else m.title,
          if patch.year.Some? then patch.year.value else m.year,
          if patch.genres.Some? then patch.genres.value else m.genres)
  }

  /** The position `find` stops at: the first record with the id, if there is one. */
  function FirstWithId(s: seq<Movie>, id: int): (r: Option<nat>)
    ensures r.Some? ==> r.value < |s| && s[r.value].id == id
    ensures r.Some? ==> forall j :: 0 <= j < r.value ==> s[j].id != id
    ensures r.None? <==> forall j :: 0 <= j < |s| ==> s[j].id != id
  {
    if |s| == 0 then None
    else if s[0].id == id then Some(0)
    else match FirstWithId(s[1..], id)
      case None => None
      case Some(k) => Some(k + 1)
  }

  /** `movies.find(movie => movie.id === id)`. */
  function Find(s: seq<Movie>, id: int): (r: Option<Movie>)
    ensures r.Some? ==> r.value in s && r.value.id == id
    ensures r.Some? ==> FirstWithId(s, id).Some? && r.value == s[FirstWithId(s, id).value]
    ensures r.None? <==> forall j :: 0 <= j < |s| ==> s[j].id != id
  {
    match FirstWithId(s, id)
    case None => None
    case Some(k) => Some(s[k])
  }

  /** `movies.filter(movie => movie.id !== id)`: every record with the id goes, every
      other record stays (as often as it was there, by `WithoutIdCounts`). */
  function WithoutId(s: seq<Movie>, id: int): (r: seq<Movie>)
    ensures |r| <= |s|
    ensures forall k :: 0 <= k < |r| ==> r[k].id != id
    ensures forall m :: m in r <==> m in s && m.id != id
    ensures (forall k :: 0 <= k < |s| ==> s[k].id != id) ==> r == s
  {
    if |s| == 0 then []
    else
      assert s == [s[0]] + s[1..];
      if s[0].id == id then WithoutId(s[1..], id)
      else [s[0]] + WithoutId(s[1..], id)
  }

  /** The filter keeps every record without the id exactly as often as it occurred, and
      keeps no record with it. */
  lemma {:induction false} WithoutIdCounts(s: seq<Movie>, id: int)
    ensures forall m: Movie :: multiset(WithoutId(s, id))[m] == if m.id == id then 0 else multiset(s)[m]
  {
    if |s| > 0 {
      assert s == [s[0]] + s[1..];
      WithoutIdCounts(s[1..], id);
      MultisetOfCons(s[0], s[1..]);
      if s[0].id != id {
        MultisetOfCons(s[0], WithoutId(s[1..], id));
      }
    }
  }

  /** A record put in front of a list occurs once more, and every other record as often. */
  lemma MultisetOfCons(x: Movie, t: seq<Movie>)
    ensures forall m: Movie :: multiset([x] + t)[m] == multiset(t)[m] + (if m == x then 1 else 0)
  {
  }

  class MoviesService {
    var movies: seq<Movie>

    /** A service with no movies. */
    constructor ()
      ensures movies == []
    {
      movies := [];
    }

    /** `getAll()`: the list as it is. */
    method GetAll() returns (r: seq<Movie>)
      ensures r == movies
    {
      r := movies;
    }

    /** `create(movieData)`: appends one record numbered one past the current length. */
    method Create(data: MovieData)
      modifies this
      ensures movies == old(movies) + [WithId(|old(movies)| + 1, data)]
    {
      movies := movies + [WithId(|movies| + 1, data)];
    }

    /** `getOne(id)`: the first record with the id, or not-found when none has it. */
    method GetOne(id: int) returns (r: Result<Movie, MovieError>)
      ensures r.Failure? <==> forall j :: 0 <= j < |movies| ==> movies[j].id != id
      ensures r.Failure? ==> r.error == NotFound(id)
      ensures r.Success? ==> Find(movies, id) == Some(r.value)
    {
      var found := Find(movies, id);
      if found.None? {
        r := Failure(NotFound(id));
      } else {
        r := Success(found.value);
      }
    }

    /** `deleteOne(id)`: drops every record with the id. */
    method DeleteOne(id: int)
      modifies this
      ensures movies == WithoutId(old(movies), id)
    {
      movies := WithoutId(movies, id);
    }

    /** `update(id, patch)`: not-found, with nothing changed, when no record has the id;
        otherwise every record with the id goes and the first of them, patched, is
        appended. */
    method Update(id: int, patch: MoviePatch) returns (r: Outcome<MovieError>)
      modifies this
      ensures Find(old(movies), id).None? ==> r == Fail(NotFound(id)) && movies == old(movies)
      ensures Find(old(movies), id).Some? ==>
        r == Pass && movies == WithoutId(old(movies), id) + [Merge(Find(old(movies), id).value, patch)]
    {
      var found := GetOne(id);
      if found.Failure? {
        return Fail(found.error);
      }
      DeleteOne(id);
      movies := movies + [Merge(found.value, patch)];
      r := Pass;
    }
  }

  // ---------------------------------------------------------------------------
  // Properties

  /** `filter` keeps order: filtering a concatenation filters each part in place. */
  lemma {:induction false} WithoutIdAppend(a: seq<Movie>, b: seq<Movie>, id: int)
    ensures WithoutId(a + b, id) == WithoutId(a, id) + WithoutId(b, id)
  {
    if |a| > 0 {
      assert (a + b)[0] == a[0] && (a + b)[1..] == a[1..] + b;
      WithoutIdAppend(a[1..], b, id);
      if a[0].id == id {
        assert WithoutId(a, id) == WithoutId(a[1..], id);
      } else {
        assert WithoutId(a, id) == [a[0]] + WithoutId(a[1..], id);
        assert WithoutId(a + b, id) == [a[0]] + WithoutId(a[1..] + b, id);
      }
    } else {
      assert a + b == b;
    }
  }

  /** After `deleteOne(id)`, `getOne(id)` fails, and deleting again changes nothing. */
  lemma DeleteThenGetOneFails(s: seq<Movie>, id: int)
    ensures Find(WithoutId(s, id), id).None?
    ensures WithoutId(WithoutId(s, id), id) == WithoutId(s, id)
  {
  }

  /** `deleteOne(id)` leaves what `getOne` finds for every other id. */
  lemma {:induction false} DeleteKeepsOtherLookups(s: seq<Movie>, id: int, other: int)
    requires other != id
    ensures Find(WithoutId(s, id), other) == Find(s, other)
  {
    if |s| > 0 {
      assert s == [s[0]] + s[1..];
      DeleteKeepsOtherLookups(s[1..], id, other);
      FindCons(s[0], s[1..], other);
      if s[0].id != id {
        assert WithoutId(s, id) == [s[0]] + WithoutId(s[1..], id);
        FindCons(s[0], WithoutId(s[1..], id), other);
      } else {
        assert WithoutId(s, id) == WithoutId(s[1..], id);
      }
    }
  }

  /** `find` on a list with a head: the head if it matches, otherwise the search of the rest. */
  lemma FindCons(m: Movie, rest: seq<Movie>, id: int)
    ensures Find([m] + rest, id) == if m.id == id then Some(m) else Find(rest, id)
  {
  }

  /** Appending a record never changes what `getOne` finds for an id that was present; an
      id absent before is found at the appended record if it has that id. */
  lemma FindAfterAppend(s: seq<Movie>, m: Movie, id: int)
    ensures Find(s, id).Some? ==> Find(s + [m], id) == Find(s, id)
    ensures Find(s, id).None? ==> Find(s + [m], id) == (if m.id == id then Some(m) else None)
  {
    forall j | 0 <= j < |s|
      ensures (s + [m])[j] == s[j]
    {
    }
    if Find(s, id).None? && m.id == id {
      assert (s + [m])[|s|] == m;
    }
  }

  /** What `getOne` finds after `update(id, patch)` on a present id. When the patched
      record keeps the id, `getOne(id)` gives it; when the patch moves it to another id,
      `getOne(id)` fails and `getOne` of the new id gives an older record with that id if
      there is one, else the patched record. Every other id finds what it found before. */
  lemma UpdateLookups(s: seq<Movie>, id: int, patch: MoviePatch, other: int)
    requires Find(s, id).Some?
    ensures var m := Merge(Find(s, id).value, patch);
            var after := WithoutId(s, id) + [m];
            && (m.id == id ==> Find(after, id) == Some(m))
            && (m.id != id ==> Find(after, id).None?)
            && (m.id != id ==> Find(after, m.id) == if Find(s, m.id).Some? then Find(s, m.id) else Some(m))
            && (other != id && other != m.id ==> Find(after, other) == Find(s, other))
  {
    var m := Merge(Find(s, id).value, patch);
    DeleteThenGetOneFails(s, id);
    FindAfterAppend(WithoutId(s, id), m, id);
    if m.id != id {
      DeleteKeepsOtherLookups(s, id, m.id);
      FindAfterAppend(WithoutId(s, id), m, m.id);
    }
    if other != id {
      DeleteKeepsOtherLookups(s, id, other);
      FindAfterAppend(WithoutId(s, id), m, other);
    }
  }

  /** A patch without an id keeps the record under its id, so `getOne(id)` gives the
      patched record after the update. */
  lemma UpdateWithoutIdKeepsId(s: seq<Movie>, id: int, patch: MoviePatch)
    requires Find(s, id).Some? && patch.id.None?
    ensures Find(WithoutId(s, id) + [Merge(Find(s, id).value, patch)], id) == Some(Merge(Find(s, id).value, patch))
  {
    UpdateLookups(s, id, patch, id);
  }

  /** While nothing is deleted, `create` numbers the records 1, 2, 3, ... in order, so each
      new record is the one `getOne` finds for its id. */
  lemma CreateNumbersInOrder(s: seq<Movie>, data: MovieData)
    requires forall k :: 0 <= k < |s| ==> s[k].id == k + 1
    ensures var t := s + [WithId(|s| + 1, data)];
            (forall k :: 0 <= k < |t| ==> t[k].id == k + 1)
            && Find(t, |s| + 1) == Some(WithId(|s| + 1, data))
  {
    var t := s + [WithId(|s| + 1, data)];
    FindAfterAppend(s, WithId(|s| + 1, data), |s| + 1);
    assert forall k :: 0 <= k < |s| ==> t[k] == s[k];
  }

  /** The steps of the `getOne` test: on a new service, one `create` is found under id 1 with the
      client's fields. */
  method CreateThenGetOneTest(data: MovieData) returns (r: Result<Movie, MovieError>)
    ensures r == Success(Movie(1, data.title, data.year, data.genres))
  {
    var service := new MoviesService();
    service.Create(data);
    assert service.movies[0] == WithId(1, data);
    r := service.GetOne(1);
  }

  /** The steps of the not-found test: a new service finds no movie 23. */
  method GetOneMissingTest() returns (r: Result<Movie, MovieError>)
    ensures r == Failure(NotFound(23))
  {
    var service := new MoviesService();
    r := service.GetOne(23);
  }

  /** Numbering by length reuses ids: create two movies, delete the first, create a third,
      and two records share id 2; `getOne(2)` then finds only the older one. */
  method CreateAfterDeleteReusesId(a: MovieData, b: MovieData, c: MovieData)
    returns (ids: seq<int>, found: Result<Movie, MovieError>)
    ensures ids == [2, 2]
    ensures found == Success(WithId(2, b))
  {
    var service := new MoviesService();
    service.Create(a);
    service.Create(b);
    service.DeleteOne(1);
    service.Create(c);
    var all := service.GetAll();
    assert all == [WithId(2, b), WithId(2, c)];
    ids := [all[0].id, all[1].id];
    found := service.GetOne(2);
  }
}
