/**
 * The client's HTTP layer, stripped of I/O: endpoint URLs, the classification of
 * a response into a value or a thrown error, the request bodies the client
 * sends, and the conversion of movie records received from the backend into
 * `Movie` values.
 */
module ApiService {
  import opened Wrappers
  import opened Text
  import opened Indices
  import opened Movies

  // ---------------------------------------------------------------- errors

  /** The client's error enumeration. */
  datatype ApiError =
    | InvalidURL
    | NetworkError(underlying: Thrown)
    | DecodingError(underlying: Thrown)
    | ServerError(statusCode: int)

  /** What a call can throw: one of the client's own errors, or a library error. */
  datatype Thrown =
    | Api(error: ApiError)
    | Transport                 // the URL session could not complete the exchange
    | Codec                     // the JSON encoder or decoder failed

  /**
   * One HTTP exchange as the client observes it: either the transport failed,
   * or a response arrived. `status` is None when the response is not an HTTP
   * response; `body` is the decoded payload, None when decoding fails.
   */
  datatype Exchange<T> =
    | TransportFailed
    | Responded(status: Option<int>, body: Option<T>)

  predicate IsSuccessStatus(code: int) {
    200 <= code <= 299
  }

  /** The status guard shared by every call. */
  function StatusError(status: Option<int>): (r: Option<ApiError>)
    ensures r.Some? <==> status.Some? && !IsSuccessStatus(status.value)
    ensures r.Some? ==> r.value.ServerError? && r.value.statusCode == status.value
  {
    match status
    case Some(code) => if IsSuccessStatus(code) then None else Some(ServerError(code))
    case None => None
  }

  /**
   * A call that decodes its response (recommendations, profile, personas, the
   * movie-detail lookup): URL check, transport, status guard, decoding; every
   * error reaches the caller unchanged.
   */
  function Receive<T>(urlOk: bool, x: Exchange<T>): (r: Result<T, Thrown>)
    ensures !urlOk ==> r == Failure(Api(InvalidURL))
    ensures urlOk && x.TransportFailed? ==> r == Failure(Transport)
    ensures (urlOk && x.Responded? && x.status.Some? && !IsSuccessStatus(x.status.value)) ==>
              r == Failure(Api(ServerError(x.status.value)))
    ensures r.Success? <==>
              urlOk && x.Responded? && StatusError(x.status).None? && x.body.Some?
    ensures r.Success? ==> r.value == x.body.value
  {
    if !urlOk then Failure(Api(InvalidURL))
    else match x
      case TransportFailed => Failure(Transport)
      case Responded(status, body) =>
        match StatusError(status)
        case Some(e) => Failure(Api(e))
        case None => if body.Some? then Success(body.value) else Failure(Codec)
  }

  /** A call whose response body is ignored (watchlist, rating and sync calls). */
  function Send(urlOk: bool, x: Exchange<()>): (r: Result<(), Thrown>)
    ensures r.Success? <==> urlOk && x.Responded? && StatusError(x.status).None?
    ensures !urlOk ==> r == Failure(Api(InvalidURL))
    ensures (urlOk && x.Responded? && x.status.Some? && !IsSuccessStatus(x.status.value)) ==>
              r == Failure(Api(ServerError(x.status.value)))
  {
    match x
    case TransportFailed => Receive(urlOk, x)
    case Responded(status, _) => Receive(urlOk, Responded(status, Some(())))
  }

  /**
   * `createUserProfile`: an encoding failure becomes `decodingError`; the status
   * guard is thrown inside the `do` whose `catch` wraps everything, so a rejected
   * status reaches the caller as `networkError(serverError(code))`.
   */
  function CreateUserProfile(encoded: bool, x: Exchange<()>): (r: Result<(), Thrown>)
    ensures !encoded ==> r == Failure(Api(DecodingError(Codec)))
    ensures encoded && x.TransportFailed? ==> r == Failure(Api(NetworkError(Transport)))
    ensures (encoded && x.Responded? && x.status.Some? && !IsSuccessStatus(x.status.value)) ==>
              r == Failure(Api(NetworkError(Api(ServerError(x.status.value)))))
    ensures r.Success? <==> encoded && x.Responded? && StatusError(x.status).None?
  {
    if !encoded then Failure(Api(DecodingError(Codec)))
    else match Send(true, x)
      case Success(_) => Success(())
      case Failure(e) => Failure(Api(NetworkError(e)))
  }

  /** Profile creation never surfaces a bare `serverError`, while the other calls do. */
  lemma CreateUserProfileWrapsErrors(encoded: bool, x: Exchange<()>)
    ensures CreateUserProfile(encoded, x).Failure? ==>
              CreateUserProfile(encoded, x).error.Api? &&
              (CreateUserProfile(encoded, x).error.error.NetworkError? ||
               CreateUserProfile(encoded, x).error.error.DecodingError?)
    ensures encoded && x.Responded? && x.status.Some? && !IsSuccessStatus(x.status.value) ==>
              Send(true, x) == Failure(Api(ServerError(x.status.value))) &&
              CreateUserProfile(encoded, x) == Failure(Api(NetworkError(Send(true, x).error)))
  {
  }

  // ---------------------------------------------------------------- endpoints

  const BASE_URL: string := "http://192.168.1.18:8000"

  /** The endpoints the client calls; `user` is the already percent-encoded id. */
  datatype Endpoint =
    | Encode
    | Recommendations(user: string)
    | Profile(user: string)
    | Watchlist(user: string)
    | WatchlistItem(user: string, movieId: int)
    | Ratings(user: string)
    | Sync(user: string)
    | Personas

  /** The path of an endpoint, as "/"-separated segments after the base URL. */
  function Segments(e: Endpoint): seq<string> {
    match e
    case Encode => ["", "encode"]
    case Recommendations(u) => ["", "users", u, "recommendations?language=en"]
    case Profile(u) => ["", "users", u]
    case Watchlist(u) => ["", "users", u, "watchlist"]
    case WatchlistItem(u, m) => ["", "users", u, "watchlist", IntToString(m)]
    case Ratings(u) => ["", "users", u, "ratings"]
    case Sync(u) => ["", "users", u, "sync"]
    case Personas => ["", "onboarding", "personas"]
  }

  function Url(e: Endpoint): string {
    BASE_URL + Join(Segments(e), "/")
  }

  /** The URL strings the client interpolates, written out. */
  lemma UrlShapes(u: string, m: int)
    ensures Url(Encode) == BASE_URL + "/encode"
    ensures Url(Personas) == BASE_URL + "/onboarding/personas"
    ensures Url(Profile(u)) == BASE_URL + "/users/" + u
    ensures Url(Recommendations(u)) == BASE_URL + "/users/" + u + "/" + "recommendations?language=en"
    ensures Url(Watchlist(u)) == BASE_URL + "/users/" + u + "/" + "watchlist"
    ensures Url(Ratings(u)) == BASE_URL + "/users/" + u + "/" + "ratings"
    ensures Url(Sync(u)) == BASE_URL + "/users/" + u + "/" + "sync"
    ensures Url(WatchlistItem(u, m)) == BASE_URL + "/users/" + u + "/watchlist/" + IntToString(m)
  {
    EncodeUrlShape();
    PersonasUrlShape();
    ProfileUrlShape(u);
    UserUrlShape(u, "recommendations?language=en");
    UserUrlShape(u, "watchlist");
    UserUrlShape(u, "ratings");
    UserUrlShape(u, "sync");
    ItemUrlShape(u, IntToString(m));
  }

  lemma EncodeUrlShape()
    ensures Url(Encode) == BASE_URL + "/encode"
  {
    JoinPair("", "encode", "/");
  }

  lemma PersonasUrlShape()
    ensures Url(Personas) == BASE_URL + "/onboarding/personas"
  {
    JoinTriple("", "onboarding", "personas", "/");
  }

  lemma ProfileUrlShape(u: string)
    ensures Url(Profile(u)) == BASE_URL + "/users/" + u
  {
    JoinTriple("", "users", u, "/");
  }

  lemma UserUrlShape(u: string, t: string)
    ensures BASE_URL + Join(["", "users", u, t], "/") == BASE_URL + "/users/" + u + "/" + t
  {
    JoinQuad("", "users", u, t, "/");
  }

  lemma ItemUrlShape(u: string, t: string)
    ensures BASE_URL + Join(["", "users", u, "watchlist", t], "/")
         == BASE_URL + "/users/" + u + "/watchlist/" + t
  {
    assert ["", "users", u, "watchlist", t][1..] == ["users", u, "watchlist", t];
    JoinQuad("users", u, "watchlist", t, "/");
  }

  lemma JoinPair(a: string, b: string, sep: string)
    ensures Join([a, b], sep) == a + sep + b
  {
    assert [a, b][1..] == [b];
  }

  lemma JoinTriple(a: string, b: string, c: string, sep: string)
    ensures Join([a, b, c], sep) == a + sep + b + sep + c
  {
    assert [a, b, c][1..] == [b, c];
    JoinPair(b, c, sep);
  }

  lemma JoinQuad(a: string, b: string, c: string, d: string, sep: string)
    ensures Join([a, b, c, d], sep) == a + sep + b + sep + c + sep + d
  {
    assert [a, b, c, d][1..] == [b, c, d];
    JoinTriple(b, c, d, sep);
  }

  /** Recovers the endpoint from a URL. */
  function ParseUrl(url: string): Option<Endpoint> {
    if BASE_URL <= url then ParseSegments(Split(url[|BASE_URL|..], "/")) else None
  }

  function ParseSegments(s: seq<string>): Option<Endpoint> {
    if s == ["", "encode"] then Some(Encode)
    else if s == ["", "onboarding", "personas"] then Some(Personas)
    else if 3 <= |s| <= 5 && s[0] == "" && s[1] == "users" then
      var u := s[2];
      if |s| == 3 then Some(Profile(u))
      else if |s| == 4 then
        if s[3] == "recommendations?language=en" then Some(Recommendations(u))
        else if s[3] == "watchlist" then Some(Watchlist(u))
        else if s[3] == "ratings" then Some(Ratings(u))
        else if s[3] == "sync" then Some(Sync(u))
        else None
      else if s[3] == "watchlist" then
        match ParseDecimal(s[4])
        case Some(m) => Some(WatchlistItem(u, m))
        case None => None
      else None
    else None
  }

  /** The user segment must not contain "/": the path-allowed character set keeps it. */
  predicate WellFormed(e: Endpoint) {
    (e.Encode? || e.Personas?) || '/' !in e.user
  }

  /** Distinct endpoints have distinct URLs: parsing the URL gives the endpoint back. */
  lemma {:induction false} ParseUrlOfUrl(e: Endpoint)
    requires WellFormed(e)
    ensures ParseUrl(Url(e)) == Some(e)
  {
    var segs := Segments(e);
    assert forall i :: 0 <= i < |segs| ==> '/' !in segs[i] by {
      SegmentsNoSlash(e);
    }
    SplitJoin(segs, '/');
    assert Url(e)[|BASE_URL|..] == Join(segs, "/");
    assert ParseUrl(Url(e)) == ParseSegments(segs);
    SegmentsRoundTrip(e);
  }

  /** No segment of a well-formed endpoint contains the separator. */
  lemma SegmentsNoSlash(e: Endpoint)
    requires WellFormed(e)
    ensures forall i :: 0 <= i < |Segments(e)| ==> '/' !in Segments(e)[i]
  {
    if e.WatchlistItem? {
      IntToStringHasNoSlash(e.movieId);
    }
  }

  /** The segments of an endpoint parse back to that endpoint. */
  lemma SegmentsRoundTrip(e: Endpoint)
    ensures ParseSegments(Segments(e)) == Some(e)
  {
    if e.WatchlistItem? {
      ParseDecimalOfIntToString(e.movieId);
    }
  }

  lemma IntToStringHasNoSlash(i: int)
    ensures '/' !in IntToString(i)
  {
    var d := NatToDigits(if i < 0 then -i else i);
    var s := IntToString(i);
    forall k | 0 <= k < |s| ensures s[k] != '/' {
      if i >= 0 {
        assert IsDigit(d[k]);
      } else if k > 0 {
        assert s[k] == d[k - 1];
        assert IsDigit(d[k - 1]);
      }
    }
  }

  // ---------------------------------------------------------------- request bodies

  datatype CreateUserProfileRequest = CreateUserProfileRequest(
    name: string,
    genres: seq<string>,
    movieIds: seq<int>,
    personas: Option<seq<string>>)

  /** The backend ids of the movies, in list order (`movies.map { $0.tmdbId }`). */
  function TmdbIdList(movies: seq<Movie>): (r: seq<int>)
    ensures |r| == |movies| && forall i :: 0 <= i < |r| ==> r[i] == movies[i].tmdbId
  {
    seq(|movies|, i requires 0 <= i < |movies| => movies[i].tmdbId)
  }

  /** `createProfile`: the request sent from domain objects. */
  function CreateProfileRequest(name: string, genres: seq<string>, movies: seq<Movie>,
                                personas: seq<string>): (r: CreateUserProfileRequest)
    ensures r.name == name && r.genres == genres && r.personas == Some(personas)
    ensures |r.movieIds| == |movies|
    ensures forall i :: 0 <= i < |movies| ==> r.movieIds[i] == movies[i].tmdbId
  {
    CreateUserProfileRequest(name, genres, TmdbIdList(movies), Some(personas))
  }

  /** `updateProfile`: the same endpoint and body, with an empty persona list. */
  function UpdateProfileRequest(name: string, genres: seq<string>, movies: seq<Movie>)
    : (r: CreateUserProfileRequest)
    ensures r.personas == Some([])
    ensures r.name == name && r.genres == genres
    ensures |r.movieIds| == |movies|
    ensures forall i :: 0 <= i < |movies| ==> r.movieIds[i] == movies[i].tmdbId
  {
    CreateProfileRequest(name, genres, movies, [])
  }

  // ---------------------------------------------------------------- received records

  datatype MovieDto = MovieDto(
    movieId: string,
    title: string,
    genres: Option<seq<string>>,
    backdropPath: Option<string>)

  datatype PersonaDto = PersonaDto(
    title: string, description: string, color: string, icon: string, image: string)

  datatype UserDataDto = UserDataDto(
    liked: seq<int>, disliked: seq<int>, neutral: seq<int>, watchlist: seq<int>, history: seq<int>)

  datatype UserProfileDto = UserProfileDto(
    name: string, genres: Option<seq<string>>, movieIds: Option<seq<int>>, data: UserDataDto)

  const IMAGE_BASE: string := "https://image.tmdb.org/t/p/original"

  /** The separator between genre names in a subtitle: space, middle dot, space. */
  const GENRE_SEPARATOR: string := " \U{00B7} "

  /** Records without a usable backdrop are dropped by the conversion. */
  predicate HasBackdrop(d: MovieDto) {
    d.backdropPath.Some? && d.backdropPath.value != ""
  }

  /** `Int(movie_id) ?? 0`. */
  function TmdbIdOf(d: MovieDto): int {
    SwiftParseInt(d.movieId).GetOr(0)
  }

  /** The `Movie` built from a kept record; `fallback` is the subtitle used without genres. */
  function ToMovie(d: MovieDto, fallback: string, id: Uuid, now: Stamp): (m: Movie)
    requires HasBackdrop(d)
  {
    Movie(id, TmdbIdOf(d), d.title,
          if d.genres.Some? then Join(d.genres.value, GENRE_SEPARATOR) else fallback,
          IMAGE_BASE + d.backdropPath.value, [], now, Some(now))
  }

  /**
   * What a converted movie reveals about its record: the local id and the
   * clock come from the caller and everything else from the record; the
   * backdrop path can be read back off the image URL.
   */
  lemma ToMovieRecovers(d: MovieDto, fallback: string, id: Uuid, now: Stamp)
    requires HasBackdrop(d)
    ensures var m := ToMovie(d, fallback, id, now);
      && m.id == id && m.tmdbId == TmdbIdOf(d) && m.title == d.title && m.friendInitials == []
      && m.dateAdded == now && m.dateWatched == Some(now)
      && IMAGE_BASE <= m.imageName && m.imageName[|IMAGE_BASE|..] == d.backdropPath.value
      && (d.genres.Some? ==> m.subtitle == Join(d.genres.value, GENRE_SEPARATOR))
      && (d.genres.None? ==> m.subtitle == fallback)
      && (SwiftParseInt(d.movieId).None? ==> m.tmdbId == 0)
  {
  }

  /** A record whose id is the decimal form of a 64-bit integer keeps that id. */
  lemma TmdbIdOfPrinted(n: int, d: MovieDto)
    requires INT64_MIN <= n <= INT64_MAX && d.movieId == IntToString(n)
    ensures TmdbIdOf(d) == n
  {
    SwiftParseIntRoundTrip(n);
  }

  /**
   * `dtos.compactMap`: the kept records, converted in order. The record at
   * position i receives the local id `firstId + i`.
   */
  function ConvertDtos(ds: seq<MovieDto>, fallback: string, firstId: nat, now: Stamp)
    : (r: seq<Movie>)
    ensures |r| == |Kept(ds, HasBackdrop)|
    ensures forall k :: 0 <= k < |r| ==> ConvertedAt(r, ds, fallback, firstId, now, k)
  {
    if ds == [] then []
    else
      var n := |ds| - 1;
      var init := ds[..n];
      var rest := ConvertDtos(init, fallback, firstId, now);
      var r := rest + (if HasBackdrop(ds[n]) then [ToMovie(ds[n], fallback, firstId + n, now)] else []);
      ConvertDtosStep(ds, fallback, firstId, now, rest, r);
      r
  }

  /** Entry `k` of `r` is the conversion of the `k`-th kept record. */
  predicate ConvertedAt(r: seq<Movie>, ds: seq<MovieDto>, fallback: string, firstId: nat, now: Stamp, k: int)
    requires |r| == |Kept(ds, HasBackdrop)| && 0 <= k < |r|
  {
    r[k] == ToMovie(ds[Kept(ds, HasBackdrop)[k]], fallback, firstId + Kept(ds, HasBackdrop)[k], now)
  }

  /** Converting one more record extends the conversion of the shorter list. */
  lemma ConvertDtosStep(ds: seq<MovieDto>, fallback: string, firstId: nat, now: Stamp,
                        rest: seq<Movie>, r: seq<Movie>)
    requires ds != []
    requires var init := ds[..|ds| - 1];
      && |rest| == |Kept(init, HasBackdrop)|
      && forall k :: 0 <= k < |rest| ==> ConvertedAt(rest, init, fallback, firstId, now, k)
    requires var n := |ds| - 1;
      r == rest + (if HasBackdrop(ds[n]) then [ToMovie(ds[n], fallback, firstId + n, now)] else [])
    ensures |r| == |Kept(ds, HasBackdrop)|
    ensures forall k :: 0 <= k < |r| ==> ConvertedAt(r, ds, fallback, firstId, now, k)
  {
    var n := |ds| - 1;
    var init := ds[..n];
    var prev := Kept(init, HasBackdrop);
    var kept := Kept(ds, HasBackdrop);
    assert kept == prev + (if HasBackdrop(ds[n]) then [n] else []) by {
      assert init + [ds[n]] == ds;
      KeptSnoc(init, ds[n], HasBackdrop);
    }
    forall k | 0 <= k < |r|
      ensures ConvertedAt(r, ds, fallback, firstId, now, k)
    {
      if k < |rest| {
        assert ConvertedAt(rest, init, fallback, firstId, now, k);
        assert r[k] == rest[k];
        assert kept[k] == prev[k];
        assert init[prev[k]] == ds[prev[k]];
      } else {
        assert HasBackdrop(ds[n]) && k == |rest| && kept[k] == n;
        assert r[k] == ToMovie(ds[n], fallback, firstId + n, now);
      }
    }
  }

  /** `getRecommendations`: the received records converted, kept record i getting local id `firstId + i`. */
  function ReceiveMovies(urlOk: bool, x: Exchange<seq<MovieDto>>, firstId: nat, now: Stamp)
    : Result<seq<Movie>, Thrown>
  {
    match Receive(urlOk, x)
    case Success(ds) => Success(ConvertDtos(ds, "Recommended", firstId, now))
    case Failure(e) => Failure(e)
  }

  /**
   * A fetch fails exactly as the exchange does; the movies it yields are at
   * most one per record and carry distinct local ids from the reserved block.
   */
  lemma ReceiveMoviesFresh(urlOk: bool, x: Exchange<seq<MovieDto>>, firstId: nat, now: Stamp)
    ensures var r := ReceiveMovies(urlOk, x, firstId, now);
      && (r.Success? <==> Receive(urlOk, x).Success?)
      && (r.Failure? ==> r.error == Receive(urlOk, x).error)
      && (r.Success? ==>
            && |r.value| <= |Receive(urlOk, x).value| && UniqueIds(r.value)
            && forall m :: m in r.value ==> firstId <= m.id < firstId + |Receive(urlOk, x).value|)
  {
    if Receive(urlOk, x).Success? {
      ConvertDtosUnique(Receive(urlOk, x).value, "Recommended", firstId, now);
    }
  }

  /** Converted movies carry pairwise distinct local ids. */
  lemma ConvertDtosUnique(ds: seq<MovieDto>, fallback: string, firstId: nat, now: Stamp)
    ensures UniqueIds(ConvertDtos(ds, fallback, firstId, now))
    ensures forall m :: m in ConvertDtos(ds, fallback, firstId, now) ==> firstId <= m.id < firstId + |ds|
  {
    var r := ConvertDtos(ds, fallback, firstId, now);
    forall m | m in r ensures firstId <= m.id < firstId + |ds| {
      var k :| 0 <= k < |r| && r[k] == m;
    }
  }

  /** A record with a backdrop yields exactly one movie, and no other record yields one. */
  lemma ConvertDtosKeepsExactly(ds: seq<MovieDto>, fallback: string, firstId: nat, now: Stamp, i: int)
    requires 0 <= i < |ds|
    ensures HasBackdrop(ds[i]) <==>
              exists k :: 0 <= k < |Kept(ds, HasBackdrop)| && Kept(ds, HasBackdrop)[k] == i
  {
    KeptExactly(ds, HasBackdrop, i);
  }
}
