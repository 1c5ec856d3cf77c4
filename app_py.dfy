/**
 * The engine's HTTP handlers (`recc-engine/app.py`) as request and response
 * shaping: the profile `/encode` builds and the keywords it collects, and for
 * `/users/{id}/recommendations` where the embedding and the genre filter come
 * from, the genre override, the mapping of search results to
 * recommendations, and the status codes of the failures.
 *
 * The TMDB keyword lookup, `json.loads`, the embedding model and the vector
 * store are parameters: a function from a movie id to the lookup's result, a
 * function from text to the parsed value, and the store's replies as values.
 */
module ReccApi {
  import opened Wrappers
  import opened Text
  import opened Json
  import opened Indices
  import UserProfile

  // ---------------------------------------------------------------- encode_user

  /**
   * The profile `/encode` writes. `list(current_keywords)` lists a set in no
   * fixed order, so the keywords are kept as the set.
   */
  datatype NewProfile = NewProfile(
    name: string, genres: seq<string>,
    liked: seq<int>, disliked: seq<int>, watchlist: seq<int>, seen: seq<int>,
    keywords: set<Json>)

  /** A value a Python set can hold: anything but a list or a dict. */
  predicate Hashable(j: Json) {
    !j.Arr? && !j.Obj?
  }

  /** An entry of a keyword list with a `"name"` to contribute. */
  predicate HasName(e: Json) {
    e.Obj? && "name" in e.fields
  }

  /** An entry `"name" in k` and `k["name"]` accept: a dict, a list without the string, a string without the substring. */
  predicate EntryOk(e: Json) {
    match e
    case Obj(_) => true
    case Arr(xs) => Str("name") !in xs
    case Str(s) => !ContainsSub(s, "name")
    case _ => false
  }

  /**
   * `[k["name"] for k in entries if "name" in k]`: it raises as soon as one
   * entry cannot be searched with `in` or indexed, and otherwise lists the names of the
   * named entries, in order.
   */
  function NamesIn(entries: seq<Json>): (r: Result<seq<Json>, PyError>)
    ensures r.Success? <==> forall k :: 0 <= k < |entries| ==> EntryOk(entries[k])
    ensures r.Success? ==>
      |r.value| == |Kept(entries, HasName)| && forall k :: 0 <= k < |r.value| ==> NamedAt(r.value, entries, k)
  {
    if entries == [] then Success([])
    else
      var rest := NamesIn(entries[..|entries| - 1]);
      var r := if rest.Failure? then rest else NameAppended(rest.value, entries[|entries| - 1]);
      NamesInStep(entries, rest, r);
      r
  }

  /** Name `k` is the `"name"` of the `k`-th named entry. */
  predicate NamedAt(names: seq<Json>, entries: seq<Json>, k: int)
    requires |names| == |Kept(entries, HasName)| && 0 <= k < |names|
  {
    names[k] == entries[Kept(entries, HasName)[k]].fields["name"]
  }

  /** One more entry of the comprehension: searched with `in`, then indexed when the key is there. */
  function NameAppended(names: seq<Json>, last: Json): (r: Result<seq<Json>, PyError>)
    ensures r.Success? <==> EntryOk(last)
    ensures r.Success? ==> r.value == names + (if HasName(last) then [last.fields["name"]] else [])
  {
    var present :- In(Str("name"), last);
    if !present then Success(names)
    else if last.Obj? then Success(names + [last.fields["name"]])
    else Failure(TypeError)
  }

  /** The contract of `NamesIn` carries over from all entries but the last to all of them. */
  lemma NamesInStep(entries: seq<Json>, rest: Result<seq<Json>, PyError>, r: Result<seq<Json>, PyError>)
    requires entries != []
    requires var init := entries[..|entries| - 1];
      && (rest.Success? <==> forall k :: 0 <= k < |init| ==> EntryOk(init[k]))
      && (rest.Success? ==>
            |rest.value| == |Kept(init, HasName)| && forall k :: 0 <= k < |rest.value| ==> NamedAt(rest.value, init, k))
    requires r == if rest.Failure? then rest else NameAppended(rest.value, entries[|entries| - 1])
    ensures r.Success? <==> forall k :: 0 <= k < |entries| ==> EntryOk(entries[k])
    ensures r.Success? ==>
      |r.value| == |Kept(entries, HasName)| && forall k :: 0 <= k < |r.value| ==> NamedAt(r.value, entries, k)
  {
    var n := |entries| - 1;
    var init := entries[..n];
    assert forall k :: 0 <= k < |init| ==> init[k] == entries[k];
    if r.Success? {
      NamesSnoc(entries, rest.value, r.value);
    }
  }

  /** The names of all entries are those of all but the last, then the last one's if it has one. */
  lemma NamesSnoc(entries: seq<Json>, names: seq<Json>, all: seq<Json>)
    requires entries != []
    requires var init := entries[..|entries| - 1];
      |names| == |Kept(init, HasName)| && forall k :: 0 <= k < |names| ==> NamedAt(names, init, k)
    requires var last := entries[|entries| - 1];
      all == names + (if HasName(last) then [last.fields["name"]] else [])
    ensures |all| == |Kept(entries, HasName)| && forall k :: 0 <= k < |all| ==> NamedAt(all, entries, k)
  {
    var n := |entries| - 1;
    var init := entries[..n];
    var prev := Kept(init, HasName);
    var idx := Kept(entries, HasName);
    assert idx == prev + (if HasName(entries[n]) then [n] else []) by {
      assert init + [entries[n]] == entries;
      KeptSnoc(init, entries[n], HasName);
    }
    forall k | 0 <= k < |all| ensures NamedAt(all, entries, k) {
      if k < |prev| {
        assert NamedAt(names, init, k);
        assert all[k] == names[k];
        assert idx[k] == prev[k];
        assert init[prev[k]] == entries[prev[k]];
      } else {
        assert k == |prev| && HasName(entries[n]) && idx[k] == n;
      }
    }
  }

  /** The names one keyword reply yields: `kw_resp.get("keywords", [])`, then the comprehension. */
  function NamesOf(resp: Json): (r: Result<seq<Json>, PyError>)
    ensures !resp.Obj? ==> r == Failure(AttributeError)
    ensures resp.Obj? && "keywords" !in resp.fields ==> r == Success([])
    ensures resp.Obj? && "keywords" in resp.fields && resp.fields["keywords"].Arr? ==>
              r == NamesIn(resp.fields["keywords"].items)
  {
    var data :- Get(resp, "keywords", Arr([]));
    match data
    case Arr(entries) => NamesIn(entries)
    // A list of one-character strings: none contains "name".
    case Str(_) => Success([])
    // Iterating a dict gives its keys; a key containing "name" cannot be indexed by a string.
    case Obj(m) => if exists key :: key in m && ContainsSub(key, "name") then Failure(TypeError) else Success([])
    case _ => Failure(TypeError)
  }

  /**
   * What `set.update(names)` adds before it stops: the names up to the first
   * unhashable one, which raises.
   */
  function HashablePrefix(names: seq<Json>): (r: set<Json>)
    ensures forall x :: x in r ==> x in names && Hashable(x)
    ensures (forall k :: 0 <= k < |names| ==> Hashable(names[k])) ==> forall x :: x in names ==> x in r
  {
    if names == [] || !Hashable(names[0]) then {}
    else {names[0]} + HashablePrefix(names[1..])
  }

  /** What one movie's lookup adds to the keywords; a lookup or a comprehension that raises adds nothing. */
  function Contribution(lookup: Result<Json, PyError>): (r: set<Json>)
    ensures forall x :: x in r ==> Hashable(x)
  {
    match lookup
    case Failure(_) => {}
    case Success(resp) =>
      match NamesOf(resp)
      case Failure(_) => {}
      case Success(names) => HashablePrefix(names)
  }

  /** The union of the contributions of the given movies. */
  function KeywordUnion(movieIds: seq<int>, lookup: int -> Result<Json, PyError>): set<Json> {
    if movieIds == [] then {}
    else KeywordUnion(movieIds[..|movieIds| - 1], lookup) + Contribution(lookup(movieIds[|movieIds| - 1]))
  }

  /** Every collected keyword comes from some movie's lookup. */
  lemma {:induction false} KeywordUnionSound(movieIds: seq<int>, lookup: int -> Result<Json, PyError>, x: Json)
    requires x in KeywordUnion(movieIds, lookup)
    ensures exists i :: 0 <= i < |movieIds| && x in Contribution(lookup(movieIds[i]))
  {
    var n := |movieIds| - 1;
    var init := movieIds[..n];
    if x in KeywordUnion(init, lookup) {
      KeywordUnionSound(init, lookup, x);
      var i :| 0 <= i < |init| && x in Contribution(lookup(init[i]));
      assert movieIds[i] == init[i];
    } else {
      assert x in Contribution(lookup(movieIds[n]));
    }
  }

  /** Every keyword a movie's lookup contributes is collected. */
  lemma {:induction false} KeywordUnionComplete(movieIds: seq<int>, lookup: int -> Result<Json, PyError>, i: nat, x: Json)
    requires i < |movieIds| && x in Contribution(lookup(movieIds[i]))
    ensures x in KeywordUnion(movieIds, lookup)
  {
    var n := |movieIds| - 1;
    var init := movieIds[..n];
    if i == n {
      assert x in Contribution(lookup(movieIds[n]));
    } else {
      assert init[i] == movieIds[i];
      KeywordUnionComplete(init, lookup, i, x);
    }
  }

  /** A reply whose keyword list holds only dicts with string names, where named. */
  predicate WellFormedEntries(entries: seq<Json>) {
    forall k :: 0 <= k < |entries| ==> entries[k].Obj? && ("name" in entries[k].fields ==> entries[k].fields["name"].Str?)
  }

  /** A well-formed keyword list yields every name it holds. */
  lemma NamesOfWellFormed(entries: seq<Json>, rest: map<string, Json>)
    requires WellFormedEntries(entries)
    ensures Contribution(Success(Obj(rest["keywords" := Arr(entries)]))) == HashablePrefix(NamesIn(entries).value)
    ensures forall k :: 0 <= k < |NamesIn(entries).value| ==> Hashable(NamesIn(entries).value[k])
  {
    var resp := Obj(rest["keywords" := Arr(entries)]);
    assert NamesIn(entries).Success? by {
      assert forall k :: 0 <= k < |entries| ==> EntryOk(entries[k]);
    }
    assert NamesOf(resp) == NamesIn(entries);
    var names := NamesIn(entries).value;
    forall k | 0 <= k < |names| ensures Hashable(names[k]) {
      var idx := Kept(entries, HasName);
      assert NamedAt(names, entries, k) && HasName(entries[idx[k]]);
    }
  }

  /**
   * A well-formed reply (a dict whose `"keywords"` lists dicts with string
   * names, where present) contributes every name it lists.
   */
  lemma ContributionComplete(entries: seq<Json>, rest: map<string, Json>, k: nat)
    requires WellFormedEntries(entries)
    requires k < |entries| && HasName(entries[k])
    ensures entries[k].fields["name"] in Contribution(Success(Obj(rest["keywords" := Arr(entries)])))
  {
    NamesOfWellFormed(entries, rest);
    var names := NamesIn(entries).value;
    var idx := Kept(entries, HasName);
    KeptExactly(entries, HasName, k);
    var j :| 0 <= j < |idx| && idx[j] == k;
    assert NamedAt(names, entries, j);
  }

  /** A well-formed reply contributes nothing but the names it lists. */
  lemma ContributionSound(entries: seq<Json>, rest: map<string, Json>, x: Json)
    requires WellFormedEntries(entries)
    requires x in Contribution(Success(Obj(rest["keywords" := Arr(entries)])))
    ensures exists k :: 0 <= k < |entries| && HasName(entries[k]) && x == entries[k].fields["name"]
  {
    NamesOfWellFormed(entries, rest);
    var names := NamesIn(entries).value;
    var idx := Kept(entries, HasName);
    var j :| 0 <= j < |names| && names[j] == x;
    assert NamedAt(names, entries, j) && HasName(entries[idx[j]]);
  }

  /** The loop over the movies, adding each lookup's names to the set. */
  method CollectKeywords(movieIds: seq<int>, lookup: int -> Result<Json, PyError>) returns (keywords: set<Json>)
    ensures keywords == KeywordUnion(movieIds, lookup)
  {
    keywords := {};
    for i := 0 to |movieIds|
      invariant keywords == KeywordUnion(movieIds[..i], lookup)
    {
      assert movieIds[..i + 1][..i] == movieIds[..i];
      keywords := keywords + Contribution(lookup(movieIds[i]));
    }
    assert movieIds[..|movieIds|] == movieIds;
  }

  /**
   * `encode_user` up to the save: liked and seen are the given ids, disliked
   * and watchlist start empty, and the keywords are those the lookups yield.
   */
  method EncodeUser(name: string, genres: seq<string>, movieIds: seq<int>, lookup: int -> Result<Json, PyError>)
    returns (p: NewProfile)
    ensures p.name == name && p.genres == genres
    ensures p.liked == movieIds && p.seen == p.liked && p.disliked == [] && p.watchlist == []
    ensures p.keywords == KeywordUnion(movieIds, lookup)
  {
    var keywords := CollectKeywords(movieIds, lookup);
    p := NewProfile(name, genres, movieIds, [], [], movieIds, keywords);
  }

  /** The ids as a list value. */
  function IntArr(ids: seq<int>): (r: Json)
    ensures r.Arr? && |r.items| == |ids| && forall k :: 0 <= k < |ids| ==> r.items[k] == Num(ids[k])
  {
    Arr(seq(|ids|, k requires 0 <= k < |ids| => Num(ids[k])))
  }

  /** The profile as the dict that is saved, with the keyword set listed as `keywordList`. */
  function ProfileJson(p: NewProfile, keywordList: seq<string>): Json {
    Obj(map[
      "name" := Str(p.name), "genres" := StrArr(p.genres),
      "history" := Obj(map["liked" := IntArr(p.liked), "disliked" := IntArr(p.disliked),
                           "watchlist" := IntArr(p.watchlist), "seen" := IntArr(p.seen)]),
      "keywords" := StrArr(keywordList)])
  }

  /**
   * The saved profile embeds as its genres and keywords; loading it back keeps
   * every field and adds a `data` of six empty lists, because `/encode` files
   * the onboarding ids under `history`, which the list updates never read.
   */
  lemma EncodedProfileLoads(p: NewProfile, keywordList: seq<string>)
    ensures UserProfile.BuildUserText(ProfileJson(p, keywordList)) == Success(UserProfile.UserText(p.genres, keywordList))
    ensures var j := ProfileJson(p, keywordList);
      UserProfile.LoadUserProfile(j) == Success(Obj(j.fields["data" := Obj(UserProfile.FillKeys(map[]))]))
  {
    var j := ProfileJson(p, keywordList);
    StringsOfStrArr(p.genres);
    StringsOfStrArr(keywordList);
    assert UserProfile.PartArg(j, "genres") == Success(p.genres);
    assert UserProfile.PartArg(j, "keywords") == Success(keywordList);
  }

  // ---------------------------------------------------------------- get_recommendations

  /** A handler step's outcome: a value, an exception answered with a status code, or a case outside the model. */
  datatype Step<+T> = Value(v: T) | Raised(status: int) | Unmodelled {
    predicate IsFailure() {
      !Value?
    }

    function PropagateFailure<U>(): Step<U>
      requires !Value?
    {
      if Raised? then Raised(status) else Unmodelled
    }

    function Extract(): T
      requires Value?
    {
      v
    }
  }

  /** Any exception other than an `HTTPException` becomes a 500; a value hanging on a dict's key order stays outside the model. */
  function Lift<T>(r: Result<T, PyError>): (s: Step<T>)
    ensures r.Success? <==> s.Value?
    ensures r.Failure? ==> s == if r.error == DictKeyOrder then Unmodelled else Raised(500)
  {
    match r
    case Success(v) => Value(v)
    case Failure(DictKeyOrder) => Unmodelled
    case Failure(_) => Raised(500)
  }

  /** `get_profile_from_db`: a ValueError when no embedding is stored, else the record's metadatas. */
  datatype DbReply = NoEmbedding | Stored(metadatas: seq<Json>)

  /** A non-empty `genres` query parameter (`if genres:`). */
  predicate GivenGenres(genres: Option<string>) {
    genres.Some? && genres.value != ""
  }

  /**
   * The DB branch: with no query genres, the genres of the profile stored in
   * the first metadata's payload; `[]` when there is none.
   */
  function DbGenres(genres: Option<string>, metadatas: seq<Json>, loads: string -> Result<Json, PyError>): (r: Result<Json, PyError>)
    ensures GivenGenres(genres) ==> r == Success(Arr([]))
  {
    if GivenGenres(genres) || metadatas == [] || !Truthy(metadatas[0]) then Success(Arr([]))
    else
      var payload :- Get(metadatas[0], "payload", Null);
      if !Truthy(payload) then Success(Arr([]))
      else if !payload.Str? then Failure(TypeError)
      else
        var profile :- loads(payload.s);
        Get(profile, "genres", Arr([]))
  }

  /**
   * The file branch: a missing file is a 404; otherwise the profile is loaded,
   * embedded and upserted, and its genres are the filter when no query genres
   * are given.
   */
  function FileGenres(genres: Option<string>, file: UserProfile.FileState): (r: Step<Json>)
    ensures file.Missing? <==> r == Raised(404)
    ensures r.Raised? ==> r.status == 404 || r.status == 500
    ensures r.Value? ==>
              && file.Parsed? && UserProfile.LoadUserProfile(file.value).Success?
              && UserProfile.BuildUserText(UserProfile.LoadUserProfile(file.value).value).Success?
              && (GivenGenres(genres) ==> r.v == Arr([]))
              && (!GivenGenres(genres) ==> Get(UserProfile.LoadUserProfile(file.value).value, "genres", Arr([])) == Success(r.v))
  {
    match file
    case Missing => Raised(404)
    case Unparsable => Raised(500)
    case Parsed(v) =>
      match UserProfile.LoadUserProfile(v)
      case Failure(_) => Raised(500)
      case Success(profile) =>
        var _ :- Lift(UserProfile.BuildUserText(profile));
        if GivenGenres(genres) then Value(Arr([]))
        else Lift(Get(profile, "genres", Arr([])))
  }

  /**
   * Where the filter genres come from: the DB when it holds an embedding; the
   * profile file when it does not, or when the stored payload does not parse
   * (a JSONDecodeError is a ValueError, which the DB branch catches).
   */
  function StoredGenres(genres: Option<string>, db: DbReply, file: UserProfile.FileState,
                        loads: string -> Result<Json, PyError>): (r: Step<Json>)
    ensures r == Raised(404) <==>
              file.Missing? && (db.NoEmbedding? || DbGenres(genres, db.metadatas, loads) == Failure(ValueError))
    ensures r.Raised? ==> r.status == 404 || r.status == 500
    ensures db.Stored? && GivenGenres(genres) ==> r == Value(Arr([]))
    ensures db.Stored? && DbGenres(genres, db.metadatas, loads).Success? ==> r == Value(DbGenres(genres, db.metadatas, loads).value)
  {
    match db
    case NoEmbedding => FileGenres(genres, file)
    case Stored(metadatas) =>
      match DbGenres(genres, metadatas, loads)
      case Success(j) => Value(j)
      case Failure(e) => if e == ValueError then FileGenres(genres, file) else Raised(500)
  }

  /** `[g.strip() for g in genres.split(",")]`. */
  function Override(genres: string): (r: seq<string>)
    ensures |r| == |Split(genres, ",")|
    ensures forall k :: 0 <= k < |r| ==> r[k] == PyStrip(Split(genres, ",")[k])
  {
    var parts := Split(genres, ",");
    seq(|parts|, k requires 0 <= k < |parts| => PyStrip(parts[k]))
  }

  /** Stripping a string without whitespace changes nothing. */
  lemma StripPlain(s: string)
    requires forall c :: c in s ==> !IsPySpace(c)
    ensures PyStrip(s) == s
  {
    TrimStartNothing(s, IsPySpace);
    TrimEndNothing(s, IsPySpace);
  }

  /** Every token is already stripped. */
  lemma OverrideStripped(genres: string)
    ensures forall k :: 0 <= k < |Override(genres)| ==> PyStrip(Override(genres)[k]) == Override(genres)[k]
  {
    var r := Override(genres);
    forall k | 0 <= k < |r| ensures PyStrip(r[k]) == r[k] {
      TrimIdempotent(Split(genres, ",")[k], IsPySpace);
    }
  }

  /** A query without whitespace splits into tokens that join back into it. */
  lemma OverrideRoundTrip(genres: string)
    requires forall c :: c in genres ==> !IsPySpace(c)
    ensures Join(Override(genres), ",") == genres
  {
    var parts := Split(genres, ",");
    forall k | 0 <= k < |parts| ensures Override(genres)[k] == parts[k] {
      SplitPieceIn(genres, k);
      StripPlain(parts[k]);
    }
    assert Override(genres) == parts;
    JoinSplit(genres, ",");
  }

  /** Each piece of a split is a run of characters of the string. */
  lemma SplitPieceIn(s: string, k: nat)
    requires k < |Split(s, ",")|
    ensures forall c :: c in Split(s, ",")[k] ==> c in s
  {
    SplitFromPieceIn(s, ",", "", k);
  }

  lemma {:induction false} SplitFromPieceIn(s: string, sep: string, piece: string, k: nat)
    requires sep != "" && k < |SplitFrom(s, sep, piece)|
    ensures forall c :: c in SplitFrom(s, sep, piece)[k] ==> c in piece || c in s
    decreases |s|
  {
    if |s| < |sep| {
    } else if s[..|sep|] == sep {
      if k > 0 {
        SplitFromPieceIn(s[|sep|..], sep, "", k - 1);
      }
    } else {
      SplitFromPieceIn(s[1..], sep, piece + [s[0]], k);
    }
  }

  /** A string iterated: its characters, each a string of its own. */
  function Chars(s: string): (r: seq<string>)
    ensures |r| == |s| && forall k :: 0 <= k < |s| ==> r[k] == [s[k]]
  {
    seq(|s|, k requires 0 <= k < |s| => [s[k]])
  }

  /** `str(x)` for the list entries the model covers: None, booleans, integers and strings. */
  function PyStrs(xs: seq<Json>): (r: Option<seq<string>>)
    ensures r.Some? ==> |r.value| == |xs|
    ensures (forall k :: 0 <= k < |xs| ==> xs[k].Str?) ==> r == Strings(xs)
  {
    if xs == [] then Some([])
    else match (PyStr(xs[0]), PyStrs(xs[1..]))
      case (Some(s), Some(rest)) => Some([s] + rest)
      case _ => None
  }

  /**
   * The genres `search_movies` iterates: a falsy value none, a list the
   * `str()` of each entry, a string its characters. A dict's keys (in insertion
   * order) and the `str()` of floats, lists and dicts are outside the model;
   * anything else is not iterable.
   */
  function FilterStrings(j: Json): (r: Step<seq<string>>)
    ensures !Truthy(j) ==> r == Value([])
    ensures j.Arr? && (forall k :: 0 <= k < |j.items| ==> j.items[k].Str?) ==> r == Value(Strings(j.items).value)
  {
    if !Truthy(j) then Value([])
    else match j
      case Arr(xs) => (match PyStrs(xs) case Some(ss) => Value(ss) case None => Unmodelled)
      case Str(s) => Value(Chars(s))
      case Obj(_) => Unmodelled
      case _ => Raised(500)
  }

  /** The query `get_recommendations` sends: the stored genres, or the query's own when it names some. */
  function RecommendationQuery(topK: int, genres: Option<string>, db: DbReply, file: UserProfile.FileState,
                               loads: string -> Result<Json, PyError>): (r: Step<UserProfile.Query>)
    ensures GivenGenres(genres) && r.Value? ==> r.v == UserProfile.SearchQuery(topK, Override(genres.value))
    ensures var stored := StoredGenres(genres, db, file, loads);
      !GivenGenres(genres) && stored.Value? && stored.v.Arr? && Strings(stored.v.items).Some? ==>
        r == Value(UserProfile.SearchQuery(topK, Strings(stored.v.items).value))
    ensures var stored := StoredGenres(genres, db, file, loads);
      !GivenGenres(genres) && stored.Value? && !Truthy(stored.v) ==> r == Value(UserProfile.SearchQuery(topK, []))
    ensures StoredGenres(genres, db, file, loads).Raised? ==> r == Raised(StoredGenres(genres, db, file, loads).status)
  {
    var stored :- StoredGenres(genres, db, file, loads);
    var filters :- if GivenGenres(genres) then Value(Override(genres.value)) else FilterStrings(stored);
    Value(UserProfile.SearchQuery(topK, filters))
  }

  // ---------------------------------------------------------------- result mapping

  /** A search result as the response model holds it. */
  datatype Recommendation = Recommendation(
    movieId: string, title: string, score: real, genres: seq<string>, backdropPath: Option<string>)

  /** The name a genre entry contributes: a dict's `"name"`, a string itself, nothing otherwise. */
  function GenreName(g: Json): (r: Option<Json>)
    ensures r.None? <==> !(g.Obj? && "name" in g.fields) && !g.Str?
  {
    if g.Obj? && "name" in g.fields then Some(g.fields["name"])
    else if g.Str? then Some(g)
    else None
  }

  /** An entry that contributes a genre name. */
  predicate Named(g: Json) {
    GenreName(g).Some?
  }

  /** The normalised genre list. */
  function NormalGenres(raw: seq<Json>): seq<Json> {
    if raw == [] then []
    else
      var last := raw[|raw| - 1];
      NormalGenres(raw[..|raw| - 1]) + (if Named(last) then [GenreName(last).value] else [])
  }

  /**
   * The normalised list holds, in order, the names of exactly the entries that
   * have one: a dict's `"name"` or the string itself.
   */
  lemma {:induction false} NormalGenresKept(raw: seq<Json>)
    ensures var idx := Kept(raw, Named);
      |NormalGenres(raw)| == |idx|
      && forall k :: 0 <= k < |idx| ==> NormalGenres(raw)[k] == GenreName(raw[idx[k]]).value
  {
    if raw != [] {
      var n := |raw| - 1;
      var init := raw[..n];
      NormalGenresKept(init);
      assert init + [raw[n]] == raw;
      KeptSnoc(init, raw[n], Named);
      var idx0 := Kept(init, Named);
      assert forall k :: 0 <= k < |idx0| ==> raw[idx0[k]] == init[idx0[k]];
    }
  }

  /** Normalising a concatenation normalises each part: the order of the entries is kept. */
  lemma {:induction false} NormalGenresAppend(a: seq<Json>, b: seq<Json>)
    ensures NormalGenres(a + b) == NormalGenres(a) + NormalGenres(b)
    decreases |b|
  {
    if b == [] {
      assert a + b == a;
    } else {
      var b0 := b[..|b| - 1];
      NormalGenresAppend(a, b0);
      assert (a + b)[..|a + b| - 1] == a + b0;
    }
  }

  /** A list of strings is already normal. */
  lemma {:induction false} NormalGenresOfStrings(raw: seq<Json>)
    requires forall k :: 0 <= k < |raw| ==> raw[k].Str?
    ensures NormalGenres(raw) == raw
  {
    if raw != [] {
      var init := raw[..|raw| - 1];
      NormalGenresOfStrings(init);
      assert init + [raw[|raw| - 1]] == raw;
    }
  }

  /** The loop that builds `processed_genres`. */
  method NormaliseGenres(raw: seq<Json>) returns (r: seq<Json>)
    ensures r == NormalGenres(raw)
  {
    r := [];
    for i := 0 to |raw|
      invariant r == NormalGenres(raw[..i])
    {
      assert raw[..i + 1][..i] == raw[..i];
      var g := raw[i];
      if g.Obj? && "name" in g.fields {
        r := r + [g.fields["name"]];
      } else if g.Str? {
        r := r + [g];
      }
    }
    assert raw[..|raw|] == raw;
  }

  /** The genre entries of a payload: a list's normalised entries, a string's characters; a dict's keys are outside the model. */
  function RawGenreNames(raw: Json): (r: Step<seq<Json>>)
    ensures raw.Arr? ==> r == Value(NormalGenres(raw.items))
  {
    match raw
    case Arr(items) => Value(NormalGenres(items))
    case Str(s) => Value(StrArr(Chars(s)).items)
    case Obj(_) => Unmodelled
    case _ => Raised(500)
  }

  /** `json.loads(meta.get("payload", "{}"))`. */
  function PayloadOf(meta: Json, loads: string -> Result<Json, PyError>): Result<Json, PyError> {
    var text :- Get(meta, "payload", Str("{}"));
    if text.Str? then loads(text.s) else Failure(TypeError)
  }

  /**
   * A parsed payload as a `Recommendation`: the title defaulting to "Unknown",
   * the genres normalised, and the validation the response model applies (a
   * string title, string genres, a string or absent backdrop).
   */
  function FromPayload(id: string, distance: real, fields: map<string, Json>): (r: Step<Recommendation>)
    ensures r.Value? ==> r.v.movieId == id && r.v.score == distance
    ensures r.Value? && "title" !in fields ==> r.v.title == "Unknown"
    ensures r.Raised? ==> r.status == 500
    ensures r.Value? && "title" in fields ==> fields["title"] == Str(r.v.title)
    ensures r.Value? ==>
              r.v.backdropPath
              == if "backdrop_path" in fields && fields["backdrop_path"].Str? then Some(fields["backdrop_path"].s) else None
  {
    var names :- RawGenreNames(if "genres" in fields then fields["genres"] else Arr([]));
    var title := if "title" in fields then fields["title"] else Str("Unknown");
    var backdrop := if "backdrop_path" in fields then fields["backdrop_path"] else Null;
    if !title.Str? || !(backdrop.Null? || backdrop.Str?) then Raised(500)
    else match Strings(names)
      case None => Raised(500)
      case Some(gs) => Value(Recommendation(id, title.s, distance, gs, if backdrop.Str? then Some(backdrop.s) else None))
  }

  /**
   * One result as a `Recommendation`: the id as given (Chroma ids are
   * strings), the distance as the score, the rest from the `json.loads` of its
   * payload; a payload that is not a dict fails with a 500.
   */
  function Recommend(id: string, distance: real, meta: Json, loads: string -> Result<Json, PyError>): (r: Step<Recommendation>)
    ensures r.Value? ==> r.v.movieId == id && r.v.score == distance
    ensures r.Raised? ==> r.status == 500
    ensures PayloadOf(meta, loads).Success? && !PayloadOf(meta, loads).value.Obj? ==> r == Raised(500)
  {
    var payload :- Lift(PayloadOf(meta, loads));
    if !payload.Obj? then Raised(500)
    else FromPayload(id, distance, payload.fields)
  }

  /**
   * A payload whose genres are a list: the result exists exactly when the
   * title is a string, the backdrop is a string or missing and every kept
   * genre name is a string, and its genres are those names in order; a list
   * of plain strings is kept as it is.
   */
  lemma FromPayloadGenres(id: string, distance: real, fields: map<string, Json>)
    requires "genres" !in fields || fields["genres"].Arr?
    ensures var raw := if "genres" in fields then fields["genres"].items else [];
      var title := if "title" in fields then fields["title"] else Str("Unknown");
      var backdrop := if "backdrop_path" in fields then fields["backdrop_path"] else Null;
      var r := FromPayload(id, distance, fields);
      && (r.Value? <==> title.Str? && (backdrop.Null? || backdrop.Str?) && Strings(NormalGenres(raw)).Some?)
      && (r.Value? ==> Strings(NormalGenres(raw)) == Some(r.v.genres))
      && (r.Value? && Strings(raw).Some? ==> r.v.genres == Strings(raw).value)
  {
    var raw := if "genres" in fields then fields["genres"].items else [];
    if Strings(raw).Some? {
      NormalGenresOfStrings(raw);
    }
  }

  /** A hit whose stored payload parses to a dict is converted from that dict's fields. */
  lemma RecommendCopies(id: string, distance: real, meta: Json, loads: string -> Result<Json, PyError>)
    requires PayloadOf(meta, loads).Success? && PayloadOf(meta, loads).value.Obj?
    ensures Recommend(id, distance, meta, loads) == FromPayload(id, distance, PayloadOf(meta, loads).value.fields)
  {
  }

  /** A payload without a title or backdrop, with string genres, keeps its genres and is titled "Unknown". */
  lemma FromPayloadDefaults(id: string, distance: real, payload: map<string, Json>, genres: seq<string>)
    requires "title" !in payload && "backdrop_path" !in payload
    requires "genres" in payload && payload["genres"] == StrArr(genres)
    ensures FromPayload(id, distance, payload) == Value(Recommendation(id, "Unknown", distance, genres, None))
  {
    var items := StrArr(genres).items;
    assert NormalGenres(items) == items by {
      NormalGenresOfStrings(items);
    }
    assert Strings(items) == Some(genres) by {
      StringsOfStrArr(genres);
    }
  }

  /** The same through the stored metadata, whose payload text parses to that dict. */
  lemma RecommendDefaults(id: string, distance: real, text: string, payload: map<string, Json>,
                          loads: string -> Result<Json, PyError>, genres: seq<string>)
    requires loads(text) == Success(Obj(payload))
    requires "title" !in payload && "backdrop_path" !in payload
    requires "genres" in payload && payload["genres"] == StrArr(genres)
    ensures Recommend(id, distance, Obj(map["payload" := Str(text)]), loads)
              == Value(Recommendation(id, "Unknown", distance, genres, None))
  {
    var meta := Obj(map["payload" := Str(text)]);
    assert PayloadOf(meta, loads) == Success(Obj(payload));
    FromPayloadDefaults(id, distance, payload, genres);
  }

  /** The first `i` results as hits of their own. */
  function Prefix(h: UserProfile.Hits, i: nat): (r: UserProfile.Hits)
    requires UserProfile.Aligned(h) && i <= |h.ids|
    ensures UserProfile.Aligned(r) && |r.ids| == i
  {
    UserProfile.Hits(h.ids[..i], h.distances[..i], h.metadatas[..i], h.documents[..i])
  }

  /** A prefix of a prefix is the shorter prefix. */
  lemma PrefixOfPrefix(h: UserProfile.Hits, i: nat, j: nat)
    requires UserProfile.Aligned(h) && i <= j <= |h.ids|
    ensures Prefix(Prefix(h, j), i) == Prefix(h, i)
  {
    var p := Prefix(h, j);
    assert p.ids[..i] == h.ids[..i] && p.distances[..i] == h.distances[..i];
    assert p.metadatas[..i] == h.metadatas[..i] && p.documents[..i] == h.documents[..i];
  }

  /** The prefix of full length is the whole. */
  lemma PrefixWhole(h: UserProfile.Hits)
    requires UserProfile.Aligned(h)
    ensures Prefix(h, |h.ids|) == h
  {
    assert h.ids[..|h.ids|] == h.ids && h.distances[..|h.ids|] == h.distances;
    assert h.metadatas[..|h.ids|] == h.metadatas && h.documents[..|h.ids|] == h.documents;
  }

  /** The results mapped in order, stopping at the first that fails. */
  function RecommendAll(h: UserProfile.Hits, loads: string -> Result<Json, PyError>): (r: Step<seq<Recommendation>>)
    requires UserProfile.Aligned(h)
    ensures r.Value? ==> |r.v| == |h.ids|
    ensures r.Raised? ==> r.status == 500
    decreases |h.ids|
  {
    if h.ids == [] then Value([])
    else
      var n := |h.ids| - 1;
      var recs :- RecommendAll(Prefix(h, n), loads);
      var rec :- Recommend(h.ids[n], h.distances[n], h.metadatas[n], loads);
      Value(recs + [rec])
  }

  /** Each recommendation comes from the result at the same index. */
  lemma {:induction false} RecommendAllInOrder(h: UserProfile.Hits, loads: string -> Result<Json, PyError>)
    requires UserProfile.Aligned(h) && RecommendAll(h, loads).Value?
    ensures var recs := RecommendAll(h, loads).v;
      forall k :: 0 <= k < |recs| ==>
        Recommend(h.ids[k], h.distances[k], h.metadatas[k], loads) == Value(recs[k])
    decreases |h.ids|
  {
    if h.ids != [] {
      var n := |h.ids| - 1;
      RecommendAllInOrder(Prefix(h, n), loads);
    }
  }

  /** The loop over `enumerate(ids)`, appending one recommendation per result. */
  method RecommendResults(h: UserProfile.Hits, loads: string -> Result<Json, PyError>) returns (r: Step<seq<Recommendation>>)
    requires UserProfile.Aligned(h)
    ensures r == RecommendAll(h, loads)
  {
    PrefixWhole(h);
    var recs: seq<Recommendation> := [];
    for i := 0 to |h.ids|
      invariant RecommendAll(Prefix(h, i), loads) == Value(recs)
    {
      var rec := Recommend(h.ids[i], h.distances[i], h.metadatas[i], loads);
      RecommendAllSnoc(h, i, loads);
      if !rec.Value? {
        PrefixFailureStays(h, i + 1, |h.ids|, loads);
        return rec.PropagateFailure();
      }
      recs := recs + [rec.v];
    }
    r := Value(recs);
  }

  /** Mapping one more result: its recommendation is appended, or its failure is the outcome. */
  lemma RecommendAllSnoc(h: UserProfile.Hits, i: nat, loads: string -> Result<Json, PyError>)
    requires UserProfile.Aligned(h) && i < |h.ids| && RecommendAll(Prefix(h, i), loads).Value?
    ensures var rec := Recommend(h.ids[i], h.distances[i], h.metadatas[i], loads);
      && (rec.Value? ==> RecommendAll(Prefix(h, i + 1), loads) == Value(RecommendAll(Prefix(h, i), loads).v + [rec.v]))
      && (!rec.Value? ==> RecommendAll(Prefix(h, i + 1), loads) == rec.PropagateFailure())
  {
    var p := Prefix(h, i + 1);
    PrefixOfPrefix(h, i, i + 1);
    assert p.ids[i] == h.ids[i] && p.distances[i] == h.distances[i] && p.metadatas[i] == h.metadatas[i];
  }

  /** Once a prefix of the results fails, every longer prefix fails the same way. */
  lemma {:induction false} PrefixFailureStays(h: UserProfile.Hits, i: nat, j: nat, loads: string -> Result<Json, PyError>)
    requires UserProfile.Aligned(h) && i <= j <= |h.ids|
    requires !RecommendAll(Prefix(h, i), loads).Value?
    ensures RecommendAll(Prefix(h, j), loads) == RecommendAll(Prefix(h, i), loads)
    decreases j - i
  {
    if j > i {
      PrefixFailureStays(h, i, j - 1, loads);
      PrefixOfPrefix(h, j - 1, j);
    }
  }

  // ---------------------------------------------------------------- the handler

  /** What `/users/{id}/recommendations` answers. */
  datatype Reply = Ok(recommendations: seq<Recommendation>) | HttpError(status: int) | Outside

  /**
   * `get_recommendations`: the query is sent, its results (given, aligned)
   * are cut to `top_k` and mapped in order. An `HTTPException` keeps its
   * status; any other exception is a 500.
   */
  function GetRecommendations(topK: int, genres: Option<string>, db: DbReply, file: UserProfile.FileState,
                              loads: string -> Result<Json, PyError>, results: UserProfile.Hits): (r: Reply)
    requires UserProfile.Aligned(results)
    ensures r == HttpError(404) <==>
              file.Missing? && (db.NoEmbedding? || DbGenres(genres, db.metadatas, loads) == Failure(ValueError))
    ensures r.HttpError? ==> r.status == 404 || r.status == 500
    ensures r.Ok? ==> |r.recommendations| == |UserProfile.Truncated(results, topK).ids|
  {
    match RecommendationQuery(topK, genres, db, file, loads)
    case Raised(status) => HttpError(status)
    case Unmodelled => Outside
    case Value(_) =>
      match RecommendAll(UserProfile.Truncated(results, topK), loads)
      case Raised(status) => HttpError(status)
      case Unmodelled => Outside
      case Value(recs) => Ok(recs)
  }

  /** With results to map, the recommendations follow the first `top_k` results in order. */
  lemma RecommendationsInOrder(topK: int, genres: Option<string>, db: DbReply, file: UserProfile.FileState,
                               loads: string -> Result<Json, PyError>, results: UserProfile.Hits)
    requires UserProfile.Aligned(results)
    requires GetRecommendations(topK, genres, db, file, loads, results).Ok?
    ensures var recs := GetRecommendations(topK, genres, db, file, loads, results).recommendations;
      var h := UserProfile.Truncated(results, topK);
      && |recs| == |h.ids|
      && forall k :: 0 <= k < |recs| ==> recs[k].movieId == h.ids[k] && recs[k].score == h.distances[k]
  {
    var h := UserProfile.Truncated(results, topK);
    RecommendAllInOrder(h, loads);
  }
}
