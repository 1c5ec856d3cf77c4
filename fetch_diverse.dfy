/**
 * The dataset growth script (`recc-engine/fetch_diverse_movies.py`): the
 * existing dataset is loaded, the discovered candidates are reduced to the
 * first occurrence of every new id, each is enriched with its details and
 * keywords, and the enriched movies are appended to the dataset.
 *
 * The TMDB requests, the files and the thread pool are outside the model: the
 * files are their parsed states, the candidates are the concatenated discovery
 * results, and the enrichment results arrive as a list in completion order.
 */
module DiverseFetch {
  import opened Wrappers
  import opened Json
  import opened Indices
  import UserProfile

  // ---------------------------------------------------------------- load_existing_movies

  /** `json.load` of a file that exists; a malformed file raises a ValueError. */
  function ReadFile(file: UserProfile.FileState): (r: Result<Json, PyError>)
    requires !file.Missing?
  {
    match file
    case Parsed(v) => Success(v)
    case Unparsable => Failure(ValueError)
  }

  /** The dataset file when it exists, else the seed file when it exists, else no movies. */
  function LoadExistingMovies(dataFile: UserProfile.FileState, sourceFile: UserProfile.FileState): (r: Result<Json, PyError>)
    ensures !dataFile.Missing? ==> r == ReadFile(dataFile)
    ensures dataFile.Missing? && !sourceFile.Missing? ==> r == ReadFile(sourceFile)
    ensures dataFile.Missing? && sourceFile.Missing? ==> r == Success(Arr([]))
  {
    if !dataFile.Missing? then ReadFile(dataFile)
    else if !sourceFile.Missing? then ReadFile(sourceFile)
    else Success(Arr([]))
  }

  /** When the dataset file exists, the seed file is never read. */
  lemma DataFileWins(dataFile: UserProfile.FileState, s1: UserProfile.FileState, s2: UserProfile.FileState)
    requires !dataFile.Missing?
    ensures LoadExistingMovies(dataFile, s1) == LoadExistingMovies(dataFile, s2)
  {
  }

  // ---------------------------------------------------------------- existing ids

  /** `m["id"]` of one existing movie, as a set element. */
  function StoredId(m: Json): (r: Result<Json, PyError>)
    ensures r.Success? <==> m.Obj? && "id" in m.fields && Hashable(m.fields["id"])
    ensures r.Success? ==> r.value == m.fields["id"]
  {
    if !m.Obj? then Failure(TypeError)
    else if "id" !in m.fields then Failure(KeyError)
    else if !Hashable(m.fields["id"]) then Failure(TypeError)
    else Success(m.fields["id"])
  }

  /** A value a Python set can hold: anything but a list or a dict. */
  predicate Hashable(j: Json) {
    !j.Arr? && !j.Obj?
  }

  /** `{m["id"] for m in movies}` over a list. */
  function StoredIds(movies: seq<Json>): (r: Result<set<Json>, PyError>)
    ensures r.Success? <==> forall k :: 0 <= k < |movies| ==> StoredId(movies[k]).Success?
    ensures r.Success? ==> forall x :: x in r.value <==> exists k :: 0 <= k < |movies| && StoredId(movies[k]) == Success(x)
  {
    if movies == [] then Success({})
    else
      var n := |movies| - 1;
      var init := movies[..n];
      assert forall k :: 0 <= k < n ==> init[k] == movies[k];
      var ids :- StoredIds(init);
      var id :- StoredId(movies[n]);
      Success(ids + {id})
  }

  /**
   * The ids of the loaded dataset: a list's stored ids; an empty string or
   * dict has none; iterating a non-empty one yields strings, which cannot be
   * indexed by `"id"`.
   */
  function ExistingIds(movies: Json): (r: Result<set<Json>, PyError>)
    ensures movies.Arr? ==> r == StoredIds(movies.items)
    ensures movies.Num? || movies.Null? || movies.Bool? || movies.Float? ==> r == Failure(TypeError)
  {
    match movies
    case Arr(items) => StoredIds(items)
    case Str(s) => if s == "" then Success({}) else Failure(TypeError)
    case Obj(m) => if m == map[] then Success({}) else Failure(TypeError)
    case _ => Failure(TypeError)
  }

  // ---------------------------------------------------------------- de-duplication

  /** `c.get("id")` of a dict candidate. */
  function IdOf(c: Json): Json {
    if c.Obj? && "id" in c.fields then c.fields["id"] else Null
  }

  /** The ids of the given candidates. */
  function IdsOf(cs: seq<Json>): (r: set<Json>) {
    if cs == [] then {}
    else IdsOf(cs[..|cs| - 1]) + {IdOf(cs[|cs| - 1])}
  }

  /** The id of every candidate is in the set. */
  lemma {:induction false} IdsOfComplete(cs: seq<Json>, k: nat)
    requires k < |cs|
    ensures IdOf(cs[k]) in IdsOf(cs)
  {
    var n := |cs| - 1;
    if k < n {
      IdsOfComplete(cs[..n], k);
      assert cs[..n][k] == cs[k];
    }
  }

  /** A candidate the loop keeps given the ids already present: a dict with a truthy, new id. */
  predicate Fresh(c: Json, existing: set<Json>, seen: set<Json>) {
    c.Obj? && Truthy(IdOf(c)) && IdOf(c) !in existing && IdOf(c) !in seen
  }

  /**
   * The positions of the candidates the loop keeps: each kept candidate's id
   * is truthy and neither existing nor seen before. A candidate that is not a
   * dict has no `get`, and a truthy list or dict id cannot be looked up in a
   * set.
   */
  function Firsts(cs: seq<Json>, existing: set<Json>): (r: Result<seq<nat>, PyError>)
    ensures r.Success? ==> forall k :: 0 <= k < |r.value| ==> r.value[k] < |cs|
    ensures r.Success? ==> forall a, b :: 0 <= a < b < |r.value| ==> r.value[a] < r.value[b]
  {
    if cs == [] then Success([])
    else
      var n := |cs| - 1;
      var init := cs[..n];
      assert forall k :: 0 <= k < n ==> init[k] == cs[k];
      var ps :- Firsts(init, existing);
      var mid :- Get(cs[n], "id", Null);
      if !Truthy(mid) then Success(ps)
      else if !Hashable(mid) then Failure(TypeError)
      else if Fresh(cs[n], existing, IdsOf(Select(init, ps))) then Success(ps + [n])
      else Success(ps)
  }

  /** De-duplication raises exactly when some candidate is not a dict or has a truthy list or dict id. */
  lemma {:induction false} FirstsSucceeds(cs: seq<Json>, existing: set<Json>)
    ensures Firsts(cs, existing).Success? <==>
              forall k :: 0 <= k < |cs| ==> cs[k].Obj? && (Truthy(IdOf(cs[k])) ==> Hashable(IdOf(cs[k])))
  {
    if cs != [] {
      var n := |cs| - 1;
      FirstsSucceeds(cs[..n], existing);
      assert forall k :: 0 <= k < n ==> cs[..n][k] == cs[k];
    }
  }

  /** The selection from a prefix is the selection from the whole list. */
  lemma SelectPrefix(cs: seq<Json>, n: nat, ps: seq<nat>)
    requires n <= |cs| && forall k :: 0 <= k < |ps| ==> ps[k] < n
    ensures Select(cs[..n], ps) == Select(cs, ps)
  {
  }

  /** Every kept candidate is a dict with a truthy id that the dataset does not hold. */
  lemma {:induction false} FirstsFresh(cs: seq<Json>, existing: set<Json>)
    requires Firsts(cs, existing).Success?
    ensures var ps := Firsts(cs, existing).value;
      forall k :: 0 <= k < |ps| ==> cs[ps[k]].Obj? && Truthy(IdOf(cs[ps[k]])) && IdOf(cs[ps[k]]) !in existing
  {
    if cs != [] {
      var n := |cs| - 1;
      var init := cs[..n];
      FirstsFresh(init, existing);
      var ps := Firsts(init, existing).value;
      assert forall k :: 0 <= k < |ps| ==> init[ps[k]] == cs[ps[k]];
    }
  }

  /** One more candidate adds its position or nothing. */
  lemma FirstsStep(cs: seq<Json>, existing: set<Json>)
    requires cs != [] && Firsts(cs, existing).Success?
    ensures var n := |cs| - 1;
      var ps := Firsts(cs[..n], existing).value;
      Firsts(cs[..n], existing).Success?
      && Select(cs[..n], ps) == Select(cs, ps)
      && (Firsts(cs, existing).value == ps
          || (Firsts(cs, existing).value == ps + [n] && Fresh(cs[n], existing, IdsOf(Select(cs, ps)))))
      && (Fresh(cs[n], existing, IdsOf(Select(cs, ps))) ==> Firsts(cs, existing).value == ps + [n])
  {
    var n := |cs| - 1;
    var ps := Firsts(cs[..n], existing).value;
    SelectPrefix(cs, n, ps);
  }

  /**
   * One more candidate keeps every id already kept, and the kept ids then
   * include its own whenever it is truthy and not in the dataset.
   */
  lemma FirstsGrows(cs: seq<Json>, existing: set<Json>, x: Json)
    requires cs != [] && Firsts(cs, existing).Success?
    ensures var n := |cs| - 1;
      var kept := IdsOf(Select(cs, Firsts(cs, existing).value));
      && Firsts(cs[..n], existing).Success?
      && (x in IdsOf(Select(cs[..n], Firsts(cs[..n], existing).value)) ==> x in kept)
      && (x == IdOf(cs[n]) && Truthy(x) && x !in existing ==> x in kept)
  {
    var n := |cs| - 1;
    FirstsStep(cs, existing);
    var ps := Firsts(cs[..n], existing).value;
    var before := Select(cs, ps);
    var kept := IdsOf(Select(cs, Firsts(cs, existing).value));
    if Firsts(cs, existing).value == ps {
      assert kept == IdsOf(before);
      assert cs[n].Obj?;
    } else {
      assert Select(cs, ps + [n]) == before + [cs[n]];
      IdsOfSnoc(before, cs[n]);
    }
  }

  /** Every candidate with a truthy id that the dataset does not hold has its id among the kept ones. */
  lemma {:induction false} FirstsComplete(cs: seq<Json>, existing: set<Json>, m: nat)
    requires Firsts(cs, existing).Success?
    requires m < |cs| && Truthy(IdOf(cs[m])) && IdOf(cs[m]) !in existing
    ensures IdOf(cs[m]) in IdsOf(Select(cs, Firsts(cs, existing).value))
  {
    var n := |cs| - 1;
    var x := IdOf(cs[m]);
    if m < n {
      FirstsGrows(cs, existing, x);
      var init := cs[..n];
      assert init[m] == cs[m];
      FirstsComplete(init, existing, m);
    } else {
      FirstsGrows(cs, existing, x);
    }
  }

  /** Every id in the set belongs to one of the candidates. */
  lemma {:induction false} IdsOfSound(cs: seq<Json>, x: Json)
    requires x in IdsOf(cs)
    ensures exists k :: 0 <= k < |cs| && IdOf(cs[k]) == x
  {
    var n := |cs| - 1;
    if x != IdOf(cs[n]) {
      IdsOfSound(cs[..n], x);
      var k :| 0 <= k < n && IdOf(cs[..n][k]) == x;
      assert cs[..n][k] == cs[k];
    }
  }

  lemma IdsOfSnoc(cs: seq<Json>, c: Json)
    ensures IdsOf(cs + [c]) == IdsOf(cs) + {IdOf(c)}
  {
    assert (cs + [c])[..|cs|] == cs;
  }

  /**
   * No two kept candidates share an id, and each is the first candidate with
   * its id: no earlier candidate had it.
   */
  lemma {:induction false} FirstsDistinct(cs: seq<Json>, existing: set<Json>)
    requires Firsts(cs, existing).Success?
    ensures var ps := Firsts(cs, existing).value;
      forall j, m :: 0 <= j < |ps| && 0 <= m < ps[j] ==> IdOf(cs[m]) != IdOf(cs[ps[j]])
  {
    if cs != [] {
      var n := |cs| - 1;
      var init := cs[..n];
      FirstsDistinct(init, existing);
      var ps := Firsts(init, existing).value;
      assert forall k :: 0 <= k < |ps| ==> init[ps[k]] == cs[ps[k]];
      assert forall k :: 0 <= k < n ==> init[k] == cs[k];
      if Firsts(cs, existing).value != ps {
        forall m | 0 <= m < n && IdOf(cs[m]) == IdOf(cs[n])
          ensures false
        {
          FirstsComplete(init, existing, m);
        }
      }
    }
  }

  /** Hence the kept ids are pairwise distinct. */
  lemma FirstsUnique(cs: seq<Json>, existing: set<Json>)
    requires Firsts(cs, existing).Success?
    ensures var ps := Firsts(cs, existing).value;
      forall a, b :: 0 <= a < b < |ps| ==> IdOf(cs[ps[a]]) != IdOf(cs[ps[b]])
  {
    FirstsDistinct(cs, existing);
  }

  /** Once a prefix of the candidates raises, the whole list raises the same way. */
  lemma {:induction false} FirstsFailureStays(cs: seq<Json>, existing: set<Json>, i: nat)
    requires i <= |cs| && Firsts(cs[..i], existing).Failure?
    ensures Firsts(cs, existing) == Firsts(cs[..i], existing)
    decreases |cs| - i
  {
    if i < |cs| {
      assert cs[..i + 1][..i] == cs[..i];
      FirstsFailureStays(cs, existing, i + 1);
    } else {
      assert cs[..i] == cs;
    }
  }

  /** One candidate the loop accepts: its position is added exactly when it is fresh. */
  lemma ScanStep(cs: seq<Json>, existing: set<Json>, i: nat, ps: seq<nat>)
    requires i < |cs| && Firsts(cs[..i], existing) == Success(ps)
    requires cs[i].Obj? && (Truthy(IdOf(cs[i])) ==> Hashable(IdOf(cs[i])))
    ensures forall k :: 0 <= k < |ps| ==> ps[k] < i
    ensures Firsts(cs[..i + 1], existing) ==
              Success(if Fresh(cs[i], existing, IdsOf(Select(cs, ps))) then ps + [i] else ps)
    ensures Select(cs, ps + [i]) == Select(cs, ps) + [cs[i]]
  {
    assert cs[..i + 1][..i] == cs[..i];
    SelectPrefix(cs, i, ps);
    assert cs[..i + 1][i] == cs[i];
  }

  /** A candidate the loop rejects with an exception fails the whole list the same way. */
  lemma ScanFails(cs: seq<Json>, existing: set<Json>, i: nat, ps: seq<nat>)
    requires i < |cs| && Firsts(cs[..i], existing) == Success(ps)
    requires !cs[i].Obj? || (Truthy(IdOf(cs[i])) && !Hashable(IdOf(cs[i])))
    ensures Firsts(cs, existing) == Failure(if !cs[i].Obj? then AttributeError else TypeError)
  {
    assert cs[..i + 1][..i] == cs[..i];
    assert cs[..i + 1][i] == cs[i];
    FirstsFailureStays(cs, existing, i + 1);
  }

  /**
   * The de-duplication loop: it keeps a candidate when its id is truthy, not
   * in the dataset and not seen yet, and records the id as seen.
   */
  method UniqueCandidates(candidates: seq<Json>, existing: set<Json>) returns (unique: seq<Json>, error: Option<PyError>)
    ensures error.None? ==> (Firsts(candidates, existing).Success?
              && unique == Select(candidates, Firsts(candidates, existing).value))
    ensures error.Some? ==> Firsts(candidates, existing) == Failure(error.value)
  {
    unique, error := [], None;
    var seen: set<Json> := {};
    ghost var ps: seq<nat> := [];
    for i := 0 to |candidates|
      invariant Firsts(candidates[..i], existing) == Success(ps)
      invariant forall k :: 0 <= k < |ps| ==> ps[k] < i
      invariant unique == Select(candidates, ps)
      invariant seen == IdsOf(unique)
    {
      var c := candidates[i];
      var mid := IdOf(c);
      if !c.Obj? || (Truthy(mid) && !Hashable(mid)) {
        error := Some(if !c.Obj? then AttributeError else TypeError);
        ScanFails(candidates, existing, i, ps);
        return;
      }
      ScanStep(candidates, existing, i, ps);
      if Truthy(mid) && mid !in existing && mid !in seen {
        IdsOfSnoc(unique, c);
        unique := unique + [c];
        seen := seen + {mid};
        ps := ps + [i];
      }
    }
    assert candidates[..|candidates|] == candidates;
  }

  // ---------------------------------------------------------------- enrichment and merge

  /** What `enrich_movie` returns: the details (None on any failure) and the seconds it took. */
  datatype Enrichment = Enrichment(details: Json, duration: real)

  /**
   * `enrich_movie`: without an id it returns (None, 0) at once; otherwise the
   * details dict gains the reply's keywords, and a request that fails, a
   * reply that is not a dict or details that cannot take a key give (None, 0).
   */
  function EnrichMovie(basic: Json, details: Json -> Result<Json, PyError>,
                       keywords: Json -> Result<Json, PyError>, elapsed: real): (r: Result<Enrichment, PyError>)
    ensures !basic.Obj? ==> r == Failure(AttributeError)
    ensures basic.Obj? ==> r.Success?
    ensures r.Success? && !r.value.details.Null? ==> r.value.duration == elapsed && r.value.details.Obj?
  {
    var movieId :- Get(basic, "id", Null);
    if movieId.Null? then Success(Enrichment(Null, 0.0))
    else
      match (details(movieId), keywords(movieId))
      case (Success(d), Success(kw)) =>
        if d.Obj? && kw.Obj? then
          Success(Enrichment(Obj(d.fields["keywords" := if "keywords" in kw.fields then kw.fields["keywords"] else Arr([])]), elapsed))
        else Success(Enrichment(Null, 0.0))
      case _ => Success(Enrichment(Null, 0.0))
  }

  /** The missing-id guard: a movie without an id (or with a None id) is never fetched. */
  lemma EnrichWithoutId(basic: map<string, Json>, details: Json -> Result<Json, PyError>,
                        keywords: Json -> Result<Json, PyError>, elapsed: real)
    requires "id" !in basic || basic["id"] == Null
    ensures EnrichMovie(Obj(basic), details, keywords, elapsed) == Success(Enrichment(Null, 0.0))
  {
  }

  /** An enriched movie is its details with the reply's keyword list (default none) under `keywords`. */
  lemma EnrichKeepsDetails(id: Json, basic: map<string, Json>, d: map<string, Json>, kw: map<string, Json>,
                           details: Json -> Result<Json, PyError>, keywords: Json -> Result<Json, PyError>, elapsed: real)
    requires "id" in basic && basic["id"] == id && !id.Null?
    requires details(id) == Success(Obj(d)) && keywords(id) == Success(Obj(kw))
    ensures var r := EnrichMovie(Obj(basic), details, keywords, elapsed);
      && r.Success? && r.value.duration == elapsed && r.value.details.Obj?
      && r.value.details.fields.Keys == d.Keys + {"keywords"}
      && (forall k :: k in d && k != "keywords" ==> r.value.details.fields[k] == d[k])
      && r.value.details.fields["keywords"] == (if "keywords" in kw then kw["keywords"] else Arr([]))
  {
  }

  /** The movies the pool's results add: those that are truthy (an enrichment that failed is None). */
  function NewMovies(results: seq<Json>): (r: seq<Json>)
    ensures |r| <= |results|
    ensures forall k :: 0 <= k < |r| ==> Truthy(r[k])
  {
    var idx := Kept(results, Truthy);
    Select(results, idx)
  }

  /** A result is collected exactly when it is truthy. */
  lemma NewMoviesMembers(results: seq<Json>)
    ensures forall x :: x in NewMovies(results) <==> x in results && Truthy(x)
  {
  }

  /** One more result is collected after the earlier ones, and only when it is truthy. */
  lemma NewMoviesSnoc(results: seq<Json>, x: Json)
    ensures NewMovies(results + [x]) == NewMovies(results) + (if Truthy(x) then [x] else [])
  {
  }

  /** How a run ends: nothing new to fetch, or the merged dataset saved. */
  datatype Outcome = NothingNew | Saved(dataset: seq<Json>)

  /**
   * The run after loading: the candidates are de-duplicated against the
   * dataset's ids; with none left the run ends without saving, otherwise the
   * dataset is the existing movies followed by the new ones.
   */
  function Run(existing: Json, candidates: seq<Json>, results: seq<Json>): (r: Result<Outcome, PyError>)
    ensures r.Success? ==> ExistingIds(existing).Success? && Firsts(candidates, ExistingIds(existing).value).Success?
    ensures ExistingIds(existing).Success? && Firsts(candidates, ExistingIds(existing).value).Success? ==>
              (r == Success(NothingNew) <==> Firsts(candidates, ExistingIds(existing).value).value == [])
    ensures r.Success? && r.value.Saved? ==>
              var d := r.value.dataset;
              && existing.Arr?
              && |d| == |existing.items| + |NewMovies(results)|
              && d[..|existing.items|] == existing.items
              && d[|existing.items|..] == NewMovies(results)
  {
    var ids :- ExistingIds(existing);
    var ps :- Firsts(candidates, ids);
    if ps == [] then Success(NothingNew)
    else if existing.Arr? then Success(Saved(existing.items + NewMovies(results)))
    else Failure(TypeError)
  }
}
