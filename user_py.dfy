/**
 * The engine's user-profile store (`recc-engine/user.py`): the text a profile
 * is embedded from, loading and normalising a stored profile, the list-versus-
 * object choice when it is written back, the rating and list updates, and the
 * request and result shaping of the movie search.
 */
module UserProfile {
  import opened Wrappers
  import opened Text
  import opened Json
  import opened Indices

  // ---------------------------------------------------------------- build_user_text

  /** The query text for given genre and keyword lists; an empty list contributes no part. */
  function UserText(genres: seq<string>, keywords: seq<string>): (r: string)
    ensures r == "" <==> genres == [] && keywords == []
    ensures genres != [] && keywords != [] ==>
              r == "Genres: " + Join(genres, ", ") + " | Keywords: " + Join(keywords, ", ")
    ensures genres != [] && keywords == [] ==> r == "Genres: " + Join(genres, ", ")
    ensures genres == [] && keywords != [] ==> r == "Keywords: " + Join(keywords, ", ")
  {
    var parts := (if genres != [] then ["Genres: " + Join(genres, ", ")] else [])
      + (if keywords != [] then ["Keywords: " + Join(keywords, ", ")] else []);
    JoinCons("Genres: " + Join(genres, ", "), ["Keywords: " + Join(keywords, ", ")], " | ");
    Join(parts, " | ")
  }

  /**
   * What `", ".join(v)` iterates over: the strings of a list, the characters
   * of a string, or the keys of a dict. A list holding a non-string, or any
   * other value, raises TypeError. An empty dict joins nothing; a non-empty
   * one joins its keys in insertion order, which is outside the model.
   */
  function JoinArg(v: Json): (r: Result<seq<string>, PyError>)
    ensures v.Arr? ==> (r.Success? <==> forall k :: 0 <= k < |v.items| ==> v.items[k].Str?)
    ensures v.Arr? && r.Success? ==> |r.value| == |v.items| && forall k :: 0 <= k < |v.items| ==> r.value[k] == v.items[k].s
    ensures v.Arr? && r.Failure? ==> r.error == TypeError
    ensures v.Str? ==> r.Success? && |r.value| == |v.s| && forall k :: 0 <= k < |v.s| ==> r.value[k] == [v.s[k]]
    ensures v.Obj? ==> r == if v.fields == map[] then Success([]) else Failure(DictKeyOrder)
    ensures !v.Arr? && !v.Str? && !v.Obj? ==> r == Failure(TypeError)
  {
    match v
    case Arr(xs) => (match Strings(xs) case Some(ss) => Success(ss) case None => Failure(TypeError))
    case Str(s) => Success(seq(|s|, k requires 0 <= k < |s| => [s[k]]))
    case Obj(m) => if m == map[] then Success([]) else Failure(DictKeyOrder)
    case _ => Failure(TypeError)
  }

  /** The part list as the profile gives it: a falsy value (absent, empty, zero) contributes nothing. */
  function PartArg(profile: Json, key: string): (r: Result<seq<string>, PyError>)
    ensures !profile.Obj? ==> r == Failure(AttributeError)
    ensures profile.Obj? && key !in profile.fields ==> r == Success([])
  {
    var v :- Get(profile, key, Arr([]));
    if Truthy(v) then JoinArg(v) else Success([])
  }

  /** `build_user_text(profile)`. */
  function BuildUserText(profile: Json): (r: Result<string, PyError>)
    ensures !profile.Obj? ==> r == Failure(AttributeError)
    ensures profile.Obj? && "genres" !in profile.fields && "keywords" !in profile.fields ==> r == Success("")
    ensures (PartArg(profile, "genres").Success? && PartArg(profile, "keywords").Success?) <==> r.Success?
    ensures r.Success? ==> r.value == UserText(PartArg(profile, "genres").value, PartArg(profile, "keywords").value)
  {
    var genres :- PartArg(profile, "genres");
    var keywords :- PartArg(profile, "keywords");
    Success(UserText(genres, keywords))
  }

  /** A text starts with the genre part whenever there are genres, and otherwise with the keyword part. */
  lemma UserTextStarts(genres: seq<string>, keywords: seq<string>)
    ensures genres != [] ==> "Genres: " <= UserText(genres, keywords)
    ensures genres == [] && keywords != [] ==> "Keywords: " <= UserText(genres, keywords)
    ensures genres == [] && keywords != [] ==> !("Genres: " <= UserText(genres, keywords))
  {
    var r := UserText(genres, keywords);
    if genres == [] && keywords != [] {
      assert r[0] == 'K';
    }
  }

  // ---------------------------------------------------------------- load_user_profile

  /** The six lists every normalised profile's `data` holds. */
  const DATA_KEYS: seq<string> := ["liked", "disliked", "neutral", "watchlist", "history", "shown"]
  const DATA_KEY_SET: set<string> := {"liked", "disliked", "neutral", "watchlist", "history", "shown"}

  lemma DataKeysAgree()
    ensures forall k :: k in DATA_KEY_SET <==> k in DATA_KEYS
  {
  }

  /** `data` with an empty list under each of the six keys it lacks. */
  function FillKeys(d: map<string, Json>): (r: map<string, Json>)
    ensures forall k :: k in d ==> k in r && r[k] == d[k]
    ensures forall k :: k in DATA_KEY_SET ==> k in r
    ensures forall k :: k in r ==> k in d || k in DATA_KEY_SET
    ensures forall k :: k in r && k !in d ==> r[k] == Arr([])
  {
    map k | k in d.Keys + DATA_KEY_SET :: if k in d then d[k] else Arr([])
  }

  /** The loop over the required keys, adding each missing one. */
  method FillMissingKeys(d: map<string, Json>) returns (r: map<string, Json>)
    ensures r == FillKeys(d)
  {
    r := d;
    for i := 0 to |DATA_KEYS|
      invariant forall k :: k in r <==> k in d || k in DATA_KEYS[..i]
      invariant forall k :: k in r ==> r[k] == if k in d then d[k] else Arr([])
    {
      if DATA_KEYS[i] !in r {
        r := r[DATA_KEYS[i] := Arr([])];
      }
    }
    DataKeysAgree();
    assert DATA_KEYS[..|DATA_KEYS|] == DATA_KEYS;
    assert r.Keys == FillKeys(d).Keys;
  }

  /** Whether `key in v` holds for every required key (a list or a string `data`). */
  predicate HasAllKeys(v: Json) {
    forall i :: 0 <= i < |DATA_KEYS| ==> In(Str(DATA_KEYS[i]), v) == Success(true)
  }

  /**
   * Ensures the profile has `data`, and that a `data` object has all six lists.
   * A `data` that is not an object passes only when every key is `in` it (a
   * list holding the names, a string containing them); otherwise the item
   * assignment raises. A profile that is not an object raises as well.
   */
  function Normalise(profile: Json): (r: Result<Json, PyError>)
    ensures r.Success? <==> profile.Obj? && ("data" in profile.fields && !profile.fields["data"].Obj? ==> HasAllKeys(profile.fields["data"]))
    ensures r.Failure? ==> r.error == TypeError
    ensures r.Success? ==> r.value.Obj? && "data" in r.value.fields
  {
    match profile
    case Obj(m) =>
      if "data" !in m then Success(Obj(m["data" := Obj(FillKeys(map[]))]))
      else (match m["data"]
        case Obj(d) => Success(Obj(m["data" := Obj(FillKeys(d))]))
        case other => if HasAllKeys(other) then Success(profile) else Failure(TypeError))
    case _ => Failure(TypeError)
  }

  /** `load_user_profile` on the parsed file: its first element when it is a list, itself when an object. */
  function LoadUserProfile(file: Json): (r: Result<Json, PyError>)
    ensures file == Arr([]) ==> r == Failure(ValueError)
    ensures !file.Arr? && !file.Obj? ==> r == Failure(ValueError)
    ensures file.Arr? && file.items != [] ==> r == Normalise(file.items[0])
    ensures file.Obj? ==> r == Normalise(file)
    ensures r.Success? ==> r.value.Obj? && "data" in r.value.fields
  {
    match file
    case Arr(xs) => if xs == [] then Failure(ValueError) else Normalise(xs[0])
    case Obj(_) => Normalise(file)
    case _ => Failure(ValueError)
  }

  /**
   * A normalised profile keeps every field it had besides `data`, and a `data`
   * object keeps every list it had and gains the missing ones, empty.
   */
  lemma NormaliseKeeps(profile: Json)
    requires Normalise(profile).Success?
    ensures var q := Normalise(profile).value;
      && q.fields.Keys == profile.fields.Keys + {"data"}
      && (forall k :: k in profile.fields && k != "data" ==> q.fields[k] == profile.fields[k])
      && ("data" !in profile.fields ==> q.fields["data"] == Obj(FillKeys(map[])))
      && ("data" in profile.fields && profile.fields["data"].Obj? ==>
            q.fields["data"] == Obj(FillKeys(profile.fields["data"].fields)))
      && ("data" in profile.fields && !profile.fields["data"].Obj? ==> q == profile)
  {
  }

  /** After normalisation a `data` object has all six keys. */
  lemma NormaliseFills(profile: Json)
    requires Normalise(profile).Success?
    requires Normalise(profile).value.fields["data"].Obj?
    ensures forall k :: k in DATA_KEY_SET ==> k in Normalise(profile).value.fields["data"].fields
  {
    NormaliseKeeps(profile);
  }

  /** Normalising a normalised profile changes nothing. */
  lemma NormaliseIdempotent(profile: Json)
    requires Normalise(profile).Success?
    ensures Normalise(Normalise(profile).value) == Normalise(profile)
  {
    var q := Normalise(profile).value;
    NormaliseKeeps(profile);
    if q.fields["data"].Obj? {
      var d := q.fields["data"].fields;
      assert FillKeys(d) == d;
      assert q.fields["data" := Obj(d)] == q.fields;
    }
  }

  // ---------------------------------------------------------------- save_user_profile

  /** What reading the profile file before writing it found. */
  datatype FileState = Missing | Unparsable | Parsed(value: Json)

  /** `save_user_profile`: the bare profile when the file held an object, else a one-element list. */
  function SaveOutput(existing: FileState, profile: Json): (r: Json)
    ensures existing.Parsed? && existing.value.Obj? ==> r == profile
    ensures !(existing.Parsed? && existing.value.Obj?) ==> r == Arr([profile])
  {
    var isList := !(existing.Parsed? && existing.value.Obj?);
    if isList then Arr([profile]) else profile
  }

  /** Writing a normalised profile and loading the file again gives the same profile. */
  lemma SaveThenLoad(existing: FileState, profile: Json)
    requires Normalise(profile) == Success(profile)
    ensures LoadUserProfile(SaveOutput(existing, profile)) == Success(profile)
  {
  }

  // ---------------------------------------------------------------- update_user_data

  /** `int(x)` truncates a float toward zero. */
  function Truncate(r: real): (n: int)
    ensures r >= 0.0 ==> n as real <= r < n as real + 1.0
    ensures r < 0.0 ==> n as real - 1.0 < r <= n as real
  {
    if r >= 0.0 then r.Floor else -((-r).Floor)
  }

  /**
   * `movie_id = int(movie_id)` with the ValueError swallowed: a numeric string
   * becomes its integer, any other string stays; `int` of None, a list or a
   * dict raises a TypeError, which is not caught.
   */
  function Coerce(id: Json): (r: Result<Json, PyError>)
    ensures r.Success? <==> !(id.Null? || id.Arr? || id.Obj?)
    ensures r.Success? ==> r.value.Num? || r.value.Str?
    ensures id.Str? && PyParseInt(id.s).None? ==> r == Success(id)
  {
    match id
    case Num(_) => Success(id)
    case Str(s) => (match PyParseInt(s) case Some(v) => Success(Num(v)) case None => Success(id))
    case Bool(b) => Success(Num(if b then 1 else 0))
    case Float(x) => Success(Num(Truncate(x)))
    case _ => Failure(TypeError)
  }

  /** A decimal id in a request comes out as that integer. */
  lemma CoerceDecimal(i: int)
    ensures Coerce(Str(IntToString(i))) == Success(Num(i))
  {
    PyParseIntRoundTrip(i);
    CoerceParsed(IntToString(i), i);
  }

  lemma CoerceParsed(s: string, v: int)
    requires PyParseInt(s) == Some(v)
    ensures Coerce(Str(s)) == Success(Num(v))
  {
    match PyParseInt(s)
    case Some(x) => assert x == v;
  }

  /** `xs.remove(x)`: drops the first occurrence. */
  function RemoveFirstOcc(xs: seq<Json>, x: Json): (r: seq<Json>)
    ensures x in xs ==> multiset(r) == multiset(xs) - multiset{x} && |r| == |xs| - 1
    ensures x !in xs ==> r == xs
  {
    if xs == [] then []
    else
      assert xs == [xs[0]] + xs[1..];
      if xs[0] == x then xs[1..] else [xs[0]] + RemoveFirstOcc(xs[1..], x)
  }

  /** The six lists of `data`, named. */
  datatype ListKey = Liked | Disliked | Neutral | Watchlist | History | Shown

  function KeyName(k: ListKey): (s: string)
    ensures s in DATA_KEY_SET
  {
    match k
    case Liked => "liked"
    case Disliked => "disliked"
    case Neutral => "neutral"
    case Watchlist => "watchlist"
    case History => "history"
    case Shown => "shown"
  }

  /** The values under the six keys of a `data` object. */
  datatype Slots = Slots(liked: Json, disliked: Json, neutral: Json, watchlist: Json, history: Json, shown: Json)
  {
    function Get(k: ListKey): Json {
      match k
      case Liked => liked
      case Disliked => disliked
      case Neutral => neutral
      case Watchlist => watchlist
      case History => history
      case Shown => shown
    }

    /** The same lists with the one under `k` replaced by `v`. */
    function Set(k: ListKey, v: Json): (r: Slots)
      ensures r.Get(k) == v && SameExcept(this, r, {k})
    {
      match k
      case Liked => this.(liked := v)
      case Disliked => this.(disliked := v)
      case Neutral => this.(neutral := v)
      case Watchlist => this.(watchlist := v)
      case History => this.(history := v)
      case Shown => this.(shown := v)
    }
  }

  /** Removing the first occurrence lowers the count of that value by one, if it occurs. */
  lemma RemoveFirstCount(xs: seq<Json>, x: Json)
    ensures multiset(RemoveFirstOcc(xs, x))[x] == Decrement(multiset(xs)[x])
  {
  }

  /** One less, but never below zero. */
  function Decrement(n: nat): nat {
    if n == 0 then 0 else n - 1
  }

  /** The lists after `if id not in data[key]: data[key].append(id)` when `data[key]` is a list. */
  function Added(s: Slots, k: ListKey, id: Json): (r: Slots)
    requires s.Get(k).Arr?
    ensures r.Get(k).Arr? && id in r.Get(k).items && SameExcept(s, r, {k})
    ensures ListsData(s) ==> ListsData(r)
  {
    if id in s.Get(k).items then s
    else
      var r := s.Set(k, Arr(s.Get(k).items + [id]));
      SetKeepsLists(s, k, r.Get(k));
      r
  }

  /** The lists after `if id in data[key]: data[key].remove(id)` when `data[key]` is a list. */
  function Removed(s: Slots, k: ListKey, id: Json): (r: Slots)
    requires s.Get(k).Arr?
    ensures r.Get(k).Arr? && multiset(r.Get(k).items)[id] == Decrement(multiset(s.Get(k).items)[id])
    ensures SameExcept(s, r, {k})
    ensures ListsData(s) ==> ListsData(r)
  {
    var xs := s.Get(k).items;
    var r := s.Set(k, Arr(RemoveFirstOcc(xs, id)));
    RemoveFirstCount(xs, id);
    SetKeepsLists(s, k, r.Get(k));
    r
  }

  /** Replacing one list of well-formed lists by a list keeps them well-formed. */
  lemma SetKeepsLists(s: Slots, k: ListKey, v: Json)
    requires v.Arr?
    ensures ListsData(s) ==> ListsData(s.Set(k, v))
  {
  }

  /**
   * `if id not in data[key]: data[key].append(id)` on any value: a list gets
   * the id once; a dict or string that already "contains" it is left alone, one
   * that does not has no `append`; anything else cannot be searched.
   */
  function AddTo(s: Slots, k: ListKey, id: Json): (r: Result<Slots, PyError>)
    ensures s.Get(k).Arr? ==> r == Success(Added(s, k, id))
    ensures !s.Get(k).Arr? && r.Success? ==> r.value == s
    ensures r.Success? ==> SameExcept(s, r.value, {k})
  {
    var present :- In(id, s.Get(k));
    if present then Success(s)
    else if s.Get(k).Arr? then Success(s.Set(k, Arr(s.Get(k).items + [id])))
    else Failure(AttributeError)
  }

  /** `if id in data[key]: data[key].remove(id)` on any value. */
  function RemoveFrom(s: Slots, k: ListKey, id: Json): (r: Result<Slots, PyError>)
    ensures s.Get(k).Arr? ==> r == Success(Removed(s, k, id))
    ensures !s.Get(k).Arr? && r.Success? ==> r.value == s
    ensures r.Success? ==> SameExcept(s, r.value, {k})
  {
    var present :- In(id, s.Get(k));
    if !present then
      assert s.Get(k).Arr? ==> s.Set(k, Arr(RemoveFirstOcc(s.Get(k).items, id))) == s;
      Success(s)
    else if s.Get(k).Arr? then Success(s.Set(k, Arr(RemoveFirstOcc(s.Get(k).items, id))))
    else Failure(AttributeError)
  }

  /** The actions `update_user_data` knows, and everything else. */
  datatype Action = Rate(target: ListKey) | AddWatchlist | AddHistory | AddShown | RemoveWatchlist | Unknown

  function ParseAction(action: string): (a: Action)
    ensures a.Rate? ==> IsRating(a.target)
  {
    if action == "liked" then Rate(Liked)
    else if action == "disliked" then Rate(Disliked)
    else if action == "neutral" then Rate(Neutral)
    else if action == "watchlist" then AddWatchlist
    else if action == "history" then AddHistory
    else if action == "shown" then AddShown
    else if action == "remove_watchlist" then RemoveWatchlist
    else Unknown
  }

  /** The action names map one to one onto the actions. */
  lemma ParseActionNames()
    ensures ParseAction("liked") == Rate(Liked) && ParseAction("disliked") == Rate(Disliked)
    ensures ParseAction("neutral") == Rate(Neutral) && ParseAction("watchlist") == AddWatchlist
    ensures ParseAction("history") == AddHistory && ParseAction("shown") == AddShown
    ensures ParseAction("remove_watchlist") == RemoveWatchlist && ParseAction("like") == Unknown
  {
  }

  /** The three rating lists. */
  predicate IsRating(k: ListKey) {
    k == Liked || k == Disliked || k == Neutral
  }

  /** The first rating list a rating removes its id from. */
  function FirstConflict(t: ListKey): (o: ListKey)
    requires IsRating(t)
    ensures IsRating(o) && o != t
  {
    if t == Liked then Disliked else Liked
  }

  /** The second rating list a rating removes its id from. */
  function SecondConflict(t: ListKey): (o: ListKey)
    requires IsRating(t)
    ensures IsRating(o) && o != t && o != FirstConflict(t)
  {
    if t == Neutral then Disliked else Neutral
  }

  /** The lists an action can change: a rating never touches the watchlist. */
  function Touched(a: Action): set<ListKey> {
    match a
    case Rate(_) => {Liked, Disliked, Neutral, History, Shown}
    case AddWatchlist => {Watchlist}
    case AddHistory => {History, Shown}
    case AddShown => {Shown}
    case RemoveWatchlist => {Watchlist}
    case Unknown => {}
  }

  /**
   * One branch of `update_user_data` on the six lists. It changes only the
   * lists its action names, and on six lists it never raises.
   */
  function Apply(s: Slots, id: Json, a: Action): (r: Result<Slots, PyError>)
    requires a.Rate? ==> IsRating(a.target)
    ensures r.Success? ==> SameExcept(s, r.value, Touched(a))
    ensures ListsData(s) ==> r.Success? && ListsData(r.value)
    ensures a.Unknown? ==> r == Success(s)
  {
    match a
    case Rate(target) =>
      var s1 :- AddTo(s, target, id);
      var s2 :- AddTo(s1, History, id);
      var s3 :- AddTo(s2, Shown, id);
      var s4 :- RemoveFrom(s3, FirstConflict(target), id);
      RemoveFrom(s4, SecondConflict(target), id)
    case AddWatchlist => AddTo(s, Watchlist, id)
    case AddHistory =>
      var s1 :- AddTo(s, History, id);
      AddTo(s1, Shown, id)
    case AddShown => AddTo(s, Shown, id)
    case RemoveWatchlist => RemoveFrom(s, Watchlist, id)
    case Unknown => Success(s)
  }

  /** The six lists of a `data` object; a normalised object has them all. */
  function SlotsOf(d: map<string, Json>): (r: Result<Slots, PyError>)
    ensures (forall k :: k in DATA_KEY_SET ==> k in d) ==> r.Success?
  {
    if forall k :: k in DATA_KEY_SET ==> k in d then
      Success(Slots(d["liked"], d["disliked"], d["neutral"], d["watchlist"], d["history"], d["shown"]))
    else Failure(KeyError)
  }

  /** `data` with the six lists replaced; every other key is left as it was. */
  function WithSlots(d: map<string, Json>, s: Slots): (r: map<string, Json>)
    ensures r.Keys == d.Keys + DATA_KEY_SET
    ensures forall k :: k in d && k !in DATA_KEY_SET ==> r[k] == d[k]
  {
    d["liked" := s.Get(Liked)]["disliked" := s.Get(Disliked)]["neutral" := s.Get(Neutral)]
     ["watchlist" := s.Get(Watchlist)]["history" := s.Get(History)]["shown" := s.Get(Shown)]
  }

  /** The branch `action` selects, applied to `data`; an unknown action never touches it. */
  function UpdateData(data: Json, id: Json, action: string): (r: Result<Json, PyError>)
    ensures ParseAction(action) == Unknown ==> r == Success(data)
    ensures ParseAction(action) != Unknown && !data.Obj? ==> r == Failure(TypeError)
    ensures r.Success? && ParseAction(action) != Unknown ==>
              r.value.Obj? && r.value.fields.Keys == data.fields.Keys + DATA_KEY_SET
              && forall k :: k in data.fields && k !in DATA_KEY_SET ==> r.value.fields[k] == data.fields[k]
    ensures ParseAction(action) != Unknown && data.Obj? && SlotsOf(data.fields).Failure? ==> r == Failure(KeyError)
    ensures var a := ParseAction(action);
      a != Unknown && data.Obj? && SlotsOf(data.fields).Success? ==>
        var applied := Apply(SlotsOf(data.fields).value, id, a);
        && (applied.Failure? ==> r == Failure(applied.error))
        && (applied.Success? ==> r.Success? && SlotsOf(r.value.fields) == applied)
  {
    var a := ParseAction(action);
    if a == Unknown then Success(data)
    else match data
      case Obj(d) =>
        var s :- SlotsOf(d);
        var s' :- Apply(s, id, a);
        Success(Obj(WithSlots(d, s')))
      case _ => Failure(TypeError)
  }

  /**
   * `update_user_data`: loads the profile, coerces the id, applies the action
   * to `data` and writes the profile back. Returns the profile and what is
   * written to the file.
   */
  function UpdateUserData(file: Json, movieId: Json, action: string): (r: Result<(Json, Json), PyError>)
    ensures LoadUserProfile(file).Failure? ==> r == Failure(LoadUserProfile(file).error)
    ensures r.Success? ==> r.value.1 == SaveOutput(Parsed(file), r.value.0)
    ensures r.Success? ==>
              (LoadUserProfile(file).Success? && r.value.0.Obj?
               && r.value.0.fields.Keys == LoadUserProfile(file).value.fields.Keys)
    ensures r.Success? && ParseAction(action) == Unknown ==> r.value.0 == LoadUserProfile(file).value
    ensures LoadUserProfile(file).Success? && Coerce(movieId).Failure? ==> r == Failure(Coerce(movieId).error)
    ensures LoadUserProfile(file).Success? && Coerce(movieId).Success? ==>
              var p := LoadUserProfile(file).value;
              var u := UpdateData(p.fields["data"], Coerce(movieId).value, action);
              && (u.Failure? ==> r == Failure(u.error))
              && (u.Success? ==>
                    r.Success? && r.value.0.fields == p.fields["data" := u.value])
  {
    var profile :- LoadUserProfile(file);
    var id :- Coerce(movieId);
    var data' :- UpdateData(profile.fields["data"], id, action);
    var updated := Obj(profile.fields["data" := data']);
    assert ParseAction(action) == Unknown ==> updated == profile;
    Success((updated, SaveOutput(Parsed(file), updated)))
  }

  /** The six values are all lists. */
  predicate ListsData(s: Slots) {
    s.liked.Arr? && s.disliked.Arr? && s.neutral.Arr? && s.watchlist.Arr? && s.history.Arr? && s.shown.Arr?
  }

  /** How often `x` occurs in one list. */
  function Occurrences(s: Slots, k: ListKey, x: Json): nat
    requires ListsData(s)
  {
    multiset(s.Get(k).items)[x]
  }

  /** `s2` differs from `s` at most in the lists named by `keys`. */
  predicate SameExcept(s: Slots, s2: Slots, keys: set<ListKey>) {
    && (Liked !in keys ==> s2.liked == s.liked) && (Disliked !in keys ==> s2.disliked == s.disliked)
    && (Neutral !in keys ==> s2.neutral == s.neutral) && (Watchlist !in keys ==> s2.watchlist == s.watchlist)
    && (History !in keys ==> s2.history == s.history) && (Shown !in keys ==> s2.shown == s.shown)
  }

  /** A rating on lists: into its list, history and shown, then out of the two other rating lists. */
  function Rated(s: Slots, id: Json, t: ListKey): (r: Slots)
    requires ListsData(s) && IsRating(t)
    ensures ListsData(r)
  {
    var s3 := Added(Added(Added(s, t, id), History, id), Shown, id);
    Removed(Removed(s3, FirstConflict(t), id), SecondConflict(t), id)
  }

  /**
   * A rating of a loaded profile whose six entries are lists goes through:
   * the returned profile's `data` holds the `Rated` lists, so the id lands in
   * the rated list, the history and the shown list with the watchlist
   * untouched, and loading the written file gives the returned profile back.
   */
  lemma RatingUpdatesProfile(file: Json, movieId: Json, action: string)
    requires LoadUserProfile(file).Success? && ParseAction(action).Rate? && Coerce(movieId).Success?
    requires var data := LoadUserProfile(file).value.fields["data"];
      data.Obj? && ListsData(SlotsOf(data.fields).value)
    ensures var p := LoadUserProfile(file).value;
      var s := SlotsOf(p.fields["data"].fields).value;
      var id := Coerce(movieId).value;
      var t := ParseAction(action).target;
      var r := UpdateUserData(file, movieId, action);
      && r.Success? && r.value.0.fields["data"].Obj?
      && SlotsOf(r.value.0.fields["data"].fields) == Success(Rated(s, id, t))
      && id in Rated(s, id, t).Get(t).items && id in Rated(s, id, t).history.items
      && id in Rated(s, id, t).shown.items && Rated(s, id, t).watchlist == s.watchlist
      && LoadUserProfile(r.value.1) == Success(r.value.0)
  {
    var p := LoadUserProfile(file).value;
    var s := SlotsOf(p.fields["data"].fields).value;
    var id := Coerce(movieId).value;
    var t := ParseAction(action).target;
    RatingSucceeds(s, id, t);
    RatingLands(s, id, t);
    var u := UpdateData(p.fields["data"], id, action);
    var r := UpdateUserData(file, movieId, action);
    assert u.Success? && r.Success?;
    KeepsNormalised(p.fields, u.value.fields);
    assert r.value.0 == Obj(p.fields["data" := u.value]);
    SaveThenLoad(Parsed(file), r.value.0);
  }

  /** A profile whose `data` object has all six keys is already normalised. */
  lemma KeepsNormalised(m: map<string, Json>, d: map<string, Json>)
    requires forall k :: k in DATA_KEY_SET ==> k in d
    ensures Normalise(Obj(m["data" := Obj(d)])) == Success(Obj(m["data" := Obj(d)]))
  {
    assert FillKeys(d) == d;
    assert m["data" := Obj(d)]["data" := Obj(d)] == m["data" := Obj(d)];
  }

  /** On well-formed lists a rating succeeds, with the lists `Rated` gives. */
  lemma RatingSucceeds(s: Slots, id: Json, target: ListKey)
    requires ListsData(s) && IsRating(target)
    ensures Apply(s, id, Rate(target)) == Success(Rated(s, id, target))
  {
    var s1 := Added(s, target, id);
    var s2 := Added(s1, History, id);
    var s3 := Added(s2, Shown, id);
    var s4 := Removed(s3, FirstConflict(target), id);
    assert AddTo(s, target, id) == Success(s1) by {
      ListsGet(s, target);
    }
    assert AddTo(s1, History, id) == Success(s2);
    assert AddTo(s2, Shown, id) == Success(s3);
    assert RemoveFrom(s3, FirstConflict(target), id) == Success(s4) by {
      ListsGet(s3, FirstConflict(target));
    }
    assert RemoveFrom(s4, SecondConflict(target), id) == Success(Rated(s, id, target)) by {
      ListsGet(s4, SecondConflict(target));
    }
  }

  /** Under `ListsData` every list slot holds a list. */
  lemma ListsGet(s: Slots, k: ListKey)
    requires ListsData(s)
    ensures s.Get(k).Arr?
  {
  }

  /**
   * After a rating the id is in the rated list, history and shown, and the
   * watchlist has not changed.
   */
  lemma RatingLands(s: Slots, id: Json, target: ListKey)
    requires ListsData(s) && IsRating(target)
    ensures var r := Rated(s, id, target);
      && id in r.Get(target).items && id in r.history.items && id in r.shown.items
      && r.watchlist == s.watchlist
  {
    var s1 := Added(s, target, id);
    var s2 := Added(s1, History, id);
    var s3 := Added(s2, Shown, id);
    var s4 := Removed(s3, FirstConflict(target), id);
    var r := Removed(s4, SecondConflict(target), id);
    assert id in s3.Get(target).items by {
      SameExceptGet(s1, s2, {History}, target);
      SameExceptGet(s2, s3, {Shown}, target);
    }
    SameExceptGet(s3, s4, {FirstConflict(target)}, target);
    SameExceptGet(s4, r, {SecondConflict(target)}, target);
  }

  /** A list outside the changed keys reads the same in both. */
  lemma SameExceptGet(s: Slots, s2: Slots, keys: set<ListKey>, k: ListKey)
    requires SameExcept(s, s2, keys) && k !in keys
    ensures s2.Get(k) == s.Get(k)
  {
  }

  /** After a rating each conflicting list holds one copy of the id fewer, if it had one. */
  lemma RatingRemovesOne(s: Slots, id: Json, target: ListKey)
    requires ListsData(s) && IsRating(target)
    ensures var r := Rated(s, id, target);
      && Occurrences(r, FirstConflict(target), id) == Decrement(Occurrences(s, FirstConflict(target), id))
      && Occurrences(r, SecondConflict(target), id) == Decrement(Occurrences(s, SecondConflict(target), id))
  {
    var o1, o2 := FirstConflict(target), SecondConflict(target);
    var s3 := Added(Added(Added(s, target, id), History, id), Shown, id);
    var s4 := Removed(s3, o1, id);
    assert s3.Get(o1) == s.Get(o1) && s3.Get(o2) == s.Get(o2) && s4.Get(o2) == s.Get(o2);
  }

  /** Given at most one prior copy in each conflicting list, a rated id is in exactly one rating list. */
  lemma RatingExclusive(s: Slots, id: Json, target: ListKey)
    requires ListsData(s) && IsRating(target)
    requires Occurrences(s, FirstConflict(target), id) <= 1 && Occurrences(s, SecondConflict(target), id) <= 1
    ensures var r := Rated(s, id, target);
      id in r.Get(target).items && id !in r.Get(FirstConflict(target)).items
      && id !in r.Get(SecondConflict(target)).items
  {
    RatingLands(s, id, target);
    RatingRemovesOne(s, id, target);
  }

  /** A rating applied to lists where it already holds changes nothing. */
  lemma RatingIdempotentAt(s: Slots, id: Json, target: ListKey)
    requires ListsData(s) && IsRating(target)
    requires id in s.Get(target).items && id in s.history.items && id in s.shown.items
    requires id !in s.Get(FirstConflict(target)).items && id !in s.Get(SecondConflict(target)).items
    ensures Rated(s, id, target) == s
  {
    var o1, o2 := FirstConflict(target), SecondConflict(target);
    assert Added(Added(Added(s, target, id), History, id), Shown, id) == s;
    RemovedAbsent(s, o1, id);
    RemovedAbsent(s, o2, id);
  }

  /** Removing an id a list does not hold leaves the lists as they are. */
  lemma RemovedAbsent(s: Slots, k: ListKey, id: Json)
    requires s.Get(k).Arr? && id !in s.Get(k).items
    ensures Removed(s, k, id) == s
  {
    assert RemoveFirstOcc(s.Get(k).items, id) == s.Get(k).items;
    match k
    case Liked => case Disliked => case Neutral => case Watchlist => case History => case Shown =>
  }

  /**
   * Applying the same update twice gives the same lists as applying it once,
   * provided the lists it removes from hold the id at most once (`remove`
   * deletes one occurrence per call).
   */
  lemma UpdateIdempotent(s: Slots, id: Json, a: Action)
    requires ListsData(s) && (a.Rate? ==> IsRating(a.target))
    requires a.Rate? ==> Occurrences(s, FirstConflict(a.target), id) <= 1 && Occurrences(s, SecondConflict(a.target), id) <= 1
    requires a == RemoveWatchlist ==> Occurrences(s, Watchlist, id) <= 1
    ensures Apply(s, id, a).Success?
    ensures Apply(Apply(s, id, a).value, id, a) == Apply(s, id, a)
  {
    match a
    case Rate(target) =>
      RatingSucceeds(s, id, target);
      RatingExclusive(s, id, target);
      var r := Rated(s, id, target);
      RatingIdempotentAt(r, id, target);
      RatingSucceeds(r, id, target);
    case RemoveWatchlist =>
      var r := Removed(s, Watchlist, id);
      assert id !in r.watchlist.items;
      RemovedAbsent(r, Watchlist, id);
    case AddWatchlist =>
      assert Apply(s, id, a) == Success(Added(s, Watchlist, id));
    case AddHistory =>
      var s1 := Added(s, History, id);
      assert Apply(s, id, a) == Success(Added(s1, Shown, id));
    case AddShown =>
      assert Apply(s, id, a) == Success(Added(s, Shown, id));
    case Unknown =>
  }

  /** With two copies in a conflicting list, liking twice is not the same as liking once. */
  lemma RatingNotIdempotentWithDuplicates()
    ensures var s := Slots(Arr([]), Arr([Num(7), Num(7)]), Arr([]), Arr([]), Arr([]), Arr([]));
      Apply(Apply(s, Num(7), Rate(Liked)).value, Num(7), Rate(Liked)) != Apply(s, Num(7), Rate(Liked))
  {
    var s := Slots(Arr([]), Arr([Num(7), Num(7)]), Arr([]), Arr([]), Arr([]), Arr([]));
    RatingSucceeds(s, Num(7), Liked);
    var once := Rated(s, Num(7), Liked);
    RatingSucceeds(once, Num(7), Liked);
    RatingRemovesOne(s, Num(7), Liked);
    RatingRemovesOne(once, Num(7), Liked);
    assert multiset(s.disliked.items)[Num(7)] == 2;
  }

  /** `watchlist` adds the id to the watchlist and touches no other list. */
  lemma WatchlistFrame(s: Slots, id: Json)
    requires ListsData(s)
    ensures var r := Apply(s, id, AddWatchlist);
      && r.Success? && ListsData(r.value)
      && SameExcept(s, r.value, {Watchlist}) && id in r.value.watchlist.items
  {
    assert Apply(s, id, AddWatchlist) == Success(Added(s, Watchlist, id));
  }

  /** `remove_watchlist` drops the first copy of the id from the watchlist and touches no other list. */
  lemma RemoveWatchlistFrame(s: Slots, id: Json)
    requires ListsData(s)
    ensures var r := Apply(s, id, RemoveWatchlist);
      && r.Success? && ListsData(r.value) && SameExcept(s, r.value, {Watchlist})
      && r.value.watchlist.items == RemoveFirstOcc(s.watchlist.items, id)
  {
    var r := Removed(s, Watchlist, id);
    assert Apply(s, id, RemoveWatchlist) == Success(r) by {
      ListsGet(s, Watchlist);
      assert RemoveFrom(s, Watchlist, id) == Success(r);
    }
  }

  /** `history` adds the id to history and shown and touches no other list. */
  lemma HistoryFrame(s: Slots, id: Json)
    requires ListsData(s)
    ensures var r := Apply(s, id, AddHistory);
      && r.Success? && ListsData(r.value) && SameExcept(s, r.value, {History, Shown})
      && id in r.value.history.items && id in r.value.shown.items
  {
    var s1 := Added(s, History, id);
    var s2 := Added(s1, Shown, id);
    assert Apply(s, id, AddHistory) == Success(s2);
    SameExceptGet(s1, s2, {Shown}, History);
  }

  /** `shown` adds the id to shown and touches no other list. */
  lemma ShownFrame(s: Slots, id: Json)
    requires ListsData(s)
    ensures var r := Apply(s, id, AddShown);
      && r.Success? && ListsData(r.value)
      && SameExcept(s, r.value, {Shown}) && id in r.value.shown.items
  {
    assert Apply(s, id, AddShown) == Success(Added(s, Shown, id));
  }

  // ---------------------------------------------------------------- search_movies

  /** The smallest pool the search asks the collection for. */
  const MIN_POOL: int := 150

  /** `fetch_k = max(150, top_k * 2)`. */
  function FetchK(topK: int): (k: int)
    ensures k >= MIN_POOL && k >= 2 * topK
    ensures k == MIN_POOL || k == 2 * topK
  {
    if 2 * topK > MIN_POOL then 2 * topK else MIN_POOL
  }

  /** The `where` filter: none for no genres, one condition alone, several under `$or`. */
  function WhereFilter(filters: seq<string>): (r: Option<Json>)
    ensures filters == [] <==> r.None?
    ensures |filters| == 1 ==> r == Some(Condition(filters[0]))
    ensures |filters| > 1 ==> r.Some? && r.value.Obj? && r.value.fields.Keys == {"$or"}
  {
    if filters == [] then None
    else
      var conditions := seq(|filters|, k requires 0 <= k < |filters| => Condition(filters[k]));
      if |conditions| == 1 then Some(conditions[0]) else Some(Obj(map["$or" := Arr(conditions)]))
  }

  /** `{f"is_{genre}": True}`. */
  function Condition(genre: string): Json {
    Obj(map["is_" + genre := Bool(true)])
  }

  /** The genre a condition tests, read back from its one key. */
  ghost function ConditionGenre(c: Json): Option<string> {
    if c.Obj? && |c.fields| == 1 then
      var key :| key in c.fields;
      if |key| >= 3 && key[..3] == "is_" then Some(key[3..]) else None
    else None
  }

  /** The genres a filter tests, in order. */
  ghost function FilterGenres(w: Option<Json>): Option<seq<string>> {
    match w
    case None => Some([])
    case Some(Obj(m)) =>
      if m.Keys == {"$or"} && m["$or"].Arr? then ConditionGenres(m["$or"].items)
      else (match ConditionGenre(Obj(m)) case Some(g) => Some([g]) case None => None)
    case Some(_) => None
  }

  ghost function ConditionGenres(cs: seq<Json>): Option<seq<string>> {
    if cs == [] then Some([])
    else match (ConditionGenre(cs[0]), ConditionGenres(cs[1..]))
      case (Some(g), Some(gs)) => Some([g] + gs)
      case _ => None
  }

  lemma ConditionGenreOf(g: string)
    ensures ConditionGenre(Condition(g)) == Some(g)
  {
    var c := Condition(g);
    assert c.fields.Keys == {"is_" + g};
    assert ("is_" + g)[3..] == g;
  }

  lemma {:induction false} ConditionGenresOf(gs: seq<string>)
    ensures ConditionGenres(seq(|gs|, k requires 0 <= k < |gs| => Condition(gs[k]))) == Some(gs)
  {
    var cs := seq(|gs|, k requires 0 <= k < |gs| => Condition(gs[k]));
    if gs != [] {
      ConditionGenreOf(gs[0]);
      ConditionGenresOf(gs[1..]);
      assert cs[1..] == seq(|gs[1..]|, k requires 0 <= k < |gs[1..]| => Condition(gs[1..][k]));
      assert [gs[0]] + gs[1..] == gs;
    }
  }

  /** The filter names exactly the requested genres, in order, however many there are. */
  lemma WhereFilterGenres(filters: seq<string>)
    ensures FilterGenres(WhereFilter(filters)) == Some(filters)
  {
    if |filters| == 1 {
      var key := "is_" + filters[0];
      ConditionGenreOf(filters[0]);
      assert key[0] == 'i' && "$or"[0] == '$';
      assert Condition(filters[0]).fields.Keys == {key} != {"$or"};
      assert [filters[0]] == filters;
    } else if |filters| > 1 {
      ConditionGenresOf(filters);
      var w := WhereFilter(filters).value;
      assert w.fields.Keys == {"$or"};
    }
  }

  /** The four index-aligned lists of one query's results. */
  datatype Hits = Hits(ids: seq<string>, distances: seq<real>, metadatas: seq<Json>, documents: seq<string>)

  predicate Aligned(h: Hits) {
    |h.distances| == |h.ids| && |h.metadatas| == |h.ids| && |h.documents| == |h.ids|
  }

  /** Python's `xs[:n]`: a negative `n` counts back from the end. */
  function Head<T>(xs: seq<T>, n: int): (r: seq<T>)
    ensures 0 <= n ==> r == xs[..if n < |xs| then n else |xs|]
    ensures n < 0 ==> r == xs[..if |xs| + n > 0 then |xs| + n else 0]
  {
    if n >= 0 then xs[..if n < |xs| then n else |xs|]
    else xs[..if |xs| + n > 0 then |xs| + n else 0]
  }

  /** The answer when there is nothing to exclude: each list cut to `top_k`. */
  function Truncated(h: Hits, topK: int): (r: Hits)
    requires Aligned(h)
    ensures Aligned(r)
    ensures r.ids <= h.ids && r.distances <= h.distances && r.metadatas <= h.metadatas && r.documents <= h.documents
    ensures 0 <= topK ==> |r.ids| == if topK < |h.ids| then topK else |h.ids|
  {
    Hits(Head(h.ids, topK), Head(h.distances, topK), Head(h.metadatas, topK), Head(h.documents, topK))
  }

  /** The test the exclusion loop applies to each id. */
  function NotIn(exclude: set<string>): string -> bool {
    x => x !in exclude
  }

  /**
   * The positions the exclusion loop keeps: those of non-excluded ids, up to
   * `top_k` of them. The size test comes after each element, so a `top_k` of
   * zero or less stops the loop after the first position, kept when it is not
   * excluded.
   */
  function Chosen(ids: seq<string>, exclude: set<string>, topK: int): (r: seq<nat>)
    ensures forall k :: 0 <= k < |r| ==> r[k] < |ids|
  {
    var kept := Kept(ids, NotIn(exclude));
    if topK >= 1 then kept[..Min(topK, |kept|)]
    else Kept(ids[..Min(1, |ids|)], NotIn(exclude))
  }

  /** The entries of the four lists at the given positions. */
  function Picked(h: Hits, idx: seq<nat>): (r: Hits)
    requires Aligned(h) && forall k :: 0 <= k < |idx| ==> idx[k] < |h.ids|
    ensures Aligned(r) && |r.ids| == |idx|
  {
    Hits(Select(h.ids, idx), Select(h.distances, idx), Select(h.metadatas, idx), Select(h.documents, idx))
  }

  /** The exclusion loop's answer: the entries at the chosen positions. */
  function Excluding(h: Hits, exclude: set<string>, topK: int): (r: Hits)
    requires Aligned(h)
  {
    Picked(h, Chosen(h.ids, exclude, topK))
  }

  /** The ids excluded: `{str(e) for e in exclude_ids}`. */
  function ExcludeSet(excludeIds: seq<int>): (s: set<string>)
    ensures forall e :: e in excludeIds ==> IntToString(e) in s
    ensures forall x :: x in s ==> exists e :: e in excludeIds && x == IntToString(e)
  {
    set e | e in excludeIds :: IntToString(e)
  }

  /**
   * The kept results hold no excluded id, keep the order of the query, never
   * exceed `top_k` entries when `top_k` is positive (one otherwise), and stay
   * index-aligned.
   */
  lemma ExcludingProperties(h: Hits, exclude: set<string>, topK: int)
    requires Aligned(h)
    ensures var r := Excluding(h, exclude, topK);
      && Aligned(r)
      && (forall k :: 0 <= k < |r.ids| ==> r.ids[k] !in exclude)
      && |r.ids| <= (if topK >= 1 then topK else 1)
      && (topK >= 1 ==> |r.ids| == Min(topK, |Kept(h.ids, NotIn(exclude))|))
      && (forall k :: 0 <= k < |r.ids| ==>
            exists i :: (0 <= i < |h.ids| && r.ids[k] == h.ids[i]
              && r.distances[k] == h.distances[i] && r.metadatas[k] == h.metadatas[i]
              && r.documents[k] == h.documents[i]))
  {
    var idx := Chosen(h.ids, exclude, topK);
    var kept := Kept(h.ids, NotIn(exclude));
    forall k | 0 <= k < |idx| ensures h.ids[idx[k]] !in exclude {
      if topK < 1 {
        assert h.ids[..Min(1, |h.ids|)][idx[k]] == h.ids[idx[k]];
      } else {
        assert idx[k] == kept[k];
      }
    }
    var r := Excluding(h, exclude, topK);
    forall k | 0 <= k < |r.ids|
      ensures exists i :: (0 <= i < |h.ids| && r.ids[k] == h.ids[i]
        && r.distances[k] == h.distances[i] && r.metadatas[k] == h.metadatas[i]
        && r.documents[k] == h.documents[i])
    {
      var i := idx[k];
      assert r.ids[k] == h.ids[i];
    }
  }

  /** What the search asks the collection for. */
  datatype Query = Query(nResults: int, where: Option<Json>)

  function SearchQuery(topK: int, filters: seq<string>): (q: Query)
    ensures q.nResults == FetchK(topK) && q.where == WhereFilter(filters)
  {
    Query(FetchK(topK), WhereFilter(filters))
  }

  /** The exclusion loop after `i` positions: `idx` are the kept positions and `r` their entries. */
  ghost predicate Scanned(h: Hits, exclude: set<string>, i: nat, idx: seq<nat>, r: Hits) {
    && Aligned(h) && i <= |h.ids|
    && idx == Kept(h.ids[..i], NotIn(exclude))
    && (forall k :: 0 <= k < |idx| ==> idx[k] < |h.ids|)
    && r == Picked(h, idx)
  }

  /** One more position scanned: kept, with its entries appended, when its id is not excluded. */
  lemma ScanStep(h: Hits, exclude: set<string>, i: nat, idx: seq<nat>, r: Hits)
    requires Scanned(h, exclude, i, idx, r) && i < |h.ids|
    ensures h.ids[i] !in exclude ==>
      Scanned(h, exclude, i + 1, idx + [i],
              Hits(r.ids + [h.ids[i]], r.distances + [h.distances[i]],
                   r.metadatas + [h.metadatas[i]], r.documents + [h.documents[i]]))
    ensures h.ids[i] in exclude ==> Scanned(h, exclude, i + 1, idx, r)
  {
    assert h.ids[..i + 1] == h.ids[..i] + [h.ids[i]];
    KeptSnoc(h.ids[..i], h.ids[i], NotIn(exclude));
  }

  /**
   * `search_movies` after the query: with no exclusions every list is cut to
   * `top_k`; otherwise the loop walks the results in order, appends each
   * non-excluded entry to all four lists, and stops once `top_k` are kept.
   */
  method SearchMovies(results: Hits, topK: int, excludeIds: seq<int>) returns (r: Hits)
    requires Aligned(results)
    ensures excludeIds == [] ==> r == Truncated(results, topK)
    ensures excludeIds != [] ==> r == Excluding(results, ExcludeSet(excludeIds), topK)
  {
    if excludeIds == [] {
      r := Truncated(results, topK);
    } else {
      r := ScanExcluding(results, ExcludeSet(excludeIds), topK);
    }
  }

  /** The exclusion loop of `search_movies`. */
  method ScanExcluding(results: Hits, exclude: set<string>, topK: int) returns (r: Hits)
    requires Aligned(results)
    ensures r == Excluding(results, exclude, topK)
  {
    ghost var idx: seq<nat> := [];
    r := Hits([], [], [], []);
    var i: nat := 0;
    while i < |results.ids|
      invariant Scanned(results, exclude, i, idx, r)
      invariant i > 0 ==> |idx| < topK
    {
      ScanStep(results, exclude, i, idx, r);
      var mid := results.ids[i];
      if mid !in exclude {
        idx := idx + [i];
        r := Hits(r.ids + [mid], r.distances + [results.distances[i]],
                  r.metadatas + [results.metadatas[i]], r.documents + [results.documents[i]]);
      }
      i := i + 1;
      if |r.ids| >= topK {
        ExcludingStops(results, exclude, topK, i, idx);
        return;
      }
    }
    ExcludingRuns(results, exclude, topK, idx);
  }

  /** A loop that stopped after `i` positions with `top_k` reached kept exactly the chosen positions. */
  lemma ExcludingStops(h: Hits, exclude: set<string>, topK: int, i: nat, idx: seq<nat>)
    requires 1 <= i <= |h.ids|
    requires idx == Kept(h.ids[..i], NotIn(exclude)) && |idx| >= topK
    requires i > 1 ==> |Kept(h.ids[..i - 1], NotIn(exclude))| < topK
    ensures idx == Chosen(h.ids, exclude, topK)
  {
    if topK >= 1 {
      ExcludingStopsAtTop(h.ids, NotIn(exclude), topK, i);
    } else {
      assert i == 1;
    }
  }

  /** The positions kept from the shortest prefix that holds `n` of them are the first `n` kept overall. */
  lemma ExcludingStopsAtTop(ids: seq<string>, keep: string -> bool, n: int, i: nat)
    requires 1 <= n && 1 <= i <= |ids|
    requires |Kept(ids[..i], keep)| >= n
    requires i > 1 ==> |Kept(ids[..i - 1], keep)| < n
    ensures Kept(ids[..i], keep) == Kept(ids, keep)[..Min(n, |Kept(ids, keep)|)]
  {
    var idx, kept := Kept(ids[..i], keep), Kept(ids, keep);
    assert |idx| == n by {
      if i > 1 {
        assert ids[..i] == ids[..i - 1] + [ids[i - 1]];
        KeptSnoc(ids[..i - 1], ids[i - 1], keep);
      }
    }
    KeptPrefix(ids, keep, i);
    assert idx <= kept;
    assert idx == kept[..n];
  }

  /** A loop that ran to the end without reaching `top_k` kept every non-excluded position. */
  lemma ExcludingRuns(h: Hits, exclude: set<string>, topK: int, idx: seq<nat>)
    requires idx == Kept(h.ids[..|h.ids|], NotIn(exclude))
    requires h.ids != [] ==> |idx| < topK
    ensures idx == Chosen(h.ids, exclude, topK)
  {
    assert h.ids[..|h.ids|] == h.ids;
    if topK >= 1 {
      assert idx[..|idx|] == idx;
    }
  }
}
