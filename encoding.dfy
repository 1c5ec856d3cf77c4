/**
 * The indexing script (`recc-engine/encoding.py`): each dataset item gets a
 * backdrop (its poster when it has none), an id string, the document text the
 * embedding model reads, and the metadata the vector store filters on; the
 * prepared lists are then sent in consecutive batches of at most 5000.
 *
 * The embedding model, the store and `json.dumps` are outside the model;
 * `json.dumps` is a parameter.
 */
module Encoding {
  import opened Wrappers
  import opened Text
  import opened Json
  import opened Indices

  /** Why preparing an item stops the script: an exception, or a case outside the model. */
  datatype Stop = Raise(error: PyError) | NotModelled

  /** An exception as a stop. */
  function Raising<T>(r: Result<T, PyError>): (s: Result<T, Stop>)
    ensures r.Success? ==> s == Success(r.value)
    ensures r.Failure? ==> s == Failure(Raise(r.error))
  {
    match r
    case Success(v) => Success(v)
    case Failure(e) => Failure(Raise(e))
  }

  // ---------------------------------------------------------------- build_text

  /** A genre or keyword entry whose `"name"` is truthy. */
  predicate NamedEntry(g: Json) {
    g.Obj? && "name" in g.fields && Truthy(g.fields["name"])
  }

  /**
   * `[g.get("name") for g in entries if g.get("name")]`: every entry must be a
   * dict, and the truthy names are kept in order.
   */
  function TruthyNames(entries: seq<Json>): (r: Result<seq<Json>, PyError>)
    ensures r.Success? <==> forall k :: 0 <= k < |entries| ==> entries[k].Obj?
    ensures r.Success? ==>
      |r.value| == |Kept(entries, NamedEntry)| && forall k :: 0 <= k < |r.value| ==> NameAt(r.value, entries, k)
  {
    if entries == [] then Success([])
    else
      var init := entries[..|entries| - 1];
      var last := entries[|entries| - 1];
      assert forall k :: 0 <= k < |init| ==> init[k] == entries[k];
      var names :- TruthyNames(init);
      if !last.Obj? then Failure(AttributeError)
      else
        var all := names + (if NamedEntry(last) then [last.fields["name"]] else []);
        TruthyNamesSnoc(entries, names, all);
        Success(all)
  }

  /** Name `k` is the `"name"` of the `k`-th entry with a truthy name. */
  predicate NameAt(names: seq<Json>, entries: seq<Json>, k: int)
    requires |names| == |Kept(entries, NamedEntry)| && 0 <= k < |names|
  {
    names[k] == entries[Kept(entries, NamedEntry)[k]].fields["name"]
  }

  /** The truthy names of all entries are those of all but the last, then the last one's if truthy. */
  lemma TruthyNamesSnoc(entries: seq<Json>, names: seq<Json>, all: seq<Json>)
    requires entries != []
    requires var init := entries[..|entries| - 1];
      |names| == |Kept(init, NamedEntry)| && forall k :: 0 <= k < |names| ==> NameAt(names, init, k)
    requires var last := entries[|entries| - 1];
      all == names + (if NamedEntry(last) then [last.fields["name"]] else [])
    ensures |all| == |Kept(entries, NamedEntry)| && forall k :: 0 <= k < |all| ==> NameAt(all, entries, k)
  {
    var n := |entries| - 1;
    var init := entries[..n];
    var prev := Kept(init, NamedEntry);
    var idx := Kept(entries, NamedEntry);
    assert idx == prev + (if NamedEntry(entries[n]) then [n] else []) by {
      assert init + [entries[n]] == entries;
      KeptSnoc(init, entries[n], NamedEntry);
    }
    forall k | 0 <= k < |all| ensures NameAt(all, entries, k) {
      if k < |prev| {
        assert NameAt(names, init, k);
        assert all[k] == names[k];
        assert idx[k] == prev[k];
        assert init[prev[k]] == entries[prev[k]];
      } else {
        assert k == |prev| && NamedEntry(entries[n]) && idx[k] == n;
      }
    }
  }

  /**
   * The entries `for g in item.get(key, [])` visits, as far as `g.get`
   * accepts them: a list's entries, none for an empty string or dict; the
   * strings a non-empty string or dict yields have no `get`.
   */
  function Entries(fields: map<string, Json>, key: string): (r: Result<seq<Json>, PyError>)
    ensures key !in fields ==> r == Success([])
    ensures key in fields && fields[key].Arr? ==> r == Success(fields[key].items)
  {
    var v := if key in fields then fields[key] else Arr([]);
    match v
    case Arr(items) => Success(items)
    case Str(s) => if s == "" then Success([]) else Failure(AttributeError)
    case Obj(m) => if m == map[] then Success([]) else Failure(AttributeError)
    case _ => Failure(TypeError)
  }

  /** The truthy names listed under `key`. */
  function NamesUnder(fields: map<string, Json>, key: string): Result<seq<Json>, PyError> {
    var entries :- Entries(fields, key);
    TruthyNames(entries)
  }

  /** `", ".join(names)` needs every name to be a string. */
  function NameStrings(names: seq<Json>): (r: Result<seq<string>, PyError>)
    ensures r.Success? <==> forall k :: 0 <= k < |names| ==> names[k].Str?
    ensures r.Success? ==> |r.value| == |names| && forall k :: 0 <= k < |names| ==> r.value[k] == names[k].s
  {
    match Strings(names)
    case None => Failure(TypeError)
    case Some(ss) => Success(ss)
  }

  /** The labelled parts of a document: each present only when it has content. */
  function TextParts(genres: seq<string>, keywords: seq<string>, overview: string): (r: seq<string>)
    ensures |r| <= 3 && forall k :: 0 <= k < |r| ==> r[k] != ""
    ensures r == [] <==> genres == [] && keywords == [] && overview == ""
    ensures genres != [] ==> r[0] == "Genres: " + Join(genres, ", ")
    ensures genres == [] && keywords != [] ==> r[0] == "Keywords: " + Join(keywords, ", ")
    ensures genres == [] && keywords == [] && overview != "" ==> r == ["Overview: " + overview]
  {
    (if genres != [] then ["Genres: " + Join(genres, ", ")] else [])
    + (if keywords != [] then ["Keywords: " + Join(keywords, ", ")] else [])
    + (if overview != "" then ["Overview: " + overview] else [])
  }

  /** The document text of an item: its labelled parts joined with `" | "`. */
  function BuildText(item: Json): (r: Result<string, PyError>)
    ensures !item.Obj? ==> r == Failure(AttributeError)
  {
    if !item.Obj? then Failure(AttributeError)
    else
      var f := item.fields;
      var genreNames :- NamesUnder(f, "genres");
      var keywordNames :- NamesUnder(f, "keywords");
      var overview := if "overview" in f && Truthy(f["overview"]) then f["overview"] else Str("");
      var genres :- NameStrings(genreNames);
      var keywords :- NameStrings(keywordNames);
      if !overview.Str? then Failure(TypeError)
      else Success(Join(TextParts(genres, keywords, overview.s), " | "))
  }

  /** Entries that are dicts whose names, where truthy, are strings. */
  predicate WellFormed(entries: seq<Json>) {
    forall k :: 0 <= k < |entries| ==> entries[k].Obj? && (NamedEntry(entries[k]) ==> entries[k].fields["name"].Str?)
  }

  /** The strings of the truthy names, in order. */
  function Labels(entries: seq<Json>): (r: seq<string>)
    requires WellFormed(entries)
    ensures |r| == |Kept(entries, NamedEntry)|
  {
    var idx := Kept(entries, NamedEntry);
    seq(|idx|, k requires 0 <= k < |idx| => entries[idx[k]].fields["name"].s)
  }

  /** The names under a key of well-formed entries are their labels. */
  lemma NamesUnderWellFormed(f: map<string, Json>, key: string, entries: seq<Json>)
    requires key in f && f[key] == Arr(entries) && WellFormed(entries)
    ensures NamesUnder(f, key).Success? && NameStrings(NamesUnder(f, key).value) == Success(Labels(entries))
  {
    var idx := Kept(entries, NamedEntry);
    assert NamesUnder(f, key) == TruthyNames(entries);
    var names := TruthyNames(entries).value;
    forall k | 0 <= k < |names| ensures names[k] == entries[idx[k]].fields["name"] && names[k].Str? {
      assert NameAt(names, entries, k);
      assert NamedEntry(entries[idx[k]]);
    }
    var ss := NameStrings(names).value;
    var labels := Labels(entries);
    forall k | 0 <= k < |ss| ensures ss[k] == labels[k] {
    }
    assert ss == labels;
  }

  /**
   * An item with well-formed genre and keyword lists and a string or absent
   * overview reads as its genre labels, keyword labels and overview, each part
   * present only when non-empty, joined with `" | "`.
   */
  lemma BuildTextOfItem(f: map<string, Json>, genres: seq<Json>, keywords: seq<Json>, overview: string)
    requires "genres" in f && f["genres"] == Arr(genres) && WellFormed(genres)
    requires "keywords" in f && f["keywords"] == Arr(keywords) && WellFormed(keywords)
    requires if overview == "" then "overview" !in f || !Truthy(f["overview"]) else "overview" in f && f["overview"] == Str(overview)
    ensures BuildText(Obj(f)) == Success(Join(TextParts(Labels(genres), Labels(keywords), overview), " | "))
  {
    NamesUnderWellFormed(f, "genres", genres);
    NamesUnderWellFormed(f, "keywords", keywords);
  }

  /** A document is empty exactly when the item has no named genre, no named keyword and no overview. */
  lemma TextEmptyIff(genres: seq<string>, keywords: seq<string>, overview: string)
    ensures Join(TextParts(genres, keywords, overview), " | ") == "" <==> genres == [] && keywords == [] && overview == ""
  {
    JoinEmpty(TextParts(genres, keywords, overview), " | ");
  }

  /** With named genres the document starts with the genre part. */
  lemma TextStartsWithGenres(genres: seq<string>, keywords: seq<string>, overview: string)
    requires genres != []
    ensures var text := Join(TextParts(genres, keywords, overview), " | ");
      |text| >= 8 && text[..8] == "Genres: "
  {
    var parts := TextParts(genres, keywords, overview);
    JoinCons(parts[0], parts[1..], " | ");
    assert [parts[0]] + parts[1..] == parts;
  }

  // ---------------------------------------------------------------- per-item preparation

  /** The item after the fallback: a missing or falsy backdrop becomes the poster path (or None). */
  function Backfilled(f: map<string, Json>): map<string, Json> {
    if "backdrop_path" in f && Truthy(f["backdrop_path"]) then f
    else f["backdrop_path" := if "poster_path" in f then f["poster_path"] else Null]
  }

  /**
   * The fallback keeps every other entry and a truthy backdrop; a missing or
   * falsy one becomes the poster path, or None when there is no poster.
   */
  lemma BackfilledFields(f: map<string, Json>)
    ensures Backfilled(f).Keys == f.Keys + {"backdrop_path"}
    ensures forall k :: k in f && k != "backdrop_path" ==> Backfilled(f)[k] == f[k]
    ensures "backdrop_path" in f && Truthy(f["backdrop_path"]) ==> Backfilled(f) == f
    ensures !("backdrop_path" in f && Truthy(f["backdrop_path"])) ==>
              Backfilled(f)["backdrop_path"] == (if "poster_path" in f then f["poster_path"] else Null)
  {
  }

  /** Applying the fallback a second time changes nothing. */
  lemma BackfillIdempotent(f: map<string, Json>)
    ensures Backfilled(Backfilled(f)) == Backfilled(f)
  {
    var g := Backfilled(f);
    BackfilledFields(f);
    if !("backdrop_path" in g && Truthy(g["backdrop_path"])) {
      assert "poster_path" != "backdrop_path";
      assert Backfilled(g) == g;
    }
  }

  /** The item as the loop leaves it: a dict gets the fallback (`BackfilledFields`); anything else fails before any change. */
  function Backfill(item: Json): Json {
    if item.Obj? then Obj(Backfilled(item.fields)) else item
  }

  /** `str(item.get("id"))`; the text of a float, list or dict is outside the model. */
  function IdString(f: map<string, Json>): (r: Result<string, Stop>)
    ensures "id" !in f ==> r == Success("None")
    ensures "id" in f && f["id"].Num? ==> r == Success(IntToString(f["id"].n))
    ensures "id" in f && f["id"].Str? ==> r == Success(f["id"].s)
  {
    match PyStr(if "id" in f then f["id"] else Null)
    case Some(s) => Success(s)
    case None => Failure(NotModelled)
  }

  /** The `is_{name}` flag keys of the given names; the text of a float, list or dict name is outside the model. */
  function FlagKeys(names: seq<Json>): (r: Result<seq<string>, Stop>)
    ensures r.Success? <==> forall k :: 0 <= k < |names| ==> PyStr(names[k]).Some?
    ensures r.Success? ==> |r.value| == |names|
    ensures r.Success? ==> forall k :: 0 <= k < |names| ==> PyStr(names[k]).Some? && r.value[k] == "is_" + PyStr(names[k]).value
  {
    if names == [] then Success([])
    else
      var rest :- FlagKeys(names[1..]);
      match PyStr(names[0])
      case None => Failure(NotModelled)
      case Some(s) => Success(["is_" + s] + rest)
  }

  /** A flag key names a name that prints as its suffix. */
  lemma FlagKeysMember(names: seq<Json>, s: string)
    requires FlagKeys(names).Success?
    ensures ("is_" + s) in FlagKeys(names).value <==> exists j :: 0 <= j < |names| && PyStr(names[j]) == Some(s)
  {
    var keys := FlagKeys(names).value;
    if ("is_" + s) in keys {
      var j :| 0 <= j < |keys| && keys[j] == "is_" + s;
      assert ("is_" + s)[3..] == s && keys[j][3..] == PyStr(names[j]).value;
    }
  }

  /** No flag key is `payload` or `language`. */
  lemma FlagKeysApart(names: seq<Json>)
    requires FlagKeys(names).Success?
    ensures "payload" !in FlagKeys(names).value && "language" !in FlagKeys(names).value
  {
    var keys := FlagKeys(names).value;
    assert forall k :: 0 <= k < |keys| ==> keys[k][0] == 'i';
  }

  /** Sets each of the keys to True. */
  function SetFlags(m: map<string, Json>, keys: seq<string>): (r: map<string, Json>)
    ensures r.Keys == m.Keys + set k | k in keys
    ensures forall k :: k in r && k !in keys ==> r[k] == m[k]
    ensures forall k :: k in keys ==> r[k] == Bool(true)
  {
    if keys == [] then m else SetFlags(m, keys[..|keys| - 1])[keys[|keys| - 1] := Bool(true)]
  }

  /** The flag keys of an item's genres with truthy names. */
  function GenreFlags(f: map<string, Json>): Result<seq<string>, Stop> {
    var entries :- Raising(Entries(f, "genres"));
    var names :- Raising(TruthyNames(entries));
    FlagKeys(names)
  }

  /** The language an item is filtered by: its original language, "unknown" when it has none. */
  function Language(f: map<string, Json>): Json {
    if "original_language" in f then f["original_language"] else Str("unknown")
  }

  /**
   * The metadata of an item: the serialised item as `payload`, its language as
   * `language`, and `is_{name}: True` for each genre with a truthy name.
   */
  function Metadata(f: map<string, Json>, dumps: Json -> string): (r: Result<map<string, Json>, Stop>)
    ensures r.Success? <==> GenreFlags(f).Success?
    ensures r.Success? ==> "payload" in r.value && "language" in r.value
    ensures r.Success? ==> r.value["payload"] == Str(dumps(Obj(f))) && r.value["language"] == Language(f)
    ensures r.Success? ==> forall key :: key in r.value ==>
              key == "payload" || key == "language" || (key in GenreFlags(f).value && r.value[key] == Bool(true))
    ensures r.Success? ==> forall key :: key in GenreFlags(f).value ==> key in r.value
  {
    var keys :- GenreFlags(f);
    FlagKeysApart(TruthyNames(Entries(f, "genres").value).value);
    Success(SetFlags(map["payload" := Str(dumps(Obj(f))), "language" := Language(f)], keys))
  }

  /** A genre list yields the flag `is_s` exactly when one of its truthy names prints as `s`. */
  lemma GenreFlagsExact(f: map<string, Json>, s: string)
    requires "genres" in f && f["genres"].Arr? && GenreFlags(f).Success?
    ensures var genres := f["genres"].items;
      ("is_" + s) in GenreFlags(f).value <==>
        exists k :: 0 <= k < |genres| && NamedEntry(genres[k]) && PyStr(genres[k].fields["name"]) == Some(s)
  {
    var genres := f["genres"].items;
    var names := TruthyNames(genres).value;
    var idx := Kept(genres, NamedEntry);
    assert GenreFlags(f) == FlagKeys(names);
    FlagKeysMember(names, s);
    if exists j :: 0 <= j < |names| && PyStr(names[j]) == Some(s) {
      var j :| 0 <= j < |names| && PyStr(names[j]) == Some(s);
      assert NameAt(names, genres, j) && NamedEntry(genres[idx[j]]);
    }
    if exists k :: 0 <= k < |genres| && NamedEntry(genres[k]) && PyStr(genres[k].fields["name"]) == Some(s) {
      var k :| 0 <= k < |genres| && NamedEntry(genres[k]) && PyStr(genres[k].fields["name"]) == Some(s);
      KeptExactly(genres, NamedEntry, k);
      var j :| 0 <= j < |idx| && idx[j] == k;
      assert NameAt(names, genres, j);
    }
  }

  /** What the loop appends for one item. */
  datatype Prepared = Prepared(id: string, document: string, metadata: map<string, Json>)

  /** One item through the loop body: fallback, id, document, metadata. */
  function Prepare(item: Json, dumps: Json -> string): Result<Prepared, Stop> {
    if !item.Obj? then Failure(Raise(AttributeError))
    else
      var f := Backfilled(item.fields);
      var id :- IdString(f);
      var document :- Raising(BuildText(Obj(f)));
      var metadata :- Metadata(f, dumps);
      Success(Prepared(id, document, metadata))
  }

  /**
   * An item that is not a dict raises; a prepared item's id and document are
   * those of the backfilled item, and its payload is that item serialised; an
   * item whose text cannot be built is not prepared.
   */
  lemma PrepareOfItem(item: Json, dumps: Json -> string)
    ensures !item.Obj? ==> Prepare(item, dumps) == Failure(Raise(AttributeError))
    ensures var r := Prepare(item, dumps);
      r.Success? ==>
        && item.Obj?
        && IdString(Backfilled(item.fields)) == Success(r.value.id)
        && BuildText(Backfill(item)) == Success(r.value.document)
        && "payload" in r.value.metadata && r.value.metadata["payload"] == Str(dumps(Backfill(item)))
        && "language" in r.value.metadata && r.value.metadata["language"] == Language(Backfilled(item.fields))
    ensures item.Obj? && BuildText(Backfill(item)).Failure? ==> Prepare(item, dumps).Failure?
  {
  }

  /**
   * The preparation loop over the dataset: it backfills each item in place and
   * appends its id, document and metadata, so the three lists stay aligned
   * with the items; the first item that raises ends the script after its own
   * backfill.
   */
  method PrepareAll(data: array<Json>, dumps: Json -> string)
    returns (ids: seq<string>, documents: seq<string>, metadatas: seq<map<string, Json>>, stop: Option<Stop>)
    modifies data
    ensures |ids| == |documents| == |metadatas| <= data.Length
    ensures stop.None? ==> |ids| == data.Length
    ensures stop.Some? ==> |ids| < data.Length && Prepare(old(data[|ids|]), dumps) == Failure(stop.value)
    ensures forall k :: 0 <= k < |ids| ==>
              Prepare(old(data[k]), dumps) == Success(Prepared(ids[k], documents[k], metadatas[k]))
    ensures var done := if stop.None? then |ids| else |ids| + 1;
      && (forall k :: 0 <= k < done ==> data[k] == Backfill(old(data[k])))
      && (forall k :: done <= k < data.Length ==> data[k] == old(data[k]))
  {
    ids, documents, metadatas, stop := [], [], [], None;
    ghost var items := data[..];
    var i := 0;
    while i < data.Length
      invariant 0 <= i <= data.Length
      invariant |ids| == i && |documents| == i && |metadatas| == i
      invariant forall k :: 0 <= k < i ==>
                  Prepare(items[k], dumps) == Success(Prepared(ids[k], documents[k], metadatas[k]))
      invariant forall k :: 0 <= k < i ==> data[k] == Backfill(items[k])
      invariant forall k :: i <= k < data.Length ==> data[k] == items[k]
    {
      var item := data[i];
      assert item == items[i];
      // An item that is not a dict raises before any change, and Backfill leaves it as it is.
      data[i] := Backfill(item);
      var r := Prepare(item, dumps);
      if r.Failure? {
        stop := Some(r.error);
        break;
      }
      ids, documents, metadatas := ids + [r.value.id], documents + [r.value.document], metadatas + [r.value.metadata];
      i := i + 1;
    }
  }

  // ---------------------------------------------------------------- batches

  /** The most documents sent to the store at once. */
  const BATCH_SIZE: nat := 5000

  /** The half-open index range `[start, end)` of one batch. */
  datatype Batch = Batch(start: nat, end: nat)

  /** Batches that cover `[0, total)` contiguously, in order, each non-empty and at most `BATCH_SIZE` long. */
  predicate Partition(bs: seq<Batch>, total: nat) {
    && (bs == [] <==> total == 0)
    && (bs != [] ==> bs[0].start == 0 && bs[|bs| - 1].end == total)
    && (forall k :: 0 <= k < |bs| ==> bs[k].start < bs[k].end <= bs[k].start + BATCH_SIZE && bs[k].end <= total)
    && (forall k :: 0 <= k < |bs| - 1 ==> bs[k].end == bs[k + 1].start)
  }

  /** The range `range(0, total, BATCH_SIZE)` yields for the first `n` batches. */
  predicate Stepped(bs: seq<Batch>, total: nat) {
    forall k :: 0 <= k < |bs| ==> bs[k] == Batch(k * BATCH_SIZE, Min(k * BATCH_SIZE + BATCH_SIZE, total))
  }

  /** Stepping through `[0, total)` until the start passes the end partitions it. */
  lemma SteppedPartition(bs: seq<Batch>, total: nat)
    requires Stepped(bs, total)
    requires bs != [] ==> (|bs| - 1) * BATCH_SIZE < total
    requires |bs| * BATCH_SIZE >= total
    ensures Partition(bs, total)
  {
    forall k | 0 <= k < |bs| ensures bs[k].start < bs[k].end {
      assert k * BATCH_SIZE <= (|bs| - 1) * BATCH_SIZE;
    }
    forall k | 0 <= k < |bs| - 1 ensures bs[k].end == bs[k + 1].start {
      assert (k + 1) * BATCH_SIZE <= (|bs| - 1) * BATCH_SIZE;
    }
  }

  /** `for i in range(0, total, BATCH_SIZE)` with `batch_end = min(i + BATCH_SIZE, total)`. */
  method Batches(total: nat) returns (bs: seq<Batch>)
    ensures Partition(bs, total)
    ensures forall k :: 0 <= k < |bs| ==> bs[k].start == k * BATCH_SIZE
    ensures forall k :: 0 <= k < |bs| - 1 ==> bs[k].end - bs[k].start == BATCH_SIZE
  {
    bs := [];
    var i := 0;
    while i < total
      invariant i == |bs| * BATCH_SIZE
      invariant Stepped(bs, total)
      invariant bs != [] ==> (|bs| - 1) * BATCH_SIZE < total
      decreases total - i
    {
      bs := bs + [Batch(i, Min(i + BATCH_SIZE, total))];
      i := i + BATCH_SIZE;
    }
    SteppedPartition(bs, total);
  }

  /** The lists' slices for the batches, concatenated in order. */
  function Slices<T>(xs: seq<T>, bs: seq<Batch>): seq<T>
    requires forall k :: 0 <= k < |bs| ==> bs[k].start <= bs[k].end <= |xs|
  {
    if bs == [] then []
    else Slices(xs, bs[..|bs| - 1]) + xs[bs[|bs| - 1].start..bs[|bs| - 1].end]
  }

  /** The batches of a partition send every entry exactly once and in order. */
  lemma {:induction false} SlicesCover<T>(xs: seq<T>, bs: seq<Batch>)
    requires Partition(bs, |xs|)
    ensures Slices(xs, bs) == xs
  {
    if bs != [] {
      SlicesOfChain(xs, bs, |bs|);
      assert bs[..|bs|] == bs;
      assert xs[..|xs|] == xs;
    }
  }

  lemma {:induction false} SlicesOfChain<T>(xs: seq<T>, bs: seq<Batch>, n: nat)
    requires Partition(bs, |xs|) && 1 <= n <= |bs|
    ensures Slices(xs, bs[..n]) == xs[..bs[n - 1].end]
  {
    var b := bs[n - 1];
    if n == 1 {
      assert bs[..1][..0] == [];
    } else {
      SlicesOfChain(xs, bs, n - 1);
      assert bs[..n][..n - 1] == bs[..n - 1];
      assert bs[n - 2].end == b.start;
      assert xs[..b.start] + xs[b.start..b.end] == xs[..b.end];
    }
  }
}
