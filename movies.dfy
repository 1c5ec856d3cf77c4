/**
 * The client's `Movie` value and the list operations the feed engine performs
 * on lists of movies. Two identities exist: the local `id` (a UUID used for
 * list membership in the UI) and the backend `tmdbId` (used for every backend
 * call and for de-duplicating fetched batches).
 */
module Movies {
  import opened Wrappers

  /** A `UUID()`: the local identity of a movie value. */
  type Uuid = nat

  /** A `Date()` reading. Stamps are only stored, never compared. */
  datatype Stamp = Stamp(tick: int)

  datatype Movie = Movie(
    id: Uuid,
    tmdbId: int,
    title: string,
    subtitle: string,
    imageName: string,
    friendInitials: seq<string>,
    dateAdded: Stamp,
    dateWatched: Option<Stamp>)

  // ---------------------------------------------------------------- local identity

  /** `xs.contains(where: { $0.id == id })`. */
  predicate HasId(xs: seq<Movie>, id: Uuid) {
    exists k :: 0 <= k < |xs| && xs[k].id == id
  }

  /** How many entries of `xs` carry the local id. */
  function CountId(xs: seq<Movie>, id: Uuid): nat {
    if xs == [] then 0 else (if xs[0].id == id then 1 else 0) + CountId(xs[1..], id)
  }

  /** `xs.removeAll { $0.id == id }`. */
  function RemoveId(xs: seq<Movie>, id: Uuid): (r: seq<Movie>)
    ensures |r| <= |xs|
    ensures forall m :: m in r <==> m in xs && m.id != id
  {
    if xs == [] then []
    else if xs[0].id == id then RemoveId(xs[1..], id)
    else [xs[0]] + RemoveId(xs[1..], id)
  }

  lemma HasIdIffCount(xs: seq<Movie>, id: Uuid)
    ensures HasId(xs, id) <==> CountId(xs, id) > 0
  {
    if xs != [] {
      HasIdIffCount(xs[1..], id);
      if HasId(xs, id) && xs[0].id != id {
        var k :| 0 <= k < |xs| && xs[k].id == id;
        assert xs[1..][k - 1].id == id;
      }
      if HasId(xs[1..], id) {
        var k :| 0 <= k < |xs[1..]| && xs[1..][k].id == id;
        assert xs[k + 1].id == id;
      }
    }
  }

  /** After removal no entry with the id is left. */
  lemma RemoveIdRemovesAll(xs: seq<Movie>, id: Uuid)
    ensures !HasId(RemoveId(xs, id), id) && CountId(RemoveId(xs, id), id) == 0
  {
    var r := RemoveId(xs, id);
    forall k | 0 <= k < |r| ensures r[k].id != id {
      assert r[k] in r;
    }
    HasIdIffCount(r, id);
  }

  /** Removal commutes with concatenation: what is kept stays in its order. */
  lemma {:induction false} RemoveIdAppend(a: seq<Movie>, b: seq<Movie>, id: Uuid)
    ensures RemoveId(a + b, id) == RemoveId(a, id) + RemoveId(b, id)
  {
    if a == [] {
      assert a + b == b;
    } else {
      assert (a + b)[0] == a[0] && (a + b)[1..] == a[1..] + b;
      RemoveIdAppend(a[1..], b, id);
      if a[0].id != id {
        assert [a[0]] + (RemoveId(a[1..], id) + RemoveId(b, id))
            == ([a[0]] + RemoveId(a[1..], id)) + RemoveId(b, id);
      }
    }
  }

  /** Removing an id nobody carries changes nothing. */
  lemma {:induction false} RemoveIdAbsent(xs: seq<Movie>, id: Uuid)
    requires !HasId(xs, id)
    ensures RemoveId(xs, id) == xs
  {
    if xs != [] {
      var tail := xs[1..];
      assert !HasId(tail, id) by {
        forall k | 0 <= k < |tail| ensures tail[k].id != id {
          assert tail[k] == xs[k + 1];
        }
      }
      RemoveIdAbsent(tail, id);
      assert xs[0].id != id;
      assert [xs[0]] + tail == xs;
    }
  }

  lemma CountIdAppend(a: seq<Movie>, b: seq<Movie>, id: Uuid)
    ensures CountId(a + b, id) == CountId(a, id) + CountId(b, id)
  {
    if a == [] {
      assert a + b == b;
    } else {
      assert (a + b)[0] == a[0] && (a + b)[1..] == a[1..] + b;
      CountIdAppend(a[1..], b, id);
    }
  }

  /** Removing every copy and appending one leaves exactly one entry with that id. */
  lemma RemoveThenAppendOnce(xs: seq<Movie>, m: Movie)
    ensures CountId(RemoveId(xs, m.id) + [m], m.id) == 1
  {
    RemoveIdRemovesAll(xs, m.id);
    CountIdAppend(RemoveId(xs, m.id), [m], m.id);
    assert [m][1..] == [];
  }

  /** No two entries share a local id. */
  predicate UniqueIds(xs: seq<Movie>) {
    forall i, j :: 0 <= i < j < |xs| ==> xs[i].id != xs[j].id
  }

  /** No local id occurs in both lists. */
  predicate DisjointIds(a: seq<Movie>, b: seq<Movie>) {
    forall i, j :: 0 <= i < |a| && 0 <= j < |b| ==> a[i].id != b[j].id
  }

  lemma {:induction false} RemoveIdKeepsUnique(xs: seq<Movie>, id: Uuid)
    requires UniqueIds(xs)
    ensures UniqueIds(RemoveId(xs, id))
  {
    if xs != [] {
      var tail := xs[1..];
      assert UniqueIds(tail) by {
        forall i, j | 0 <= i < j < |tail| ensures tail[i].id != tail[j].id {
          assert tail[i] == xs[i + 1] && tail[j] == xs[j + 1];
        }
      }
      RemoveIdKeepsUnique(tail, id);
      if xs[0].id != id {
        var r := RemoveId(tail, id);
        forall j | 0 <= j < |r| ensures xs[0].id != r[j].id {
          assert r[j] in r;
          var k :| 0 <= k < |tail| && tail[k] == r[j];
          assert tail[k] == xs[k + 1];
        }
        assert RemoveId(xs, id) == [xs[0]] + r;
      }
    }
  }

  /** Appending a movie whose id is absent keeps the ids unique. */
  lemma AppendFreshKeepsUnique(xs: seq<Movie>, m: Movie)
    requires UniqueIds(xs) && !HasId(xs, m.id)
    ensures UniqueIds(xs + [m])
  {
    var ys := xs + [m];
    forall i, j | 0 <= i < j < |ys| ensures ys[i].id != ys[j].id {
      if j == |xs| {
        assert ys[i] == xs[i];
      }
    }
  }

  /** A list whose entries all come from `b` shares no id with a list disjoint from `b`. */
  lemma DisjointOfSubset(a: seq<Movie>, b: seq<Movie>, c: seq<Movie>)
    requires forall m :: m in a ==> m in b
    requires DisjointIds(b, c)
    ensures DisjointIds(a, c)
  {
    forall i, j | 0 <= i < |a| && 0 <= j < |c| ensures a[i].id != c[j].id {
      assert a[i] in b;
      var k :| 0 <= k < |b| && b[k] == a[i];
    }
  }

  /** A list without the id stays disjoint from the list holding only that movie. */
  lemma DisjointFromRemoved(xs: seq<Movie>, m: Movie)
    ensures DisjointIds(RemoveId(xs, m.id), [m])
  {
    var r := RemoveId(xs, m.id);
    forall i | 0 <= i < |r| ensures r[i].id != m.id {
      assert r[i] in r;
    }
  }

  // ---------------------------------------------------------------- backend identity

  /** The backend ids present in a list (`Set(xs.map { $0.tmdbId })`). */
  function TmdbIds(xs: seq<Movie>): set<int> {
    set m | m in xs :: m.tmdbId
  }

  /** `ms.filter { !known.contains($0.tmdbId) }`: keeps the order of what it keeps. */
  function WithoutKnown(ms: seq<Movie>, known: set<int>): (r: seq<Movie>)
    ensures |r| <= |ms|
    ensures forall m :: m in r <==> m in ms && m.tmdbId !in known
  {
    if ms == [] then []
    else if ms[0].tmdbId in known then WithoutKnown(ms[1..], known)
    else [ms[0]] + WithoutKnown(ms[1..], known)
  }

  lemma {:induction false} WithoutKnownAppend(a: seq<Movie>, b: seq<Movie>, known: set<int>)
    ensures WithoutKnown(a + b, known) == WithoutKnown(a, known) + WithoutKnown(b, known)
  {
    if a == [] {
      assert a + b == b;
    } else {
      assert (a + b)[0] == a[0] && (a + b)[1..] == a[1..] + b;
      WithoutKnownAppend(a[1..], b, known);
      if a[0].tmdbId !in known {
        assert [a[0]] + (WithoutKnown(a[1..], known) + WithoutKnown(b, known))
            == ([a[0]] + WithoutKnown(a[1..], known)) + WithoutKnown(b, known);
      }
    }
  }

  /** The first `n` entries, or all of them when there are fewer (`Array(xs.prefix(n))`). */
  function Prefix(xs: seq<Movie>, n: nat): (r: seq<Movie>)
    ensures |r| == Min(n, |xs|) && r <= xs
  {
    if n <= |xs| then xs[..n] else xs
  }
}
