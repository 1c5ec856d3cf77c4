/**
 * The genre list the client derives from its liked movies: every subtitle is
 * split on " · ", each piece is trimmed of whitespace, empty pieces are
 * dropped, and the distinct names are listed in ascending order.
 */
module Genres {
  import opened Text
  import opened Movies
  import opened ApiService

  /** The non-empty trimmed pieces of one split subtitle. */
  function TokenSet(parts: seq<string>, trim: string -> string): (r: set<string>)
    ensures forall t :: t in r ==> t != ""
  {
    if parts == [] then {}
    else
      var t := trim(parts[|parts| - 1]);
      TokenSet(parts[..|parts| - 1], trim) + (if t != "" then {t} else {})
  }

  lemma TokenSetSnoc(parts: seq<string>, p: string, trim: string -> string)
    ensures TokenSet(parts + [p], trim) == TokenSet(parts, trim) + (if trim(p) != "" then {trim(p)} else {})
  {
    assert (parts + [p])[..|parts|] == parts;
  }

  /** A name is a token exactly when it is the non-empty trimming of some piece. */
  lemma {:induction false} TokenSetMembers(parts: seq<string>, t: string, trim: string -> string)
    ensures t in TokenSet(parts, trim) <==> t != "" && exists i :: 0 <= i < |parts| && trim(parts[i]) == t
  {
    if t in TokenSet(parts, trim) {
      var i := TokenSetWitness(parts, t, trim);
    }
    if t != "" && exists i :: 0 <= i < |parts| && trim(parts[i]) == t {
      var i :| 0 <= i < |parts| && trim(parts[i]) == t;
      TokenSetHas(parts, i, trim);
    }
  }

  lemma {:induction false} TokenSetWitness(parts: seq<string>, t: string, trim: string -> string) returns (i: nat)
    requires t in TokenSet(parts, trim)
    ensures i < |parts| && trim(parts[i]) == t
  {
    var n := |parts| - 1;
    var init := parts[..n];
    TokenSetSnoc(init, parts[n], trim);
    assert init + [parts[n]] == parts;
    if t in TokenSet(init, trim) {
      i := TokenSetWitness(init, t, trim);
      assert init[i] == parts[i];
    } else {
      i := n;
    }
  }

  lemma {:induction false} TokenSetHas(parts: seq<string>, i: nat, trim: string -> string)
    requires i < |parts| && trim(parts[i]) != ""
    ensures trim(parts[i]) in TokenSet(parts, trim)
  {
    var n := |parts| - 1;
    var init := parts[..n];
    TokenSetSnoc(init, parts[n], trim);
    assert init + [parts[n]] == parts;
    if i < n {
      assert init[i] == parts[i];
      TokenSetHas(init, i, trim);
    }
  }

  /** The genre names of one movie. */
  function MovieGenres(m: Movie, trim: string -> string): set<string> {
    TokenSet(Split(m.subtitle, GENRE_SEPARATOR), trim)
  }

  /** The genre names of a list of liked movies. */
  function LikedGenres(liked: seq<Movie>, trim: string -> string): (r: set<string>)
    ensures forall t :: t in r ==> t != ""
  {
    if liked == [] then {} else LikedGenres(liked[..|liked| - 1], trim) + MovieGenres(liked[|liked| - 1], trim)
  }

  lemma LikedGenresSnoc(liked: seq<Movie>, m: Movie, trim: string -> string)
    ensures LikedGenres(liked + [m], trim) == LikedGenres(liked, trim) + MovieGenres(m, trim)
  {
    assert (liked + [m])[..|liked|] == liked;
  }

  /** A name is a liked genre exactly when some liked movie carries it. */
  lemma {:induction false} LikedGenresMembers(liked: seq<Movie>, t: string, trim: string -> string)
    ensures t in LikedGenres(liked, trim) <==> exists i :: 0 <= i < |liked| && t in MovieGenres(liked[i], trim)
  {
    if liked != [] {
      var init := liked[..|liked| - 1];
      LikedGenresMembers(init, t, trim);
      if exists i :: 0 <= i < |init| && t in MovieGenres(init[i], trim) {
        var i :| 0 <= i < |init| && t in MovieGenres(init[i], trim);
        assert liked[i] == init[i];
      }
      if exists i :: 0 <= i < |liked| && t in MovieGenres(liked[i], trim) {
        var i :| 0 <= i < |liked| && t in MovieGenres(liked[i], trim);
        if i < |init| {
          assert init[i] == liked[i];
        }
      }
    }
  }

  /** Only the set of liked movies matters, not their order or repetitions. */
  lemma LikedGenresBySet(a: seq<Movie>, b: seq<Movie>, trim: string -> string)
    requires forall m :: m in a <==> m in b
    ensures LikedGenres(a, trim) == LikedGenres(b, trim)
  {
    forall t ensures t in LikedGenres(a, trim) <==> t in LikedGenres(b, trim) {
      LikedGenresMembers(a, t, trim);
      LikedGenresMembers(b, t, trim);
      if exists i :: 0 <= i < |a| && t in MovieGenres(a[i], trim) {
        var i :| 0 <= i < |a| && t in MovieGenres(a[i], trim);
        assert a[i] in b;
        var j :| 0 <= j < |b| && b[j] == a[i];
      }
      if exists j :: 0 <= j < |b| && t in MovieGenres(b[j], trim) {
        var j :| 0 <= j < |b| && t in MovieGenres(b[j], trim);
        assert b[j] in a;
        var i :| 0 <= i < |a| && a[i] == b[j];
      }
    }
  }

  /** `g` lists the names of `s` in ascending order, each once. */
  predicate IsSortedListOf(g: seq<string>, s: set<string>) {
    StrictlySorted(g) && (forall x :: x in g ==> x in s) && (forall x :: x in s ==> x in g)
  }

  /** A set has exactly one ascending listing. */
  lemma {:induction false} SortedListUnique(a: seq<string>, b: seq<string>, s: set<string>)
    requires IsSortedListOf(a, s) && IsSortedListOf(b, s)
    ensures a == b
    decreases |a|
  {
    EmptyListing(a, s);
    EmptyListing(b, s);
    if a != [] && b != [] {
      SameHead(a, b, s);
      var s' := s - {a[0]};
      DropHeadSorted(a, s);
      DropHeadSorted(b, s);
      SortedListUnique(a[1..], b[1..], s');
      assert a == [a[0]] + a[1..] && b == [b[0]] + b[1..];
    }
  }

  lemma EmptyListing(a: seq<string>, s: set<string>)
    requires IsSortedListOf(a, s)
    ensures a == [] <==> s == {}
  {
    if a != [] {
      assert a[0] in s;
    }
  }

  lemma SameHead(a: seq<string>, b: seq<string>, s: set<string>)
    requires IsSortedListOf(a, s) && IsSortedListOf(b, s) && a != [] && b != []
    ensures a[0] == b[0]
  {
    assert a[0] in b;
    assert b[0] in a;
    var j :| 0 <= j < |b| && b[j] == a[0];
    var i :| 0 <= i < |a| && a[i] == b[0];
    if a[0] != b[0] {
      assert LexLess(b[0], a[0]);
      assert LexLess(a[0], b[0]);
      LexTransitive(a[0], b[0], a[0]);
      LexIrreflexive(a[0]);
    }
  }

  lemma DropHeadSorted(a: seq<string>, s: set<string>)
    requires IsSortedListOf(a, s) && a != []
    ensures IsSortedListOf(a[1..], s - {a[0]})
  {
    var t := a[1..];
    forall x ensures x in t <==> x in s - {a[0]} {
      if x in t {
        var k :| 0 <= k < |t| && t[k] == x;
        assert LexLess(a[0], a[k + 1]);
        LexIrreflexive(x);
      }
      if x in s - {a[0]} {
        assert x in a;
        var k :| 0 <= k < |a| && a[k] == x;
        assert t[k - 1] == x;
      }
    }
  }

  /** A non-empty set of names has a least one. */
  lemma {:induction false} HasLeast(s: set<string>) returns (m: string)
    requires s != {}
    ensures m in s && forall y :: y in s && y != m ==> LexLess(m, y)
    decreases |s|
  {
    var x :| x in s;
    if s == {x} {
      m := x;
    } else {
      var m' := HasLeast(s - {x});
      LexTotal(x, m');
      if LexLess(x, m') {
        m := x;
        forall y | y in s && y != m ensures LexLess(m, y) {
          if y != m' {
            LexTransitive(x, m', y);
          }
        }
      } else {
        m := m';
      }
    }
  }

  /** Collects the genre names of the liked movies (the outer loop). */
  method CollectGenres(liked: seq<Movie>, trim: string -> string) returns (s: set<string>)
    ensures s == LikedGenres(liked, trim)
  {
    s := {};
    var i := 0;
    while i < |liked|
      invariant 0 <= i <= |liked|
      invariant s == LikedGenres(liked[..i], trim)
    {
      var list := Split(liked[i].subtitle, GENRE_SEPARATOR);
      s := AddTokens(s, list, trim);
      LikedGenresSnoc(liked[..i], liked[i], trim);
      assert liked[..i + 1] == liked[..i] + [liked[i]];
      i := i + 1;
    }
    assert liked[..i] == liked;
  }

  /** Inserts the non-empty trimmed pieces of one subtitle (the inner loop). */
  method AddTokens(before: set<string>, list: seq<string>, trim: string -> string) returns (s: set<string>)
    ensures s == before + TokenSet(list, trim)
  {
    s := before;
    var j := 0;
    while j < |list|
      invariant 0 <= j <= |list|
      invariant s == before + TokenSet(list[..j], trim)
    {
      var trimmed := trim(list[j]);
      if trimmed != "" {
        s := s + {trimmed};
      }
      TokenSetSnoc(list[..j], list[j], trim);
      assert list[..j + 1] == list[..j] + [list[j]];
      j := j + 1;
    }
    assert list[..j] == list;
  }

  /** `Array(names).sorted()`: the names in ascending order. */
  method SortNames(names: set<string>) returns (g: seq<string>)
    ensures IsSortedListOf(g, names)
  {
    g := [];
    var rest := names;
    while rest != {}
      invariant rest <= names
      invariant StrictlySorted(g)
      invariant forall x :: x in g <==> x in names && x !in rest
      invariant forall i, y :: 0 <= i < |g| && y in rest ==> LexLess(g[i], y)
      decreases |rest|
    {
      ghost var least := HasLeast(rest);
      var m :| m in rest && forall y :: y in rest && y != m ==> LexLess(m, y);
      g := g + [m];
      rest := rest - {m};
    }
  }
}
