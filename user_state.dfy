/**
 * The client's feed engine: the user's lists (history, watchlist and the three
 * rating lists), the genre list derived from liked movies, the buffer of
 * fetched recommendations with the visible window onto it, the set of movies
 * already shown, and the retry queue that carries every change to the backend.
 *
 * Asynchronous tasks are sequential steps here. A method that in the client
 * starts a background task returns `refillRequested` when that task is a
 * refill; the caller runs `BackgroundRefill` as the next step. Enqueuing an
 * action and draining the queue are separate steps as well.
 */
module Feed {
  import opened Wrappers
  import opened Text
  import opened Indices
  import opened Movies
  import opened ApiService
  import opened PendingQueue
  import opened Environment
  import opened Genres

  const PAGE_SIZE: nat := 10
  const REFILL_THRESHOLD: nat := 15
  const SHOWN_FLUSH_SIZE: nat := 3
  const REFILLS_EVERY: nat := 3

  // ---------------------------------------------------------------- personas

  /** The colours a persona can be drawn in. */
  datatype Color = Red | Purple | Blue | Pink | Orange | Green | Yellow | Gray

  /** The colour for a colour name sent by the backend; unknown names are gray. */
  function MapColor(name: string): (c: Color)
    ensures c == Gray <==> name !in ["red", "purple", "blue", "pink", "orange", "green", "yellow"]
  {
    if name == "red" then Red
    else if name == "purple" then Purple
    else if name == "blue" then Blue
    else if name == "pink" then Pink
    else if name == "orange" then Orange
    else if name == "green" then Green
    else if name == "yellow" then Yellow
    else Gray
  }

  /** The name the backend uses for a colour. */
  function ColorName(c: Color): string {
    match c
    case Red => "red"
    case Purple => "purple"
    case Blue => "blue"
    case Pink => "pink"
    case Orange => "orange"
    case Green => "green"
    case Yellow => "yellow"
    case Gray => "gray"
  }

  /** Every colour is reached from its own name, gray included. */
  lemma MapColorOfName(c: Color)
    ensures MapColor(ColorName(c)) == c
  {
  }

  datatype Persona = Persona(title: string, description: string, color: Color, icon: string, image: string)

  function ToPersonas(ds: seq<PersonaDto>): (r: seq<Persona>)
    ensures |r| == |ds|
    ensures forall i :: 0 <= i < |ds| ==>
              r[i] == Persona(ds[i].title, ds[i].description, MapColor(ds[i].color), ds[i].icon, ds[i].image)
  {
    seq(|ds|, i requires 0 <= i < |ds| =>
      Persona(ds[i].title, ds[i].description, MapColor(ds[i].color), ds[i].icon, ds[i].image))
  }

  // ---------------------------------------------------------------- paging

  /**
   * One paging step: when the buffer holds more than the window, the next
   * `min(10, remaining)` buffered movies are appended to the window.
   */
  function Page(window: seq<Movie>, buffer: seq<Movie>): seq<Movie> {
    if |window| < |buffer| then
      window + buffer[|window|..|window| + Min(PAGE_SIZE, |buffer| - |window|)]
    else window
  }

  /** Paging keeps the window a prefix of the buffer and grows it by at most a page. */
  lemma PageKeepsPrefix(window: seq<Movie>, buffer: seq<Movie>)
    requires window <= buffer
    ensures Page(window, buffer) <= buffer
    ensures |Page(window, buffer)| == Min(|buffer|, |window| + PAGE_SIZE)
    ensures window <= Page(window, buffer)
  {
    var n := |window| + Min(PAGE_SIZE, |buffer| - |window|);
    if |window| < |buffer| {
      assert Page(window, buffer) == buffer[..n];
    }
  }

  /** Paging repeatedly eventually shows the whole buffer. */
  lemma {:induction false} PagingReachesEnd(window: seq<Movie>, buffer: seq<Movie>, k: nat)
    requires window <= buffer
    requires |buffer| - |window| <= k * PAGE_SIZE
    ensures PageTimes(window, buffer, k) == buffer
    decreases k
  {
    if k > 0 {
      PageKeepsPrefix(window, buffer);
      PagingReachesEnd(Page(window, buffer), buffer, k - 1);
    } else {
      assert window == buffer[..|window|];
    }
  }

  function PageTimes(window: seq<Movie>, buffer: seq<Movie>, k: nat): seq<Movie>
    decreases k
  {
    if k == 0 then window else PageTimes(Page(window, buffer), buffer, k - 1)
  }

  /** The backend ids a refill must not bring in again. */
  function KnownIds(history: seq<Movie>, watchlist: seq<Movie>, window: seq<Movie>, shown: set<int>): set<int> {
    TmdbIds(history) + TmdbIds(watchlist) + TmdbIds(window) + shown
  }

  /** A refill brings in no movie the user has seen, listed or been shown. */
  lemma RefillIsFresh(fetched: seq<Movie>, known: set<int>)
    ensures forall m :: m in WithoutKnown(fetched, known) ==> m.tmdbId !in known
    ensures forall m :: m in fetched && m.tmdbId !in known ==> m in WithoutKnown(fetched, known)
  {
  }

  /** The window and the buffer behind it. */
  datatype FeedView = FeedView(window: seq<Movie>, buffer: seq<Movie>)

  /**
   * The feed after a fetch answered with `got`. A failure changes nothing; a
   * fresh load replaces the buffer and shows its first page; a refill appends
   * the received movies whose backend id is not in `known` and pages, and
   * changes nothing when there are none.
   */
  function AfterFetch(isLiveRefill: bool, got: Result<seq<Movie>, Thrown>, known: set<int>, f: FeedView): FeedView {
    if got.Failure? then f
    else if !isLiveRefill then FeedView(Prefix(got.value, PAGE_SIZE), got.value)
    else
      var added := WithoutKnown(got.value, known);
      if added == [] then f
      else FeedView(Page(f.window, f.buffer + added), f.buffer + added)
  }

  /** Whether the paging step of a refill finds the buffer low and asks for another refill. */
  predicate RefillDue(isLiveRefill: bool, got: Result<seq<Movie>, Thrown>, known: set<int>, f: FeedView) {
    got.Success? && isLiveRefill && WithoutKnown(got.value, known) != []
    && |f.buffer| + |WithoutKnown(got.value, known)| - |f.window| < REFILL_THRESHOLD
  }

  /** Every fetch outcome keeps the window a prefix of the buffer. */
  lemma AfterFetchKeepsPrefix(isLiveRefill: bool, got: Result<seq<Movie>, Thrown>, known: set<int>, f: FeedView)
    requires f.window <= f.buffer
    ensures AfterFetch(isLiveRefill, got, known, f).window <= AfterFetch(isLiveRefill, got, known, f).buffer
  {
    if got.Success? && isLiveRefill && WithoutKnown(got.value, known) != [] {
      PageKeepsPrefix(f.window, f.buffer + WithoutKnown(got.value, known));
    }
  }

  /**
   * A refill keeps the old buffer and the old window as prefixes, shows at most
   * one more page, and adds only received movies whose id was not known.
   */
  lemma RefillOnlyAddsNew(got: Result<seq<Movie>, Thrown>, known: set<int>, f: FeedView)
    requires f.window <= f.buffer
    ensures var r := AfterFetch(true, got, known, f);
      && f.buffer <= r.buffer && f.window <= r.window
      && |r.window| <= |f.window| + PAGE_SIZE
      && (forall i :: |f.buffer| <= i < |r.buffer| ==> r.buffer[i] in got.value && r.buffer[i].tmdbId !in known)
  {
    var r := AfterFetch(true, got, known, f);
    if got.Success? && WithoutKnown(got.value, known) != [] {
      var added := WithoutKnown(got.value, known);
      PageKeepsPrefix(f.window, f.buffer + added);
      forall i | |f.buffer| <= i < |r.buffer| ensures r.buffer[i] in got.value && r.buffer[i].tmdbId !in known {
        assert r.buffer[i] == added[i - |f.buffer|];
        assert added[i - |f.buffer|] in added;
      }
    }
  }

  /** How many of the counts after `a`, up to `b`, are multiples of 3. */
  function RefillsDue(a: nat, b: nat): nat
    decreases b
  {
    if b <= a then 0 else RefillsDue(a, b - 1) + (if b % REFILLS_EVERY == 0 then 1 else 0)
  }

  lemma {:induction false} RefillsDueClosedForm(a: nat, b: nat)
    requires a <= b
    ensures RefillsDue(a, b) == b / 3 - a / 3
    decreases b
  {
    if b > a {
      RefillsDueClosedForm(a, b - 1);
    }
  }

  // ---------------------------------------------------------------- fetch effects

  /** What a recommendation fetch reads and changes: the feed, the reply script and the local id counter. */
  datatype FeedState = FeedState(view: FeedView, replies: seq<Exchange<seq<MovieDto>>>, nextId: nat)

  /**
   * The feed state after one fetch. While a fetch is already running nothing
   * happens. Otherwise the answer is the next reply when the URL builds, the
   * script moves on only then, and each received record takes a fresh local id.
   */
  function Fetched(isLiveRefill: bool, loading: bool, urlOk: bool, known: set<int>, s: FeedState, now: Stamp): FeedState {
    if loading then s
    else
      var got := Receive(urlOk, ReplyAt(s.replies, 0));
      FeedState(AfterFetch(isLiveRefill, ReceiveMovies(urlOk, ReplyAt(s.replies, 0), s.nextId, now), known, s.view),
                if urlOk then Drop(s.replies, 1) else s.replies,
                s.nextId + (if got.Success? then |got.value| else 0))
  }

  /** The state a fetch that ran ends in. */
  lemma FetchedAnswer(isLiveRefill: bool, urlOk: bool, known: set<int>, s: FeedState, now: Stamp, f: FeedState)
    requires f.view == AfterFetch(isLiveRefill, ReceiveMovies(urlOk, ReplyAt(s.replies, 0), s.nextId, now), known, s.view)
    requires f.replies == if urlOk then Drop(s.replies, 1) else s.replies
    requires var got := Receive(urlOk, ReplyAt(s.replies, 0));
      f.nextId == s.nextId + if got.Success? then |got.value| else 0
    ensures f == Fetched(isLiveRefill, false, urlOk, known, s, now)
  {
  }

  /** Which ids are known plays no part in a fresh load. */
  lemma FreshIgnoresKnown(loading: bool, urlOk: bool, known: set<int>, s: FeedState, now: Stamp, f: FeedState)
    requires f == Fetched(false, loading, urlOk, known, s, now)
    ensures f == Fetched(false, loading, urlOk, {}, s, now)
  {
  }

  /**
   * A fresh load that gets an answer shows the first page of the received
   * movies, all of them with distinct local ids taken from the counter; a
   * failed one changes nothing but the script. Which ids are known plays no part.
   */
  lemma FreshLoad(urlOk: bool, known: set<int>, other: set<int>, s: FeedState, now: Stamp)
    ensures Fetched(false, false, urlOk, known, s, now) == Fetched(false, false, urlOk, other, s, now)
    ensures var r := Fetched(false, false, urlOk, known, s, now);
      var got := Receive(urlOk, ReplyAt(s.replies, 0));
      && (got.Failure? ==> r.view == s.view && r.nextId == s.nextId)
      && (got.Success? ==>
            && r.view.buffer == ConvertDtos(got.value, "Recommended", s.nextId, now)
            && r.view.window == Prefix(r.view.buffer, PAGE_SIZE) && r.view.window <= r.view.buffer
            && UniqueIds(r.view.buffer)
            && (forall m :: m in r.view.buffer ==> s.nextId <= m.id < r.nextId))
  {
    var got := Receive(urlOk, ReplyAt(s.replies, 0));
    if got.Success? {
      ConvertDtosUnique(got.value, "Recommended", s.nextId, now);
    }
  }

  /** `n` refills in a row from `s`, each one avoiding the ids known at its own start. */
  function RefillRun(s: FeedState, history: seq<Movie>, watchlist: seq<Movie>, shown: set<int>,
                     loading: bool, urlOk: bool, now: Stamp, n: nat): FeedState
    decreases n, 0
  {
    if n == 0 then s else NextRefill(s, history, watchlist, shown, loading, urlOk, now, n - 1)
  }

  /** One more refill after `m` of them. */
  function NextRefill(s: FeedState, history: seq<Movie>, watchlist: seq<Movie>, shown: set<int>,
                      loading: bool, urlOk: bool, now: Stamp, m: nat): FeedState
    decreases m, 1
  {
    var p := RefillRun(s, history, watchlist, shown, loading, urlOk, now, m);
    Fetched(true, loading, urlOk, KnownIds(history, watchlist, p.view.window, shown), p, now)
  }

  /**
   * Whether the refill after `m` of them asks for a background refill: it is
   * a live load that brought in new movies and left the buffer low.
   */
  predicate RefillAsks(s: FeedState, history: seq<Movie>, watchlist: seq<Movie>, shown: set<int>,
                       loading: bool, urlOk: bool, now: Stamp, m: nat)
  {
    var p := RefillRun(s, history, watchlist, shown, loading, urlOk, now, m);
    !loading && RefillDue(true, ReceiveMovies(urlOk, ReplyAt(p.replies, 0), p.nextId, now),
                          KnownIds(history, watchlist, p.view.window, shown), p.view)
  }

  /** Whether any of the first `n` refills asks for a background refill. */
  predicate RunAsks(s: FeedState, history: seq<Movie>, watchlist: seq<Movie>, shown: set<int>,
                    loading: bool, urlOk: bool, now: Stamp, n: nat)
    decreases n
  {
    n > 0 && (RunAsks(s, history, watchlist, shown, loading, urlOk, now, n - 1)
              || RefillAsks(s, history, watchlist, shown, loading, urlOk, now, n - 1))
  }

  /** One more refill asks for more when it does or the run before it did. */
  lemma RunAsksSnoc(s: FeedState, history: seq<Movie>, watchlist: seq<Movie>, shown: set<int>,
                    loading: bool, urlOk: bool, now: Stamp, n: nat)
    ensures RunAsks(s, history, watchlist, shown, loading, urlOk, now, n + 1)
            == (RunAsks(s, history, watchlist, shown, loading, urlOk, now, n)
                || RefillAsks(s, history, watchlist, shown, loading, urlOk, now, n))
  {
  }

  /** A run asks for a background refill exactly when one of its refills does. */
  lemma {:induction false} RunAsksExists(s: FeedState, history: seq<Movie>, watchlist: seq<Movie>, shown: set<int>,
                                         loading: bool, urlOk: bool, now: Stamp, n: nat)
    ensures RunAsks(s, history, watchlist, shown, loading, urlOk, now, n)
            <==> exists m :: 0 <= m < n && RefillAsks(s, history, watchlist, shown, loading, urlOk, now, m)
    decreases n
  {
    if n > 0 {
      RunAsksExists(s, history, watchlist, shown, loading, urlOk, now, n - 1);
      if RefillAsks(s, history, watchlist, shown, loading, urlOk, now, n - 1) {
        assert exists m :: 0 <= m < n && RefillAsks(s, history, watchlist, shown, loading, urlOk, now, m);
      }
    }
  }

  /**
   * A refill that asks for more ran while no load was under way, with a URL,
   * appended new movies to the buffer and left fewer than 15 of them beyond
   * the window it found.
   */
  lemma RefillAsksMeans(s: FeedState, history: seq<Movie>, watchlist: seq<Movie>, shown: set<int>,
                        loading: bool, urlOk: bool, now: Stamp, m: nat)
    requires RefillAsks(s, history, watchlist, shown, loading, urlOk, now, m)
    ensures var p := RefillRun(s, history, watchlist, shown, loading, urlOk, now, m);
      var r := RefillRun(s, history, watchlist, shown, loading, urlOk, now, m + 1);
      && !loading && urlOk
      && p.view.buffer < r.view.buffer
      && |r.view.buffer| - |p.view.window| < REFILL_THRESHOLD
  {
    assert RefillRun(s, history, watchlist, shown, loading, urlOk, now, m + 1)
           == NextRefill(s, history, watchlist, shown, loading, urlOk, now, m);
  }

  /**
   * A run of refills only appends to the buffer and the window, uses one reply
   * each when it runs at all, and never brings in a movie from the history, the
   * watchlist or the shown set. While a fetch is running, or without a URL, it
   * changes nothing but the script.
   */
  lemma {:induction false} RefillRunGrows(s: FeedState, history: seq<Movie>, watchlist: seq<Movie>, shown: set<int>,
                                          loading: bool, urlOk: bool, now: Stamp, n: nat)
    requires s.view.window <= s.view.buffer
    ensures var r := RefillRun(s, history, watchlist, shown, loading, urlOk, now, n);
      && r.view.window <= r.view.buffer
      && s.view.buffer <= r.view.buffer && s.view.window <= r.view.window
      && s.nextId <= r.nextId
      && (forall i :: |s.view.buffer| <= i < |r.view.buffer| ==>
            r.view.buffer[i].tmdbId !in TmdbIds(history) + TmdbIds(watchlist) + shown)
      && (loading || !urlOk ==> r.view == s.view && r.nextId == s.nextId)
      && (loading ==> r.replies == s.replies)
      && (!loading && urlOk ==> r.replies == Drop(s.replies, n))
    decreases n
  {
    if n > 0 {
      var p := RefillRun(s, history, watchlist, shown, loading, urlOk, now, n - 1);
      RefillRunGrows(s, history, watchlist, shown, loading, urlOk, now, n - 1);
      var r := RefillRun(s, history, watchlist, shown, loading, urlOk, now, n);
      assert r == NextRefill(s, history, watchlist, shown, loading, urlOk, now, n - 1);
      if !loading {
        var known := KnownIds(history, watchlist, p.view.window, shown);
        var got := ReceiveMovies(urlOk, ReplyAt(p.replies, 0), p.nextId, now);
        assert r.view == AfterFetch(true, got, known, p.view);
        RefillOnlyAddsNew(got, known, p.view);
        AfterFetchKeepsPrefix(true, got, known, p.view);
        forall i | |s.view.buffer| <= i < |r.view.buffer|
          ensures r.view.buffer[i].tmdbId !in TmdbIds(history) + TmdbIds(watchlist) + shown
        {
          if i >= |p.view.buffer| {
            assert r.view.buffer[i].tmdbId !in known;
          } else {
            assert r.view.buffer[i] == p.view.buffer[i];
          }
        }
        if urlOk {
          DropDrop(s.replies, n - 1, 1);
        }
      }
    }
  }

  /** How many calls of a log fetch recommendations. */
  function Fetches(calls: seq<Call>): nat
    decreases |calls|
  {
    if calls == [] then 0
    else Fetches(calls[..|calls| - 1]) + (if calls[|calls| - 1].RecommendationsCall? then 1 else 0)
  }

  /** The log of one confirmed rating's refill: a fetch every third rating, when fetching can happen at all. */
  function RefillCalls(user: string, a: PendingAction, count: nat, live: bool): seq<Call> {
    if live && a.Rate? && count % REFILLS_EVERY == 0 then [RecommendationsCall(user)] else []
  }

  /**
   * The calls of a drain that confirmed the actions `q` in order, starting from
   * the session count `count0`: each action's own call, then the refill fetch
   * its rating triggered. `live` says that no fetch was running and the URL builds.
   */
  function DrainLog(user: string, q: seq<PendingAction>, count0: nat, live: bool): seq<Call>
    decreases |q|
  {
    if q == [] then []
    else DrainLog(user, q[..|q| - 1], count0, live) + [ActionCall(user, q[|q| - 1])]
         + RefillCalls(user, q[|q| - 1], count0 + CountRates(q), live)
  }

  lemma DrainLogSnoc(user: string, q: seq<PendingAction>, a: PendingAction, count0: nat, live: bool)
    ensures DrainLog(user, q + [a], count0, live)
            == DrainLog(user, q, count0, live) + [ActionCall(user, a)] + RefillCalls(user, a, count0 + CountRates(q + [a]), live)
  {
    assert (q + [a])[..|q|] == q;
  }

  lemma {:induction false} MutationsAppend(a: seq<Call>, b: seq<Call>)
    ensures Mutations(a + b) == Mutations(a) + Mutations(b)
    decreases |b|
  {
    if b != [] {
      var b' := b[..|b| - 1];
      MutationsAppend(a, b');
      assert a + b == (a + b') + [b[|b| - 1]];
      MutationsSnoc(a + b', b[|b| - 1]);
      assert b == b' + [b[|b| - 1]];
      MutationsSnoc(b', b[|b| - 1]);
    } else {
      assert a + b == a;
    }
  }

  lemma {:induction false} FetchesAppend(a: seq<Call>, b: seq<Call>)
    ensures Fetches(a + b) == Fetches(a) + Fetches(b)
    decreases |b|
  {
    if b != [] {
      var b' := b[..|b| - 1];
      FetchesAppend(a, b');
      assert (a + b)[..|a + b| - 1] == a + b';
      assert b[..|b| - 1] == b';
    } else {
      assert a + b == a;
    }
  }

  /** A refill adds no mutation to the log. */
  lemma RefillCallsNoMutation(user: string, a: PendingAction, count: nat, live: bool)
    ensures Mutations(RefillCalls(user, a, count, live)) == []
    ensures Fetches(RefillCalls(user, a, count, live)) == |RefillCalls(user, a, count, live)|
  {
    var refill := RefillCalls(user, a, count, live);
    if refill != [] {
      MutationsSnoc([], refill[0]);
      assert refill == [] + [refill[0]];
      assert refill[..0] == [];
    }
  }

  /** The mutations of a drain's log are exactly the confirmed actions' calls, in order. */
  lemma {:induction false} DrainLogMutations(user: string, q: seq<PendingAction>, count0: nat, live: bool)
    ensures Mutations(DrainLog(user, q, count0, live)) == ActionCalls(user, q)
    decreases |q|
  {
    if q != [] {
      var q', a := q[..|q| - 1], q[|q| - 1];
      assert q == q' + [a];
      DrainLogMutations(user, q', count0, live);
      var front := DrainLog(user, q', count0, live);
      var refill := RefillCalls(user, a, count0 + CountRates(q), live);
      MutationsAppend(front + [ActionCall(user, a)], refill);
      MutationsSnoc(front, ActionCall(user, a));
      RefillCallsNoMutation(user, a, count0 + CountRates(q), live);
      ActionCallsSnoc(user, q', a);
    }
  }

  /**
   * A drain's log fetches once per multiple of three the session count
   * crossed, or never when fetching could not happen.
   */
  lemma {:induction false} DrainLogFetches(user: string, q: seq<PendingAction>, count0: nat, live: bool)
    ensures Fetches(DrainLog(user, q, count0, live)) == if live then RefillsDue(count0, count0 + CountRates(q)) else 0
    decreases |q|
  {
    if q != [] {
      var q', a := q[..|q| - 1], q[|q| - 1];
      assert q == q' + [a];
      DrainLogFetches(user, q', count0, live);
      var front := DrainLog(user, q', count0, live);
      var refill := RefillCalls(user, a, count0 + CountRates(q), live);
      CountRatesSnoc(q', a);
      FetchesAppend(front, [ActionCall(user, a)]);
      FetchesAppend(front + [ActionCall(user, a)], refill);
      assert Fetches([ActionCall(user, a)]) == 0 by {
        assert [ActionCall(user, a)][..0] == [];
      }
      RefillCallsNoMutation(user, a, count0 + CountRates(q), live);
      RefillsAfter(count0, count0 + CountRates(q'), count0 + CountRates(q), a.Rate?,
                   a.Rate? && (count0 + CountRates(q)) % REFILLS_EVERY == 0);
    }
  }

  // ---------------------------------------------------------------- profile hydration

  /** `movieMap`: the converted movies keyed by backend id. */
  function MovieMap(ms: seq<Movie>): (r: map<int, Movie>)
    ensures forall k :: k in r ==> r[k].tmdbId == k && r[k] in ms
    ensures forall m :: m in ms ==> m.tmdbId in r
  {
    if ms == [] then map[]
    else MovieMap(ms[..|ms| - 1])[ms[|ms| - 1].tmdbId := ms[|ms| - 1]]
  }

  predicate DistinctTmdbIds(ms: seq<Movie>) {
    forall i, j :: 0 <= i < j < |ms| ==> ms[i].tmdbId != ms[j].tmdbId
  }

  /** With distinct keys every movie is found under its own id. */
  lemma {:induction false} MovieMapFinds(ms: seq<Movie>, i: nat)
    requires DistinctTmdbIds(ms) && i < |ms|
    ensures MovieMap(ms)[ms[i].tmdbId] == ms[i]
  {
    var n := |ms| - 1;
    if i < n {
      var init := ms[..n];
      assert init[i] == ms[i];
      assert ms[i].tmdbId != ms[n].tmdbId;
      DistinctPrefix(ms, n);
      MovieMapFinds(init, i);
      MovieMapOther(ms, ms[i].tmdbId);
    }
  }

  /** A key other than the last movie's keeps what the prefix maps it to. */
  lemma MovieMapOther(ms: seq<Movie>, key: int)
    requires ms != [] && key != ms[|ms| - 1].tmdbId && key in MovieMap(ms[..|ms| - 1])
    ensures key in MovieMap(ms) && MovieMap(ms)[key] == MovieMap(ms[..|ms| - 1])[key]
  {
  }

  lemma DistinctPrefix(ms: seq<Movie>, n: nat)
    requires DistinctTmdbIds(ms) && n <= |ms|
    ensures DistinctTmdbIds(ms[..n])
  {
    var init := ms[..n];
    forall a, b | 0 <= a < b < |init| ensures init[a].tmdbId != init[b].tmdbId {
      assert init[a] == ms[a] && init[b] == ms[b];
    }
  }

  /** The keeping test of `compactMap { map[$0] }`. */
  function InSet(keys: set<int>): int -> bool {
    k => k in keys
  }

  /** `ids.compactMap { map[$0] }`: the mapped movies of the ids present, in id order. */
  function Hydrate(ids: seq<int>, mm: map<int, Movie>): seq<Movie> {
    if ids == [] then []
    else Hydrate(ids[..|ids| - 1], mm) + (if ids[|ids| - 1] in mm then [mm[ids[|ids| - 1]]] else [])
  }

  /** Hydration maps, in order, exactly the positions whose id the map knows. */
  lemma {:induction false} HydrateSpec(ids: seq<int>, mm: map<int, Movie>)
    ensures |Hydrate(ids, mm)| == |Kept(ids, InSet(mm.Keys))|
    ensures forall j :: 0 <= j < |Hydrate(ids, mm)| ==>
              ids[Kept(ids, InSet(mm.Keys))[j]] in mm && Hydrate(ids, mm)[j] == mm[ids[Kept(ids, InSet(mm.Keys))[j]]]
    decreases |ids|
  {
    if ids != [] {
      var n := |ids| - 1;
      var init := ids[..n];
      HydrateSpec(init, mm);
      KeptSnoc(init, ids[n], InSet(mm.Keys));
      assert init + [ids[n]] == ids;
      assert forall k :: 0 <= k < |Kept(init, InSet(mm.Keys))| ==>
               init[Kept(init, InSet(mm.Keys))[k]] == ids[Kept(init, InSet(mm.Keys))[k]];
    }
  }

  /** Hydration keeps an id exactly when the map knows it. */
  lemma HydrateKeeps(ids: seq<int>, mm: map<int, Movie>, i: int)
    requires 0 <= i < |ids|
    ensures i in Kept(ids, InSet(mm.Keys)) <==> ids[i] in mm
  {
    KeptExactly(ids, InSet(mm.Keys), i);
  }

  /** Every id named by the profile's five lists. */
  function ProfileIds(d: UserDataDto): set<int> {
    (set x | x in d.watchlist) + (set x | x in d.history) + (set x | x in d.liked)
      + (set x | x in d.disliked) + (set x | x in d.neutral)
  }

  /** How many local ids a profile load takes: one per record of the movie lookup, when there is one. */
  function HydrationIds(p: Result<UserProfileDto, Thrown>, m: Result<seq<MovieDto>, Thrown>): nat {
    if p.Success? && ProfileIds(p.value.data) != {} && m.Success? then |m.value| else 0
  }

  /**
   * The calls of a profile load: the profile request when its URL builds and,
   * once the profile arrived naming any movies, the lookup of those movies.
   */
  function HydrationCalls(user: string, urlOk: bool, p: Result<UserProfileDto, Thrown>): seq<Call> {
    (if urlOk then [ProfileCall(user)] else [])
    + (if p.Success? && ProfileIds(p.value.data) != {} then [MoviesCall(ProfileIds(p.value.data))] else [])
  }

  lemma HydrationSendsNoMutation(calls: seq<Call>, user: string, urlOk: bool, p: Result<UserProfileDto, Thrown>)
    ensures Mutations(calls + HydrationCalls(user, urlOk, p)) == Mutations(calls)
  {
    var c1: seq<Call> := if urlOk then [ProfileCall(user)] else [];
    var c2: seq<Call> := if p.Success? && ProfileIds(p.value.data) != {} then [MoviesCall(ProfileIds(p.value.data))] else [];
    var mid := calls + c1;
    assert Mutations(mid) == Mutations(calls) by {
      if urlOk {
        MutationsSnoc(calls, ProfileCall(user));
      } else {
        assert mid == calls;
      }
    }
    assert Mutations(mid + c2) == Mutations(mid) by {
      if c2 != [] {
        MutationsSnoc(mid, c2[0]);
      } else {
        assert mid + c2 == mid;
      }
    }
    assert calls + HydrationCalls(user, urlOk, p) == mid + c2;
  }

  /** The movie lookup answers without two usable records for one backend id. */
  predicate NoDuplicateKeys(x: Exchange<seq<MovieDto>>) {
    x.Responded? && x.body.Some? ==>
      forall i, j :: 0 <= i < j < |x.body.value| && HasBackdrop(x.body.value[i]) && HasBackdrop(x.body.value[j])
        ==> TmdbIdOf(x.body.value[i]) != TmdbIdOf(x.body.value[j])
  }

  lemma ConvertedDistinct(ds: seq<MovieDto>, fallback: string, first: nat, now: Stamp)
    requires NoDuplicateKeys(Responded(None, Some(ds)))
    ensures DistinctTmdbIds(ConvertDtos(ds, fallback, first, now))
  {
    var r := ConvertDtos(ds, fallback, first, now);
    var kept := Kept(ds, HasBackdrop);
    forall a, b | 0 <= a < b < |r| ensures r[a].tmdbId != r[b].tmdbId {
      assert ConvertedAt(r, ds, fallback, first, now, a) && ConvertedAt(r, ds, fallback, first, now, b);
      assert kept[a] < kept[b];
    }
  }

  /** A list of the members of a set, each once. */
  predicate IsListing(ids: seq<int>, s: set<int>) {
    (forall i, j :: 0 <= i < j < |ids| ==> ids[i] != ids[j])
    && (forall x :: x in ids ==> x in s) && (forall x :: x in s ==> x in ids)
  }

  /** `Array(set)`: the members in an unspecified order. */
  method ListSet(s: set<int>) returns (ids: seq<int>)
    ensures IsListing(ids, s)
  {
    ids := [];
    var rest := s;
    while rest != {}
      invariant rest <= s
      invariant forall i, j :: 0 <= i < j < |ids| ==> ids[i] != ids[j]
      invariant forall x :: x in ids ==> x in s && x !in rest
      invariant forall x :: x in s ==> x in ids || x in rest
      decreases |rest|
    {
      NonEmpty(rest);
      var y :| y in rest;
      ids := ids + [y];
      rest := rest - {y};
    }
  }

  /** `history.append` guarded by `contains`: the entry is added unless its local id is present. */
  function AddOnce(xs: seq<Movie>, m: Movie): seq<Movie> {
    if HasId(xs, m.id) then xs else xs + [m]
  }

  /** A rating list after a rating: every entry with the id removed, the movie appended if chosen. */
  function Refile(xs: seq<Movie>, m: Movie, chosen: bool): seq<Movie> {
    RemoveId(xs, m.id) + (if chosen then [m] else [])
  }

  /** After `AddOnce` the id is present, and a list without repeated ids keeps none. */
  lemma AddOnceAdds(xs: seq<Movie>, m: Movie)
    ensures HasId(AddOnce(xs, m), m.id)
    ensures UniqueIds(xs) ==> UniqueIds(AddOnce(xs, m))
    ensures CountId(xs, m.id) <= 1 ==> CountId(AddOnce(xs, m), m.id) == 1
  {
    if !HasId(xs, m.id) {
      if UniqueIds(xs) {
        AppendFreshKeepsUnique(xs, m);
      }
      HasIdIffCount(xs, m.id);
      CountIdAppend(xs, [m], m.id);
      assert (xs + [m])[|xs|] == m;
    } else {
      HasIdIffCount(xs, m.id);
    }
  }

  /** After a rating the id is in the chosen list exactly once and in the others not at all. */
  lemma RefileOnce(xs: seq<Movie>, m: Movie, chosen: bool)
    ensures CountId(Refile(xs, m, chosen), m.id) == (if chosen then 1 else 0)
  {
    RemoveIdRemovesAll(xs, m.id);
    if chosen {
      RemoveThenAppendOnce(xs, m);
    } else {
      assert Refile(xs, m, chosen) == RemoveId(xs, m.id);
    }
  }

  /** A set that is not empty has a member. */
  lemma NonEmpty(s: set<int>)
    requires s != {}
    ensures exists y :: y in s
  {
    if forall y :: y !in s {
      assert false;
    }
  }

  // ---------------------------------------------------------------- the state object

  class UserState {
    var history: seq<Movie>
    var watchlist: seq<Movie>
    var genres: seq<string>
    var recommendations: seq<Movie>
    var personas: seq<Persona>
    var likedMovies: seq<Movie>
    var neutralMovies: seq<Movie>
    var dislikedMovies: seq<Movie>
    /** Movies the user has scrolled past in this session. */
    var shownCount: nat
    /** The buffer; `recommendations` is a prefix of it. */
    var allFetchedMovies: seq<Movie>
    var currentUserId: string
    /** Ratings confirmed by the backend in this session. */
    var ratingSessionCount: nat
    /** Backend ids shown but not yet queued for syncing. */
    var shownMovieIds: set<int>
    var isLoading: bool
    var isProcessingQueue: bool
    const pendingActions: PendingActionsQueue
    /** How genre tokens are trimmed: Swift's `.whitespaces` trim, fixed at construction. */
    const trim: string -> string


    /** The genre list is the ascending list of the liked movies' genre names. */
    predicate GenresFresh()
      reads this`genres, this`likedMovies
    {
      IsSortedListOf(genres, LikedGenres(likedMovies, trim))
    }

    /** The window is a prefix of the buffer. */
    predicate Valid()
      reads this
    {
      recommendations <= allFetchedMovies
    }

    /** No local id sits in two rating lists. */
    predicate RatingsExclusive()
      reads this
    {
      DisjointIds(likedMovies, neutralMovies) && DisjointIds(likedMovies, dislikedMovies)
      && DisjointIds(neutralMovies, dislikedMovies)
    }

    /** The movie is in the rating list matching `rating` exactly once and in the other two not at all. */
    predicate RatedOnce(id: Uuid, rating: UserRating)
      reads this
    {
      && CountId(likedMovies, id) == (if rating == Like then 1 else 0)
      && CountId(neutralMovies, id) == (if rating == Neutral then 1 else 0)
      && CountId(dislikedMovies, id) == (if rating == Dislike then 1 else 0)
    }

    twostate predicate ListsUnchanged()
      reads this
    {
      history == old(history) && watchlist == old(watchlist) && genres == old(genres)
      && likedMovies == old(likedMovies) && neutralMovies == old(neutralMovies)
      && dislikedMovies == old(dislikedMovies)
    }

    twostate predicate FeedUnchanged()
      reads this
    {
      recommendations == old(recommendations) && allFetchedMovies == old(allFetchedMovies)
    }

    twostate predicate SessionUnchanged()
      reads this
    {
      personas == old(personas) && currentUserId == old(currentUserId)
      && ratingSessionCount == old(ratingSessionCount) && isLoading == old(isLoading)
      && isProcessingQueue == old(isProcessingQueue)
    }

    /** The session facts a drain keeps (the rating count is the one it moves). */
    twostate predicate SessionKept()
      reads this
    {
      personas == old(personas) && currentUserId == old(currentUserId)
      && isLoading == old(isLoading) && isProcessingQueue == old(isProcessingQueue)
    }

    twostate predicate ShownUnchanged()
      reads this
    {
      shownMovieIds == old(shownMovieIds) && shownCount == old(shownCount)
    }

    /** A new state for the stored user id; loading the profile is the next step. */
    constructor (storedUserId: string)
      ensures Valid() && GenresFresh()
      ensures fresh(pendingActions) && pendingActions.actions == [] && trim == SwiftTrim
      ensures currentUserId == storedUserId
      ensures history == [] && watchlist == [] && genres == [] && recommendations == []
      ensures likedMovies == [] && neutralMovies == [] && dislikedMovies == [] && personas == []
      ensures allFetchedMovies == [] && shownMovieIds == {} && shownCount == 0
      ensures ratingSessionCount == 0 && !isLoading && !isProcessingQueue
    {
      history := [];
      watchlist := [];
      genres := [];
      recommendations := [];
      personas := [];
      likedMovies := [];
      neutralMovies := [];
      dislikedMovies := [];
      shownCount := 0;
      allFetchedMovies := [];
      currentUserId := storedUserId;
      ratingSessionCount := 0;
      shownMovieIds := {};
      isLoading := false;
      isProcessingQueue := false;
      pendingActions := new PendingActionsQueue();
      trim := SwiftTrim;
      new;
      SortedListUnique([], [], {});
    }

    /** The size of the visible window. */
    function QueueCount(): (n: nat)
      reads this
      ensures n == |recommendations|
    {
      |recommendations|
    }

    /** How many buffered movies are not yet in the window. */
    function BufferCount(): (n: nat)
      reads this
      ensures n == Max(0, |allFetchedMovies| - |recommendations|)
    {
      if |allFetchedMovies| > |recommendations| then |allFetchedMovies| - |recommendations| else 0
    }

    /** Window and buffer remainder together account for the whole buffer. */
    lemma CountsAddUp()
      requires Valid()
      ensures QueueCount() + BufferCount() == |allFetchedMovies|
    {
    }

    // ------------------------------------------------------------ watchlist

    /** Adds the movie to the watchlist unless an entry with its local id exists, and queues the add. */
    method AddToWatchlist(movie: Movie, now: Stamp)
      requires Valid()
      modifies this, pendingActions
      ensures Valid()
      ensures watchlist == AddOnce(old(watchlist), movie.(dateAdded := now))
      ensures HasId(watchlist, movie.id) && (UniqueIds(old(watchlist)) ==> UniqueIds(watchlist))
      ensures pendingActions.actions == old(pendingActions.actions) + [WatchlistAdd(movie.tmdbId, movie.title)]
      ensures history == old(history) && genres == old(genres) && likedMovies == old(likedMovies)
      ensures neutralMovies == old(neutralMovies) && dislikedMovies == old(dislikedMovies)
      ensures FeedUnchanged() && SessionUnchanged() && ShownUnchanged()
    {
      AddOnceAdds(watchlist, movie.(dateAdded := now));
      watchlist := AddOnce(watchlist, movie.(dateAdded := now));
      pendingActions.Enqueue(WatchlistAdd(movie.tmdbId, movie.title));
    }

    /** Removes every entry with the movie's local id, and queues the removal. */
    method RemoveFromWatchlist(movie: Movie)
      requires Valid()
      modifies this, pendingActions
      ensures Valid()
      ensures watchlist == RemoveId(old(watchlist), movie.id)
      ensures !HasId(watchlist, movie.id)
      ensures pendingActions.actions == old(pendingActions.actions) + [WatchlistRemove(movie.tmdbId, movie.title)]
      ensures history == old(history) && genres == old(genres) && likedMovies == old(likedMovies)
      ensures neutralMovies == old(neutralMovies) && dislikedMovies == old(dislikedMovies)
      ensures FeedUnchanged() && SessionUnchanged() && ShownUnchanged()
    {
      RemoveIdRemovesAll(watchlist, movie.id);
      watchlist := RemoveId(watchlist, movie.id);
      pendingActions.Enqueue(WatchlistRemove(movie.tmdbId, movie.title));
    }

    // ------------------------------------------------------------ rating and history

    /** Recomputes the genre list from the liked movies. */
    method RebuildGenres()
      modifies this
      ensures GenresFresh()
      ensures history == old(history) && watchlist == old(watchlist) && likedMovies == old(likedMovies)
      ensures neutralMovies == old(neutralMovies) && dislikedMovies == old(dislikedMovies)
      ensures FeedUnchanged() && SessionUnchanged() && ShownUnchanged()
    {
      var names := CollectGenres(likedMovies, trim);
      genres := SortNames(names);
    }

    /**
     * Records a rating: the movie enters history unless its local id is there,
     * moves to the one rating list matching `rating` (appended last), and a
     * rating action is queued.
     */
    method AddToHistory(movie: Movie, rating: UserRating, now: Stamp)
      requires Valid()
      modifies this, pendingActions
      ensures Valid()
      ensures GenresFresh()
      ensures history == AddOnce(old(history), movie.(dateWatched := Some(now)))
      ensures likedMovies == Refile(old(likedMovies), movie, rating == Like)
      ensures neutralMovies == Refile(old(neutralMovies), movie, rating == Neutral)
      ensures dislikedMovies == Refile(old(dislikedMovies), movie, rating == Dislike)
      ensures pendingActions.actions == old(pendingActions.actions) + [Rate(movie.tmdbId, ApiString(rating), movie.title)]
      ensures RatedOnce(movie.id, rating)
      ensures old(RatingsExclusive()) ==> RatingsExclusive()
      ensures UniqueIds(old(history)) ==> UniqueIds(history)
      ensures watchlist == old(watchlist)
      ensures FeedUnchanged() && SessionUnchanged() && ShownUnchanged()
    {
      AddOnceAdds(history, movie.(dateWatched := Some(now)));
      RefileOnce(likedMovies, movie, rating == Like);
      RefileOnce(neutralMovies, movie, rating == Neutral);
      RefileOnce(dislikedMovies, movie, rating == Dislike);
      if RatingsExclusive() {
        ExclusiveAfterRating(likedMovies, neutralMovies, dislikedMovies, movie, rating);
      }
      FileRating(movie, rating, now);
      RebuildGenres();
      pendingActions.Enqueue(Rate(movie.tmdbId, ApiString(rating), movie.title));
    }

    /** The list updates of `AddToHistory`, before the genres are rebuilt. */
    method FileRating(movie: Movie, rating: UserRating, now: Stamp)
      modifies this
      ensures history == AddOnce(old(history), movie.(dateWatched := Some(now)))
      ensures likedMovies == Refile(old(likedMovies), movie, rating == Like)
      ensures neutralMovies == Refile(old(neutralMovies), movie, rating == Neutral)
      ensures dislikedMovies == Refile(old(dislikedMovies), movie, rating == Dislike)
      ensures watchlist == old(watchlist) && genres == old(genres)
      ensures FeedUnchanged() && SessionUnchanged() && ShownUnchanged()
    {
      history := AddOnce(history, movie.(dateWatched := Some(now)));
      likedMovies := Refile(likedMovies, movie, rating == Like);
      neutralMovies := Refile(neutralMovies, movie, rating == Neutral);
      dislikedMovies := Refile(dislikedMovies, movie, rating == Dislike);
    }

    /** Removes every entry with the movie's local id from history and the rating lists. */
    method RemoveFromHistory(movie: Movie)
      requires Valid()
      modifies this
      ensures Valid()
      ensures GenresFresh()
      ensures history == RemoveId(old(history), movie.id)
      ensures likedMovies == RemoveId(old(likedMovies), movie.id)
      ensures neutralMovies == RemoveId(old(neutralMovies), movie.id)
      ensures dislikedMovies == RemoveId(old(dislikedMovies), movie.id)
      ensures !HasId(history, movie.id) && !HasId(likedMovies, movie.id)
      ensures !HasId(neutralMovies, movie.id) && !HasId(dislikedMovies, movie.id)
      ensures old(RatingsExclusive()) ==> RatingsExclusive()
      ensures watchlist == old(watchlist)
      ensures FeedUnchanged() && SessionUnchanged() && ShownUnchanged()
    {
      RemoveIdRemovesAll(history, movie.id);
      RemoveIdRemovesAll(likedMovies, movie.id);
      RemoveIdRemovesAll(neutralMovies, movie.id);
      RemoveIdRemovesAll(dislikedMovies, movie.id);
      if RatingsExclusive() {
        ExclusiveAfterRemoval(likedMovies, neutralMovies, dislikedMovies, movie.id);
      }
      RemoveEverywhere(movie.id);
      RebuildGenres();
    }

    /** The list updates of `RemoveFromHistory`, before the genres are rebuilt. */
    method RemoveEverywhere(id: Uuid)
      modifies this
      ensures history == RemoveId(old(history), id)
      ensures likedMovies == RemoveId(old(likedMovies), id)
      ensures neutralMovies == RemoveId(old(neutralMovies), id)
      ensures dislikedMovies == RemoveId(old(dislikedMovies), id)
      ensures watchlist == old(watchlist) && genres == old(genres)
      ensures FeedUnchanged() && SessionUnchanged() && ShownUnchanged()
    {
      history := RemoveId(history, id);
      likedMovies := RemoveId(likedMovies, id);
      neutralMovies := RemoveId(neutralMovies, id);
      dislikedMovies := RemoveId(dislikedMovies, id);
    }

    // ------------------------------------------------------------ the shown set

    /** Queues a sync of every shown id and empties the set; nothing is queued when it is empty. */
    method FlushShownMovies() returns (ids: seq<int>)
      modifies this, pendingActions
      ensures IsListing(ids, old(shownMovieIds))
      ensures ids == [] ==> pendingActions.actions == old(pendingActions.actions)
      ensures ids != [] ==> pendingActions.actions == old(pendingActions.actions) + [SyncShown(ids)]
      ensures shownMovieIds == {} && shownCount == old(shownCount)
      ensures ListsUnchanged() && FeedUnchanged() && SessionUnchanged()
    {
      ids := ListSet(shownMovieIds);
      if ids == [] {
        assert forall x :: x !in shownMovieIds;
        return;
      }
      shownMovieIds := {};
      pendingActions.Enqueue(SyncShown(ids));
    }

    /**
     * Tracks a movie as shown. A first sighting counts once; when the set reaches
     * three ids it is flushed into one sync action.
     */
    method MarkAsShown(movie: Movie)
      requires Valid()
      modifies this, pendingActions
      ensures Valid()
      ensures movie.tmdbId in old(shownMovieIds) ==>
                ShownUnchanged() && pendingActions.actions == old(pendingActions.actions)
      ensures movie.tmdbId !in old(shownMovieIds) ==>
                shownCount == old(shownCount) + 1 &&
                (|old(shownMovieIds)| + 1 < SHOWN_FLUSH_SIZE ==>
                   shownMovieIds == old(shownMovieIds) + {movie.tmdbId} &&
                   pendingActions.actions == old(pendingActions.actions)) &&
                (|old(shownMovieIds)| + 1 >= SHOWN_FLUSH_SIZE ==>
                   shownMovieIds == {} &&
                   |pendingActions.actions| == |old(pendingActions.actions)| + 1 &&
                   pendingActions.actions[..|old(pendingActions.actions)|] == old(pendingActions.actions) &&
                   var last := pendingActions.actions[|old(pendingActions.actions)|];
                   last.SyncShown? && IsListing(last.movieIds, old(shownMovieIds) + {movie.tmdbId}))
      ensures ListsUnchanged() && FeedUnchanged() && SessionUnchanged()
    {
      if movie.tmdbId !in shownMovieIds {
        shownMovieIds := shownMovieIds + {movie.tmdbId};
        shownCount := shownCount + 1;
        if |shownMovieIds| >= SHOWN_FLUSH_SIZE {
          ghost var before := pendingActions.actions;
          var ids := FlushShownMovies();
          assert movie.tmdbId in ids;
          assert pendingActions.actions == before + [SyncShown(ids)];
        }
      }
    }

    // ------------------------------------------------------------ recommendations

    /**
     * Pages from the buffer into the window, and reports whether the buffer is
     * running low (fewer than 15 movies beyond the window), in which case the
     * client starts a background refill.
     */
    method LoadMoreMovies() returns (refillRequested: bool)
      requires Valid()
      modifies this
      ensures Valid()
      ensures refillRequested <==> |allFetchedMovies| - |old(recommendations)| < REFILL_THRESHOLD
      ensures recommendations == Page(old(recommendations), allFetchedMovies)
      ensures allFetchedMovies == old(allFetchedMovies)
      ensures ListsUnchanged() && SessionUnchanged() && ShownUnchanged()
    {
      var currentCount := |recommendations|;
      refillRequested := |allFetchedMovies| - currentCount < REFILL_THRESHOLD;
      PageKeepsPrefix(recommendations, allFetchedMovies);
      if currentCount >= |allFetchedMovies| {
        return;
      }
      var remaining := |allFetchedMovies| - currentCount;
      var batchSize := Min(PAGE_SIZE, remaining);
      recommendations := recommendations + allFetchedMovies[currentCount..currentCount + batchSize];
    }

    function View(): FeedView
      reads this
    {
      FeedView(recommendations, allFetchedMovies)
    }

    /** The backend ids a refill must not bring in again. */
    function Known(): set<int>
      reads this
    {
      KnownIds(history, watchlist, recommendations, shownMovieIds)
    }

    /** The part of the client and the world a recommendation fetch works on. */
    function Fetching(world: World): FeedState
      reads this, world
    {
      FeedState(View(), world.recommendationReplies, world.nextId)
    }

    /** The state update once a fetch has answered with `got`. */
    method ApplyFetch(isLiveRefill: bool, got: Result<seq<Movie>, Thrown>) returns (refillRequested: bool)
      requires Valid()
      modifies this
      ensures Valid()
      ensures View() == AfterFetch(isLiveRefill, got, old(Known()), old(View()))
      ensures refillRequested == RefillDue(isLiveRefill, got, old(Known()), old(View()))
      ensures ListsUnchanged() && SessionUnchanged() && ShownUnchanged()
    {
      refillRequested := false;
      if got.Success? {
        var fetchedMovies := got.value;
        if isLiveRefill {
          var existingIds := KnownIds(history, watchlist, recommendations, shownMovieIds);
          var newUniqueMovies := WithoutKnown(fetchedMovies, existingIds);
          if newUniqueMovies != [] {
            allFetchedMovies := allFetchedMovies + newUniqueMovies;
            refillRequested := LoadMoreMovies();
          }
        } else {
          allFetchedMovies := fetchedMovies;
          recommendations := Prefix(fetchedMovies, PAGE_SIZE);
        }
      }
    }

    /**
     * Fetches recommendations unless a fetch is already running; the outcome is
     * `Fetched` of the answer, avoiding the ids known when the fetch started.
     */
    method FetchRecommendations(isLiveRefill: bool, world: World) returns (refillRequested: bool)
      requires Valid()
      modifies this, world
      ensures Valid()
      ensures ListsUnchanged() && SessionUnchanged() && ShownUnchanged()
      ensures Fetching(world)
              == Fetched(isLiveRefill, old(isLoading), currentUserId !in world.unencodable, old(Known()), old(Fetching(world)), world.now)
      ensures var got := ReceiveMovies(currentUserId !in world.unencodable, ReplyAt(old(world.recommendationReplies), 0),
                                       old(world.nextId), world.now);
        refillRequested == (!old(isLoading) && RefillDue(isLiveRefill, got, old(Known()), old(View())))
      ensures world.calls == old(world.calls)
                + (if !old(isLoading) && currentUserId !in world.unencodable then [RecommendationsCall(currentUserId)] else [])
      ensures Mutations(world.calls) == Mutations(old(world.calls))
      ensures OtherScriptsKept(world)
    {
      if isLoading {
        return false;
      }
      ghost var known := Known();
      ghost var before := Fetching(world);
      isLoading := true;
      var got := world.GetRecommendations(currentUserId);
      MutationsSnoc(old(world.calls), RecommendationsCall(currentUserId));
      refillRequested := ApplyFetch(isLiveRefill, got);
      isLoading := false;
      FetchedAnswer(isLiveRefill, currentUserId !in world.unencodable, known, before, world.now, Fetching(world));
    }

    /** The background refill task: flush the shown set if non-empty, then refill. */
    method BackgroundRefill(world: World) returns (refillRequested: bool)
      requires Valid()
      modifies this, pendingActions, world
      ensures Valid()
      ensures ListsUnchanged() && SessionUnchanged()
      ensures shownMovieIds == {} && shownCount == old(shownCount)
      ensures old(shownMovieIds) == {} ==> pendingActions.actions == old(pendingActions.actions)
      ensures old(shownMovieIds) != {} ==>
                |pendingActions.actions| == |old(pendingActions.actions)| + 1
                && pendingActions.actions[..|old(pendingActions.actions)|] == old(pendingActions.actions)
                && pendingActions.actions[|old(pendingActions.actions)|].SyncShown?
                && IsListing(pendingActions.actions[|old(pendingActions.actions)|].movieIds, old(shownMovieIds))
      ensures Fetching(world)
              == Fetched(true, old(isLoading), currentUserId !in world.unencodable,
                         KnownIds(old(history), old(watchlist), old(recommendations), {}), old(Fetching(world)), world.now)
      ensures var got := ReceiveMovies(currentUserId !in world.unencodable, ReplyAt(old(world.recommendationReplies), 0),
                                       old(world.nextId), world.now);
        refillRequested
        == (!old(isLoading) && RefillDue(true, got, KnownIds(old(history), old(watchlist), old(recommendations), {}), old(View())))
      ensures world.calls == old(world.calls)
                + (if !old(isLoading) && currentUserId !in world.unencodable then [RecommendationsCall(currentUserId)] else [])
      ensures Mutations(world.calls) == Mutations(old(world.calls))
      ensures OtherScriptsKept(world)
    {
      if shownMovieIds != {} {
        ghost var before := pendingActions.actions;
        ghost var shown := shownMovieIds;
        var ids := FlushShownMovies();
        assert ids != [] by {
          NonEmpty(shown);
          var y :| y in shown;
          assert y in ids;
        }
        assert pendingActions.actions == before + [SyncShown(ids)];
      }
      refillRequested := FetchRecommendations(true, world);
    }

    // ------------------------------------------------------------ the retry queue

    /**
     * What follows a confirmed call: a rating raises the session count, every
     * third one triggers a refill, and the head is dropped from the queue.
     */
    method Confirm(action: PendingAction, world: World) returns (refilled: bool, refillRequested: bool)
      requires Valid() && pendingActions.actions != []
      modifies this, pendingActions, world
      ensures Valid() && ListsUnchanged() && ShownUnchanged() && SessionKept()
      ensures pendingActions.actions == old(pendingActions.actions)[1..]
      ensures ratingSessionCount == old(ratingSessionCount) + (if action.Rate? then 1 else 0)
      ensures refilled == (action.Rate? && ratingSessionCount % REFILLS_EVERY == 0)
      ensures !refilled ==> !refillRequested
      ensures refilled ==>
                refillRequested
                == (!isLoading
                    && RefillDue(true, ReceiveMovies(currentUserId !in world.unencodable, ReplyAt(old(world.recommendationReplies), 0),
                                                     old(world.nextId), world.now), old(Known()), old(View())))
      ensures var urlOk := currentUserId !in world.unencodable;
        && Fetching(world)
           == (if refilled then Fetched(true, isLoading, urlOk, old(Known()), old(Fetching(world)), world.now)
               else old(Fetching(world)))
        && world.calls == old(world.calls) + RefillCalls(currentUserId, action, ratingSessionCount, !isLoading && urlOk)
      ensures Mutations(world.calls) == Mutations(old(world.calls))
      ensures OtherScriptsKept(world)
    {
      refilled, refillRequested := false, false;
      if action.Rate? {
        ratingSessionCount := ratingSessionCount + 1;
        if ratingSessionCount % REFILLS_EVERY == 0 {
          refilled := true;
          refillRequested := FetchRecommendations(true, world);
        }
      }
      pendingActions.RemoveFirst();
    }

    /**
     * Drains the retry queue in order. Each head is retried and removed only once
     * its call succeeds; the first failure stops the drain and leaves that action
     * at the head. A confirmed rating raises the session count, and every third
     * one triggers a refill. Returns how many actions were confirmed, whether a
     * failure stopped the drain, and how many refills were triggered.
     */
    method ProcessPendingActions(world: World)
      returns (confirmed: nat, failed: bool, refills: nat, refillRequested: bool)
      requires Valid()
      modifies this, pendingActions, world
      ensures Valid()
      ensures ListsUnchanged() && ShownUnchanged() && currentUserId == old(currentUserId)
      ensures personas == old(personas) && isLoading == old(isLoading)
      ensures isProcessingQueue == old(isProcessingQueue)
      ensures old(isProcessingQueue) ==>
                confirmed == 0 && !failed && refills == 0 && !refillRequested
                && FeedUnchanged() && ratingSessionCount == old(ratingSessionCount)
                && pendingActions.actions == old(pendingActions.actions) && world.calls == old(world.calls)
      ensures !old(isProcessingQueue) ==>
                DrainDone(world, old(pendingActions.actions), old(world.mutationReplies), old(world.calls),
                          old(ratingSessionCount), confirmed, failed, refills)
                && Logged(world, old(pendingActions.actions), old(world.calls), old(Fetching(world)), old(ratingSessionCount),
                          confirmed, failed, refills)
                && refillRequested
                   == RunAsks(old(Fetching(world)), history, watchlist, shownMovieIds, isLoading,
                              currentUserId !in world.unencodable, world.now, refills)
    {
      confirmed, failed, refills, refillRequested := 0, false, 0, false;
      if isProcessingQueue {
        return;
      }
      var empty := pendingActions.IsEmpty();
      if empty {
        return;
      }
      isProcessingQueue := true;
      confirmed, failed, refills, refillRequested := Drain(world);
      isProcessingQueue := false;
    }

    /**
     * The drain so far: the first `confirmed` actions of `q` went through in
     * order and are gone from the queue, each used one reply and added its call
     * to the mutation log, the session count rose by the confirmed ratings and
     * `refills` is the number of multiples of three it crossed.
     */
    predicate Progress(world: World, q: seq<PendingAction>, replies: seq<Exchange<()>>, log: seq<Call>,
                       count0: nat, confirmed: nat, refills: nat)
      reads this, pendingActions, world
    {
      && confirmed <= |q|
      && pendingActions.actions == q[confirmed..]
      && (forall k :: 0 <= k < confirmed ==> Send(currentUserId !in world.unencodable, ReplyAt(replies, k)).Success?)
      && world.mutationReplies == Drop(replies, confirmed)
      && ratingSessionCount == count0 + CountRates(q[..confirmed])
      && refills == RefillsDue(count0, ratingSessionCount)
    }

    /**
     * The log and the feed of a drain that confirmed the first `confirmed`
     * actions of `q`: every call in order, each rating's refill fetch among
     * them, and the feed after that many refills from `s0`. `stopped` says
     * that the next action was attempted and failed; its call is then logged
     * too when its URL builds.
     */
    predicate Logged(world: World, q: seq<PendingAction>, log: seq<Call>, s0: FeedState, count0: nat,
                     confirmed: nat, stopped: bool, refills: nat)
      reads this, world
    {
      DrainRecord(world.calls, Fetching(world), currentUserId, isLoading, currentUserId !in world.unencodable,
                  history, watchlist, shownMovieIds, world.now, q, log, s0, count0, confirmed, stopped, refills)
    }

    /**
     * How a drain of `q` ended: either every action went through, or the
     * action at `confirmed` failed and it and everything behind it are still
     * queued. A failed action whose URL could be built used one more reply
     * and left its call in the log.
     */
    predicate DrainDone(world: World, q: seq<PendingAction>, replies: seq<Exchange<()>>, log: seq<Call>,
                        count0: nat, confirmed: nat, failed: bool, refills: nat)
      reads this, pendingActions, world
    {
      var urlOk := currentUserId !in world.unencodable;
      var attempted := if failed && urlOk then confirmed + 1 else confirmed;
      && confirmed <= |q|
      && pendingActions.actions == q[confirmed..]
      && (failed <==> confirmed < |q|)
      && (forall k :: 0 <= k < confirmed ==> Send(urlOk, ReplyAt(replies, k)).Success?)
      && (failed ==> Send(urlOk, ReplyAt(replies, confirmed)).Failure?)
      && world.mutationReplies == Drop(replies, attempted)
      && ratingSessionCount == count0 + CountRates(q[..confirmed])
      && refills == RefillsDue(count0, ratingSessionCount)
    }

    /** The loop of the drain, run with the processing flag already raised. */
    method Drain(world: World) returns (confirmed: nat, failed: bool, refills: nat, refillRequested: bool)
      requires Valid()
      modifies this, pendingActions, world
      ensures Valid() && ListsUnchanged() && ShownUnchanged() && SessionKept()
      ensures DrainDone(world, old(pendingActions.actions), old(world.mutationReplies), old(world.calls),
                        old(ratingSessionCount), confirmed, failed, refills)
      ensures Logged(world, old(pendingActions.actions), old(world.calls), old(Fetching(world)), old(ratingSessionCount),
                     confirmed, failed, refills)
      ensures refillRequested
              == RunAsks(old(Fetching(world)), history, watchlist, shownMovieIds, isLoading, currentUserId !in world.unencodable,
                         world.now, refills)
    {
      confirmed, failed, refills, refillRequested := 0, false, 0, false;
      ghost var q := pendingActions.actions;
      ghost var replies := world.mutationReplies;
      ghost var log := world.calls;
      ghost var count0 := ratingSessionCount;
      ghost var s0 := Fetching(world);
      RecordStart(currentUserId, isLoading, currentUserId !in world.unencodable, history, watchlist, shownMovieIds, world.now,
                  q, log, s0, count0);
      while true
        invariant Valid() && ListsUnchanged() && ShownUnchanged() && SessionKept()
        invariant world.unencodable == old(world.unencodable) && world.now == old(world.now)
        invariant Progress(world, q, replies, log, count0, confirmed, refills)
        invariant Logged(world, q, log, s0, count0, confirmed, false, refills)
        invariant refillRequested
                  == RunAsks(s0, history, watchlist, shownMovieIds, isLoading, currentUserId !in world.unencodable, world.now, refills)
        decreases |q| - confirmed
      {
        var head := pendingActions.Peek();
        if head.None? {
          break;
        }
        var ok, refilled, more := Step(head.value, world, q, replies, log, s0, count0, confirmed, refills);
        if !ok {
          failed := true;
          return;
        }
        RunAsksSnoc(s0, history, watchlist, shownMovieIds, isLoading, currentUserId !in world.unencodable, world.now, refills);
        confirmed, refills, refillRequested := confirmed + 1, refills + (if refilled then 1 else 0), refillRequested || more;
      }
    }

    /** One turn of the drain: retries the head and carries the progress one action further. */
    method Step(action: PendingAction, world: World, ghost q: seq<PendingAction>, ghost replies: seq<Exchange<()>>,
                ghost log: seq<Call>, ghost s0: FeedState, ghost count0: nat, confirmed: nat, refills: nat)
      returns (ok: bool, refilled: bool, refillRequested: bool)
      requires Valid() && Progress(world, q, replies, log, count0, confirmed, refills)
      requires Logged(world, q, log, s0, count0, confirmed, false, refills)
      requires confirmed < |q| && action == q[confirmed]
      modifies this, pendingActions, world
      ensures Valid() && ListsUnchanged() && ShownUnchanged() && SessionKept()
      ensures world.unencodable == old(world.unencodable) && world.now == old(world.now)
      ensures ok ==> Progress(world, q, replies, log, count0, confirmed + 1, refills + if refilled then 1 else 0)
      ensures ok ==> Logged(world, q, log, s0, count0, confirmed + 1, false, refills + if refilled then 1 else 0)
      ensures !ok ==> DrainDone(world, q, replies, log, count0, confirmed, true, refills)
      ensures !ok ==> Logged(world, q, log, s0, count0, confirmed, true, refills)
      ensures refillRequested
              == (ok && refilled && RefillAsks(s0, history, watchlist, shownMovieIds, isLoading,
                                               currentUserId !in world.unencodable, world.now, refills))
    {
      refilled, refillRequested := false, false;
      ghost var calls := world.calls;
      ok := Attempt(action, world, replies, confirmed);
      RecordAttempt(calls, world.calls, Fetching(world), currentUserId, isLoading, currentUserId !in world.unencodable,
                    history, watchlist, shownMovieIds, world.now, q, log, s0, count0, confirmed, refills);
      if !ok {
        return;
      }
      refilled, refillRequested := Advance(action, world, q, replies, log, s0, count0, confirmed, refills);
    }

    /** The rest of a turn whose call went through: confirm the head and carry the drain's facts past it. */
    method Advance(action: PendingAction, world: World, ghost q: seq<PendingAction>, ghost replies: seq<Exchange<()>>,
                   ghost log: seq<Call>, ghost s0: FeedState, ghost count0: nat, confirmed: nat, refills: nat)
      returns (refilled: bool, refillRequested: bool)
      requires Valid() && confirmed < |q| && action == q[confirmed] && pendingActions.actions == q[confirmed..]
      requires forall k :: 0 <= k <= confirmed ==> Send(currentUserId !in world.unencodable, ReplyAt(replies, k)).Success?
      requires world.mutationReplies == Drop(replies, confirmed + 1)
      requires ratingSessionCount == count0 + CountRates(q[..confirmed]) && refills == RefillsDue(count0, ratingSessionCount)
      requires Logged(world, q, log, s0, count0, confirmed, true, refills)
      modifies this, pendingActions, world
      ensures Valid() && ListsUnchanged() && ShownUnchanged() && SessionKept()
      ensures world.unencodable == old(world.unencodable) && world.now == old(world.now)
      ensures Progress(world, q, replies, log, count0, confirmed + 1, refills + if refilled then 1 else 0)
      ensures Logged(world, q, log, s0, count0, confirmed + 1, false, refills + if refilled then 1 else 0)
      ensures refillRequested
              == (refilled && RefillAsks(s0, history, watchlist, shownMovieIds, isLoading, currentUserId !in world.unencodable,
                                         world.now, refills))
    {
      assert currentUserId !in world.unencodable by {
        assert Send(currentUserId !in world.unencodable, ReplyAt(replies, confirmed)).Success?;
      }
      TakeSnoc(q, confirmed);
      CountRatesSnoc(q[..confirmed], action);
      ghost var count := ratingSessionCount;
      ghost var before := Fetching(world);
      ghost var calls := world.calls;
      ghost var known := Known();
      ghost var urlOk := currentUserId !in world.unencodable;
      refilled, refillRequested := Confirm(action, world);
      RefillsAfter(count0, count, ratingSessionCount, action.Rate?, refilled);
      ProgressAfterConfirm(world, q, replies, log, count0, confirmed, refills + if refilled then 1 else 0);
      RecordConfirm(calls, world.calls, before, Fetching(world), currentUserId, isLoading, urlOk, history, watchlist, shownMovieIds,
                    world.now, q, log, s0, count0, confirmed, refills, ratingSessionCount, refilled, known);
      AsksOfRecord(calls, before, currentUserId, isLoading, urlOk, history, watchlist, shownMovieIds, world.now,
                   q, log, s0, count0, confirmed, true, refills, known);
    }

    /** The drain's counters once the action at `confirmed` is confirmed and dropped. */
    lemma ProgressAfterConfirm(world: World, q: seq<PendingAction>, replies: seq<Exchange<()>>, log: seq<Call>,
                               count0: nat, confirmed: nat, refills: nat)
      requires confirmed < |q| && pendingActions.actions == q[confirmed..][1..]
      requires forall k :: 0 <= k <= confirmed ==> Send(currentUserId !in world.unencodable, ReplyAt(replies, k)).Success?
      requires world.mutationReplies == Drop(replies, confirmed + 1)
      requires ratingSessionCount == count0 + CountRates(q[..confirmed + 1]) && refills == RefillsDue(count0, ratingSessionCount)
      ensures Progress(world, q, replies, log, count0, confirmed + 1, refills)
    {
      assert q[confirmed..][1..] == q[confirmed + 1..];
    }

    /**
     * Sends the call for the action at `confirmed`. An attempted call joins the
     * log and uses the next reply; only the reply decides success.
     */
    method Attempt(action: PendingAction, world: World, ghost replies: seq<Exchange<()>>, confirmed: nat)
      returns (ok: bool)
      requires world.mutationReplies == Drop(replies, confirmed)
      modifies world
      ensures var urlOk := currentUserId !in world.unencodable;
        && ok == Send(urlOk, ReplyAt(replies, confirmed)).Success?
        && world.mutationReplies == Drop(replies, if urlOk then confirmed + 1 else confirmed)
        && world.calls == old(world.calls) + (if urlOk then [ActionCall(currentUserId, action)] else [])
      ensures world.recommendationReplies == old(world.recommendationReplies) && world.nextId == old(world.nextId)
      ensures world.unencodable == old(world.unencodable) && world.now == old(world.now)
    {
      DropDrop(replies, confirmed, 1);
      var r := world.Mutate(currentUserId, ActionCall(currentUserId, action));
      ok := r.Success?;
    }

    // ------------------------------------------------------------ profile

    /** The five lists as rebuilt from a profile through the movie map. */
    predicate Hydrated(d: UserDataDto, mm: map<int, Movie>)
      reads this`watchlist, this`history, this`likedMovies, this`dislikedMovies, this`neutralMovies
    {
      && watchlist == Hydrate(d.watchlist, mm) && history == Hydrate(d.history, mm)
      && likedMovies == Hydrate(d.liked, mm) && dislikedMovies == Hydrate(d.disliked, mm)
      && neutralMovies == Hydrate(d.neutral, mm)
    }

    method ApplyProfile(d: UserDataDto, mm: map<int, Movie>)
      modifies this
      ensures Hydrated(d, mm) && GenresFresh()
      ensures FeedUnchanged() && SessionUnchanged() && ShownUnchanged()
    {
      SetLists(d, mm);
      RebuildGenres();
    }

    /** Replaces the five lists; the genres are rebuilt afterwards. */
    method SetLists(d: UserDataDto, mm: map<int, Movie>)
      modifies this
      ensures Hydrated(d, mm)
      ensures FeedUnchanged() && SessionUnchanged() && ShownUnchanged()
    {
      watchlist, history, likedMovies, dislikedMovies, neutralMovies :=
        Hydrate(d.watchlist, mm), Hydrate(d.history, mm), Hydrate(d.liked, mm),
        Hydrate(d.disliked, mm), Hydrate(d.neutral, mm);
    }

    /** Looks up the movies a profile names and, when the lookup succeeds, rebuilds the lists from it. */
    method LoadProfileMovies(d: UserDataDto, world: World)
      modifies this, world
      ensures ProfileIds(d) == {} ==> ListsUnchanged() && world.calls == old(world.calls)
      ensures var m := Receive(true, ReplyAt(old(world.movieReplies), 0));
        ProfileIds(d) != {} ==>
          && world.calls == old(world.calls) + [MoviesCall(ProfileIds(d))]
          && (m.Failure? ==> ListsUnchanged())
          && (m.Success? ==>
                Hydrated(d, MovieMap(ConvertDtos(m.value, "Movie", old(world.nextId), world.now))) && GenresFresh())
      ensures var m := Receive(true, ReplyAt(old(world.movieReplies), 0));
        world.nextId == old(world.nextId) + if ProfileIds(d) != {} && m.Success? then |m.value| else 0
      ensures FeedUnchanged() && SessionUnchanged() && ShownUnchanged()
      ensures world.mutationReplies == old(world.mutationReplies) && world.profileReplies == old(world.profileReplies)
      ensures world.recommendationReplies == old(world.recommendationReplies)
      ensures world.unencodable == old(world.unencodable) && world.now == old(world.now)
    {
      var allIds := ProfileIds(d);
      if allIds == {} {
        return;
      }
      var m := world.FetchMovies(allIds);
      if m.Failure? {
        return;
      }
      var first := world.FreshIds(|m.value|);
      var movies := ConvertDtos(m.value, "Movie", first, world.now);
      ApplyProfile(d, MovieMap(movies));
    }

    /**
     * Loads the profile and, when it names any movies, looks them up and
     * rebuilds the five lists from the answer, keyed by backend id. Returns
     * whether the profile itself was received. Two usable records for one
     * backend id would stop the client, so the lookup is required not to send any.
     */
    method HydrateProfile(world: World) returns (ok: bool)
      requires Valid()
      requires NoDuplicateKeys(ReplyAt(world.movieReplies, 0))
      modifies this, world
      ensures Valid()
      ensures FeedUnchanged() && SessionUnchanged() && ShownUnchanged()
      ensures Mutations(world.calls) == Mutations(old(world.calls))
      ensures world.mutationReplies == old(world.mutationReplies) && world.unencodable == old(world.unencodable)
      ensures var p := Receive(currentUserId !in world.unencodable, ReplyAt(old(world.profileReplies), 0));
        var m := Receive(true, ReplyAt(old(world.movieReplies), 0));
        && ok == p.Success?
        && (p.Failure? || ProfileIds(p.value.data) == {} || m.Failure? ==> ListsUnchanged())
        && (p.Success? && ProfileIds(p.value.data) != {} && m.Success? ==>
              Hydrated(p.value.data, MovieMap(ConvertDtos(m.value, "Movie", old(world.nextId), world.now)))
              && GenresFresh())
        && world.nextId == old(world.nextId) + HydrationIds(p, m)
        && world.calls == old(world.calls) + HydrationCalls(currentUserId, currentUserId !in world.unencodable, p)
      ensures world.recommendationReplies == old(world.recommendationReplies) && world.now == old(world.now)
    {
      var p := world.FetchUserProfile(currentUserId);
      HydrationSendsNoMutation(old(world.calls), currentUserId, currentUserId !in world.unencodable, p);
      if p.Failure? {
        return false;
      }
      LoadProfileMovies(p.value.data, world);
      ok := true;
    }

    /**
     * `fetchUserProfile`: hydrate, then do a fresh load if the window is still
     * empty, on the success and the failure path alike. `hydrated` is the feed
     * state the fresh load starts from: the feed as it was, with the local ids
     * the hydrated lists took already spent. Which ids are known plays no part
     * in a fresh load (`FreshLoad`).
     */
    method FetchUserProfile(world: World) returns (ok: bool, ghost hydrated: FeedState)
      requires Valid()
      requires NoDuplicateKeys(ReplyAt(world.movieReplies, 0))
      modifies this, world
      ensures Valid()
      ensures ok == Receive(old(currentUserId) !in old(world.unencodable), ReplyAt(old(world.profileReplies), 0)).Success?
      ensures var urlOk := currentUserId !in world.unencodable;
        var p := Receive(urlOk, ReplyAt(old(world.profileReplies), 0));
        var m := Receive(true, ReplyAt(old(world.movieReplies), 0));
        && (p.Failure? || ProfileIds(p.value.data) == {} || m.Failure? ==> ListsUnchanged())
        && (p.Success? && ProfileIds(p.value.data) != {} && m.Success? ==>
              Hydrated(p.value.data, MovieMap(ConvertDtos(m.value, "Movie", old(world.nextId), world.now)))
              && GenresFresh())
        && hydrated == FeedState(old(View()), old(world.recommendationReplies), old(world.nextId) + HydrationIds(p, m))
        && world.calls == old(world.calls) + HydrationCalls(currentUserId, urlOk, p)
                          + (if old(recommendations) == [] && !old(isLoading) && urlOk then [RecommendationsCall(currentUserId)] else [])
      ensures old(recommendations) != [] ==>
                FeedUnchanged() && world.recommendationReplies == old(world.recommendationReplies)
      ensures old(recommendations) == [] ==>
                Fetching(world) == Fetched(false, old(isLoading), currentUserId !in world.unencodable, {}, hydrated, world.now)
      ensures ShownUnchanged() && SessionUnchanged()
      ensures Mutations(world.calls) == Mutations(old(world.calls))
    {
      ok := HydrateProfile(world);
      hydrated := Fetching(world);
      LoadIfEmpty(world);
    }

    /** The tail of `fetchUserProfile`, on both of its paths: a fresh load when the window is empty. */
    method LoadIfEmpty(world: World)
      requires Valid()
      modifies this, world
      ensures Valid()
      ensures ListsUnchanged() && ShownUnchanged() && SessionUnchanged()
      ensures old(recommendations) != [] ==>
                FeedUnchanged() && world.calls == old(world.calls) && Fetching(world) == old(Fetching(world))
      ensures old(recommendations) == [] ==>
                && Fetching(world) == Fetched(false, old(isLoading), currentUserId !in world.unencodable, {}, old(Fetching(world)), world.now)
                && world.calls == old(world.calls)
                     + (if !old(isLoading) && currentUserId !in world.unencodable then [RecommendationsCall(currentUserId)] else [])
      ensures Mutations(world.calls) == Mutations(old(world.calls))
      ensures OtherScriptsKept(world)
    {
      if recommendations == [] {
        ghost var known := Known();
        ghost var before := Fetching(world);
        var _ := FetchRecommendations(false, world);
        FreshIgnoresKnown(isLoading, currentUserId !in world.unencodable, known, before, world.now, Fetching(world));
      }
    }

    /** Replaces the personas with the received ones; a failure changes nothing. */
    method FetchPersonas(world: World)
      requires Valid()
      modifies this, world
      ensures Valid()
      ensures var got := Receive(true, ReplyAt(old(world.personaReplies), 0));
        personas == if got.Success? then ToPersonas(got.value) else old(personas)
      ensures ListsUnchanged() && FeedUnchanged() && ShownUnchanged()
      ensures currentUserId == old(currentUserId) && ratingSessionCount == old(ratingSessionCount)
      ensures isLoading == old(isLoading) && isProcessingQueue == old(isProcessingQueue)
    {
      var got := world.FetchPersonas();
      if got.Success? {
        personas := ToPersonas(got.value);
      }
    }

    /**
     * Uploads the local profile (name, genres, the history's backend ids and the
     * given personas) and, once accepted, does a fresh load.
     */
    method SyncUserProfile(chosenPersonas: seq<string>, world: World)
      requires Valid()
      modifies this, world
      ensures Valid()
      ensures var request := CreateProfileRequest(old(currentUserId), old(genres), old(history), chosenPersonas);
        var urlOk := currentUserId !in world.unencodable;
        var accepted := CreateUserProfile(true, ReplyAt(old(world.createReplies), 0)).Success?;
        && old(world.calls) + [CreateCall(request)] <= world.calls
        && (!accepted ==>
              FeedUnchanged() && world.calls == old(world.calls) + [CreateCall(request)]
              && Fetching(world) == old(Fetching(world)))
        && (accepted ==>
              Fetching(world) == Fetched(false, old(isLoading), urlOk, {}, old(Fetching(world)), world.now)
              && world.calls == old(world.calls) + [CreateCall(request)]
                                + (if !old(isLoading) && urlOk then [RecommendationsCall(currentUserId)] else []))
      ensures ListsUnchanged() && ShownUnchanged() && SessionUnchanged()
    {
      var request := CreateProfileRequest(currentUserId, genres, history, chosenPersonas);
      var r := world.CreateUserProfile(request);
      if r.Success? {
        ghost var known := Known();
        ghost var before := Fetching(world);
        var _ := FetchRecommendations(false, world);
        if !isLoading {
          FreshLoad(currentUserId !in world.unencodable, known, {}, before, world.now);
        }
      }
    }
  }

  /** A longer prefix is the shorter one and the next element. */
  lemma TakeSnoc<T>(s: seq<T>, i: nat)
    requires i < |s|
    ensures s[..i + 1] == s[..i] + [s[i]]
  {
  }

  /**
   * The log `calls` and the feed state `f` of a drain of `q` by `user` that
   * started from the log `log`, the feed state `s0` and the session count
   * `count0` and confirmed `confirmed` actions with `refills` refills (see
   * `UserState.Logged`).
   */
  predicate DrainRecord(calls: seq<Call>, f: FeedState, user: string, loading: bool, urlOk: bool,
                        history: seq<Movie>, watchlist: seq<Movie>, shown: set<int>, now: Stamp,
                        q: seq<PendingAction>, log: seq<Call>, s0: FeedState, count0: nat,
                        confirmed: nat, stopped: bool, refills: nat)
  {
    && confirmed <= |q|
    && calls == log + DrainLog(user, q[..confirmed], count0, !loading && urlOk)
                + (if stopped && urlOk && confirmed < |q| then [ActionCall(user, q[confirmed])] else [])
    && f == RefillRun(s0, history, watchlist, shown, loading, urlOk, now, refills)
  }

  /**
   * What a drain's record means: the mutating calls of the log are the
   * attempted actions' calls in order; it fetched once per refill, or never
   * when fetching could not happen; and the feed only grew, by movies from
   * outside the history, the watchlist and the shown set.
   */
  lemma DrainRecordMeans(calls: seq<Call>, f: FeedState, user: string, loading: bool, urlOk: bool,
                         history: seq<Movie>, watchlist: seq<Movie>, shown: set<int>, now: Stamp,
                         q: seq<PendingAction>, log: seq<Call>, s0: FeedState, count0: nat,
                         confirmed: nat, stopped: bool, refills: nat)
    requires DrainRecord(calls, f, user, loading, urlOk, history, watchlist, shown, now, q, log, s0, count0, confirmed, stopped, refills)
    requires refills == RefillsDue(count0, count0 + CountRates(q[..confirmed]))
    requires s0.view.window <= s0.view.buffer
    ensures var attempted := if stopped && urlOk && confirmed < |q| then confirmed + 1 else confirmed;
      Mutations(calls) == Mutations(log) + ActionCalls(user, q[..attempted])
    ensures Fetches(calls) == Fetches(log) + (if !loading && urlOk then refills else 0)
    ensures s0.view.buffer <= f.view.buffer && s0.view.window <= f.view.window && f.view.window <= f.view.buffer
    ensures forall i :: |s0.view.buffer| <= i < |f.view.buffer| ==>
              f.view.buffer[i].tmdbId !in TmdbIds(history) + TmdbIds(watchlist) + shown
    ensures loading || !urlOk ==> f.view == s0.view
  {
    var live := !loading && urlOk;
    DrainLogMutationsWith(log, user, q, count0, live, confirmed, stopped && urlOk && confirmed < |q|);
    DrainLogFetchesWith(log, user, q, count0, live, confirmed, stopped && urlOk && confirmed < |q|);
    RefillRunGrows(s0, history, watchlist, shown, loading, urlOk, now, refills);
  }

  /** The mutations of a drain's log, extended by a failed attempt's call when `extra`. */
  lemma DrainLogMutationsWith(log: seq<Call>, user: string, q: seq<PendingAction>, count0: nat, live: bool,
                              confirmed: nat, extra: bool)
    requires confirmed <= |q| && (extra ==> confirmed < |q|)
    ensures Mutations(log + DrainLog(user, q[..confirmed], count0, live)
                      + (if extra then [ActionCall(user, q[confirmed])] else []))
            == Mutations(log) + ActionCalls(user, q[..if extra then confirmed + 1 else confirmed])
  {
    var body := DrainLog(user, q[..confirmed], count0, live);
    var tail: seq<Call> := if extra then [ActionCall(user, q[confirmed])] else [];
    TailCalls(user, q, confirmed, extra, tail);
    DrainLogMutations(user, q[..confirmed], count0, live);
    MutationsAppend(log + body, tail);
    MutationsAppend(log, body);
  }

  /** The fetches of a drain's log, extended by a failed attempt's call when `extra`. */
  lemma DrainLogFetchesWith(log: seq<Call>, user: string, q: seq<PendingAction>, count0: nat, live: bool,
                            confirmed: nat, extra: bool)
    requires confirmed <= |q| && (extra ==> confirmed < |q|)
    ensures Fetches(log + DrainLog(user, q[..confirmed], count0, live)
                    + (if extra then [ActionCall(user, q[confirmed])] else []))
            == Fetches(log) + (if live then RefillsDue(count0, count0 + CountRates(q[..confirmed])) else 0)
  {
    var body := DrainLog(user, q[..confirmed], count0, live);
    var tail: seq<Call> := if extra then [ActionCall(user, q[confirmed])] else [];
    TailCalls(user, q, confirmed, extra, tail);
    DrainLogFetches(user, q[..confirmed], count0, live);
    FetchesAppend(log + body, tail);
    FetchesAppend(log, body);
  }

  /** The failed attempt's own call is one more mutation and no fetch. */
  lemma TailCalls(user: string, q: seq<PendingAction>, confirmed: nat, extra: bool, tail: seq<Call>)
    requires confirmed <= |q| && (extra ==> confirmed < |q|)
    requires tail == if extra then [ActionCall(user, q[confirmed])] else []
    ensures ActionCalls(user, q[..confirmed]) + Mutations(tail) == ActionCalls(user, q[..if extra then confirmed + 1 else confirmed])
    ensures Fetches(tail) == 0
  {
    if extra {
      var c := ActionCall(user, q[confirmed]);
      assert Mutations(tail) == [c] by {
        MutationsSnoc([], c);
        assert [] + [c] == tail;
      }
      assert Fetches(tail) == 0 by {
        assert tail[..0] == [];
      }
      TakeSnoc(q, confirmed);
      ActionCallsSnoc(user, q[..confirmed], q[confirmed]);
    } else {
      assert ActionCalls(user, q[..confirmed]) + Mutations(tail) == ActionCalls(user, q[..confirmed]);
    }
  }

  /** Before the first action, the log and the feed are as the drain found them. */
  lemma RecordStart(user: string, loading: bool, urlOk: bool, history: seq<Movie>, watchlist: seq<Movie>, shown: set<int>,
                    now: Stamp, q: seq<PendingAction>, log: seq<Call>, s0: FeedState, count0: nat)
    ensures DrainRecord(log, s0, user, loading, urlOk, history, watchlist, shown, now, q, log, s0, count0, 0, false, 0)
  {
    assert log + DrainLog(user, q[..0], count0, !loading && urlOk) + [] == log;
  }

  /** An attempt at the next action adds its call when the URL builds. */
  lemma RecordAttempt(calls: seq<Call>, calls1: seq<Call>, f: FeedState, user: string, loading: bool, urlOk: bool,
                      history: seq<Movie>, watchlist: seq<Movie>, shown: set<int>, now: Stamp,
                      q: seq<PendingAction>, log: seq<Call>, s0: FeedState, count0: nat, confirmed: nat, refills: nat)
    requires DrainRecord(calls, f, user, loading, urlOk, history, watchlist, shown, now, q, log, s0, count0, confirmed, false, refills)
    requires confirmed < |q| && calls1 == calls + (if urlOk then [ActionCall(user, q[confirmed])] else [])
    ensures DrainRecord(calls1, f, user, loading, urlOk, history, watchlist, shown, now, q, log, s0, count0, confirmed, true, refills)
  {
  }

  /**
   * A confirmed action extends a drain's log by its refill fetch when it
   * triggered one, and the feed by that refill.
   */
  lemma RecordConfirm(calls: seq<Call>, calls1: seq<Call>, f: FeedState, f1: FeedState, user: string, loading: bool, urlOk: bool,
                      history: seq<Movie>, watchlist: seq<Movie>, shown: set<int>, now: Stamp,
                      q: seq<PendingAction>, log: seq<Call>, s0: FeedState, count0: nat, confirmed: nat, refills: nat,
                      count: nat, refilled: bool, known: set<int>)
    requires urlOk
    requires DrainRecord(calls, f, user, loading, urlOk, history, watchlist, shown, now, q, log, s0, count0, confirmed, true, refills)
    requires confirmed < |q| && count == count0 + CountRates(q[..confirmed + 1])
    requires refilled == (q[confirmed].Rate? && count % REFILLS_EVERY == 0)
    requires calls1 == calls + RefillCalls(user, q[confirmed], count, !loading)
    requires known == KnownIds(history, watchlist, f.view.window, shown)
    requires f1 == if refilled then Fetched(true, loading, urlOk, known, f, now) else f
    ensures DrainRecord(calls1, f1, user, loading, urlOk, history, watchlist, shown, now, q, log, s0, count0,
                        confirmed + 1, false, refills + if refilled then 1 else 0)
  {
    LogConfirm(log, user, q, confirmed, count0, !loading, calls, calls1, count);
    RefillRunStep(s0, history, watchlist, shown, loading, true, now, refills, f, f1, refilled, known);
  }

  lemma LogConfirm(log: seq<Call>, user: string, q: seq<PendingAction>, c: nat, count0: nat, live: bool,
                   calls: seq<Call>, calls1: seq<Call>, count: nat)
    requires c < |q|
    requires calls == log + DrainLog(user, q[..c], count0, live) + [ActionCall(user, q[c])]
    requires count == count0 + CountRates(q[..c + 1])
    requires calls1 == calls + RefillCalls(user, q[c], count, live)
    ensures calls1 == log + DrainLog(user, q[..c + 1], count0, live)
  {
    TakeSnoc(q, c);
    DrainLogSnoc(user, q[..c], q[c], count0, live);
  }

  lemma RefillRunStep(s0: FeedState, history: seq<Movie>, watchlist: seq<Movie>, shown: set<int>,
                      loading: bool, urlOk: bool, now: Stamp, n: nat, f: FeedState, f1: FeedState, refilled: bool,
                      known: set<int>)
    requires f == RefillRun(s0, history, watchlist, shown, loading, urlOk, now, n)
    requires known == KnownIds(history, watchlist, f.view.window, shown)
    requires f1 == if refilled then Fetched(true, loading, urlOk, known, f, now) else f
    ensures f1 == RefillRun(s0, history, watchlist, shown, loading, urlOk, now, n + if refilled then 1 else 0)
  {
    if refilled {
      assert RefillRun(s0, history, watchlist, shown, loading, urlOk, now, n + 1)
             == NextRefill(s0, history, watchlist, shown, loading, urlOk, now, n);
    }
  }

  /** The refill a drain record is about to make asks for more exactly as the fetch from its feed does. */
  lemma AsksOfRecord(calls: seq<Call>, f: FeedState, user: string, loading: bool, urlOk: bool,
                     history: seq<Movie>, watchlist: seq<Movie>, shown: set<int>, now: Stamp,
                     q: seq<PendingAction>, log: seq<Call>, s0: FeedState, count0: nat, confirmed: nat, stopped: bool,
                     refills: nat, known: set<int>)
    requires DrainRecord(calls, f, user, loading, urlOk, history, watchlist, shown, now, q, log, s0, count0, confirmed, stopped, refills)
    requires known == KnownIds(history, watchlist, f.view.window, shown)
    ensures RefillAsks(s0, history, watchlist, shown, loading, urlOk, now, refills)
            == (!loading && RefillDue(true, ReceiveMovies(urlOk, ReplyAt(f.replies, 0), f.nextId, now), known, f.view))
  {
  }

  /** A count that rose by at most one crossed a multiple of three exactly when the refill fired. */
  lemma RefillsAfter(a: nat, b: nat, c: nat, rate: bool, refilled: bool)
    requires a <= b && c == b + (if rate then 1 else 0)
    requires refilled == (rate && c % REFILLS_EVERY == 0)
    ensures RefillsDue(a, c) == RefillsDue(a, b) + (if refilled then 1 else 0)
  {
  }

  /** The scripts a recommendation fetch leaves alone, and the clock and the unencodable ids. */
  twostate predicate OtherScriptsKept(w: World)
    reads w
  {
    && w.mutationReplies == old(w.mutationReplies) && w.createReplies == old(w.createReplies)
    && w.profileReplies == old(w.profileReplies) && w.movieReplies == old(w.movieReplies)
    && w.personaReplies == old(w.personaReplies) && w.unencodable == old(w.unencodable) && w.now == old(w.now)
  }

  // ---------------------------------------------------------------- list lemmas

  /** Rating clears the id from all three lists and appends it to one, which keeps them exclusive. */
  lemma ExclusiveAfterRating(liked: seq<Movie>, neutral: seq<Movie>, disliked: seq<Movie>, m: Movie, rating: UserRating)
    requires DisjointIds(liked, neutral) && DisjointIds(liked, disliked) && DisjointIds(neutral, disliked)
    ensures var l := Refile(liked, m, rating == Like);
            var n := Refile(neutral, m, rating == Neutral);
            var d := Refile(disliked, m, rating == Dislike);
            DisjointIds(l, n) && DisjointIds(l, d) && DisjointIds(n, d)
  {
    var l0, n0, d0 := RemoveId(liked, m.id), RemoveId(neutral, m.id), RemoveId(disliked, m.id);
    DisjointOfSubset(l0, liked, neutral);
    DisjointSym(l0, neutral);
    DisjointOfSubset(n0, neutral, l0);
    DisjointSym(n0, l0);
    DisjointOfSubset(l0, liked, disliked);
    DisjointSym(l0, disliked);
    DisjointOfSubset(d0, disliked, l0);
    DisjointSym(d0, l0);
    DisjointOfSubset(n0, neutral, disliked);
    DisjointSym(n0, disliked);
    DisjointOfSubset(d0, disliked, n0);
    DisjointSym(d0, n0);
    DisjointFromRemoved(liked, m);
    DisjointFromRemoved(neutral, m);
    DisjointFromRemoved(disliked, m);
    DisjointSym(l0, [m]);
    DisjointSym(n0, [m]);
    DisjointSym(d0, [m]);
    DisjointAppend(l0, n0, [m], rating == Like, rating == Neutral);
    DisjointAppend(l0, d0, [m], rating == Like, rating == Dislike);
    DisjointAppend(n0, d0, [m], rating == Neutral, rating == Dislike);
  }

  lemma DisjointSym(a: seq<Movie>, b: seq<Movie>)
    requires DisjointIds(a, b)
    ensures DisjointIds(b, a)
  {
  }

  lemma DisjointAppend(a: seq<Movie>, b: seq<Movie>, x: seq<Movie>, onA: bool, onB: bool)
    requires DisjointIds(a, b) && DisjointIds(a, x) && DisjointIds(x, b) && !(onA && onB)
    ensures DisjointIds(a + (if onA then x else []), b + (if onB then x else []))
  {
    var a' := a + (if onA then x else []);
    var b' := b + (if onB then x else []);
    forall i, j | 0 <= i < |a'| && 0 <= j < |b'| ensures a'[i].id != b'[j].id {
      if i < |a| && j >= |b| {
        assert b'[j] == x[j - |b|];
      } else if i >= |a| && j < |b| {
        assert a'[i] == x[i - |a|];
      }
    }
  }

  /** Removing an id from lists that were exclusive keeps them exclusive. */
  lemma ExclusiveAfterRemoval(liked: seq<Movie>, neutral: seq<Movie>, disliked: seq<Movie>, id: Uuid)
    requires DisjointIds(liked, neutral) && DisjointIds(liked, disliked) && DisjointIds(neutral, disliked)
    ensures DisjointIds(RemoveId(liked, id), RemoveId(neutral, id))
    ensures DisjointIds(RemoveId(liked, id), RemoveId(disliked, id))
    ensures DisjointIds(RemoveId(neutral, id), RemoveId(disliked, id))
  {
    var l0, n0, d0 := RemoveId(liked, id), RemoveId(neutral, id), RemoveId(disliked, id);
    DisjointOfSubset(l0, liked, neutral);
    DisjointSym(l0, neutral);
    DisjointOfSubset(n0, neutral, l0);
    DisjointSym(n0, l0);
    DisjointOfSubset(l0, liked, disliked);
    DisjointSym(l0, disliked);
    DisjointOfSubset(d0, disliked, l0);
    DisjointSym(d0, l0);
    DisjointOfSubset(n0, neutral, disliked);
    DisjointSym(n0, disliked);
    DisjointOfSubset(d0, disliked, n0);
    DisjointSym(d0, n0);
  }
}
