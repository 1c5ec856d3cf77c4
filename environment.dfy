/**
 * The world outside the client, as the client sees it: the backend answers each
 * call with a scripted exchange, a clock gives the current date, and a counter
 * hands out the local UUIDs of newly built movies. Every call that reaches the
 * network is recorded in `calls`, in order.
 */
module Environment {
  import opened Wrappers
  import opened Movies
  import opened ApiService
  import opened PendingQueue

  /** A request the client sends. Ids of movies are backend ids. */
  datatype Call =
    | CreateCall(request: CreateUserProfileRequest)
    | RecommendationsCall(user: string)
    | ProfileCall(user: string)
    | MoviesCall(ids: set<int>)
    | WatchlistAddCall(user: string, movieId: int)
    | WatchlistRemoveCall(user: string, movieId: int)
    | RateCall(user: string, movieId: int, rating: string)
    | SyncCall(user: string, movieIds: seq<int>)
    | PersonasCall

  /** The calls that change the user's data on the backend. */
  predicate IsMutation(c: Call) {
    c.WatchlistAddCall? || c.WatchlistRemoveCall? || c.RateCall? || c.SyncCall?
  }

  /** The call a queued action makes when it is retried for `user`. */
  function ActionCall(user: string, a: PendingAction): (c: Call)
    ensures IsMutation(c)
  {
    match a
    case Rate(m, rating, _) => RateCall(user, m, rating)
    case WatchlistAdd(m, _) => WatchlistAddCall(user, m)
    case WatchlistRemove(m, _) => WatchlistRemoveCall(user, m)
    case SyncShown(ids) => SyncCall(user, ids)
  }

  function ActionCalls(user: string, q: seq<PendingAction>): (r: seq<Call>)
    ensures |r| == |q| && forall k :: 0 <= k < |q| ==> r[k] == ActionCall(user, q[k])
  {
    seq(|q|, k requires 0 <= k < |q| => ActionCall(user, q[k]))
  }

  /** The mutating calls of a log, in order. */
  function Mutations(calls: seq<Call>): (r: seq<Call>)
    ensures |r| <= |calls|
  {
    if calls == [] then []
    else Mutations(calls[..|calls| - 1])
         + (if IsMutation(calls[|calls| - 1]) then [calls[|calls| - 1]] else [])
  }

  /** The mutation log keeps exactly the mutating calls of the log. */
  lemma {:induction false} MutationsFilter(calls: seq<Call>)
    ensures forall c :: c in Mutations(calls) <==> c in calls && IsMutation(c)
    decreases |calls|
  {
    if calls != [] {
      var front := calls[..|calls| - 1];
      MutationsFilter(front);
      assert calls == front + [calls[|calls| - 1]];
    }
  }

  lemma MutationsSnoc(calls: seq<Call>, c: Call)
    ensures Mutations(calls + [c]) == Mutations(calls) + (if IsMutation(c) then [c] else [])
  {
    assert (calls + [c])[..|calls|] == calls;
  }

  /** The scripted reply at position `k`; an exhausted script is a transport failure. */
  function ReplyAt<T>(s: seq<Exchange<T>>, k: nat): Exchange<T> {
    if k < |s| then s[k] else TransportFailed
  }

  /** The script after `n` replies were used. */
  function Drop<T>(s: seq<Exchange<T>>, n: nat): (r: seq<Exchange<T>>)
    ensures forall k: nat :: ReplyAt(r, k) == ReplyAt(s, n + k)
  {
    if n <= |s| then s[n..] else []
  }

  /** Using `a` replies and then `b` more is using `a + b`. */
  lemma DropDrop<T>(s: seq<Exchange<T>>, a: nat, b: nat)
    ensures Drop(Drop(s, a), b) == Drop(s, a + b)
  {
    if a + b <= |s| {
      assert s[a..][b..] == s[a + b..];
    }
  }

  lemma ActionCallsSnoc(user: string, q: seq<PendingAction>, a: PendingAction)
    ensures ActionCalls(user, q + [a]) == ActionCalls(user, q) + [ActionCall(user, a)]
  {
    assert forall k :: 0 <= k < |q| ==> (q + [a])[k] == q[k];
  }

  class World {
    /** Every request that reached the network, in order. */
    var calls: seq<Call>
    /** Replies to the calls whose body is ignored, shared by the four mutations. */
    var mutationReplies: seq<Exchange<()>>
    var createReplies: seq<Exchange<()>>
    var recommendationReplies: seq<Exchange<seq<MovieDto>>>
    var profileReplies: seq<Exchange<UserProfileDto>>
    var movieReplies: seq<Exchange<seq<MovieDto>>>
    var personaReplies: seq<Exchange<seq<PersonaDto>>>
    /** User ids for which no URL can be built. */
    var unencodable: set<string>
    /** The next unused local UUID. */
    var nextId: nat
    /** The current date. */
    var now: Stamp

    constructor (mutations: seq<Exchange<()>>, creates: seq<Exchange<()>>,
                 recs: seq<Exchange<seq<MovieDto>>>, profiles: seq<Exchange<UserProfileDto>>,
                 movies: seq<Exchange<seq<MovieDto>>>, personas: seq<Exchange<seq<PersonaDto>>>,
                 bad: set<string>, clock: Stamp)
      ensures calls == [] && nextId == 0 && now == clock && unencodable == bad
      ensures mutationReplies == mutations && createReplies == creates
      ensures recommendationReplies == recs && profileReplies == profiles
      ensures movieReplies == movies && personaReplies == personas
    {
      calls := [];
      mutationReplies := mutations;
      createReplies := creates;
      recommendationReplies := recs;
      profileReplies := profiles;
      movieReplies := movies;
      personaReplies := personas;
      unencodable := bad;
      nextId := 0;
      now := clock;
    }

    /**
     * A watchlist, rating or sync call. Without a URL nothing is sent;
     * otherwise the call is logged and consumes one reply.
     */
    method Mutate(user: string, c: Call) returns (r: Result<(), Thrown>)
      requires IsMutation(c)
      modifies this
      ensures r == Send(user !in unencodable, ReplyAt(old(mutationReplies), 0))
      ensures user in unencodable ==> calls == old(calls) && mutationReplies == old(mutationReplies)
      ensures user !in unencodable ==>
                calls == old(calls) + [c] && mutationReplies == Drop(old(mutationReplies), 1)
      ensures createReplies == old(createReplies) && recommendationReplies == old(recommendationReplies)
      ensures profileReplies == old(profileReplies) && movieReplies == old(movieReplies)
      ensures personaReplies == old(personaReplies)
      ensures unencodable == old(unencodable) && nextId == old(nextId) && now == old(now)
    {
      var x := ReplyAt(mutationReplies, 0);
      r := Send(user !in unencodable, x);
      if user !in unencodable {
        calls := calls + [c];
        mutationReplies := Drop(mutationReplies, 1);
      }
    }

    /** `createUserProfile`; its URL is a constant and always builds. */
    method CreateUserProfile(request: CreateUserProfileRequest) returns (r: Result<(), Thrown>)
      modifies this
      ensures r == ApiService.CreateUserProfile(true, ReplyAt(old(createReplies), 0))
      ensures calls == old(calls) + [CreateCall(request)]
      ensures createReplies == Drop(old(createReplies), 1)
      ensures mutationReplies == old(mutationReplies) && recommendationReplies == old(recommendationReplies)
      ensures profileReplies == old(profileReplies) && movieReplies == old(movieReplies)
      ensures personaReplies == old(personaReplies)
      ensures unencodable == old(unencodable) && nextId == old(nextId) && now == old(now)
    {
      r := ApiService.CreateUserProfile(true, ReplyAt(createReplies, 0));
      calls := calls + [CreateCall(request)];
      createReplies := Drop(createReplies, 1);
    }

    /**
     * `getRecommendations`: the received records converted to movies, each kept
     * record getting a fresh local id.
     */
    method GetRecommendations(user: string) returns (r: Result<seq<Movie>, Thrown>)
      modifies this
      ensures r == ReceiveMovies(user !in unencodable, ReplyAt(old(recommendationReplies), 0), old(nextId), now)
      ensures var got := Receive(user !in unencodable, ReplyAt(old(recommendationReplies), 0));
        nextId == old(nextId) + (if got.Success? then |got.value| else 0)
      ensures user in unencodable ==>
                calls == old(calls) && recommendationReplies == old(recommendationReplies)
      ensures user !in unencodable ==>
                calls == old(calls) + [RecommendationsCall(user)] &&
                recommendationReplies == Drop(old(recommendationReplies), 1)
      ensures mutationReplies == old(mutationReplies) && createReplies == old(createReplies)
      ensures profileReplies == old(profileReplies) && movieReplies == old(movieReplies)
      ensures personaReplies == old(personaReplies)
      ensures unencodable == old(unencodable) && now == old(now)
    {
      var got := Receive(user !in unencodable, ReplyAt(recommendationReplies, 0));
      if user !in unencodable {
        calls := calls + [RecommendationsCall(user)];
        recommendationReplies := Drop(recommendationReplies, 1);
      }
      if got.Success? {
        r := Success(ConvertDtos(got.value, "Recommended", nextId, now));
        nextId := nextId + |got.value|;
      } else {
        r := Failure(got.error);
      }
    }

    /** `fetchUserProfile(for:)`. */
    method FetchUserProfile(user: string) returns (r: Result<UserProfileDto, Thrown>)
      modifies this
      ensures r == Receive(user !in unencodable, ReplyAt(old(profileReplies), 0))
      ensures user in unencodable ==> calls == old(calls) && profileReplies == old(profileReplies)
      ensures user !in unencodable ==>
                calls == old(calls) + [ProfileCall(user)] && profileReplies == Drop(old(profileReplies), 1)
      ensures mutationReplies == old(mutationReplies) && createReplies == old(createReplies)
      ensures recommendationReplies == old(recommendationReplies) && movieReplies == old(movieReplies)
      ensures personaReplies == old(personaReplies)
      ensures unencodable == old(unencodable) && nextId == old(nextId) && now == old(now)
    {
      r := Receive(user !in unencodable, ReplyAt(profileReplies, 0));
      if user !in unencodable {
        calls := calls + [ProfileCall(user)];
        profileReplies := Drop(profileReplies, 1);
      }
    }

    /** The movie-detail lookup used to hydrate a profile; the request order of the ids is not modelled. */
    method FetchMovies(ids: set<int>) returns (r: Result<seq<MovieDto>, Thrown>)
      modifies this
      ensures r == Receive(true, ReplyAt(old(movieReplies), 0))
      ensures calls == old(calls) + [MoviesCall(ids)] && movieReplies == Drop(old(movieReplies), 1)
      ensures mutationReplies == old(mutationReplies) && createReplies == old(createReplies)
      ensures recommendationReplies == old(recommendationReplies) && profileReplies == old(profileReplies)
      ensures personaReplies == old(personaReplies)
      ensures unencodable == old(unencodable) && nextId == old(nextId) && now == old(now)
    {
      r := Receive(true, ReplyAt(movieReplies, 0));
      calls := calls + [MoviesCall(ids)];
      movieReplies := Drop(movieReplies, 1);
    }

    /** `fetchPersonas`; its URL is a constant and always builds. */
    method FetchPersonas() returns (r: Result<seq<PersonaDto>, Thrown>)
      modifies this
      ensures r == Receive(true, ReplyAt(old(personaReplies), 0))
      ensures calls == old(calls) + [PersonasCall] && personaReplies == Drop(old(personaReplies), 1)
      ensures mutationReplies == old(mutationReplies) && createReplies == old(createReplies)
      ensures recommendationReplies == old(recommendationReplies) && profileReplies == old(profileReplies)
      ensures movieReplies == old(movieReplies)
      ensures unencodable == old(unencodable) && nextId == old(nextId) && now == old(now)
    {
      r := Receive(true, ReplyAt(personaReplies, 0));
      calls := calls + [PersonasCall];
      personaReplies := Drop(personaReplies, 1);
    }

    /** Reserves `n` fresh local ids and returns the first. */
    method FreshIds(n: nat) returns (first: nat)
      modifies this
      ensures first == old(nextId) && nextId == old(nextId) + n
      ensures calls == old(calls) && mutationReplies == old(mutationReplies)
      ensures createReplies == old(createReplies) && recommendationReplies == old(recommendationReplies)
      ensures profileReplies == old(profileReplies) && movieReplies == old(movieReplies)
      ensures personaReplies == old(personaReplies)
      ensures unencodable == old(unencodable) && now == old(now)
    {
      first := nextId;
      nextId := nextId + n;
    }
  }
}
