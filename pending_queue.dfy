/**
 * The retry queue of the client: the actions it records while the UI updates
 * optimistically, and the first-in first-out store that holds them until the
 * backend confirms each one.
 */
module PendingQueue {
  import opened Wrappers

  /** The rating a user gives a movie. */
  datatype UserRating = Like | Neutral | Dislike

  /** The wire form of a rating. */
  function ApiString(r: UserRating): (s: string)
    ensures s == "like" || s == "neutral" || s == "dislike"
  {
    match r
    case Like => "like"
    case Neutral => "neutral"
    case Dislike => "dislike"
  }

  /** Reads a rating back from its wire form. */
  function ParseRating(s: string): (r: Option<UserRating>)
    ensures r.Some? <==> s == "like" || s == "neutral" || s == "dislike"
  {
    if s == "like" then Some(Like)
    else if s == "neutral" then Some(Neutral)
    else if s == "dislike" then Some(Dislike)
    else None
  }

  /** Every rating has its own wire form, and the wire form identifies it. */
  lemma ApiStringRoundTrip(r: UserRating, q: UserRating)
    ensures ParseRating(ApiString(r)) == Some(r)
    ensures ApiString(r) == ApiString(q) ==> r == q
  {
  }

  /** An action awaiting confirmation by the backend; ids are backend ids. */
  datatype PendingAction =
    | Rate(movieId: int, rating: string, movieTitle: string)
    | WatchlistAdd(movieId: int, movieTitle: string)
    | WatchlistRemove(movieId: int, movieTitle: string)
    | SyncShown(movieIds: seq<int>)

  /** The number of rating actions in a list of actions. */
  function CountRates(q: seq<PendingAction>): (n: nat)
    ensures n <= |q|
  {
    if q == [] then 0 else CountRates(q[..|q| - 1]) + (if q[|q| - 1].Rate? then 1 else 0)
  }

  lemma CountRatesSnoc(q: seq<PendingAction>, a: PendingAction)
    ensures CountRates(q + [a]) == CountRates(q) + (if a.Rate? then 1 else 0)
  {
    assert (q + [a])[..|q|] == q;
  }

  /** The first-in first-out store of pending actions. */
  class PendingActionsQueue {
    var actions: seq<PendingAction>

    constructor ()
      ensures actions == []
    {
      actions := [];
    }

    /** Appends at the tail. */
    method Enqueue(a: PendingAction)
      modifies this
      ensures actions == old(actions) + [a]
    {
      actions := actions + [a];
    }

    /** The head, or nothing when the queue is empty. */
    method Peek() returns (r: Option<PendingAction>)
      ensures r.None? <==> |actions| == 0
      ensures r.Some? ==> r.value == actions[0]
    {
      if |actions| == 0 {
        r := None;
      } else {
        r := Some(actions[0]);
      }
    }

    /** Drops exactly the head; a no-op on an empty queue. */
    method RemoveFirst()
      modifies this
      ensures old(actions) == [] ==> actions == []
      ensures old(actions) != [] ==> [old(actions)[0]] + actions == old(actions)
    {
      if |actions| != 0 {
        actions := actions[1..];
      }
    }

    method IsEmpty() returns (b: bool)
      ensures b <==> |actions| == 0
    {
      b := |actions| == 0;
    }
  }
}
