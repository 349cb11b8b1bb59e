/**
 * The favourite counter of a track (`stats_playlisted`) as the
 * `UserFavoriteTrack` signal handlers keep it: one more when a favourite is
 * created, one fewer (never below zero) when one is deleted.
 */
module Favourites {
  /** `update_track_stats_on_favorite`: only a newly created row counts. */
  function OnSaved(count: int, created: bool): (r: int)
    ensures created ==> r == count + 1
    ensures !created ==> r == count
  {
    if created then count + 1 else count
  }

  /** `update_track_stats_on_unfavorite`: `max(0, count - 1)`. */
  function OnDeleted(count: int): (r: int)
    ensures r >= 0
    ensures count >= 1 ==> r == count - 1
    ensures count <= 1 ==> r == 0
  {
    if count - 1 > 0 then count - 1 else 0
  }

  /** One track: its counter and the users whose favourite rows exist. */
  datatype TrackFavourites = TrackFavourites(count: int, fans: set<nat>)

  datatype Action = Favourite(user: nat) | Unfavourite(user: nat)

  /**
   * One user action. A second favourite by the same user violates
   * `unique_together`, so nothing is saved and no signal fires; removing a
   * favourite that does not exist deletes nothing.
   */
  function Step(t: TrackFavourites, a: Action): (r: TrackFavourites)
    ensures a.Favourite? ==> r.fans == t.fans + {a.user}
    ensures a.Unfavourite? ==> r.fans == t.fans - {a.user}
  {
    match a
    case Favourite(u) =>
      if u in t.fans then t else TrackFavourites(OnSaved(t.count, true), t.fans + {u})
    case Unfavourite(u) =>
      if u !in t.fans then t else TrackFavourites(OnDeleted(t.count), t.fans - {u})
  }

  function Replay(t: TrackFavourites, actions: seq<Action>): TrackFavourites
    decreases |actions|
  {
    if actions == [] then t else Replay(Step(t, actions[0]), actions[1..])
  }

  /** From a non-negative start the counter stays non-negative, whatever happens. */
  lemma {:induction false} NeverNegative(t: TrackFavourites, actions: seq<Action>)
    requires t.count >= 0
    ensures Replay(t, actions).count >= 0
    decreases |actions|
  {
    if actions != [] {
      NeverNegative(Step(t, actions[0]), actions[1..]);
    }
  }

  /** A counter that starts equal to the number of favourites keeps equal to it. */
  lemma {:induction false} CountsFavourites(t: TrackFavourites, actions: seq<Action>)
    requires t.count == |t.fans|
    ensures Replay(t, actions).count == |Replay(t, actions).fans|
    decreases |actions|
  {
    if actions != [] {
      var a := actions[0];
      if a.Unfavourite? && a.user in t.fans {
        assert |t.fans - {a.user}| == |t.fans| - 1;
      }
      CountsFavourites(Step(t, a), actions[1..]);
    }
  }
}
