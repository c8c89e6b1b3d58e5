/** The shared query cache the push channel and the leaderboard view both use.
    Only the two operations the core calls are modelled: writing a slot
    wholesale and marking a key prefix stale. How stale queries are refetched
    is not part of this model. */
module QueryCache {
  import opened Types

  /** Key of the leaderboard slot (`['leaderboard']`). */
  const LeaderboardKey: string := "leaderboard"
  /** Key prefix of team queries (`['teams']`). */
  const TeamsKey: string := "teams"

  class QueryClient {
    /** Cached data per query key. */
    var data: map<string, Snapshot>
    /** Key prefixes that have been invalidated. */
    var invalidated: set<string>

    constructor ()
      ensures data == map[] && invalidated == {}
    {
      data := map[];
      invalidated := {};
    }

    /** `setQueryData(key, value)`: the slot holds exactly `value` afterwards. */
    method SetQueryData(key: string, value: Snapshot)
      modifies this
      ensures data == old(data)[key := value]
      ensures invalidated == old(invalidated)
    {
      data := data[key := value];
    }

    /** `invalidateQueries({queryKey})`: every query under `key` is stale. */
    method InvalidateQueries(key: string)
      modifies this
      ensures data == old(data)
      ensures invalidated == old(invalidated) + {key}
    {
      invalidated := invalidated + {key};
    }
  }
}
