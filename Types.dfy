/** Shared value types of the leaderboard front end: the team records the
    server vends, the response envelope of every REST call, and the two
    failure-compatible wrappers the model uses for undefined values and
    thrown errors. */
module Types {

  /** A value that may be `undefined` / `null`. */
  datatype Option<+T> = None | Some(value: T)

  /** A keyed lookup that yields `undefined` / `null` for a missing key, as
      `Map.prototype.get` and `Storage.getItem` do. */
  function Lookup<K, V>(m: map<K, V>, k: K): (r: Option<V>)
    ensures r.Some? <==> k in m
    ensures r.Some? ==> r.value == m[k]
  {
    if k in m then Some(m[k]) else None
  }

  /** The outcome of an operation that may throw: the value, or the error's message. */
  datatype Result<+T> = Ok(value: T) | Err(message: string)

  /** JavaScript truthiness of an optional string: `null`, `undefined` and `""` are falsy. */
  predicate Truthy(s: Option<string>) {
    s.Some? && s.value != ""
  }

  /** A badge a team has been awarded. */
  datatype Achievement = Achievement(
    id: string,
    name: string,
    icon: string,
    points: int)

  datatype TeamAchievement = TeamAchievement(
    id: string,
    teamId: string,
    achievement: Achievement,
    awardedAt: string)

  datatype Role = User | Admin

  datatype UserRecord = UserRecord(
    id: string,
    email: string,
    name: string,
    role: Role,
    teamId: Option<string>)

  /** One row of a leaderboard snapshot (`LeaderboardTeam`): a team with its
      rank and member count. Scores are whole numbers here. */
  datatype LeaderboardTeam = LeaderboardTeam(
    id: string,
    name: string,
    description: Option<string>,
    avatarUrl: Option<string>,
    score: int,
    rank: int,
    memberCount: int,
    achievements: Option<seq<TeamAchievement>>)

  /** A complete leaderboard as the server sends it: always a whole replacement. */
  type Snapshot = seq<LeaderboardTeam>

  datatype Status = Success | Error

  datatype FieldError = FieldError(field: string, message: string)

  /** The envelope `{status, data?, message?, errors?}` every REST response carries. */
  datatype ApiResponse<T> = ApiResponse(
    status: Status,
    data: Option<T>,
    message: Option<string>,
    errors: Option<seq<FieldError>>)
}
