/** The leaderboard view: the rank baseline its `select` step keeps for the
    rank-change badges, the connection and error state its push-channel
    callbacks maintain, and the choice of what to render. */
module Leaderboard {
  import opened Types
  import QueryCache
  import LeaderboardSSE
  import opened LeaderboardCard

  // ---------------------------------------------------------------------------
  // Rank baseline

  /** The id -> rank map of a snapshot, filled row by row as `Map.set` does,
      so that on a repeated id the later row wins. */
  function RanksOf(teams: Snapshot): (m: map<string, int>)
    ensures forall i :: 0 <= i < |teams| ==> teams[i].id in m
    ensures forall id :: id in m ==> exists i :: 0 <= i < |teams| && teams[i].id == id && m[id] == teams[i].rank
    decreases |teams|
  {
    if teams == [] then map[]
    else
      var last := teams[|teams| - 1];
      RanksOf(teams[..|teams| - 1])[last.id := last.rank]
  }

  /** The rank recorded for an id is that of its last row. */
  lemma {:induction false} RanksOfLastRowWins(teams: Snapshot, i: nat)
    requires i < |teams|
    requires forall j :: i < j < |teams| ==> teams[j].id != teams[i].id
    ensures RanksOf(teams)[teams[i].id] == teams[i].rank
    decreases |teams|
  {
    if i < |teams| - 1 {
      var front := teams[..|teams| - 1];
      assert forall j :: i < j < |front| ==> front[j].id != front[i].id;
      RanksOfLastRowWins(front, i);
    }
  }

  /** The map is empty exactly for the empty snapshot (`size > 0` tests the snapshot). */
  lemma RanksOfSize(teams: Snapshot)
    ensures |RanksOf(teams)| > 0 <==> teams != []
  {
    if teams != [] {
      var m := RanksOf(teams);
      assert teams[0].id in m.Keys;
      assert {teams[0].id} <= m.Keys;
    }
  }

  /** The `forEach` loop of `select`. */
  method CollectRanks(teams: Snapshot) returns (m: map<string, int>)
    ensures m == RanksOf(teams)
  {
    m := map[];
    var i := 0;
    while i < |teams|
      invariant i <= |teams|
      invariant m == RanksOf(teams[..i])
    {
      assert teams[..i + 1][..i] == teams[..i];
      m := m[teams[i].id := teams[i].rank];
      i := i + 1;
    }
    assert teams[..i] == teams;
  }

  /** What `select` keeps between calls: the snapshot it last saw
      (`previousLeaderboardRef`) and the baseline (`previousRanks`). */
  datatype Baseline = Baseline(previousLeaderboard: Snapshot, previousRanks: map<string, int>)

  const InitialBaseline := Baseline([], map[])

  datatype Selected = Selected(data: Snapshot, next: Baseline, announce: bool)

  /** One `select` call on `data`. The baseline is latched: it is set from the
      previously seen snapshot only while it is still empty, and never changes
      once it is not. The screen-reader announcement is due when the data is
      non-empty and the baseline (as it was before the call) is not. */
  function SelectStep(b: Baseline, data: Snapshot): (r: Selected)
    ensures r.data == data && r.next.previousLeaderboard == data
    ensures b.previousRanks != map[] ==> r.next.previousRanks == b.previousRanks
    ensures b.previousRanks == map[] ==> r.next.previousRanks == RanksOf(b.previousLeaderboard)
    ensures r.announce <==> data != [] && b.previousRanks != map[]
  {
    RanksOfSize(b.previousLeaderboard);
    var prevRanks := RanksOf(b.previousLeaderboard);
    var ranks := if |prevRanks| > 0 && |b.previousRanks| == 0 then prevRanks else b.previousRanks;
    Selected(data, Baseline(data, ranks), |data| > 0 && |b.previousRanks| > 0)
  }

  /** The baseline after `select` has run on each snapshot of `ds` in turn. */
  function SelectAll(b: Baseline, ds: seq<Snapshot>): Baseline
    decreases |ds|
  {
    if ds == [] then b else SelectAll(SelectStep(b, ds[0]).next, ds[1..])
  }

  /** Reference definition of the baseline a freshly mounted view ends up
      with after seeing `ds`: the rank map of the first non-empty snapshot
      that was followed by another one, or nothing. */
  function LatchedBaseline(ds: seq<Snapshot>): map<string, int>
    decreases |ds|
  {
    if |ds| < 2 then map[]
    else if ds[0] != [] then RanksOf(ds[0])
    else LatchedBaseline(ds[1..])
  }

  /** Once non-empty, the baseline survives every later snapshot unchanged. */
  lemma {:induction false} BaselineLatched(b: Baseline, ds: seq<Snapshot>)
    requires b.previousRanks != map[]
    ensures SelectAll(b, ds).previousRanks == b.previousRanks
    decreases |ds|
  {
    if ds != [] {
      BaselineLatched(SelectStep(b, ds[0]).next, ds[1..]);
    }
  }

  /** `select` always remembers the last snapshot it saw. */
  lemma {:induction false} PreviousIsLastSeen(b: Baseline, ds: seq<Snapshot>)
    requires ds != []
    ensures SelectAll(b, ds).previousLeaderboard == ds[|ds| - 1]
    decreases |ds|
  {
    if |ds| > 1 {
      PreviousIsLastSeen(SelectStep(b, ds[0]).next, ds[1..]);
    }
  }

  /** While the baseline is empty, the baseline after `ds` is the latched one
      of the sequence that starts with the snapshot seen last. */
  lemma {:induction false} BaselineFromEmpty(b: Baseline, ds: seq<Snapshot>)
    requires b.previousRanks == map[]
    ensures SelectAll(b, ds).previousRanks == LatchedBaseline([b.previousLeaderboard] + ds)
    decreases |ds|
  {
    if ds != [] {
      var next := SelectStep(b, ds[0]).next;
      var all := [b.previousLeaderboard] + ds;
      assert all[1..] == [next.previousLeaderboard] + ds[1..];
      if b.previousLeaderboard != [] {
        RanksOfSize(b.previousLeaderboard);
        assert next.previousRanks != map[];
        BaselineLatched(next, ds[1..]);
      } else {
        RanksOfSize(b.previousLeaderboard);
        BaselineFromEmpty(next, ds[1..]);
      }
    }
  }

  /** A freshly mounted view's baseline after any sequence of snapshots. */
  lemma BaselineOfFreshView(ds: seq<Snapshot>)
    ensures SelectAll(InitialBaseline, ds).previousRanks == LatchedBaseline(ds)
  {
    BaselineFromEmpty(InitialBaseline, ds);
    if ds != [] {
      assert ([[]] + ds)[1..] == ds;
    }
  }

  /** The first snapshot a fresh view sees yields no baseline, whatever it holds. */
  lemma FirstSnapshotNoBaseline(d: Snapshot)
    ensures SelectAll(InitialBaseline, [d]).previousRanks == map[]
  {
    BaselineOfFreshView([d]);
  }

  /** The baseline is not recomputed per transition: after three snapshots it
      still holds the ranks of the first one, not of the second. */
  lemma BaselineNotRecomputed(d1: Snapshot, d2: Snapshot, d3: Snapshot)
    requires d1 != []
    ensures SelectAll(InitialBaseline, [d1, d2, d3]).previousRanks == RanksOf(d1)
  {
    BaselineOfFreshView([d1, d2, d3]);
  }

  // ---------------------------------------------------------------------------
  // Connection and error state

  /** `isConnected` and `error` of the view. */
  datatype LinkState = LinkState(isConnected: bool, error: Option<string>)

  const InitialLink := LinkState(false, None)

  /** The view passes both callbacks and leaves `enabled` at its default. */
  const StreamOptions := LeaderboardSSE.Options(true, true, true)

  /** `onConnectionChange`: record the state; a connection clears the error. */
  function ConnectionChanged(s: LinkState, connected: bool): (r: LinkState)
    ensures r.isConnected == connected
    ensures r.error == if connected then None else s.error
  {
    LinkState(connected, if connected then None else s.error)
  }

  /** `onError`: show the given text. */
  function ErrorReported(s: LinkState, message: string): (r: LinkState)
    ensures r.isConnected == s.isConnected && r.error == Some(message)
  {
    s.(error := Some(message))
  }

  function ApplyCallback(s: LinkState, c: LeaderboardSSE.Callback): LinkState {
    match c
    case ConnectionChanged(connected) => ConnectionChanged(s, connected)
    case ErrorReported(message) => ErrorReported(s, message)
  }

  function ApplyCallbacks(s: LinkState, cs: seq<LeaderboardSSE.Callback>): LinkState
    decreases |cs|
  {
    if cs == [] then s else ApplyCallbacks(ApplyCallback(s, cs[0]), cs[1..])
  }

  /** A lost stream leaves the view disconnected with the reconnecting message. */
  lemma LostStreamShowsMessage(s: LinkState, st: LeaderboardSSE.ChannelState, h: nat)
    requires LeaderboardSSE.Inv(st) && LeaderboardSSE.IsLive(st, h)
    ensures var r := LeaderboardSSE.Step(StreamOptions, st, LeaderboardSSE.Errored(h));
      ApplyCallbacks(s, r.log[|st.log|..]) == LinkState(false, Some(LeaderboardSSE.ConnectionLostMessage))
  {
    var r := LeaderboardSSE.Step(StreamOptions, st, LeaderboardSSE.Errored(h));
    assert r.log[|st.log|..] ==
      [LeaderboardSSE.ConnectionChanged(false), LeaderboardSSE.ErrorReported(LeaderboardSSE.ConnectionLostMessage)];
    var cs := r.log[|st.log|..];
    var lost := ApplyCallback(s, cs[0]);
    assert lost == LinkState(false, s.error);
    assert ApplyCallbacks(s, cs) == ApplyCallbacks(lost, cs[1..]);
    assert cs[1..] == [LeaderboardSSE.ErrorReported(LeaderboardSSE.ConnectionLostMessage)];
    assert cs[1..][1..] == [];
  }

  /** An opened stream leaves the view connected with the error cleared. */
  lemma OpenedStreamClearsError(s: LinkState, st: LeaderboardSSE.ChannelState, h: nat)
    requires LeaderboardSSE.Inv(st) && h < |st.handles| && st.handles[h] == LeaderboardSSE.Connecting
    ensures var r := LeaderboardSSE.Step(StreamOptions, st, LeaderboardSSE.Opened(h));
      ApplyCallbacks(s, r.log[|st.log|..]) == LinkState(true, None)
  {
    var r := LeaderboardSSE.Step(StreamOptions, st, LeaderboardSSE.Opened(h));
    assert r.log[|st.log|..] == [LeaderboardSSE.ConnectionChanged(true)];
  }

  // ---------------------------------------------------------------------------
  // What to render

  /** The three podium places, in display order: second, first, third. */
  datatype Podium = Podium(left: LeaderboardTeam, middle: LeaderboardTeam, right: LeaderboardTeam)

  function PodiumOf(rows: Snapshot): (p: Option<Podium>)
    ensures p.Some? <==> |rows| >= 3
    ensures p.Some? ==> p.value.left == rows[1] && p.value.middle == rows[0] && p.value.right == rows[2]
  {
    if |rows| >= 3 then Some(Podium(rows[1], rows[0], rows[2])) else None
  }

  /** One card per row, in order, each handed the baseline rank recorded
      for its own id (undefined when the id has none). */
  function CardsOf(rows: Snapshot, ranks: map<string, int>): (cs: seq<CardView>)
    ensures |cs| == |rows|
    ensures forall i :: 0 <= i < |rows| ==>
      && cs[i].team == rows[i]
      && (cs[i].indicator.Some? <==> rows[i].id in ranks && ranks[rows[i].id] != rows[i].rank)
      && (rows[i].id !in ranks ==> cs[i].indicator.None?)
      && (rows[i].id in ranks ==> cs[i].indicator == RankIndicator(Some(ranks[rows[i].id]), rows[i].rank))
      && cs[i].badges == BadgeCount(rows[i].achievements)
  {
    seq(|rows|, i requires 0 <= i < |rows| => Card(rows[i], Lookup(ranks, rows[i].id)))
  }

  datatype Screen =
    | Spinner
    | ErrorPage(message: string)
    | Content(podium: Option<Podium>, cards: seq<CardView>, emptyNotice: bool)

  /** The view's decision, from the loading flag, its error and what is cached. */
  function ScreenFor(isLoading: bool, error: Option<string>, rows: Snapshot, ranks: map<string, int>): (v: Screen)
    ensures v.Spinner? <==> isLoading && rows == []
    ensures v.ErrorPage? <==> !isLoading && Truthy(error) && rows == []
    ensures v.ErrorPage? ==> v.message == error.value
    ensures rows != [] ==> v.Content? && v.cards == CardsOf(rows, ranks) && !v.emptyNotice
    ensures v.Content? ==> v.podium == PodiumOf(rows) && (v.emptyNotice <==> rows == [])
  {
    if isLoading && |rows| == 0 then Spinner
    else if Truthy(error) && |rows| == 0 then ErrorPage(error.value)
    else Content(PodiumOf(rows), CardsOf(rows, ranks), |rows| == 0)
  }

  /** Errors never hide cached rows. */
  lemma CachedRowsStayVisible(isLoading: bool, error: Option<string>, rows: Snapshot, ranks: map<string, int>)
    requires rows != []
    ensures ScreenFor(isLoading, error, rows, ranks).Content?
    ensures |ScreenFor(isLoading, error, rows, ranks).cards| == |rows|
  {
  }

  // ---------------------------------------------------------------------------
  // Two worked transitions

  /** A row with only an id and a rank that matter. */
  function Row(id: string, rank: int): LeaderboardTeam {
    LeaderboardTeam(id, id, None, None, 0, rank, 1, None)
  }

  /** A and B swap places, C stays: B shows up 1, A down 1, C nothing. */
  lemma SwapExample()
    ensures var before := [Row("A", 1), Row("B", 2), Row("C", 3)];
      var after := [Row("B", 1), Row("A", 2), Row("C", 3)];
      var cards := CardsOf(after, SelectAll(InitialBaseline, [before, after]).previousRanks);
      && cards[0].indicator == Some(Up(1))
      && cards[1].indicator == Some(Down(1))
      && cards[2].indicator.None?
  {
    var before := [Row("A", 1), Row("B", 2), Row("C", 3)];
    var after := [Row("B", 1), Row("A", 2), Row("C", 3)];
    BaselineOfFreshView([before, after]);
    SwapBaseline();
    var ranks := RanksOf(before);
    var cards := CardsOf(after, ranks);
    assert cards[0].indicator == RankIndicator(Some(2), 1);
    assert cards[1].indicator == RankIndicator(Some(1), 2);
    assert cards[2].indicator == RankIndicator(Some(3), 3);
  }

  lemma SwapBaseline()
    ensures var ranks := RanksOf([Row("A", 1), Row("B", 2), Row("C", 3)]);
      Lookup(ranks, "A") == Some(1) && Lookup(ranks, "B") == Some(2) &&
      Lookup(ranks, "C") == Some(3)
  {
    var before := [Row("A", 1), Row("B", 2), Row("C", 3)];
    RanksOfLastRowWins(before, 0);
    RanksOfLastRowWins(before, 1);
    RanksOfLastRowWins(before, 2);
  }

  /** A new entrant D gets no badge; A, pushed down by it, shows down 1. */
  lemma NewEntrantExample()
    ensures var before := [Row("A", 1)];
      var after := [Row("D", 1), Row("A", 2)];
      var cards := CardsOf(after, SelectAll(InitialBaseline, [before, after]).previousRanks);
      && cards[0].indicator.None?
      && cards[1].indicator == Some(Down(1))
  {
    var before := [Row("A", 1)];
    BaselineOfFreshView([before, [Row("D", 1), Row("A", 2)]]);
    RanksOfLastRowWins(before, 0);
    assert "D" !in RanksOf(before);
  }

  // ---------------------------------------------------------------------------
  // The component's mutable state

  class LeaderboardView {
    const queryClient: QueryCache.QueryClient
    var isConnected: bool
    var error: Option<string>
    var previousRanks: map<string, int>
    var previousLeaderboard: Snapshot
    /** How many times the update announcement has been written. */
    var announcements: nat

    constructor (queryClient: QueryCache.QueryClient)
      ensures this.queryClient == queryClient
      ensures LinkState(isConnected, error) == InitialLink
      ensures Baseline(previousLeaderboard, previousRanks) == InitialBaseline
      ensures announcements == 0
    {
      this.queryClient := queryClient;
      isConnected := false;
      error := None;
      previousRanks := map[];
      previousLeaderboard := [];
      announcements := 0;
    }

    method OnConnectionChange(connected: bool)
      modifies this
      ensures LinkState(isConnected, error) == ConnectionChanged(old(LinkState(isConnected, error)), connected)
      ensures previousRanks == old(previousRanks) && previousLeaderboard == old(previousLeaderboard)
      ensures announcements == old(announcements)
    {
      isConnected := connected;
      if connected {
        error := None;
      }
    }

    method OnError(message: string)
      modifies this
      ensures LinkState(isConnected, error) == ErrorReported(old(LinkState(isConnected, error)), message)
      ensures previousRanks == old(previousRanks) && previousLeaderboard == old(previousLeaderboard)
      ensures announcements == old(announcements)
    {
      error := Some(message);
    }

    /** `handleRefresh`: clear the error, then refetch; `pulled` is the
        fetched list, or `None` when the request failed. */
    method HandleRefresh(pulled: Option<Snapshot>)
      modifies this, queryClient
      ensures error.None? && isConnected == old(isConnected)
      ensures previousRanks == old(previousRanks) && previousLeaderboard == old(previousLeaderboard)
      ensures announcements == old(announcements)
      ensures queryClient.invalidated == old(queryClient.invalidated)
      ensures queryClient.data == match pulled
        case None => old(queryClient.data)
        case Some(s) => old(queryClient.data)[QueryCache.LeaderboardKey := s]
    {
      error := None;
      match pulled
      case None =>
      case Some(s) => queryClient.SetQueryData(QueryCache.LeaderboardKey, s);
    }

    /** `select`: returns the data unchanged, remembers it, latches the
        baseline and possibly announces the update. */
    method Select(data: Snapshot) returns (r: Snapshot)
      modifies this
      ensures var step := SelectStep(old(Baseline(previousLeaderboard, previousRanks)), data);
        && r == data
        && Baseline(previousLeaderboard, previousRanks) == step.next
        && announcements == old(announcements) + (if step.announce then 1 else 0)
      ensures isConnected == old(isConnected) && error == old(error)
    {
      var prevRanks := CollectRanks(previousLeaderboard);
      var seenRanks := previousRanks;
      if |prevRanks| > 0 && |previousRanks| == 0 {
        previousRanks := prevRanks;
      }
      previousLeaderboard := data;
      if |data| > 0 && |seenRanks| > 0 {
        announcements := announcements + 1;
      }
      r := data;
    }
  }
}
