/** The analytics page's playlist overview: progress by exact status, the
    totals, the colour and icon lookups, the create guard and expanding a
    playlist. */
module Analytics {
  import opened Wrappers
  import opened JsText
  import opened Numbers
  import opened PlaylistForm

  /** A playlist problem as this page reads it: only its `status`. */
  datatype Entry = Entry(status: Option<string>)

  datatype PlaylistView = PlaylistView(id: string, problems: Option<seq<Entry>>)

  /** The entries' statuses, in order. */
  function Statuses(entries: seq<Entry>): (r: seq<Option<string>>)
    ensures |r| == |entries| && forall i :: 0 <= i < |entries| ==> r[i] == entries[i].status
  {
    seq(|entries|, i requires 0 <= i < |entries| => entries[i].status)
  }

  /** Entries whose status is exactly "solved" (no case folding). */
  function SolvedCount(entries: seq<Entry>): (n: nat)
    ensures n == multiset(Statuses(entries))[Some("solved")]
    ensures n <= |entries|
    ensures n == 0 <==> forall i :: 0 <= i < |entries| ==> entries[i].status != Some("solved")
    ensures n == |entries| <==> forall i :: 0 <= i < |entries| ==> entries[i].status == Some("solved")
  {
    if entries == [] then 0
    else
      var rest := SolvedCount(entries[1..]);
      assert forall i :: 0 < i < |entries| ==> entries[i] == entries[1..][i - 1];
      assert Statuses(entries) == [entries[0].status] + Statuses(entries[1..]);
      (if entries[0].status == Some("solved") then 1 else 0) + rest
  }

  /** `calculateProgress`: the rounded percentage of entries marked exactly
      "solved", 0 for a missing or empty list. */
  function Progress(problems: Option<seq<Entry>>): (p: nat)
    ensures p <= 100
    ensures problems.None? || problems.value == [] ==> p == 0
    ensures problems.Some? && problems.value != [] ==>
              var n, k := |problems.value|, SolvedCount(problems.value);
              RoundsTo(p, 100 * k, n)
  {
    match problems
    case None => 0
    case Some(list) => if list == [] then 0 else Percent(SolvedCount(list), |list|)
  }

  /** The match is case-sensitive: a list marked "Solved" shows no progress. */
  lemma ProgressIsCaseSensitive()
    ensures Progress(Some([Entry(Some("Solved"))])) == 0
    ensures Progress(Some([Entry(Some("solved"))])) == 100
    ensures Progress(Some([Entry(Some("solved")), Entry(Some("attempted"))])) == 50
  {
    assert SolvedCount([Entry(Some("solved")), Entry(Some("attempted"))]) == 1;
    RoundHalfUpExact(50, 2);
  }

  /** The number of problems each playlist holds, 0 for a missing list. */
  function ProblemCounts(playlists: seq<PlaylistView>): (r: seq<nat>)
    ensures |r| == |playlists|
    ensures forall i :: 0 <= i < |playlists| ==>
              r[i] == if playlists[i].problems.Some? then |playlists[i].problems.value| else 0
  {
    seq(|playlists|, i requires 0 <= i < |playlists| =>
      if playlists[i].problems.Some? then |playlists[i].problems.value| else 0)
  }

  /** `totalProblems`: every playlist's problem count added up. */
  function TotalProblems(playlists: seq<PlaylistView>): (n: nat)
    ensures n == Sum(ProblemCounts(playlists))
    ensures playlists == [] ==> n == 0
    ensures forall i :: 0 <= i < |playlists| && playlists[i].problems.Some? ==> |playlists[i].problems.value| <= n
  {
    var lists := seq(|playlists|, i requires 0 <= i < |playlists| => playlists[i].problems);
    assert forall i :: 0 <= i < |playlists| ==> lists[i] == playlists[i].problems;
    assert Lengths(lists) == ProblemCounts(playlists);
    SumLengths(lists)
  }

  /** Adding a playlist adds its problem count to the total. */
  lemma TotalProblemsAppend(playlists: seq<PlaylistView>, p: PlaylistView)
    ensures TotalProblems(playlists + [p]) ==
            TotalProblems(playlists) + (if p.problems.Some? then |p.problems.value| else 0)
  {
    assert ProblemCounts(playlists + [p])[..|playlists|] == ProblemCounts(playlists);
  }

  /** The progress of each playlist. */
  function ProgressValues(playlists: seq<PlaylistView>): (r: seq<nat>)
    ensures |r| == |playlists|
    ensures forall i :: 0 <= i < |playlists| ==> r[i] == Progress(playlists[i].problems) && r[i] <= 100
  {
    seq(|playlists|, i requires 0 <= i < |playlists| => Progress(playlists[i].problems))
  }

  /** `avgProgress`: the mean of the progress values rounded to the
      nearest integer (ties up), 0 without playlists. */
  function AvgProgress(playlists: seq<PlaylistView>): (p: nat)
    ensures p <= 100
    ensures playlists == [] ==> p == 0
    ensures playlists != [] ==> RoundsTo(p, Sum(ProgressValues(playlists)), |playlists|)
    ensures playlists != [] && (forall i :: 0 <= i < |playlists| ==> Progress(playlists[i].problems) == 100) ==> p == 100
  {
    RoundedMean(ProgressValues(playlists))
  }


  const GREEN := "text-green-600 bg-green-50 border-green-200"
  const YELLOW := "text-yellow-600 bg-yellow-50 border-yellow-200"
  const RED := "text-red-600 bg-red-50 border-red-200"
  const GRAY := "text-gray-600 bg-gray-50 border-gray-200"

  /** `getDifficultyColor`: a switch on the uppercased difficulty, gray by default. */
  function DifficultyColor(difficulty: Option<string>): (c: string)
    ensures c == GREEN <==> difficulty.Some? && ToUpper(difficulty.value) == "EASY"
    ensures c == YELLOW <==> difficulty.Some? && ToUpper(difficulty.value) == "MEDIUM"
    ensures c == RED <==> difficulty.Some? && ToUpper(difficulty.value) == "HARD"
    ensures c == GRAY <==> difficulty.None? || ToUpper(difficulty.value) !in ["EASY", "MEDIUM", "HARD"]
  {
    match difficulty
    case None => GRAY
    case Some(d) =>
      var key := ToUpper(d);
      if key == "EASY" then GREEN else if key == "MEDIUM" then YELLOW else if key == "HARD" then RED else GRAY
  }

  datatype StatusIcon = CheckCircle | AlertCircle | XCircle

  /** `getStatusIcon`: solved and attempted have their own icons; "unsolved"
      and every other status get the unsolved one. */
  function IconFor(status: Option<string>): (icon: StatusIcon)
    ensures icon == CheckCircle <==> status == Some("solved")
    ensures icon == AlertCircle <==> status == Some("attempted")
    ensures icon == XCircle <==> status != Some("solved") && status != Some("attempted")
  {
    if status == Some("solved") then CheckCircle
    else if status == Some("attempted") then AlertCircle
    else XCircle
  }

  /** The page state `handleCreatePlaylist` and `toggleExpand` work on. */
  datatype PageState = PageState(expandedPlaylist: Option<string>, isCreateDialogOpen: bool, newPlaylist: PlaylistInput)

  /** The create call `handleCreatePlaylist` makes: none for a blank name,
      otherwise the input exactly as typed (it is not trimmed here). */
  function CreateCall(s: PageState): (request: Option<PlaylistInput>)
    ensures request.None? <==> AllSpace(s.newPlaylist.name)
    ensures request.Some? ==> request.value == s.newPlaylist
  {
    if Trim(s.newPlaylist.name) == [] then None else Some(s.newPlaylist)
  }

  /** The state after `handleCreatePlaylist`, given whether the call succeeded. */
  function AfterCreate(s: PageState, succeeded: bool): (t: PageState)
    ensures CreateCall(s).None? || !succeeded ==> t == s
    ensures CreateCall(s).Some? && succeeded ==> !t.isCreateDialogOpen && t.newPlaylist == EMPTY_INPUT
    ensures t.expandedPlaylist == s.expandedPlaylist
  {
    if CreateCall(s).Some? && succeeded then s.(isCreateDialogOpen := false, newPlaylist := EMPTY_INPUT) else s
  }

  /** `toggleExpand`: the new expanded id, and the playlist whose details are
      fetched (only when one is being opened). */
  function ToggleExpand(s: PageState, id: string): (r: (PageState, Option<string>))
    ensures s.expandedPlaylist == Some(id) ==> r.0.expandedPlaylist == None && r.1 == None
    ensures s.expandedPlaylist != Some(id) ==> r.0.expandedPlaylist == Some(id) && r.1 == Some(id)
    ensures r.0.isCreateDialogOpen == s.isCreateDialogOpen && r.0.newPlaylist == s.newPlaylist
  {
    if s.expandedPlaylist == Some(id) then (s.(expandedPlaylist := None), None)
    else (s.(expandedPlaylist := Some(id)), Some(id))
  }

  /** A padded name passes the guard and reaches the store untrimmed. */
  lemma CreateSendsUntrimmed()
    ensures CreateCall(PageState(None, true, PlaylistInput(" Graphs ", ""))) == Some(PlaylistInput(" Graphs ", ""))
  {
    assert !IsSpace(" Graphs "[1]);
  }
}
