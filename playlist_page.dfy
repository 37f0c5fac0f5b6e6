/** The playlists page: whether a problem counts as solved, the progress of a
    playlist, the summary statistics, the difficulty colour, the tag badges,
    and the page state behind expanding a playlist and the create dialog. */
module PlaylistPage {
  import opened Wrappers
  import opened JsText
  import opened Numbers
  import opened PlaylistForm
  import DataTable

  /** What the page reads of a problem: `userId` when it is an array and
      `status` when it is a string (`None` otherwise), and the display fields. */
  datatype ProblemInfo = ProblemInfo(
    userId: Option<seq<string>>,
    status: Option<string>,
    difficulty: Option<string>,
    tags: Option<seq<string>>)

  /** A playlist entry: either a wrapper holding the problem, or the problem itself. */
  datatype Entry = Entry(problem: Option<ProblemInfo>, self: ProblemInfo)

  datatype PlaylistView = PlaylistView(id: string, problems: Option<seq<Entry>>)

  /** `isSolved`: a missing problem is not solved; a non-empty `userId` list
      makes it solved; otherwise only a string status equal to "solved",
      ignoring case, does. */
  predicate IsSolved(problem: Option<ProblemInfo>) {
    match problem
    case None => false
    case Some(p) =>
      if p.userId.Some? && |p.userId.value| > 0 then true
      else if p.status.Some? then ToLower(p.status.value) == "solved"
      else false
  }

  lemma IsSolvedRules(p: ProblemInfo)
    ensures !IsSolved(None)
    ensures p.userId.Some? && |p.userId.value| > 0 ==> IsSolved(Some(p))
    ensures IsSolved(Some(p.(userId := None))) <==> p.status.Some? && EqualsIgnoreCase(p.status.value, "solved")
    ensures IsSolved(Some(ProblemInfo(None, Some("SOLVED"), None, None)))
  {
    assert ToLower("SOLVED") == "solved";
    assert ToLower("solved") == "solved";
  }

  /** `p?.problem || p`. */
  function Unwrap(e: Entry): ProblemInfo {
    e.problem.GetOr(e.self)
  }

  /** Whether each entry counts as solved, in order. */
  function SolvedFlags(entries: seq<Entry>): (r: seq<bool>)
    ensures |r| == |entries| && forall i :: 0 <= i < |entries| ==> r[i] == IsSolved(Some(Unwrap(entries[i])))
  {
    seq(|entries|, i requires 0 <= i < |entries| => IsSolved(Some(Unwrap(entries[i]))))
  }

  /** How many entries count as solved. */
  function SolvedEntries(entries: seq<Entry>): (n: nat)
    ensures n == multiset(SolvedFlags(entries))[true]
    ensures n <= |entries|
    ensures n == 0 <==> forall i :: 0 <= i < |entries| ==> !IsSolved(Some(Unwrap(entries[i])))
    ensures n == |entries| <==> forall i :: 0 <= i < |entries| ==> IsSolved(Some(Unwrap(entries[i])))
  {
    if entries == [] then 0
    else
      var rest := SolvedEntries(entries[1..]);
      assert forall i :: 0 < i < |entries| ==> entries[i] == entries[1..][i - 1];
      SolvedFlagsCons(entries);
      (if IsSolved(Some(Unwrap(entries[0]))) then 1 else 0) + rest
  }

  lemma SolvedFlagsCons(entries: seq<Entry>)
    requires entries != []
    ensures SolvedFlags(entries) == [IsSolved(Some(Unwrap(entries[0])))] + SolvedFlags(entries[1..])
  {
    assert forall i :: 0 < i < |entries| ==> entries[i] == entries[1..][i - 1];
  }

  /** `calculateProgress`: the rounded percentage of solved entries, 0 for a
      missing or empty list; all solved gives 100 and none solved 0. */
  function Progress(problems: Option<seq<Entry>>): (p: nat)
    ensures p <= 100
    ensures problems.None? || problems.value == [] ==> p == 0
    ensures problems.Some? && problems.value != [] ==>
              var n, k := |problems.value|, SolvedEntries(problems.value);
              RoundsTo(p, 100 * k, n)
    ensures problems.Some? && problems.value != [] ==>
              (forall i :: 0 <= i < |problems.value| ==> IsSolved(Some(Unwrap(problems.value[i])))) ==> p == 100
    ensures problems.Some? && (forall i :: 0 <= i < |problems.value| ==> !IsSolved(Some(Unwrap(problems.value[i])))) ==> p == 0
  {
    match problems
    case None => 0
    case Some(list) => if list == [] then 0 else Percent(SolvedEntries(list), |list|)
  }

  function ProblemLists(playlists: seq<PlaylistView>): seq<Option<seq<Entry>>> {
    seq(|playlists|, i requires 0 <= i < |playlists| => playlists[i].problems)
  }

  /** The number of problems each playlist holds, 0 for a missing list. */
  function ProblemCounts(playlists: seq<PlaylistView>): (r: seq<nat>)
    ensures |r| == |playlists|
    ensures forall i :: 0 <= i < |playlists| ==>
              r[i] == if playlists[i].problems.Some? then |playlists[i].problems.value| else 0
  {
    seq(|playlists|, i requires 0 <= i < |playlists| =>
      if playlists[i].problems.Some? then |playlists[i].problems.value| else 0)
  }

  /** `stats.totalProblems`: every playlist's problem count added up. */
  function TotalProblems(playlists: seq<PlaylistView>): (n: nat)
    ensures n == Sum(ProblemCounts(playlists))
    ensures playlists == [] ==> n == 0
    ensures forall i :: 0 <= i < |playlists| && playlists[i].problems.Some? ==> |playlists[i].problems.value| <= n
  {
    var lists := ProblemLists(playlists);
    assert forall i :: 0 <= i < |playlists| ==> lists[i] == playlists[i].problems;
    assert Lengths(lists) == ProblemCounts(playlists);
    SumLengths(lists)
  }

  /** Adding a playlist adds its problem count to the total. */
  lemma TotalProblemsAppend(playlists: seq<PlaylistView>, p: PlaylistView)
    ensures TotalProblems(playlists + [p]) ==
            TotalProblems(playlists) + (if p.problems.Some? then |p.problems.value| else 0)
  {
    assert ProblemCounts(playlists + [p])[..|playlists|] == ProblemCounts(playlists);
  }

  /** The progress of each playlist. */
  function ProgressValues(playlists: seq<PlaylistView>): (r: seq<nat>)
    ensures |r| == |playlists|
    ensures forall i :: 0 <= i < |playlists| ==> r[i] == Progress(playlists[i].problems) && r[i] <= 100
  {
    seq(|playlists|, i requires 0 <= i < |playlists| => Progress(playlists[i].problems))
  }

  /** `stats.avgProgress`: the mean of the progress values rounded to the
      nearest integer (ties up), 0 without playlists. */
  function AvgProgress(playlists: seq<PlaylistView>): (p: nat)
    ensures p <= 100
    ensures playlists == [] ==> p == 0
    ensures playlists != [] ==> RoundsTo(p, Sum(ProgressValues(playlists)), |playlists|)
    ensures playlists != [] && (forall i :: 0 <= i < |playlists| ==> Progress(playlists[i].problems) == 100) ==> p == 100
  {
    RoundedMean(ProgressValues(playlists))
  }


  const GREEN := "bg-green-100 text-green-800 border-green-200 dark:bg-green-900/20 dark:text-green-400 dark:border-green-800"
  const YELLOW := "bg-yellow-100 text-yellow-800 border-yellow-200 dark:bg-yellow-900/20 dark:text-yellow-400 dark:border-yellow-800"
  const RED := "bg-red-100 text-red-800 border-red-200 dark:bg-red-900/20 dark:text-red-400 dark:border-red-800"
  const GRAY := "text-gray-600 bg-gray-50 border-gray-200"

  /** `getDifficultyColor`: looked up by the uppercased difficulty, gray when
      it is missing or not one of the three. */
  function DifficultyColor(difficulty: Option<string>): (c: string)
    ensures c == GREEN <==> difficulty.Some? && ToUpper(difficulty.value) == "EASY"
    ensures c == YELLOW <==> difficulty.Some? && ToUpper(difficulty.value) == "MEDIUM"
    ensures c == RED <==> difficulty.Some? && ToUpper(difficulty.value) == "HARD"
    ensures c == GRAY <==> difficulty.None? || ToUpper(difficulty.value) !in ["EASY", "MEDIUM", "HARD"]
  {
    match difficulty
    case None => GRAY
    case Some(d) =>
      var key := ToUpper(d);
      if key == "EASY" then GREEN else if key == "MEDIUM" then YELLOW else if key == "HARD" then RED else GRAY
  }

  /** The "+N" badge after the first two tags: present only past two tags. */
  function ExtraTagCount(tags: Option<seq<string>>): (n: Option<nat>)
    ensures n.Some? <==> tags.Some? && |tags.value| > 2
    ensures n.Some? ==> n.value == |tags.value| - 2 && n.value > 0
  {
    if tags.Some? && |tags.value| > 2 then Some(|tags.value| - 2) else None
  }

  /** The two shown tags and the badge account for every tag exactly once. */
  lemma TagBadgesCoverAll(tags: seq<string>)
    ensures |DataTable.ShownTags(Some(tags))| + ExtraTagCount(Some(tags)).GetOr(0) == |tags|
  {
  }

  /** `toggleExpand`: collapse the playlist that is open, open any other. */
  function Toggled(expanded: Option<string>, id: string): (next: Option<string>)
    ensures next == None <==> expanded == Some(id)
    ensures next != None ==> next == Some(id)
  {
    if expanded == Some(id) then None else Some(id)
  }

  /** Toggling the same id twice restores the state exactly when nothing or
      that same playlist was open; from another open playlist it ends closed. */
  lemma ToggleTwice(expanded: Option<string>, id: string)
    ensures Toggled(Toggled(expanded, id), id) == expanded <==> expanded == None || expanded == Some(id)
    ensures expanded != None && expanded != Some(id) ==> Toggled(Toggled(expanded, id), id) == None
  {
  }

  /** The page's own state around the create dialog and the expanded playlist. */
  class Page {
    var expandedPlaylist: Option<string>
    var newPlaylist: PlaylistInput
    var formErrors: FormErrors
    var isCreating: bool
    var isCreateDialogOpen: bool

    constructor ()
      ensures expandedPlaylist == None && newPlaylist == EMPTY_INPUT && formErrors == NO_ERRORS
      ensures !isCreating && !isCreateDialogOpen
    {
      expandedPlaylist := None;
      newPlaylist := EMPTY_INPUT;
      formErrors := NO_ERRORS;
      isCreating := false;
      isCreateDialogOpen := false;
    }

    method ToggleExpand(id: string)
      modifies this
      ensures expandedPlaylist == Toggled(old(expandedPlaylist), id)
      ensures newPlaylist == old(newPlaylist) && formErrors == old(formErrors)
      ensures isCreating == old(isCreating) && isCreateDialogOpen == old(isCreateDialogOpen)
    {
      expandedPlaylist := Toggled(expandedPlaylist, id);
    }

    /** `validateForm`: records the errors of the current input. */
    method ValidateForm() returns (valid: bool)
      modifies this
      ensures valid <==> |Trim(newPlaylist.name)| >= 3 && |newPlaylist.description| <= 500
      ensures valid <==> formErrors == NO_ERRORS
      ensures formErrors.name == Some(NAME_REQUIRED) <==> AllSpace(newPlaylist.name)
      ensures formErrors.description == Some(DESCRIPTION_TOO_LONG) <==> |newPlaylist.description| > 500
      ensures RecordedErrors(newPlaylist, formErrors)
      ensures newPlaylist == old(newPlaylist) && expandedPlaylist == old(expandedPlaylist)
      ensures isCreating == old(isCreating) && isCreateDialogOpen == old(isCreateDialogOpen)
    {
      var errors;
      errors, valid := PlaylistForm.ValidateForm(newPlaylist);
      formErrors := errors;
    }

    /** The first half of `handleCreatePlaylist`, up to the create call: an
        invalid form sends nothing; a valid one marks the page as creating
        and sends the trimmed fields. */
    method BeginCreate() returns (request: Option<PlaylistInput>)
      modifies this
      ensures request.None? <==> !(|Trim(newPlaylist.name)| >= 3 && |newPlaylist.description| <= 500)
      ensures request.None? <==> formErrors != NO_ERRORS
      ensures RecordedErrors(newPlaylist, formErrors)
      ensures request.Some? ==> request.value == CreateRequest(newPlaylist) && isCreating
      ensures request.None? ==> isCreating == old(isCreating)
      ensures newPlaylist == old(newPlaylist) && expandedPlaylist == old(expandedPlaylist)
      ensures isCreateDialogOpen == old(isCreateDialogOpen)
    {
      var valid := ValidateForm();
      if !valid {
        return None;
      }
      isCreating := true;
      request := Some(CreateRequest(newPlaylist));
    }

    /** The second half: on success the form is emptied, the errors cleared
        and the dialog closed; either way creating is over. */
    method FinishCreate(succeeded: bool)
      modifies this
      ensures !isCreating
      ensures succeeded ==> newPlaylist == EMPTY_INPUT && formErrors == NO_ERRORS && !isCreateDialogOpen
      ensures !succeeded ==> newPlaylist == old(newPlaylist) && formErrors == old(formErrors)
                             && isCreateDialogOpen == old(isCreateDialogOpen)
      ensures expandedPlaylist == old(expandedPlaylist)
    {
      if succeeded {
        newPlaylist := EMPTY_INPUT;
        formErrors := NO_ERRORS;
        isCreateDialogOpen := false;
      }
      isCreating := false;
    }

    /** `handleDialogClose`: a close request while not creating closes the
        dialog and clears the form; anything else changes nothing. */
    method HandleDialogClose(open: bool)
      modifies this
      ensures !open && !old(isCreating) ==>
                !isCreateDialogOpen && newPlaylist == EMPTY_INPUT && formErrors == NO_ERRORS
      ensures open || old(isCreating) ==>
                isCreateDialogOpen == old(isCreateDialogOpen) && newPlaylist == old(newPlaylist)
                && formErrors == old(formErrors)
      ensures isCreating == old(isCreating) && expandedPlaylist == old(expandedPlaylist)
    {
      if !open && !isCreating {
        isCreateDialogOpen := false;
        newPlaylist := EMPTY_INPUT;
        formErrors := NO_ERRORS;
      }
    }

    /** `handleDeletePlaylist` before the delete call: the playlist being
        deleted is collapsed if it was open. */
    method HandleDeletePlaylist(id: string)
      modifies this
      ensures old(expandedPlaylist) == Some(id) ==> expandedPlaylist == None
      ensures old(expandedPlaylist) != Some(id) ==> expandedPlaylist == old(expandedPlaylist)
      ensures newPlaylist == old(newPlaylist) && formErrors == old(formErrors)
      ensures isCreating == old(isCreating) && isCreateDialogOpen == old(isCreateDialogOpen)
    {
      if expandedPlaylist == Some(id) {
        expandedPlaylist := None;
      }
    }
  }

  /** `handleDeleteProblem` removes one problem by sending a one-element list. */
  function RemoveProblemIds(problemId: string): (ids: seq<string>)
    ensures |ids| == 1 && problemId in ids
  {
    [problemId]
  }
}
