/** The problem table: the search and filter predicate, the sorted company and
    tag lists, the solved-id set, the row selection built from it, the solved
    count, the header checkbox, and the difficulty and tag cells. */
module DataTable {
  import opened Wrappers
  import opened JsText
  import opened Seqs

  /** A row of the table. `problemSolved` is the list of solve records the
      server attaches; only whether it is non-empty matters here. */
  datatype Problem = Problem(
    id: string,
    title: string,
    description: string,
    difficulty: string,
    tags: Option<seq<string>>,
    company: Option<string>,
    problemSolved: Option<seq<string>>)

  /** The four filter controls; "all" switches a select filter off. */
  datatype Filters = Filters(search: string, company: string, difficulty: string, tag: string)

  const ALL := "all"

  // Filtering.

  predicate MatchesSearch(item: Problem, search: string) {
    search == []
    || Includes(ToLower(item.title), ToLower(search))
    || Includes(ToLower(item.description), ToLower(search))
  }

  predicate MatchesCompany(item: Problem, company: string) {
    company == ALL || item.company == Some(company)
  }

  predicate MatchesDifficulty(item: Problem, difficulty: string) {
    difficulty == ALL || EqualsIgnoreCase(item.difficulty, difficulty)
  }

  predicate MatchesTag(item: Problem, tag: string) {
    tag == ALL || (item.tags.Some? && tag in item.tags.value)
  }

  /** The predicate `filteredData` keeps an item by. */
  predicate Matches(item: Problem, f: Filters) {
    MatchesSearch(item, f.search) && MatchesCompany(item, f.company)
    && MatchesDifficulty(item, f.difficulty) && MatchesTag(item, f.tag)
  }

  /** `filteredData`: exactly the matching items, in the order of `data`. */
  function FilterData(data: seq<Problem>, f: Filters): (r: seq<Problem>)
    ensures |r| <= |data|
    ensures forall x :: x in r <==> x in data && Matches(x, f)
    ensures IsSubsequence(r, data)
  {
    if data == [] then []
    else if Matches(data[0], f) then [data[0]] + FilterData(data[1..], f)
    else FilterData(data[1..], f)
  }

  /** Filtering keeps every copy of a matching item and no copy of any other. */
  lemma {:induction false} FilterDataCounts(data: seq<Problem>, f: Filters, x: Problem)
    ensures multiset(FilterData(data, f))[x] == if Matches(x, f) then multiset(data)[x] else 0
  {
    if data != [] {
      assert data == [data[0]] + data[1..];
      FilterDataCounts(data[1..], f, x);
    }
  }

  /** The state `clearFilters` leaves behind. */
  function ClearFilters(): Filters {
    Filters([], ALL, ALL, ALL)
  }

  /** `hasActiveFilters`: the search is non-empty or some select is not "all". */
  predicate HasActiveFilters(f: Filters) {
    f.search != [] || f.company != ALL || f.difficulty != ALL || f.tag != ALL
  }

  /** No filter is active exactly in the cleared state. */
  lemma ClearedIffInactive(f: Filters)
    ensures !HasActiveFilters(f) <==> f == ClearFilters()
    ensures !HasActiveFilters(ClearFilters())
  {
  }

  /** With every filter off, the table shows all of `data`. */
  lemma {:induction false} ClearedKeepsAll(data: seq<Problem>)
    ensures FilterData(data, ClearFilters()) == data
  {
    if data != [] {
      ClearedKeepsAll(data[1..]);
    }
  }

  // The select options: sorted, without duplicates.

  predicate StrictlySorted(s: seq<string>) {
    forall i, j :: 0 <= i < j < |s| ==> StrLess(s[i], s[j])
  }

  lemma StrictlySortedNoDuplicates(s: seq<string>)
    requires StrictlySorted(s)
    ensures NoDuplicates(s)
  {
    forall i, j | 0 <= i < j < |s| ensures s[i] != s[j] {
      if s[i] == s[j] {
        StrLessIrreflexive(s[i]);
      }
    }
  }

  /** Put `x` into its place in a sorted list, unless it is there already. */
  function Insert(s: seq<string>, x: string): (r: seq<string>)
    requires StrictlySorted(s)
    ensures StrictlySorted(r)
    ensures forall y :: y in r <==> y in s || y == x
  {
    if s == [] then [x]
    else if x == s[0] then s
    else if StrLess(x, s[0]) then
      forall j | 0 < j < |s| ensures StrLess(x, s[j]) {
        StrLessTransitive(x, s[0], s[j]);
      }
      [x] + s
    else
      StrLessTotal(x, s[0]);
      var t := Insert(s[1..], x);
      assert forall y :: y in t ==> StrLess(s[0], y);
      [s[0]] + t
  }

  /** `Array.from(new Set(xs)).sort()`. */
  function SortedDistinct(xs: seq<string>): (r: seq<string>)
    ensures StrictlySorted(r)
    ensures forall y :: y in r <==> y in xs
  {
    if xs == [] then [] else Insert(SortedDistinct(xs[..|xs| - 1]), xs[|xs| - 1])
  }

  /** The truthy companies of `data`, in row order. */
  function CompanyValues(data: seq<Problem>): (r: seq<string>)
    ensures forall c :: c in r <==> c != [] && exists i :: 0 <= i < |data| && data[i].company == Some(c)
  {
    if data == [] then []
    else
      var rest := CompanyValues(data[1..]);
      assert forall i :: 0 < i < |data| ==> data[i] == data[1..][i - 1];
      match data[0].company
      case Some(c) => if c != [] then [c] + rest else rest
      case None => rest
  }

  /** All tags of `data`, a missing list counting as none. */
  function TagValues(data: seq<Problem>): (r: seq<string>)
    ensures forall t :: t in r <==> exists i :: 0 <= i < |data| && data[i].tags.Some? && t in data[i].tags.value
  {
    if data == [] then []
    else
      var rest := TagValues(data[1..]);
      assert forall i :: 0 < i < |data| ==> data[i] == data[1..][i - 1];
      data[0].tags.GetOr([]) + rest
  }

  /** `companies`: sorted, duplicate-free, and exactly the truthy companies. */
  function Companies(data: seq<Problem>): (r: seq<string>)
    ensures StrictlySorted(r) && NoDuplicates(r)
    ensures forall c :: c in r <==> c != [] && exists i :: 0 <= i < |data| && data[i].company == Some(c)
  {
    var r := SortedDistinct(CompanyValues(data));
    StrictlySortedNoDuplicates(r);
    r
  }

  /** `allTags`: the sorted, duplicate-free union of every row's tags. */
  function AllTags(data: seq<Problem>): (r: seq<string>)
    ensures StrictlySorted(r) && NoDuplicates(r)
    ensures forall t :: t in r <==> exists i :: 0 <= i < |data| && data[i].tags.Some? && t in data[i].tags.value
  {
    var r := SortedDistinct(TagValues(data));
    StrictlySortedNoDuplicates(r);
    r
  }

  // The solved ids.

  predicate IsSolvedRow(p: Problem) {
    p.problemSolved.Some? && |p.problemSolved.value| > 0
  }

  /** The ids of the rows with a solve record, in row order. */
  function SolvedRowIds(data: seq<Problem>): (r: seq<string>)
    ensures forall x :: x in r <==> exists i :: 0 <= i < |data| && IsSolvedRow(data[i]) && data[i].id == x
  {
    if data == [] then []
    else
      var rest := SolvedRowIds(data[..|data| - 1]);
      assert forall i :: 0 <= i < |data| - 1 ==> data[i] == data[..|data| - 1][i];
      var last := data[|data| - 1];
      rest + (if IsSolvedRow(last) then [last.id] else [])
  }

  /** The ids of the solved rows added to an empty set one row at a time. */
  method AddSolvedRows(data: seq<Problem>) returns (ids: seq<string>)
    ensures ids == Dedup(SolvedRowIds(data))
  {
    ids := [];
    var i := 0;
    while i < |data|
      invariant 0 <= i <= |data|
      invariant ids == Dedup(SolvedRowIds(data[..i]))
    {
      assert data[..i + 1][..i] == data[..i];
      var prev := SolvedRowIds(data[..i]);
      if IsSolvedRow(data[i]) {
        assert SolvedRowIds(data[..i + 1]) == prev + [data[i].id];
        DedupSnoc(prev, data[i].id);
        if data[i].id !in ids {
          ids := ids + [data[i].id];
        }
      } else {
        assert SolvedRowIds(data[..i + 1]) == prev;
      }
      i := i + 1;
    }
    assert data[..i] == data;
  }

  /** `solvedProblemIds`: the ids of solved rows, then the ids of the
      `solvedProblems` prop, each once; nothing when there is no data. */
  method SolvedProblemIds(initialData: Option<seq<Problem>>, solvedProblems: seq<string>)
    returns (ids: seq<string>)
    ensures initialData.None? ==> ids == []
    ensures initialData.Some? ==> ids == Dedup(SolvedRowIds(initialData.value) + solvedProblems)
  {
    if initialData.None? {
      return [];
    }
    var rowIds := AddSolvedRows(initialData.value);
    ids := AddEach(rowIds, SolvedRowIds(initialData.value), solvedProblems);
  }

  /** The solved-id list has no duplicates and holds exactly the ids of
      solved rows and of the prop. */
  lemma SolvedProblemIdsMembers(data: seq<Problem>, solvedProblems: seq<string>)
    ensures NoDuplicates(Dedup(SolvedRowIds(data) + solvedProblems))
    ensures forall x :: x in Dedup(SolvedRowIds(data) + solvedProblems) <==>
              (exists i :: 0 <= i < |data| && IsSolvedRow(data[i]) && data[i].id == x) || x in solvedProblems
  {
    DedupMembers(SolvedRowIds(data) + solvedProblems);
  }

  /** `rowSelection`: `true` under the id of every filtered row that is
      solved, and no other key. */
  method RowSelection(filtered: seq<Problem>, solvedIds: seq<string>) returns (selection: map<string, bool>)
    ensures forall id :: id in selection ==> selection[id]
    ensures forall id :: id in selection <==>
              id in solvedIds && exists i :: 0 <= i < |filtered| && filtered[i].id == id
  {
    selection := map[];
    var i := 0;
    while i < |filtered|
      invariant 0 <= i <= |filtered|
      invariant forall id :: id in selection ==> selection[id]
      invariant forall id :: id in selection <==>
                  id in solvedIds && exists k :: 0 <= k < i && filtered[k].id == id
    {
      if filtered[i].id in solvedIds {
        selection := selection[filtered[i].id := true];
      }
      i := i + 1;
    }
  }

  /** Whether each row's id is solved, in order. */
  function SolvedFlags(rows: seq<Problem>, solvedIds: seq<string>): (r: seq<bool>)
    ensures |r| == |rows| && forall i :: 0 <= i < |rows| ==> r[i] == (rows[i].id in solvedIds)
  {
    seq(|rows|, i requires 0 <= i < |rows| => rows[i].id in solvedIds)
  }

  /** `solvedProblemsCount`: how many rows have a solved id. */
  function SolvedCount(rows: seq<Problem>, solvedIds: seq<string>): (n: nat)
    ensures n == multiset(SolvedFlags(rows, solvedIds))[true]
    ensures n <= |rows|
    ensures n == 0 <==> forall i :: 0 <= i < |rows| ==> rows[i].id !in solvedIds
    ensures n == |rows| <==> forall i :: 0 <= i < |rows| ==> rows[i].id in solvedIds
  {
    if rows == [] then 0
    else
      var rest := SolvedCount(rows[1..], solvedIds);
      assert forall i :: 0 < i < |rows| ==> rows[i] == rows[1..][i - 1];
      assert SolvedFlags(rows, solvedIds) == [rows[0].id in solvedIds] + SolvedFlags(rows[1..], solvedIds);
      (if rows[0].id in solvedIds then 1 else 0) + rest
  }

  /** The header checkbox is checked when every row of a non-empty page is solved. */
  predicate AllPageRowsSolved(page: seq<Problem>, solvedIds: seq<string>) {
    |page| > 0 && SolvedCount(page, solvedIds) == |page|
  }

  /** The header checkbox is indeterminate when some, not all, rows are solved. */
  predicate SomePageRowsSolved(page: seq<Problem>, solvedIds: seq<string>) {
    SolvedCount(page, solvedIds) > 0 && SolvedCount(page, solvedIds) < |page|
  }

  lemma HeaderStates(page: seq<Problem>, solvedIds: seq<string>)
    ensures AllPageRowsSolved(page, solvedIds) <==>
              |page| > 0 && forall i :: 0 <= i < |page| ==> page[i].id in solvedIds
    ensures SomePageRowsSolved(page, solvedIds) <==>
              (exists i :: 0 <= i < |page| && page[i].id in solvedIds)
              && (exists i :: 0 <= i < |page| && page[i].id !in solvedIds)
    ensures !(AllPageRowsSolved(page, solvedIds) && SomePageRowsSolved(page, solvedIds))
  {
  }

  // The cells.

  const EASY_STYLE := "bg-green-100 text-green-800 border-green-200 dark:bg-green-900/20 dark:text-green-400 dark:border-green-800"
  const MEDIUM_STYLE := "bg-yellow-100 text-yellow-800 border-yellow-200 dark:bg-yellow-900/20 dark:text-yellow-400 dark:border-yellow-800"
  const HARD_STYLE := "bg-red-100 text-red-800 border-red-200 dark:bg-red-900/20 dark:text-red-400 dark:border-red-800"
  const DEFAULT_STYLE := "bg-gray-100 text-gray-800 border-gray-200 dark:bg-gray-900/20 dark:text-gray-400 dark:border-gray-800"

  /** The `DifficultyCell` style: chosen by the lowercased difficulty, the
      default style for a missing, empty or unknown one. */
  function DifficultyStyle(difficulty: Option<string>): (style: string)
    ensures style == EASY_STYLE <==> difficulty.Some? && ToLower(difficulty.value) == "easy"
    ensures style == MEDIUM_STYLE <==> difficulty.Some? && ToLower(difficulty.value) == "medium"
    ensures style == HARD_STYLE <==> difficulty.Some? && ToLower(difficulty.value) == "hard"
    ensures style == DEFAULT_STYLE <==>
              difficulty.None? || ToLower(difficulty.value) !in ["easy", "medium", "hard"]
  {
    var key := if difficulty.None? || difficulty.value == [] then "default" else ToLower(difficulty.value);
    if key == "easy" then EASY_STYLE
    else if key == "medium" then MEDIUM_STYLE
    else if key == "hard" then HARD_STYLE
    else DEFAULT_STYLE
  }

  /** The tags `TagsCell` shows: the first two, none when the list is missing. */
  function ShownTags(tags: Option<seq<string>>): (shown: seq<string>)
    ensures |shown| <= 2
    ensures tags.None? ==> shown == []
    ensures tags.Some? ==> shown <= tags.value
    ensures tags.Some? && |tags.value| <= 2 ==> shown == tags.value
    ensures tags.Some? && |tags.value| > 2 ==> shown == tags.value[..2]
  {
    match tags
    case None => []
    case Some(t) => if |t| <= 2 then t else t[..2]
  }
}
