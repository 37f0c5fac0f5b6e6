/** The profile page: submission statistics, the newest-first list of recent
    submissions, problem titles, the time-ago text, achievements and skill
    bars. Times are integers (milliseconds). */
module Profile {
  import opened Wrappers
  import opened JsText
  import opened Numbers
  import opened Seqs

  datatype Submission = Submission(id: string, problemId: string, status: string, language: string, createAt: int)

  datatype ProblemRef = ProblemRef(id: string, title: string)

  /** The statistics the page shows; the per-difficulty split is left out. */
  datatype UserStats = UserStats(
    totalSolved: nat,
    totalSubmissions: nat,
    acceptanceRate: nat,
    currentStreak: nat,
    maxStreak: nat,
    ranking: nat,
    reputation: nat)

  const ACCEPTED := "Accepted"

  /** The submissions' statuses, in order. */
  function Statuses(subs: seq<Submission>): (r: seq<string>)
    ensures |r| == |subs| && forall i :: 0 <= i < |subs| ==> r[i] == subs[i].status
  {
    seq(|subs|, i requires 0 <= i < |subs| => subs[i].status)
  }

  /** The problem ids of the accepted submissions, in order, duplicates
      kept: one id per submission whose status is "Accepted". */
  function AcceptedProblemIds(subs: seq<Submission>): (ids: seq<string>)
    ensures |ids| == multiset(Statuses(subs))[ACCEPTED]
    ensures |ids| <= |subs|
    ensures forall x :: x in ids <==> exists i :: 0 <= i < |subs| && subs[i].status == ACCEPTED && subs[i].problemId == x
  {
    if subs == [] then []
    else
      var rest := AcceptedProblemIds(subs[1..]);
      assert forall i :: 0 < i < |subs| ==> subs[i] == subs[1..][i - 1];
      assert Statuses(subs) == [subs[0].status] + Statuses(subs[1..]);
      (if subs[0].status == ACCEPTED then [subs[0].problemId] else []) + rest
  }

  /** The problems with at least one accepted submission. */
  ghost function SolvedProblems(subs: seq<Submission>): set<string> {
    set i | 0 <= i < |subs| && subs[i].status == ACCEPTED :: subs[i].problemId
  }

  /** `new Set(acceptedSubmissions.map(...)).size` counts the solved problems:
      no more than the accepted submissions, and none only when there are none. */
  lemma DistinctAccepted(subs: seq<Submission>)
    ensures |Dedup(AcceptedProblemIds(subs))| == |SolvedProblems(subs)|
    ensures |Dedup(AcceptedProblemIds(subs))| <= |AcceptedProblemIds(subs)|
    ensures Dedup(AcceptedProblemIds(subs)) == [] <==> AcceptedProblemIds(subs) == []
  {
    var ids := AcceptedProblemIds(subs);
    DedupCount(ids);
    DedupLength(ids);
    DedupEmpty(ids);
    assert (set x | x in ids) == SolvedProblems(subs);
  }

  /** `calculateUserStats`: all zero without submissions; otherwise the number
      of distinct problems with an accepted submission, and the rounded share
      of accepted submissions. */
  function CalculateUserStats(subs: seq<Submission>, currentStreak: nat, ranking: nat, reputation: nat): (s: UserStats)
    ensures subs == [] ==> s == UserStats(0, 0, 0, 0, 0, ranking, reputation)
    ensures s.totalSubmissions == |subs|
    ensures subs != [] ==> s.totalSolved == |SolvedProblems(subs)|
    ensures s.totalSolved <= |AcceptedProblemIds(subs)| <= s.totalSubmissions
    ensures s.acceptanceRate <= 100
    ensures subs != [] ==> RoundsTo(s.acceptanceRate, 100 * |AcceptedProblemIds(subs)|, |subs|)
    ensures s.totalSolved > 0 <==> |AcceptedProblemIds(subs)| > 0
    ensures subs != [] ==> s.currentStreak == currentStreak && s.maxStreak == 32
    ensures s.ranking == ranking && s.reputation == reputation
  {
    if subs == [] then UserStats(0, 0, 0, 0, 0, ranking, reputation)
    else
      var accepted := AcceptedProblemIds(subs);
      var unique := Dedup(accepted);
      DistinctAccepted(subs);
      var rate := Percent(|accepted|, |subs|);
      UserStats(|unique|, |subs|, rate, currentStreak, 32, ranking, reputation)
  }

  // Recent submissions.

  predicate NewestFirst(s: seq<Submission>) {
    forall k, l :: 0 <= k < l < |s| ==> s[k].createAt >= s[l].createAt
  }

  /** Exchange two neighbouring submissions. */
  method SwapWithPrevious(a: array<Submission>, j: int)
    requires 0 < j < a.Length
    modifies a
    ensures a[j - 1] == old(a[j]) && a[j] == old(a[j - 1])
    ensures forall m :: 0 <= m < a.Length && m != j - 1 && m != j ==> a[m] == old(a[m])
    ensures multiset(a[..]) == multiset(old(a[..]))
  {
    a[j - 1], a[j] := a[j], a[j - 1];
  }

  /** `submissions.sort(...)` by `createAt`, newest first, in place
      (insertion sort by neighbouring swaps). */
  method SortNewestFirst(a: array<Submission>)
    modifies a
    ensures NewestFirst(a[..])
    ensures multiset(a[..]) == multiset(old(a[..]))
  {
    var i := 0;
    while i < a.Length
      invariant 0 <= i <= a.Length
      invariant forall k, l :: 0 <= k < l < i ==> a[k].createAt >= a[l].createAt
      invariant multiset(a[..]) == multiset(old(a[..]))
    {
      var j := i;
      while j > 0 && a[j - 1].createAt < a[j].createAt
        invariant 0 <= j <= i
        invariant forall k, l :: 0 <= k < l <= i && k != j && l != j ==> a[k].createAt >= a[l].createAt
        invariant forall l :: j < l <= i ==> a[j].createAt > a[l].createAt
        invariant multiset(a[..]) == multiset(old(a[..]))
      {
        SwapWithPrevious(a, j);
        j := j - 1;
      }
      i := i + 1;
    }
  }

  /** One displayed row of the recent list. */
  datatype RecentItem = RecentItem(id: string, title: string, status: string, time: string, language: string)

  /** `getRecentSubmissions`: sorts the submissions newest first (in the
      store's own array) and shows the first five, so nothing shown is older
      than anything left out. */
  method GetRecentSubmissions(subs: array<Submission>, titles: map<string, string>, nowMs: int,
                              formatDate: int -> string) returns (recent: seq<RecentItem>)
    modifies subs
    ensures multiset(subs[..]) == multiset(old(subs[..]))
    ensures NewestFirst(subs[..])
    ensures |recent| == if subs.Length < 5 then subs.Length else 5
    ensures forall i :: 0 <= i < |recent| ==> recent[i] == Display(subs[i], titles, nowMs, formatDate)
    ensures forall i, j :: 0 <= i < |recent| <= j < subs.Length ==> subs[i].createAt >= subs[j].createAt
  {
    if subs.Length == 0 {
      return [];
    }
    SortNewestFirst(subs);
    var n := if subs.Length < 5 then subs.Length else 5;
    recent := seq(n, i requires 0 <= i < n reads subs => Display(subs[i], titles, nowMs, formatDate));
  }

  function Display(s: Submission, titles: map<string, string>, nowMs: int, formatDate: int -> string): RecentItem {
    RecentItem(s.id, SubmissionTitle(titles, s.problemId), s.status,
               TimeAgo(nowMs - s.createAt, formatDate(s.createAt)), LanguageLabel(s.language))
  }

  /** The language label: the first character as it is, the rest lowercased. */
  function LanguageLabel(language: string): (name: string)
    ensures |name| == |language|
    ensures language != [] ==> name[0] == language[0] && name[1..] == ToLower(language[1..])
  {
    if language == [] then [] else [language[0]] + ToLower(language[1..])
  }

  lemma LanguageLabelIdempotent(language: string)
    ensures LanguageLabel(LanguageLabel(language)) == LanguageLabel(language)
  {
    if language != [] {
      var once := LanguageLabel(language);
      ToLowerIdempotent(language[1..]);
      assert once[1..] == ToLower(language[1..]);
      assert LanguageLabel(once) == [once[0]] + ToLower(once[1..]);
    }
  }

  /** The problem-title map filled by `forEach`: every id maps to the title
      of its last problem in the list. It is only rebuilt from a non-empty list. */
  method TitleMap(previous: map<string, string>, problems: seq<ProblemRef>) returns (titles: map<string, string>)
    ensures problems == [] ==> titles == previous
    ensures problems != [] ==> forall id :: id in titles <==> exists i :: 0 <= i < |problems| && problems[i].id == id
    ensures problems != [] ==> forall i :: 0 <= i < |problems| ==>
              (forall j :: i < j < |problems| ==> problems[j].id != problems[i].id) ==>
              titles[problems[i].id] == problems[i].title
  {
    if problems == [] {
      return previous;
    }
    titles := map[];
    var k := 0;
    while k < |problems|
      invariant 0 <= k <= |problems|
      invariant forall id :: id in titles <==> exists i :: 0 <= i < k && problems[i].id == id
      invariant forall i :: 0 <= i < k ==>
                  (forall j :: i < j < k ==> problems[j].id != problems[i].id) ==>
                  titles[problems[i].id] == problems[i].title
    {
      titles := titles[problems[k].id := problems[k].title];
      k := k + 1;
    }
  }

  const UNKNOWN_PROBLEM := "Unknown Problem"

  /** `getSubmissionTitle`: the mapped title, "Unknown Problem" for an unknown
      id or an empty title. */
  function SubmissionTitle(titles: map<string, string>, problemId: string): (title: string)
    ensures problemId !in titles ==> title == UNKNOWN_PROBLEM
    ensures problemId in titles && titles[problemId] != [] ==> title == titles[problemId]
    ensures title != []
  {
    if problemId in titles && titles[problemId] != [] then titles[problemId] else UNKNOWN_PROBLEM
  }

  const MS_PER_HOUR := 1000 * 60 * 60

  /** `getTimeAgo` given the elapsed milliseconds and the locale date text:
      whole hours below a day, whole days below a week, else the date;
      singular exactly for one. */
  function TimeAgo(elapsedMs: int, localeDate: string): (text: string)
    ensures var h := elapsedMs / MS_PER_HOUR;
            (h < 1 ==> text == "Less than 1 hour ago")
            && (1 <= h < 24 ==> text == DecimalString(h) + (if h == 1 then " hour ago" else " hours ago"))
            && (24 <= h && h / 24 < 7 ==> text == DecimalString(h / 24) + (if h / 24 == 1 then " day ago" else " days ago"))
            && (h / 24 >= 7 ==> text == localeDate)
  {
    var hours := elapsedMs / MS_PER_HOUR;
    var days := hours / 24;
    if hours < 1 then "Less than 1 hour ago"
    else if hours < 24 then DecimalString(hours) + " hour" + (if hours != 1 then "s" else "") + " ago"
    else if days < 7 then DecimalString(days) + " day" + (if days != 1 then "s" else "") + " ago"
    else localeDate
  }

  /** The hour and day counts in the text are the elapsed time read back. */
  lemma TimeAgoNumbers(elapsedMs: int, localeDate: string)
    requires MS_PER_HOUR <= elapsedMs < 7 * 24 * MS_PER_HOUR
    ensures var h := elapsedMs / MS_PER_HOUR;
            var shown := if h < 24 then h else h / 24;
            var text := TimeAgo(elapsedMs, localeDate);
            text[..|DecimalString(shown)|] == DecimalString(shown)
            && DigitsValue(DecimalString(shown)) == shown
  {
    var h := elapsedMs / MS_PER_HOUR;
    DecimalRoundTrip(if h < 24 then h else h / 24);
  }

  datatype Achievement = Achievement(id: nat, title: string, earned: bool)

  predicate AllJavaScript(subs: seq<Submission>) {
    forall i :: 0 <= i < |subs| ==> subs[i].language == "JAVASCRIPT"
  }

  /** `getAchievements`: the six badges and when each is earned. */
  function Achievements(stats: UserStats, subs: seq<Submission>): (a: seq<Achievement>)
    ensures |a| == 6
    ensures forall i :: 0 <= i < 6 ==> a[i].id == i + 1
    ensures a[0].title == "First Solve" && (a[0].earned <==> stats.totalSolved > 0)
    ensures a[1].title == "Getting Started" && (a[1].earned <==> stats.totalSubmissions >= 5)
    ensures a[2].title == "Problem Solver" && (a[2].earned <==> stats.totalSolved >= 10)
    ensures a[3].title == "Persistent Coder" && (a[3].earned <==> stats.totalSubmissions >= 20)
    ensures a[4].title == "JavaScript Master" && (a[4].earned <==> subs != [] && AllJavaScript(subs))
    ensures a[5].title == "High Achiever" && (a[5].earned <==> stats.acceptanceRate >= 80)
  {
    [Achievement(1, "First Solve", stats.totalSolved > 0),
     Achievement(2, "Getting Started", stats.totalSubmissions >= 5),
     Achievement(3, "Problem Solver", stats.totalSolved >= 10),
     Achievement(4, "Persistent Coder", stats.totalSubmissions >= 20),
     Achievement(5, "JavaScript Master", |subs| > 0 && AllJavaScript(subs)),
     Achievement(6, "High Achiever", stats.acceptanceRate >= 80)]
  }

  /** On the page's own statistics the badges are nested: solving ten implies
      the first solve, twenty submissions imply five, and a high acceptance
      rate implies a solved problem. */
  lemma AchievementsNested(subs: seq<Submission>, streak: nat, ranking: nat, reputation: nat)
    ensures var a := Achievements(CalculateUserStats(subs, streak, ranking, reputation), subs);
            (a[2].earned ==> a[0].earned) && (a[3].earned ==> a[1].earned) && (a[5].earned ==> a[0].earned)
  {
  }

  /** A skill bar: its name and its progress. */
  datatype Skill = Skill(name: string, progress: real)

  function MinReal(a: real, b: real): real {
    if a <= b then a else b
  }

  function MaxReal(a: real, b: real): real {
    if a >= b then a else b
  }

  /** `getSkillProgress`: all bars empty without submissions; otherwise the
      solved-count bars are capped at 100 and Debugging stays within 20..100. */
  function SkillProgress(stats: UserStats, subs: seq<Submission>): (skills: seq<Skill>)
    ensures |skills| == 6
    ensures subs == [] ==> forall i :: 0 <= i < 6 ==> skills[i].progress == 0.0
    ensures forall i :: 0 <= i < 6 && i != 5 ==> 0.0 <= skills[i].progress <= 100.0
    ensures subs != [] ==> 20.0 <= skills[5].progress <= 100.0
    ensures subs != [] && stats.totalSolved >= 20 ==> skills[0].progress == 100.0
    ensures subs != [] ==> skills[1].progress == 85.0
    ensures subs != [] ==> skills[5].progress == MaxReal(20.0, MinReal(100.0, 100.0 - (stats.totalSubmissions as real - stats.totalSolved as real) * 10.0))
    requires stats.acceptanceRate <= 100
  {
    if subs == [] then
      [Skill("Problem Solving", 0.0), Skill("JavaScript", 0.0), Skill("Code Quality", 0.0),
       Skill("Algorithms", 0.0), Skill("Data Structures", 0.0), Skill("Debugging", 0.0)]
    else
      var solved := stats.totalSolved as real;
      [Skill("Problem Solving", MinReal(100.0, solved / 20.0 * 100.0)),
       Skill("JavaScript", 85.0),
       Skill("Code Quality", stats.acceptanceRate as real),
       Skill("Algorithms", MinReal(100.0, solved / 15.0 * 100.0)),
       Skill("Data Structures", MinReal(100.0, solved / 10.0 * 100.0)),
       Skill("Debugging", MaxReal(20.0, MinReal(100.0, 100.0 - (stats.totalSubmissions as real - solved) * 10.0)))]
  }
}
