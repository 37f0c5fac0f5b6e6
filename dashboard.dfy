/** The dashboard's user card: its starting values and the update that
    counts solved and available problems by difficulty. */
module Dashboard {
  import opened Wrappers

  datatype UserData = UserData(
    name: string,
    email: string,
    role: string,
    avatar: string,
    totalProblems: nat,
    totalSubmissions: nat,
    easySolved: nat,
    mediumSolved: nat,
    hardSolved: nat,
    easyTotal: nat,
    mediumTotal: nat,
    hardTotal: nat,
    streak: nat,
    rank: nat,
    contestRating: nat)

  /** `x || fallback` on an optional string. */
  function OrElse(x: Option<string>, fallback: string): (r: string)
    ensures x.Some? && x.value != [] ==> r == x.value
    ensures x.None? || x.value == [] ==> r == fallback
  {
    if x.Some? && x.value != [] then x.value else fallback
  }

  /** The card before anything is loaded, from the signed-in user's fields. */
  function InitialUserData(name: Option<string>, email: Option<string>, role: Option<string>): (u: UserData)
    ensures u.name == OrElse(name, "") && u.email == OrElse(email, "") && u.role == OrElse(role, "user")
    ensures u.totalProblems == 0 && u.totalSubmissions == 342
    ensures u.easySolved == 0 && u.mediumSolved == 0 && u.hardSolved == 0
    ensures u.easyTotal == 150 && u.mediumTotal == 120 && u.hardTotal == 80
    ensures u.streak == 15 && u.rank == 2847 && u.contestRating == 1654
  {
    UserData(OrElse(name, ""), OrElse(email, ""), OrElse(role, "user"), "/diverse-user-avatars.png",
             0, 342, 0, 0, 0, 150, 120, 80, 15, 2847, 1654)
  }

  /** How many of the difficulties are exactly `d` (no case folding). */
  function CountDifficulty(difficulties: seq<string>, d: string): (n: nat)
    ensures n <= |difficulties|
    ensures n == 0 <==> d !in difficulties
    ensures n == multiset(difficulties)[d]
  {
    if difficulties == [] then 0
    else
      assert difficulties == [difficulties[0]] + difficulties[1..];
      (if difficulties[0] == d then 1 else 0) + CountDifficulty(difficulties[1..], d)
  }

  /** The three counts together never exceed the list. */
  lemma {:induction false} CountsWithinTotal(difficulties: seq<string>)
    ensures CountDifficulty(difficulties, "EASY") + CountDifficulty(difficulties, "MEDIUM")
            + CountDifficulty(difficulties, "HARD") <= |difficulties|
  {
    if difficulties != [] {
      CountsWithinTotal(difficulties[1..]);
    }
  }

  /** The update run when the solved list changes: given a solved list, the
      counts come from it and from all problems, the problem total is the
      number solved, the submissions total is the number of submissions, and
      nothing else changes; without a solved list nothing changes at all. */
  function UpdateUserData(prev: UserData, solved: Option<seq<string>>, problems: seq<string>,
                          submissions: nat): (u: UserData)
    ensures solved.None? ==> u == prev
    ensures solved.Some? ==>
              u.easySolved == CountDifficulty(solved.value, "EASY")
              && u.mediumSolved == CountDifficulty(solved.value, "MEDIUM")
              && u.hardSolved == CountDifficulty(solved.value, "HARD")
              && u.easyTotal == CountDifficulty(problems, "EASY")
              && u.mediumTotal == CountDifficulty(problems, "MEDIUM")
              && u.hardTotal == CountDifficulty(problems, "HARD")
              && u.totalProblems == |solved.value| && u.totalSubmissions == submissions
    ensures solved.Some? ==> u.easySolved + u.mediumSolved + u.hardSolved <= u.totalProblems
    ensures u.name == prev.name && u.email == prev.email && u.role == prev.role && u.avatar == prev.avatar
    ensures u.streak == prev.streak && u.rank == prev.rank && u.contestRating == prev.contestRating
  {
    match solved
    case None => prev
    case Some(list) =>
      CountsWithinTotal(list);
      prev.(totalProblems := |list|,
            easySolved := CountDifficulty(list, "EASY"),
            mediumSolved := CountDifficulty(list, "MEDIUM"),
            hardSolved := CountDifficulty(list, "HARD"),
            easyTotal := CountDifficulty(problems, "EASY"),
            mediumTotal := CountDifficulty(problems, "MEDIUM"),
            hardTotal := CountDifficulty(problems, "HARD"),
            totalSubmissions := submissions)
  }

  /** Difficulties are matched exactly: a lowercase "easy" is not counted. */
  lemma ExactDifficultyMatch()
    ensures CountDifficulty(["easy", "EASY", "Hard"], "EASY") == 1
    ensures CountDifficulty(["easy", "EASY", "Hard"], "HARD") == 0
  {
    assert ["easy", "EASY", "Hard"][1..] == ["EASY", "Hard"];
    assert ["EASY", "Hard"][1..] == ["Hard"];
  }
}
