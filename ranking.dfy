/**
 * The leaderboard: students ordered by score or streak with the current user
 * marked and ranked, and faculties (read off the front of the student id)
 * with their total, member count and rounded average.
 */
module Ranking {
  import opened Wrappers
  import opened Text
  import opened Lists
  import opened Booking

  /** The user fields the leaderboard reads. `studentId` is None when the backend sends none. */
  datatype User = User(id: int, studentId: Option<string>, libraryScore: int,
                       successfulCompletionsStreak: int, email: string)

  datatype StudentItem = StudentItem(id: int, name: string, score: int, streak: int,
                                     email: string, isCurrentUser: bool)

  datatype FacultyItem = FacultyItem(name: string, score: int, studentCount: int, averageScore: int)

  /** The two kinds of row the list renders. */
  datatype ListItem = Student(student: StudentItem) | Faculty(faculty: FacultyItem)

  /** The property names a row object carries. */
  function Keys(item: ListItem): set<string> {
    match item
    case Student(_) => {"id", "name", "score", "streak", "email", "isCurrentUser"}
    case Faculty(_) => {"name", "score", "studentCount", "averageScore"}
  }

  /** `isStudentItem`: the row has id, streak, email and isCurrentUser. */
  predicate IsStudentItem(item: ListItem) {
    "id" in Keys(item) && "streak" in Keys(item) && "email" in Keys(item) && "isCurrentUser" in Keys(item)
  }

  /** `isFacultyItem`: the row has studentCount and averageScore. */
  predicate IsFacultyItem(item: ListItem) {
    "studentCount" in Keys(item) && "averageScore" in Keys(item)
  }

  /** Each guard recognises exactly its own kind of row, so exactly one of them holds. */
  lemma TypeGuardsExact(item: ListItem)
    ensures IsStudentItem(item) <==> item.Student?
    ensures IsFacultyItem(item) <==> item.Faculty?
  {
    if item.Faculty? {
      assert "id" !in Keys(item);
    } else {
      assert "studentCount" !in Keys(item);
    }
  }

  datatype SortBy = ByScore | ByStreak

  /** `toggleSort` */
  function ToggleSort(s: SortBy): (r: SortBy)
    ensures r != s
  {
    if s == ByScore then ByStreak else ByScore
  }

  lemma ToggleSortInvolution(s: SortBy)
    ensures ToggleSort(ToggleSort(s)) == s
  {
  }

  /** `xs` is ordered non-increasingly by `key`. */
  predicate SortedDesc<T>(xs: seq<T>, key: T -> int) {
    forall i, j :: 0 <= i < j < |xs| ==> key(xs[i]) >= key(xs[j])
  }

  /** `x` placed after every element whose key is at least its own. */
  function Insert<T>(x: T, xs: seq<T>, key: T -> int): (r: seq<T>)
    requires SortedDesc(xs, key)
    ensures SortedDesc(r, key)
    ensures multiset(r) == multiset(xs) + multiset{x}
    ensures |r| == |xs| + 1
    ensures r[0] == x || (xs != [] && r[0] == xs[0])
  {
    if xs == [] then [x]
    else if key(xs[0]) >= key(x) then
      assert xs == [xs[0]] + xs[1..];
      var rest := Insert(x, xs[1..], key);
      SortedCons(xs[0], rest, key);
      [xs[0]] + rest
    else
      assert xs == [xs[0]] + xs[1..];
      SortedCons(x, xs, key);
      [x] + xs
  }

  /** A first element whose key is at least the next one's keeps a sorted sequence sorted. */
  lemma SortedCons<T>(a: T, rest: seq<T>, key: T -> int)
    requires SortedDesc(rest, key)
    requires rest == [] || key(a) >= key(rest[0])
    ensures SortedDesc([a] + rest, key)
  {
  }

  /**
   * `sort` with a comparator `key(b) - key(a)`: non-increasing by key, a
   * permutation of the input, equal keys kept in input order.
   */
  function SortDesc<T>(xs: seq<T>, key: T -> int): (r: seq<T>)
    ensures SortedDesc(r, key)
    ensures multiset(r) == multiset(xs)
    ensures |r| == |xs|
  {
    if xs == [] then []
    else
      assert xs == xs[..|xs| - 1] + [xs[|xs| - 1]];
      Insert(xs[|xs| - 1], SortDesc(xs[..|xs| - 1], key), key)
  }

  function SortKey(sortBy: SortBy): StudentItem -> int {
    if sortBy == ByScore then (s: StudentItem) => s.score else (s: StudentItem) => s.streak
  }

  /** One leaderboard row per user, flagged when it is the current user's. */
  function StudentRow(u: User, currentUser: Option<int>): (s: StudentItem)
    ensures s.id == u.id && s.score == u.libraryScore && s.streak == u.successfulCompletionsStreak
    ensures s.name == u.studentId.GetOr("")
    ensures s.isCurrentUser <==> currentUser.Some? && u.id == currentUser.value
  {
    StudentItem(u.id, u.studentId.GetOr(""), u.libraryScore, u.successfulCompletionsStreak, u.email,
                if currentUser.Some? then u.id == currentUser.value else false)
  }

  function StudentRows(users: seq<User>, currentUser: Option<int>): (r: seq<StudentItem>)
    ensures |r| == |users|
    ensures forall i :: 0 <= i < |users| ==> r[i] == StudentRow(users[i], currentUser)
  {
    if users == [] then [] else [StudentRow(users[0], currentUser)] + StudentRows(users[1..], currentUser)
  }

  /** The leaderboard: the rows sorted by the chosen key. */
  function StudentRankings(users: seq<User>, currentUser: Option<int>, sortBy: SortBy): (r: seq<StudentItem>)
    ensures |r| == |users|
    ensures SortedDesc(r, SortKey(sortBy))
    ensures multiset(r) == multiset(StudentRows(users, currentUser))
    ensures forall i :: 0 <= i < |r| ==>
      (r[i].isCurrentUser <==> currentUser.Some? && r[i].id == currentUser.value)
  {
    var rows := StudentRows(users, currentUser);
    var r := SortDesc(rows, SortKey(sortBy));
    forall i | 0 <= i < |r|
      ensures r[i].isCurrentUser <==> currentUser.Some? && r[i].id == currentUser.value
    {
      assert r[i] in multiset(rows);
    }
    r
  }

  /**
   * The current user's 1-based position in the leaderboard, 0 when they are
   * absent; without a current user the previous value stays.
   */
  function CurrentUserRank(rankings: seq<StudentItem>, currentUser: Option<int>, previous: int): (rank: int)
    ensures currentUser.None? ==> rank == previous
    ensures currentUser.Some? ==> 0 <= rank <= |rankings|
    ensures currentUser.Some? && rank > 0 ==>
      rankings[rank - 1].id == currentUser.value && forall j :: 0 <= j < rank - 1 ==> rankings[j].id != currentUser.value
    ensures currentUser.Some? && rank == 0 ==> forall j :: 0 <= j < |rankings| ==> rankings[j].id != currentUser.value
  {
    if currentUser.None? then previous
    else FindIndex(rankings, (s: StudentItem) => s.id == currentUser.value) + 1
  }

  /** The faculty code: the leading run of capital letters A to Z, `OTHER` when there is none. */
  function FacultyCode(studentId: string): (code: string)
    ensures (studentId == [] || !IsUpper(studentId[0])) ==> code == "OTHER"
    ensures (studentId != [] && IsUpper(studentId[0])) ==>
      code != [] && StartsWith(studentId, code)
      && (forall i :: 0 <= i < |code| ==> IsUpper(code[i]))
      && (|code| < |studentId| ==> !IsUpper(studentId[|code|]))
  {
    var run := LeadingUpper(studentId);
    if run == [] then "OTHER" else run
  }

  function LeadingUpper(s: string): (r: string)
    ensures |r| <= |s| && r == s[..|r|]
    ensures forall i :: 0 <= i < |r| ==> IsUpper(r[i])
    ensures |r| < |s| ==> !IsUpper(s[|r|])
  {
    if s != [] && IsUpper(s[0]) then [s[0]] + LeadingUpper(s[1..]) else []
  }

  const FacultyMapping: map<string, string> := map[
    "CS" := "Bilgisayar Mühendisliği",
    "EE" := "Elektrik-Elektronik",
    "ME" := "Makine Mühendisliği",
    "IE" := "Endüstri Mühendisliği",
    "AR" := "Mimarlık",
    "CE" := "İnşaat Mühendisliği",
    "CH" := "Kimya Mühendisliği"
  ]

  /** The faculty a student id belongs to: the mapped name of its code, `Diğer` for an unknown code. */
  function FacultyName(studentId: string): (name: string)
    ensures FacultyCode(studentId) in FacultyMapping ==> name == FacultyMapping[FacultyCode(studentId)]
    ensures FacultyCode(studentId) !in FacultyMapping ==> name == "Diğer"
  {
    var code := FacultyCode(studentId);
    if code in FacultyMapping then FacultyMapping[code] else "Diğer"
  }

  /** An id that does not start with a capital letter (an all-digit id, say) lands in `Diğer`. */
  lemma NoLetterPrefixIsOther(studentId: string)
    requires studentId == [] || !IsUpper(studentId[0])
    ensures FacultyName(studentId) == "Diğer"
  {
    assert FacultyCode(studentId) == "OTHER";
  }

  /** A faculty's running totals while the students are visited. */
  datatype FacultyAcc = FacultyAcc(totalScore: int, count: int, students: seq<StudentItem>)

  predicate InFaculty(s: StudentItem, name: string) { FacultyName(s.name) == name }

  /** The students of one faculty, in leaderboard order. */
  function Members(students: seq<StudentItem>, name: string): seq<StudentItem> {
    Filter(students, (s: StudentItem) => InFaculty(s, name))
  }

  function SumScores(ss: seq<StudentItem>): int {
    if ss == [] then 0 else SumScores(ss[..|ss| - 1]) + ss[|ss| - 1].score
  }

  /** The sum of the counts of the named faculties. */
  function SumCounts(names: seq<string>, stats: map<string, FacultyAcc>): int
    requires forall i :: 0 <= i < |names| ==> names[i] in stats
  {
    if names == [] then 0 else stats[names[0]].count + SumCounts(names[1..], stats)
  }

  /** Changing one faculty's count changes the sum by the same amount. */
  lemma {:induction false} SumCountsUpdate(names: seq<string>, stats: map<string, FacultyAcc>, k: string, v: FacultyAcc)
    requires forall i :: 0 <= i < |names| ==> names[i] in stats
    requires forall i, j :: 0 <= i < j < |names| ==> names[i] != names[j]
    requires k in stats
    ensures forall i :: 0 <= i < |names| ==> names[i] in stats[k := v]
    ensures SumCounts(names, stats[k := v])
            == SumCounts(names, stats) + (if k in names then v.count - stats[k].count else 0)
  {
    if names != [] {
      SumCountsUpdate(names[1..], stats, k, v);
      assert k in names[1..] ==> k != names[0];
      assert k in names <==> k == names[0] || k in names[1..];
    }
  }

  /** A faculty not yet named does not affect the sum. */
  lemma {:induction false} SumCountsFresh(names: seq<string>, stats: map<string, FacultyAcc>, k: string, v: FacultyAcc)
    requires forall i :: 0 <= i < |names| ==> names[i] in stats
    requires k !in names
    ensures forall i :: 0 <= i < |names| ==> names[i] in stats[k := v]
    ensures SumCounts(names, stats[k := v]) == SumCounts(names, stats)
  {
    if names != [] {
      SumCountsFresh(names[1..], stats, k, v);
    }
  }

  /** Appending a faculty adds its count. */
  lemma {:induction false} SumCountsSnoc(names: seq<string>, stats: map<string, FacultyAcc>, k: string)
    requires forall i :: 0 <= i < |names| ==> names[i] in stats
    requires k in stats
    ensures SumCounts(names + [k], stats) == SumCounts(names, stats) + stats[k].count
  {
    if names != [] {
      assert (names + [k])[1..] == names[1..] + [k];
      SumCountsSnoc(names[1..], stats, k);
    } else {
      assert (names + [k])[1..] == [];
    }
  }

  lemma MembersSnoc(students: seq<StudentItem>, n: nat, name: string)
    requires n < |students|
    ensures Members(students[..n + 1], name)
            == Members(students[..n], name) + (if InFaculty(students[n], name) then [students[n]] else [])
  {
    assert students[..n + 1] == students[..n] + [students[n]];
    FilterAppend(students[..n], [students[n]], (s: StudentItem) => InFaculty(s, name));
  }

  /** What the accumulator of a faculty holds after the first `n` students. */
  predicate AccurateFor(students: seq<StudentItem>, n: nat, name: string, acc: FacultyAcc)
    requires n <= |students|
  {
    && acc.students == Members(students[..n], name)
    && acc.count == |Members(students[..n], name)|
    && acc.totalScore == SumScores(Members(students[..n], name))
  }

  predicate Distinct(names: seq<string>) {
    forall i, j :: 0 <= i < j < |names| ==> names[i] != names[j]
  }

  /**
   * Reference definition of the faculty order: every faculty of the students,
   * each once, in the order its first student appears.
   */
  function FacultiesMet(students: seq<StudentItem>): (names: seq<string>)
    ensures Distinct(names)
    ensures forall name :: name in names <==>
      exists k :: 0 <= k < |students| && FacultyName(students[k].name) == name
  {
    if students == [] then []
    else
      var init := students[..|students| - 1];
      var prior := FacultiesMet(init);
      var f := FacultyName(students[|students| - 1].name);
      assert forall k :: 0 <= k < |init| ==> init[k] == students[k];
      if f in prior then prior
      else
        assert forall i :: 0 <= i < |prior| ==> prior[i] != f;
        prior + [f]
  }

  /** The state of the aggregation after the first `n` students. */
  ghost predicate Aggregated(students: seq<StudentItem>, n: nat, names: seq<string>, stats: map<string, FacultyAcc>)
    requires n <= |students|
  {
    && names == FacultiesMet(students[..n])
    && Distinct(names)
    && (forall name :: name in stats <==> name in names)
    && (forall k :: 0 <= k < n ==> FacultyName(students[k].name) in stats)
    && (forall name :: name in stats ==> AccurateFor(students, n, name, stats[name]) && stats[name].count > 0)
    && SumCounts(names, stats) == n
  }

  /**
   * The `forEach` that fills `facultyStats`: one entry per faculty met, in
   * first-met order, holding the members' total score, their number and the
   * members themselves.
   */
  method AggregateFaculties(students: seq<StudentItem>) returns (names: seq<string>, stats: map<string, FacultyAcc>)
    ensures Aggregated(students, |students|, names, stats)
    ensures names == FacultiesMet(students)
    ensures forall name :: name in stats ==>
      && stats[name].students == Members(students, name)
      && stats[name].count == |Members(students, name)|
      && stats[name].totalScore == SumScores(Members(students, name))
  {
    names := [];
    stats := map[];
    var n := 0;
    while n < |students|
      invariant 0 <= n <= |students|
      invariant Aggregated(students, n, names, stats)
    {
      VisitStep(students, n, names, stats);
      names, stats := Visit(students[n], names, stats);
      n := n + 1;
    }
    assert students[..n] == students;
  }

  /** A faculty's entry, or an empty one when it has none yet. */
  function Entry(stats: map<string, FacultyAcc>, name: string): FacultyAcc {
    if name in stats then stats[name] else FacultyAcc(0, 0, [])
  }

  /** The entry with one more student: score added, count increased, student appended. */
  function AddStudent(acc: FacultyAcc, s: StudentItem): FacultyAcc {
    FacultyAcc(acc.totalScore + s.score, acc.count + 1, acc.students + [s])
  }

  /** The faculty names after visiting `s`: its faculty is appended when it is met for the first time. */
  function NamesAfter(names: seq<string>, stats: map<string, FacultyAcc>, s: StudentItem): seq<string> {
    var f := FacultyName(s.name);
    if f in stats then names else names + [f]
  }

  /** The entries after visiting `s`: only its faculty's entry changes, by one more student. */
  function StatsAfter(stats: map<string, FacultyAcc>, s: StudentItem): map<string, FacultyAcc> {
    var f := FacultyName(s.name);
    stats[f := AddStudent(Entry(stats, f), s)]
  }

  /** One step of the `forEach`: create the faculty's entry when it is new, then add the student to it. */
  method Visit(student: StudentItem, names0: seq<string>, stats0: map<string, FacultyAcc>)
    returns (names: seq<string>, stats: map<string, FacultyAcc>)
    ensures names == NamesAfter(names0, stats0, student)
    ensures stats == StatsAfter(stats0, student)
  {
    names, stats := names0, stats0;
    var facultyName := FacultyName(student.name);
    if facultyName !in stats {
      stats := stats[facultyName := FacultyAcc(0, 0, [])];
      names := names + [facultyName];
    }
    var acc := stats[facultyName];
    stats := stats[facultyName := FacultyAcc(acc.totalScore + student.score, acc.count + 1, acc.students + [student])];
  }

  /** The step the loop body takes keeps the aggregation accurate for one more student. */
  lemma VisitStep(students: seq<StudentItem>, n: nat, names: seq<string>, stats: map<string, FacultyAcc>)
    requires n < |students|
    requires Aggregated(students, n, names, stats)
    ensures Aggregated(students, n + 1, NamesAfter(names, stats, students[n]), StatsAfter(stats, students[n]))
  {
    VisitKeepsOrder(students, n, names, stats);
    VisitKeepsKeys(students, n, names, stats);
    VisitKeepsAccuracy(students, n, names, stats);
    VisitKeepsSum(students, n, names, stats);
  }

  /** A visit appends the student's faculty exactly when it is met for the first time. */
  lemma VisitKeepsOrder(students: seq<StudentItem>, n: nat, names: seq<string>, stats: map<string, FacultyAcc>)
    requires n < |students|
    requires names == FacultiesMet(students[..n])
    requires forall name :: name in stats <==> name in names
    ensures NamesAfter(names, stats, students[n]) == FacultiesMet(students[..n + 1])
  {
    assert students[..n + 1][..n] == students[..n];
  }

  lemma VisitKeepsKeys(students: seq<StudentItem>, n: nat, names: seq<string>, stats: map<string, FacultyAcc>)
    requires n < |students|
    requires Distinct(names) && (forall name :: name in stats <==> name in names)
    requires forall k :: 0 <= k < n ==> FacultyName(students[k].name) in stats
    ensures var f := FacultyName(students[n].name);
      var names' := if f in stats then names else names + [f];
      var stats' := stats[f := AddStudent(Entry(stats, f), students[n])];
      && Distinct(names')
      && (forall name :: name in stats' <==> name in names')
      && (forall k :: 0 <= k < n + 1 ==> FacultyName(students[k].name) in stats')
  {
    var f := FacultyName(students[n].name);
    if f !in stats {
      var names' := names + [f];
      forall i, j | 0 <= i < j < |names'| ensures names'[i] != names'[j] {
        assert names'[i] == names[i] && names[i] in names;
        if j < |names| {
          assert names'[j] == names[j];
        }
      }
    }
  }

  lemma VisitKeepsAccuracy(students: seq<StudentItem>, n: nat, names: seq<string>, stats: map<string, FacultyAcc>)
    requires n < |students|
    requires Aggregated(students, n, names, stats)
    ensures var f := FacultyName(students[n].name);
      var stats' := stats[f := AddStudent(Entry(stats, f), students[n])];
      forall name :: name in stats' ==> AccurateFor(students, n + 1, name, stats'[name]) && stats'[name].count > 0
  {
    var f := FacultyName(students[n].name);
    var stats' := stats[f := AddStudent(Entry(stats, f), students[n])];
    if f !in stats {
      FreshFacultyHasNoMembers(students, n, stats, f);
    }
    assert AccurateFor(students, n, f, Entry(stats, f));
    forall name | name in stats' ensures AccurateFor(students, n + 1, name, stats'[name]) && stats'[name].count > 0 {
      if name == f {
        AccurateStep(students, n, name, Entry(stats, f));
      } else {
        AccurateStep(students, n, name, stats[name]);
      }
    }
  }

  /** A faculty none of the first `n` students belongs to has no members among them. */
  lemma FreshFacultyHasNoMembers(students: seq<StudentItem>, n: nat, stats: map<string, FacultyAcc>, f: string)
    requires n <= |students|
    requires forall k :: 0 <= k < n ==> FacultyName(students[k].name) in stats
    requires f !in stats
    ensures Members(students[..n], f) == []
  {
    forall k | 0 <= k < n ensures !InFaculty(students[..n][k], f) {
      assert FacultyName(students[k].name) in stats;
    }
    FilterNone(students[..n], (s: StudentItem) => InFaculty(s, f));
  }

  /** Visiting student `n` adds it to its own faculty's entry and leaves every other entry accurate as it is. */
  lemma AccurateStep(students: seq<StudentItem>, n: nat, name: string, acc: FacultyAcc)
    requires n < |students|
    requires AccurateFor(students, n, name, acc)
    ensures AccurateFor(students, n + 1, name, if InFaculty(students[n], name) then AddStudent(acc, students[n]) else acc)
  {
    MembersSnoc(students, n, name);
    var ms := Members(students[..n], name);
    assert (ms + [students[n]])[..|ms|] == ms;
  }

  lemma VisitKeepsSum(students: seq<StudentItem>, n: nat, names: seq<string>, stats: map<string, FacultyAcc>)
    requires n < |students|
    requires Distinct(names) && (forall name :: name in stats <==> name in names)
    requires SumCounts(names, stats) == n
    ensures var f := FacultyName(students[n].name);
      var names' := if f in stats then names else names + [f];
      var stats' := stats[f := AddStudent(Entry(stats, f), students[n])];
      (forall i :: 0 <= i < |names'| ==> names'[i] in stats') && SumCounts(names', stats') == n + 1
  {
    var f := FacultyName(students[n].name);
    var v := AddStudent(Entry(stats, f), students[n]);
    if f in stats {
      assert f in names && v.count == stats[f].count + 1;
      SumCountsUpdate(names, stats, f, v);
    } else {
      assert f !in names && v.count == 1;
      SumCountsFresh(names, stats, f, v);
      SumCountsSnoc(names, stats[f := v], f);
    }
  }

  /** The faculty rows before sorting: total, count and `Math.round(total / count)`. */
  function FacultyRows(names: seq<string>, stats: map<string, FacultyAcc>): (r: seq<FacultyItem>)
    requires forall i :: 0 <= i < |names| ==> names[i] in stats && stats[names[i]].count > 0
    ensures |r| == |names|
    ensures forall i :: 0 <= i < |names| ==>
      var acc := stats[names[i]];
      r[i] == FacultyItem(names[i], acc.totalScore, acc.count, RoundHalfUp(acc.totalScore, acc.count))
  {
    if names == [] then []
    else
      var acc := stats[names[0]];
      [FacultyItem(names[0], acc.totalScore, acc.count, RoundHalfUp(acc.totalScore, acc.count))]
      + FacultyRows(names[1..], stats)
  }

  function AverageKey(): FacultyItem -> int {
    (f: FacultyItem) => f.averageScore
  }

  /** A faculty row that agrees with the students: its members' count and total, and their rounded average. */
  predicate RowFaithful(students: seq<StudentItem>, f: FacultyItem) {
    && f.studentCount == |Members(students, f.name)| > 0
    && f.score == SumScores(Members(students, f.name))
    && 2 * f.studentCount * f.averageScore <= 2 * f.score + f.studentCount
    && 2 * f.score + f.studentCount < 2 * f.studentCount * f.averageScore + 2 * f.studentCount
  }

  /** The faculty leaderboard: one faithful row per faculty met, sorted by average. */
  method FacultyRankings(students: seq<StudentItem>) returns (faculties: seq<FacultyItem>)
    ensures SortedDesc(faculties, AverageKey())
    ensures forall i :: 0 <= i < |faculties| ==> RowFaithful(students, faculties[i])
    ensures forall k :: 0 <= k < |students| ==> FacultyName(students[k].name) in NamesOf(faculties)
    ensures forall i, j :: 0 <= i < j < |faculties| ==> faculties[i].name != faculties[j].name
  {
    var names, stats := AggregateFaculties(students);
    RowsFromAggregate(students, names, stats);
    var rows := FacultyRows(names, stats);
    faculties := SortDesc(rows, AverageKey());
    PermutationKeeps(rows, faculties, students);
    PermutationKeepsNamesDistinct(rows, faculties);
  }

  /** The unsorted rows are faithful, and every student's faculty has one. */
  lemma RowsFromAggregate(students: seq<StudentItem>, names: seq<string>, stats: map<string, FacultyAcc>)
    requires Aggregated(students, |students|, names, stats)
    ensures forall i :: 0 <= i < |names| ==> names[i] in stats && stats[names[i]].count > 0
    ensures forall j :: 0 <= j < |names| ==> RowFaithful(students, FacultyRows(names, stats)[j])
    ensures forall k :: 0 <= k < |students| ==> FacultyName(students[k].name) in NamesOf(FacultyRows(names, stats))
    ensures NamesDistinct(FacultyRows(names, stats))
  {
    assert students[..|students|] == students;
    var rows := FacultyRows(names, stats);
    forall j | 0 <= j < |names| ensures RowFaithful(students, rows[j]) {
      var acc := stats[names[j]];
      assert AccurateFor(students, |students|, names[j], acc);
      assert rows[j] == FacultyItem(names[j], acc.totalScore, acc.count, RoundHalfUp(acc.totalScore, acc.count));
    }
    forall k | 0 <= k < |students| ensures FacultyName(students[k].name) in NamesOf(rows) {
      var name := FacultyName(students[k].name);
      var j :| 0 <= j < |names| && names[j] == name;
      assert rows[j].name == name;
    }
  }

  function NamesOf(fs: seq<FacultyItem>): set<string> {
    set i | 0 <= i < |fs| :: fs[i].name
  }

  predicate NamesDistinct(fs: seq<FacultyItem>) {
    forall i, j :: 0 <= i < j < |fs| ==> fs[i].name != fs[j].name
  }

  /** Rows with distinct names hold any one row at most once. */
  lemma {:induction false} DistinctNamesOnce(rows: seq<FacultyItem>, x: FacultyItem)
    requires NamesDistinct(rows)
    ensures multiset(rows)[x] <= 1
  {
    if rows != [] {
      var init := rows[..|rows| - 1];
      var last := rows[|rows| - 1];
      assert rows == init + [last];
      assert NamesDistinct(init);
      DistinctNamesOnce(init, x);
      if x == last {
        assert x !in init by {
          forall k | 0 <= k < |init| ensures init[k] != x {
            assert rows[k].name != rows[|rows| - 1].name;
          }
        }
      }
    }
  }

  /** Reordering rows with distinct names leaves their names distinct: one row per faculty. */
  lemma PermutationKeepsNamesDistinct(rows: seq<FacultyItem>, sorted: seq<FacultyItem>)
    requires multiset(rows) == multiset(sorted)
    requires NamesDistinct(rows)
    ensures NamesDistinct(sorted)
  {
    forall i, j | 0 <= i < j < |sorted| ensures sorted[i].name != sorted[j].name {
      if sorted[i] == sorted[j] {
        assert sorted == sorted[..j] + [sorted[j]] + sorted[j + 1..];
        assert sorted[..j][i] == sorted[i];
        assert multiset(sorted)[sorted[i]] >= 2;
        DistinctNamesOnce(rows, sorted[i]);
        assert false;
      } else {
        assert sorted[i] in multiset(rows) && sorted[j] in multiset(rows);
        var p :| 0 <= p < |rows| && rows[p] == sorted[i];
        var q :| 0 <= q < |rows| && rows[q] == sorted[j];
        assert p != q;
        assert rows[p].name != rows[q].name;
      }
    }
  }

  /** Reordering the rows keeps each of them faithful, and keeps the set of faculties. */
  lemma PermutationKeeps(rows: seq<FacultyItem>, sorted: seq<FacultyItem>, students: seq<StudentItem>)
    requires multiset(rows) == multiset(sorted)
    requires forall j :: 0 <= j < |rows| ==> RowFaithful(students, rows[j])
    ensures forall i :: 0 <= i < |sorted| ==> RowFaithful(students, sorted[i])
    ensures NamesOf(sorted) == NamesOf(rows)
  {
    forall i | 0 <= i < |sorted| ensures RowFaithful(students, sorted[i]) && sorted[i].name in NamesOf(rows) {
      assert sorted[i] in multiset(rows);
      var j :| 0 <= j < |rows| && rows[j] == sorted[i];
    }
    forall j | 0 <= j < |rows| ensures rows[j].name in NamesOf(sorted) {
      assert rows[j] in multiset(sorted);
      var i :| 0 <= i < |sorted| && sorted[i] == rows[j];
    }
  }

  /** `getRankIcon`: medals for the first three, `n.` for the rest. */
  function RankIcon(rank: int): (r: string)
    ensures rank == 1 ==> r == "🥇"
    ensures rank == 2 ==> r == "🥈"
    ensures rank == 3 ==> r == "🥉"
    ensures !(1 <= rank <= 3) ==> r == IntToString(rank) + "."
  {
    if rank == 1 then "🥇" else if rank == 2 then "🥈" else if rank == 3 then "🥉" else IntToString(rank) + "."
  }

  /** `getRankColor`: gold up to 3, silver up to 10, bronze beyond. */
  function RankColor(rank: int): (r: string)
    ensures r == "#FFD700" <==> rank <= 3
    ensures r == "#C0C0C0" <==> 3 < rank <= 10
    ensures r == "#CD7F32" <==> rank > 10
  {
    if rank <= 3 then "#FFD700" else if rank <= 10 then "#C0C0C0" else "#CD7F32"
  }
}
