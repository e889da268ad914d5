/** The migration runner (cmd/migrate/main.go): files are applied in name order, skipped by number,
    and each is committed together with its record, so that a run can stop anywhere and be started
    again. */
module Migrations {

  // ----- Version numbers: fmt.Sscanf(filename, "%d", &version) -----

  predicate IsDigit(c: char) { '0' as int <= c as int <= '9' as int }

  /** The value of the digits at the front of `s`, after `acc`. */
  function Digits(s: string, acc: nat): nat {
    if s == "" || !IsDigit(s[0]) then acc else Digits(s[1..], 10 * acc + (s[0] as int - '0' as int))
  }

  function SkipBlanks(s: string): string {
    if s != "" && (s[0] == ' ' || s[0] == '\t') then SkipBlanks(s[1..]) else s
  }

  const MAX_INT64 := 0x7FFF_FFFF_FFFF_FFFF

  /** What cannot be read as a number leaves the variable at zero. */
  function ParseVersion(name: string): int {
    var s := SkipBlanks(name);
    var t := if s != "" && (s[0] == '-' || s[0] == '+') then s[1..] else s;
    if t == "" || !IsDigit(t[0]) then 0
    else
      var n: int := Digits(t, 0);
      var v := if s[0] == '-' then -n else n;
      if -MAX_INT64 - 1 <= v <= MAX_INT64 then v else 0
  }

  // ----- Names in order: sort.Strings -----

  predicate Before(a: string, b: string) {
    b != "" && (a == "" || a[0] < b[0] || (a[0] == b[0] && Before(a[1..], b[1..])))
  }

  predicate Ascending(names: seq<string>) {
    forall i, j :: 0 <= i < j < |names| ==> !Before(names[j], names[i])
  }

  function Insert(x: string, names: seq<string>): seq<string> {
    if names == [] || !Before(names[0], x) then [x] + names else [names[0]] + Insert(x, names[1..])
  }

  function Sort(names: seq<string>): seq<string> {
    if names == [] then [] else Insert(names[0], Sort(names[1..]))
  }

  lemma {:induction false} NotBeforeTrans(a: string, b: string, c: string)
    requires !Before(b, a) && !Before(c, b)
    ensures !Before(c, a)
  {
    if a != "" && c != "" && a[0] == c[0] {
      NotBeforeTrans(a[1..], b[1..], c[1..]);
    }
  }

  lemma {:induction false} BeforeIsAsymmetric(a: string, b: string)
    requires Before(a, b)
    ensures !Before(b, a)
  {
    if a != "" && a[0] == b[0] {
      BeforeIsAsymmetric(a[1..], b[1..]);
    }
  }

  lemma {:induction false} InsertSorts(x: string, names: seq<string>)
    requires Ascending(names)
    ensures Ascending(Insert(x, names)) && multiset(Insert(x, names)) == multiset(names) + multiset{x}
  {
    if names == [] {
    } else if !Before(names[0], x) {
      forall j | 0 <= j < |names| ensures !Before(names[j], x) {
        if j > 0 { NotBeforeTrans(x, names[0], names[j]); }
      }
      assert multiset([x] + names) == multiset{x} + multiset(names);
    } else {
      var rest := Insert(x, names[1..]);
      InsertSorts(x, names[1..]);
      assert names == [names[0]] + names[1..];
      forall j | 0 <= j < |rest| ensures !Before(rest[j], names[0]) {
        BeforeIsAsymmetric(names[0], x);
        assert rest[j] in multiset(rest);
        assert rest[j] == x || rest[j] in names[1..];
      }
    }
  }

  lemma {:induction false} SortSorts(names: seq<string>)
    ensures Ascending(Sort(names)) && multiset(Sort(names)) == multiset(names)
  {
    if names != [] {
      SortSorts(names[1..]);
      InsertSorts(names[0], Sort(names[1..]));
      assert names == [names[0]] + names[1..];
    }
  }

  // ----- One run -----

  datatype Entry = Entry(name: string, isDir: bool)

  predicate IsSql(e: Entry) {
    !e.isDir && |e.name| >= 4 && e.name[|e.name| - 4..] == ".sql"
  }

  function SqlNames(dir: seq<Entry>): seq<string> {
    if dir == [] then []
    else
      var last := dir[|dir| - 1];
      SqlNames(dir[..|dir| - 1]) + if IsSql(last) then [last.name] else []
  }

  /** The version column is a 32-bit integer and the table's primary key. */
  const MAX_INTEGER := 0x7FFF_FFFF

  /** The recorded versions, and the files whose statements took effect, in order. */
  datatype Db = Db(recorded: seq<int>, log: seq<string>)

  /** COALESCE(MAX(version), 0). */
  function MaxVersion(recorded: seq<int>): int {
    if recorded == [] then 0
    else if |recorded| == 1 then recorded[0]
    else
      var m, last := MaxVersion(recorded[..|recorded| - 1]), recorded[|recorded| - 1];
      if m < last then last else m
  }

  /** The run from file `i` on, stopped for whatever reason after `budget` more commits, or by a
      version the table will not take. */
  function RunFrom(files: seq<string>, i: nat, current: int, db: Db, budget: nat): Db
    requires i <= |files|
    decreases |files| - i
  {
    if i == |files| then db
    else
      var v := ParseVersion(files[i]);
      if v <= current then RunFrom(files, i + 1, current, db, budget)
      else if budget == 0 || v in db.recorded || v > MAX_INTEGER then db
      else RunFrom(files, i + 1, current, Db(db.recorded + [v], db.log + [files[i]]), budget - 1)
  }

  function Run(files: seq<string>, db: Db, budget: nat): Db {
    RunFrom(files, 0, MaxVersion(db.recorded), db, budget)
  }

  /** The SQL files of the directory, in name order. */
  method ListFiles(dir: seq<Entry>) returns (sqlFiles: seq<string>)
    ensures sqlFiles == Sort(SqlNames(dir))
  {
    sqlFiles := [];
    for i := 0 to |dir|
      invariant sqlFiles == SqlNames(dir[..i])
    {
      assert dir[..i + 1][..i] == dir[..i];
      if IsSql(dir[i]) {
        sqlFiles := sqlFiles + [dir[i].name];
      }
    }
    assert dir[..|dir|] == dir;
    sqlFiles := Sort(sqlFiles);
  }

  class Migrator {
    var recorded: seq<int>
    var log: seq<string>

    function State(): Db
      reads this
    {
      Db(recorded, log)
    }

    constructor ()
      ensures State() == Db([], [])
    {
      recorded, log := [], [];
    }

    method RunMigrations(dir: seq<Entry>, budget: nat) returns (ok: bool, applied: nat)
      modifies this
      ensures State() == Run(Sort(SqlNames(dir)), old(State()), budget)
      ensures |log| == |old(log)| + applied
      ensures ok ==> forall f :: f in Sort(SqlNames(dir)) ==> ParseVersion(f) <= MaxVersion(old(recorded)) || f in log
    {
      var currentVersion := MaxVersion(recorded);
      var sqlFiles := ListFiles(dir);
      applied := 0;
      var i := 0;
      while i < |sqlFiles|
        invariant 0 <= i <= |sqlFiles| && applied <= budget
        invariant |log| == |old(log)| + applied
        invariant forall j :: 0 <= j < i ==> ParseVersion(sqlFiles[j]) <= currentVersion || sqlFiles[j] in log
        invariant RunFrom(sqlFiles, i, currentVersion, State(), budget - applied) == Run(sqlFiles, old(State()), budget)
      {
        var version := ParseVersion(sqlFiles[i]);
        if version <= currentVersion {
          i := i + 1;
          continue;
        }
        if applied == budget || version in recorded || version > MAX_INTEGER {
          return false, applied;
        }
        log := log + [sqlFiles[i]];
        recorded := recorded + [version];
        applied := applied + 1;
        i := i + 1;
      }
      ok := true;
    }
  }

  // ----- Any number of runs -----

  /** A run over the first `files` of the directory's files (an earlier or the current release),
      stopped after `budget` commits. */
  datatype Attempt = Attempt(files: nat, budget: nat)

  function Runs(files: seq<string>, attempts: seq<Attempt>): Db {
    if attempts == [] then Db([], [])
    else
      var last := attempts[|attempts| - 1];
      Run(if last.files <= |files| then files[..last.files] else files, Runs(files, attempts[..|attempts| - 1]), last.budget)
  }

  /** In name order the versions increase strictly, start above zero and fit the column. */
  predicate InVersionOrder(files: seq<string>) {
    && (forall i :: 0 <= i < |files| ==> 0 < ParseVersion(files[i]) <= MAX_INTEGER)
    && (forall i, j :: 0 <= i < j < |files| ==> ParseVersion(files[i]) < ParseVersion(files[j]))
  }

  function Versions(files: seq<string>): seq<int> {
    seq(|files|, i requires 0 <= i < |files| => ParseVersion(files[i]))
  }

  function Prefix(files: seq<string>, k: nat): Db
    requires k <= |files|
  {
    Db(Versions(files[..k]), files[..k])
  }

  lemma {:induction false} MaxOfIncreasing(recorded: seq<int>)
    requires forall i, j :: 0 <= i < j < |recorded| ==> recorded[i] < recorded[j]
    ensures MaxVersion(recorded) == if recorded == [] then 0 else recorded[|recorded| - 1]
  {
    if |recorded| > 1 {
      MaxOfIncreasing(recorded[..|recorded| - 1]);
    }
  }

  /** What is already recorded is skipped. */
  lemma {:induction false} SkipsDone(files: seq<string>, i: nat, k: nat, current: int, db: Db, budget: nat)
    requires i <= k <= |files| && forall j :: i <= j < k ==> ParseVersion(files[j]) <= current
    ensures RunFrom(files, i, current, db, budget) == RunFrom(files, k, current, db, budget)
    decreases k - i
  {
    if i < k {
      SkipsDone(files, i + 1, k, current, db, budget);
    }
  }

  lemma PrefixGrows(files: seq<string>, k: nat)
    requires k < |files|
    ensures Prefix(files, k + 1) == Db(Prefix(files, k).recorded + [ParseVersion(files[k])], Prefix(files, k).log + [files[k]])
  {
    assert files[..k + 1] == files[..k] + [files[k]];
  }

  /** The rest is applied in order, as far as the run gets. */
  lemma {:induction false} AppliesRest(files: seq<string>, k: nat, current: int, budget: nat)
    requires InVersionOrder(files) && k <= |files|
    requires forall j :: k <= j < |files| ==> current < ParseVersion(files[j])
    ensures RunFrom(files, k, current, Prefix(files, k), budget)
         == Prefix(files, if k + budget <= |files| then k + budget else |files|)
    decreases |files| - k
  {
    if k < |files| && budget > 0 {
      assert ParseVersion(files[k]) !in Versions(files[..k]);
      PrefixGrows(files, k);
      AppliesRest(files, k + 1, current, budget - 1);
    }
  }

  lemma OneRun(files: seq<string>, k: nat, n: nat, budget: nat)
    requires InVersionOrder(files) && k <= |files| && n <= |files|
    ensures Run(files[..n], Prefix(files, k), budget)
         == Prefix(files, if n <= k then k else if k + budget <= n then k + budget else n)
  {
    var release := files[..n];
    MaxOfIncreasing(Prefix(files, k).recorded);
    var current := MaxVersion(Prefix(files, k).recorded);
    var done := if n <= k then n else k;
    SkipsDone(release, 0, done, current, Prefix(files, k), budget);
    if k < n {
      assert release[..k] == files[..k];
      AppliesRest(release, k, current, budget);
      var m := if k + budget <= n then k + budget else n;
      assert release[..m] == files[..m];
    }
  }

  /** How many files the attempts have applied. */
  function Reached(total: nat, attempts: seq<Attempt>): (k: nat)
    ensures k <= total
  {
    if attempts == [] then 0
    else
      var last := attempts[|attempts| - 1];
      var before := Reached(total, attempts[..|attempts| - 1]);
      var n := if last.files <= total then last.files else total;
      if n <= before then before else if before + last.budget <= n then before + last.budget else n
  }

  /** When versions increase in name order: whatever releases are run in whatever order, and
      wherever each run is interrupted, the applied files are a prefix of the directory, each
      applied once, and the recorded versions are theirs. */
  lemma {:induction false} RunsApplyAPrefix(files: seq<string>, attempts: seq<Attempt>)
    requires InVersionOrder(files)
    ensures Runs(files, attempts) == Prefix(files, Reached(|files|, attempts))
  {
    if attempts != [] {
      var last := attempts[|attempts| - 1];
      var front := attempts[..|attempts| - 1];
      RunsApplyAPrefix(files, front);
      assert files[..|files|] == files;
      OneRun(files, Reached(|files|, front), if last.files <= |files| then last.files else |files|, last.budget);
    }
  }

  // ----- Exactly when every interruption can be resumed -----

  /** Runs of the whole directory, of which the last is not interrupted. */
  predicate Finished(files: seq<string>, attempts: seq<Attempt>) {
    && |attempts| > 0 && attempts[|attempts| - 1].budget >= |files|
    && forall a :: a in attempts ==> a.files == |files|
  }

  predicate Distinct(names: seq<string>) {
    forall i, j :: 0 <= i < j < |names| ==> names[i] != names[j]
  }

  /** However its runs were interrupted before, an uninterrupted one ends with each file applied
      exactly once. */
  ghost predicate Resumable(files: seq<string>) {
    forall attempts :: Finished(files, attempts) ==> multiset(Runs(files, attempts).log) == multiset(files)
  }

  /** A run adds only files above the version it started from, with versions that fit. */
  lemma {:induction false} AddsAbove(files: seq<string>, i: nat, current: int, db: Db, budget: nat, f: string)
    requires i <= |files| && f in RunFrom(files, i, current, db, budget).log
    ensures f in db.log || current < ParseVersion(f) <= MAX_INTEGER
    decreases |files| - i
  {
    if i < |files| {
      var v := ParseVersion(files[i]);
      if v <= current {
        AddsAbove(files, i + 1, current, db, budget, f);
      } else if !(budget == 0 || v in db.recorded || v > MAX_INTEGER) {
        AddsAbove(files, i + 1, current, Db(db.recorded + [v], db.log + [files[i]]), budget - 1, f);
      }
    }
  }

  lemma LostForGood(files: seq<string>, db: Db, budget: nat, f: string)
    requires f !in db.log && !(MaxVersion(db.recorded) < ParseVersion(f) <= MAX_INTEGER)
    ensures f !in Run(files, db, budget).log
  {
    if f in Run(files, db, budget).log {
      AddsAbove(files, 0, MaxVersion(db.recorded), db, budget, f);
    }
  }

  lemma RunsOfWhole(files: seq<string>, attempts: seq<Attempt>, budget: nat)
    ensures Runs(files, attempts + [Attempt(|files|, budget)]) == Run(files, Runs(files, attempts), budget)
  {
    assert (attempts + [Attempt(|files|, budget)])[..|attempts|] == attempts;
    assert files[..|files|] == files;
  }

  /** A file that some finished attempts have left out shows that the directory is not resumable. */
  lemma LeftOut(files: seq<string>, attempts: seq<Attempt>, f: string)
    requires Finished(files, attempts) && f in files && f !in Runs(files, attempts).log
    ensures !Resumable(files)
  {
    assert f in multiset(files) && f !in multiset(Runs(files, attempts).log);
  }

  /** A file numbered zero, below zero, beyond the column or not at all is never applied. */
  lemma OutOfRangeNeverApplied(files: seq<string>, i: nat)
    requires i < |files| && !(0 < ParseVersion(files[i]) <= MAX_INTEGER)
    ensures !Resumable(files)
  {
    var attempts := [Attempt(|files|, |files|)];
    RunsOfWhole(files, [], |files|);
    assert [] + attempts == attempts;
    LostForGood(files, Db([], []), |files|, files[i]);
    LeftOut(files, attempts, files[i]);
  }

  /** The run stopped just before a file whose number is not above its predecessor's leaves that
      file out for good. */
  lemma StoppedBeforeDropIsLost(files: seq<string>, i: nat)
    requires Distinct(files)
    requires i + 1 < |files| && InVersionOrder(files[..i + 1]) && ParseVersion(files[i + 1]) <= ParseVersion(files[i])
    ensures !Resumable(files)
  {
    var first, lost := [Attempt(|files|, i + 1)], files[i + 1];
    var db := Run(files, Db([], []), i + 1);
    StoppedAt(files, i);
    assert lost !in files[..i + 1];
    LostForGood(files, db, |files|, lost);
    assert Runs(files, first + [Attempt(|files|, |files|)]) == Run(files, db, |files|) by {
      RunsOfWhole(files, [], i + 1);
      RunsOfWhole(files, first, |files|);
      assert [] + first == first;
    }
    LeftOut(files, first + [Attempt(|files|, |files|)], lost);
  }

  lemma {:induction false} StoppedAt(files: seq<string>, i: nat)
    requires i < |files| && InVersionOrder(files[..i + 1])
    ensures var db := Run(files, Db([], []), i + 1);
            db.log == files[..i + 1] && MaxVersion(db.recorded) == ParseVersion(files[i])
  {
    FirstStops(files, i + 1);
    MaxOfIncreasing(Prefix(files, i + 1).recorded);
  }

  /** From an empty database, a run stopped after `k` commits has applied the first `k` files, if
      those are in order. */
  lemma FirstStops(files: seq<string>, k: nat)
    requires k <= |files| && InVersionOrder(files[..k])
    ensures RunFrom(files, 0, 0, Db([], []), k) == Prefix(files, k)
  {
    StopsAt(files, 0, k);
    assert Prefix(files, 0) == Db([], []);
    NoBudget(files, k, 0, Prefix(files, k));
  }

  lemma {:induction false} NoBudget(files: seq<string>, i: nat, current: int, db: Db)
    requires i <= |files|
    ensures RunFrom(files, i, current, db, 0) == db
    decreases |files| - i
  {
    if i < |files| {
      NoBudget(files, i + 1, current, db);
    }
  }

  lemma {:induction false} StopsAt(files: seq<string>, i: nat, k: nat)
    requires i <= k <= |files| && InVersionOrder(files[..k])
    ensures RunFrom(files, i, 0, Prefix(files, i), k - i) == RunFrom(files, k, 0, Prefix(files, k), 0)
    decreases k - i
  {
    if i < k {
      assert files[..k][i] == files[i] && files[..k][..i] == files[..i];
      assert ParseVersion(files[i]) !in Versions(files[..i]) by {
        assert forall j :: 0 <= j < i ==> files[..k][j] == files[j];
      }
      PrefixGrows(files, i);
      StopsAt(files, i + 1, k);
    }
  }

  lemma {:induction false} FirstDrop(files: seq<string>) returns (i: nat)
    requires forall j :: 0 <= j < |files| ==> 0 < ParseVersion(files[j]) <= MAX_INTEGER
    requires !InVersionOrder(files)
    ensures i + 1 < |files| && InVersionOrder(files[..i + 1]) && ParseVersion(files[i + 1]) <= ParseVersion(files[i])
  {
    i := 0;
    while i + 1 < |files| && ParseVersion(files[i]) < ParseVersion(files[i + 1])
      invariant i < |files|
      invariant forall a, b :: 0 <= a < b <= i ==> ParseVersion(files[a]) < ParseVersion(files[b])
    {
      i := i + 1;
    }
  }

  /** Every interruption can be resumed so that each file is applied exactly once, if and only if
      the numbers increase strictly in name order, start above zero and fit the column. */
  lemma ResumableIff(files: seq<string>)
    requires Distinct(files)
    ensures Resumable(files) <==> InVersionOrder(files)
  {
    if InVersionOrder(files) {
      forall attempts | Finished(files, attempts) ensures multiset(Runs(files, attempts).log) == multiset(files) {
        RunsApplyAPrefix(files, attempts);
        assert attempts[|attempts| - 1] in attempts;
        assert files[..|files|] == files;
      }
    } else if i :| 0 <= i < |files| && !(0 < ParseVersion(files[i]) <= MAX_INTEGER) {
      OutOfRangeNeverApplied(files, i);
    } else {
      var i := FirstDrop(files);
      StoppedBeforeDropIsLost(files, i);
    }
  }

  // ----- Zero-padded names -----

  /** The name starts with exactly `w` digits. */
  predicate Padded(name: string, w: nat) {
    && |name| >= w
    && (forall i :: 0 <= i < w ==> IsDigit(name[i]))
    && (|name| == w || !IsDigit(name[w]))
  }

  lemma {:induction false} SmallerFrontSmallerNumber(a: string, b: string, w: nat, x: nat, y: nat)
    requires Padded(a, w) && Padded(b, w) && x < y
    ensures Digits(a, x) < Digits(b, y)
  {
    if w > 0 {
      var da, db := a[0] as int - '0' as int, b[0] as int - '0' as int;
      SmallerFrontSmallerNumber(a[1..], b[1..], w - 1, 10 * x + da, 10 * y + db);
    }
  }

  /** On prefixes of one width, the smaller number comes first in name order. */
  lemma {:induction false} SmallerNumberComesFirst(a: string, b: string, w: nat, x: nat)
    requires Padded(a, w) && Padded(b, w) && Digits(a, x) < Digits(b, x)
    ensures Before(a, b)
  {
    if w > 0 {
      var da, db := a[0] as int - '0' as int, b[0] as int - '0' as int;
      if a[0] == b[0] {
        SmallerNumberComesFirst(a[1..], b[1..], w - 1, 10 * x + da);
      } else if db < da {
        SmallerFrontSmallerNumber(b[1..], a[1..], w - 1, 10 * x + db, 10 * x + da);
      }
    }
  }

  /** For a directory of SQL files whose names start with unique numbers of one width, from one up:
      whatever order the listing has, any sequence of interrupted runs applies a prefix of the
      files in numeric order, each exactly once, and a run that is not interrupted completes it. */
  lemma {:induction false} PaddedDirectoryIsSafe(dir: seq<Entry>, w: nat, attempts: seq<Attempt>)
    requires var names := SqlNames(dir);
             && w > 0
             && (forall f :: f in names ==> Padded(f, w) && 0 < ParseVersion(f) <= MAX_INTEGER)
             && (forall i, j :: 0 <= i < j < |names| ==> ParseVersion(names[i]) != ParseVersion(names[j]))
    ensures var files := Sort(SqlNames(dir));
            && InVersionOrder(files)
            && Runs(files, attempts) == Prefix(files, Reached(|files|, attempts))
            && (Finished(files, attempts) ==> Runs(files, attempts).log == files)
  {
    var files := Sort(SqlNames(dir));
    PaddedInOrder(SqlNames(dir), w);
    RunsApplyAPrefix(files, attempts);
    if Finished(files, attempts) {
      assert attempts[|attempts| - 1] in attempts;
      assert files[..|files|] == files;
    }
  }

  /** Sorting by name puts such files in the order of their numbers. */
  lemma PaddedInOrder(names: seq<string>, w: nat)
    requires w > 0 && forall f :: f in names ==> Padded(f, w) && 0 < ParseVersion(f) <= MAX_INTEGER
    requires forall i, j :: 0 <= i < j < |names| ==> ParseVersion(names[i]) != ParseVersion(names[j])
    ensures InVersionOrder(Sort(names))
  {
    var files := Sort(names);
    SortSorts(names);
    forall i | 0 <= i < |files| ensures files[i] in names {
      assert files[i] in multiset(files);
    }
    forall i, j | 0 <= i < j < |files| ensures ParseVersion(files[i]) < ParseVersion(files[j]) {
      DistinctVersions(names, files, i, j);
      PaddedPair(files[i], files[j], w);
    }
  }

  lemma PaddedPair(a: string, b: string, w: nat)
    requires w > 0 && Padded(a, w) && Padded(b, w) && !Before(b, a)
    requires 0 < ParseVersion(a) && 0 < ParseVersion(b)
    ensures ParseVersion(a) <= ParseVersion(b)
  {
    if ParseVersion(b) < ParseVersion(a) {
      SmallerNumberComesFirst(b, a, w, 0);
    }
  }

  lemma {:induction false} OccursOnce(names: seq<string>, f: string)
    requires Distinct(names)
    ensures multiset(names)[f] <= 1
  {
    if names != [] {
      OccursOnce(names[1..], f);
      assert names == [names[0]] + names[1..];
    }
  }

  lemma DistinctVersions(names: seq<string>, files: seq<string>, i: nat, j: nat)
    requires multiset(files) == multiset(names) && i < j < |files|
    requires forall a, b :: 0 <= a < b < |names| ==> ParseVersion(names[a]) != ParseVersion(names[b])
    ensures ParseVersion(files[i]) != ParseVersion(files[j])
  {
    assert files[i] in multiset(files) && files[j] in multiset(files);
    var a :| 0 <= a < |names| && names[a] == files[i];
    var b :| 0 <= b < |names| && names[b] == files[j];
    if a == b {
      assert files == files[..j] + [files[j]] + files[j + 1..];
      assert files[..j][i] == files[i];
      assert files[i] in multiset(files[..j]);
      OccursOnce(names, files[i]);
    }
  }

  /** Without padding, an uninterrupted run applies both files, but in the wrong order; stopped
      after the first commit, it never applies the second. */
  lemma {:induction false} UnpaddedNames(budget: nat)
    ensures var files := Sort(["9_add.sql", "10_drop.sql"]);
            && Run(files, Db([], []), budget + 2).log == ["10_drop.sql", "9_add.sql"]
            && Run(files, Run(files, Db([], []), 1), budget).log == ["10_drop.sql"]
  {
    var nine, ten := "9_add.sql", "10_drop.sql";
    assert Insert(nine, [ten]) == [ten, nine];
    assert ParseVersion(nine) == 9;
    assert ParseVersion(ten) == 10;
    assert Sort([ten]) == [ten];
    assert ["9_add.sql", "10_drop.sql"][1..] == [ten];
    var files := Sort([nine, ten]);
    assert files == [ten, nine];
    var one := Db([10], [ten]);
    assert MaxVersion([]) == 0 && MaxVersion([10]) == 10;
    assert RunFrom(files, 1, 0, one, 0) == one;
  }
}
