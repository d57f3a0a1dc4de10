/**
 * The level set tracker (src/resources/level.rs): the tutorial and normal level
 * collections, the progress record of each level, the current position, and the
 * loading of a directory of numbered level files.
 */
module LevelManagement {
  import opened Wrappers
  import opened Text
  import opened Controls
  import opened Levels

  datatype LevelType = Tutorial | Normal

  // ------------------------------------------------------- level files

  /**
   * A directory entry as the loader sees it: its full path, its stem and extension
   * when they are valid UTF-8, and the lines of the file (or the read error).
   */
  datatype FileEntry = FileEntry(
    path: string,
    stem: Option<string>,
    extension: Option<string>,
    content: Result<seq<string>>)

  /** A selected level file and the number its name spells. */
  datatype LevelFile = LevelFile(number: nat, path: string, content: Result<seq<string>>)

  /** Only `.txt` files whose stem parses as a `usize` are levels. */
  predicate IsLevelFile(e: FileEntry) {
    e.extension == Some("txt") && e.stem.Some? && ParseUsize(e.stem.value).Some?
  }

  function LevelFileOf(e: FileEntry): LevelFile
    requires IsLevelFile(e)
  {
    LevelFile(ParseUsize(e.stem.value).value, e.path, e.content)
  }

  /**
   * The selection loop over the directory entries, in listing order: an entry that
   * could not be read aborts the whole load; other entries are kept only if they are
   * level files.
   */
  function SelectLevelFiles(entries: seq<Result<FileEntry>>): (r: Result<seq<LevelFile>>)
    ensures r.Ok? <==> forall j :: 0 <= j < |entries| ==> entries[j].Ok?
    ensures r.Ok? ==> forall j :: 0 <= j < |entries| && IsLevelFile(entries[j].value) ==> LevelFileOf(entries[j].value) in r.value
    ensures r.Ok? ==> forall f :: f in r.value ==> exists j :: 0 <= j < |entries| && IsLevelFile(entries[j].value) && f == LevelFileOf(entries[j].value)
    decreases |entries|
  {
    if entries == [] then Ok([])
    else
      match SelectLevelFiles(entries[..|entries| - 1])
      case Err(e) => Err(e)
      case Ok(files) =>
        var last := entries[|entries| - 1];
        if last.Err? then Err("Erreur path: " + last.error)
        else
          assert forall j :: 0 <= j < |entries| - 1 ==> entries[..|entries| - 1][j] == entries[j];
          Ok(files + (if IsLevelFile(last.value) then [LevelFileOf(last.value)] else []))
  }

  // ------------------------------------------------------ stable sort

  predicate SortedByNumber(fs: seq<LevelFile>) {
    forall i, j :: 0 <= i < j < |fs| ==> fs[i].number <= fs[j].number
  }

  /** Places `f` after every element of `fs` whose number is not greater. */
  function InsertByNumber(fs: seq<LevelFile>, f: LevelFile): seq<LevelFile>
    decreases |fs|
  {
    if fs == [] || fs[|fs| - 1].number <= f.number then fs + [f]
    else InsertByNumber(fs[..|fs| - 1], f) + [fs[|fs| - 1]]
  }

  /** Inserting adds `f` and loses nothing. */
  lemma {:induction false} InsertAddsOne(fs: seq<LevelFile>, f: LevelFile)
    ensures multiset(InsertByNumber(fs, f)) == multiset(fs) + multiset{f}
    decreases |fs|
  {
    if fs != [] && fs[|fs| - 1].number > f.number {
      var init := fs[..|fs| - 1];
      assert fs == init + [fs[|fs| - 1]];
      InsertAddsOne(init, f);
    }
  }

  /** Inserting into a sorted list keeps it sorted. */
  lemma {:induction false} InsertKeepsSorted(fs: seq<LevelFile>, f: LevelFile)
    requires SortedByNumber(fs)
    ensures SortedByNumber(InsertByNumber(fs, f))
    decreases |fs|
  {
    if fs != [] && fs[|fs| - 1].number > f.number {
      var init := fs[..|fs| - 1];
      var top := fs[|fs| - 1];
      InsertKeepsSorted(init, f);
      var r' := InsertByNumber(init, f);
      forall k | 0 <= k < |r'|
        ensures r'[k].number <= top.number
      {
        InsertAddsOne(init, f);
        assert r'[k] in multiset(r');
        assert r'[k] in multiset(init) || r'[k] == f;
      }
    }
  }

  /** `sort_by_key` on the file number: a stable sort. */
  function SortByNumber(fs: seq<LevelFile>): (r: seq<LevelFile>)
    ensures SortedByNumber(r)
    ensures multiset(r) == multiset(fs)
    decreases |fs|
  {
    if fs == [] then []
    else
      assert fs == fs[..|fs| - 1] + [fs[|fs| - 1]];
      InsertKeepsSorted(SortByNumber(fs[..|fs| - 1]), fs[|fs| - 1]);
      InsertAddsOne(SortByNumber(fs[..|fs| - 1]), fs[|fs| - 1]);
      InsertByNumber(SortByNumber(fs[..|fs| - 1]), fs[|fs| - 1])
  }

  /** The files carrying number `n`, in order. */
  function WithNumber(fs: seq<LevelFile>, n: nat): seq<LevelFile>
    decreases |fs|
  {
    if fs == [] then []
    else WithNumber(fs[..|fs| - 1], n) + (if fs[|fs| - 1].number == n then [fs[|fs| - 1]] else [])
  }

  /**
   * Inserting `f` into a sorted list puts it after every file with its own number:
   * the files with number `n` keep their order, and `f` joins them last.
   */
  lemma {:induction false} InsertKeepsOrder(fs: seq<LevelFile>, f: LevelFile, n: nat)
    requires SortedByNumber(fs)
    ensures WithNumber(InsertByNumber(fs, f), n) == WithNumber(fs, n) + (if f.number == n then [f] else [])
    decreases |fs|
  {
    if fs == [] || fs[|fs| - 1].number <= f.number {
      assert InsertByNumber(fs, f) == fs + [f];
      WithNumberSnoc(fs, f, n);
    } else {
      var init := fs[..|fs| - 1];
      var top := fs[|fs| - 1];
      assert SortedByNumber(init);
      assert fs == init + [top];
      InsertKeepsOrder(init, f, n);
      InsertBelowTop(init, top, f, n);
    }
  }

  /** Inserting `f` below a greater last file leaves that file last and out of `f`'s group. */
  lemma InsertBelowTop(init: seq<LevelFile>, top: LevelFile, f: LevelFile, n: nat)
    requires top.number > f.number
    requires WithNumber(InsertByNumber(init, f), n) == WithNumber(init, n) + (if f.number == n then [f] else [])
    ensures WithNumber(InsertByNumber(init + [top], f), n) == WithNumber(init + [top], n) + (if f.number == n then [f] else [])
  {
    assert (init + [top])[..|init|] == init;
    assert InsertByNumber(init + [top], f) == InsertByNumber(init, f) + [top];
    WithNumberSnoc(InsertByNumber(init, f), top, n);
    WithNumberSnoc(init, top, n);
  }

  /** Appending one file adds it to its own number's files and to no other's. */
  lemma WithNumberSnoc(a: seq<LevelFile>, x: LevelFile, n: nat)
    ensures WithNumber(a + [x], n) == WithNumber(a, n) + (if x.number == n then [x] else [])
  {
    assert (a + [x])[..|a|] == a;
  }

  /** The sort is stable: the files with any one number keep their listing order. */
  lemma {:induction false} SortIsStable(fs: seq<LevelFile>, n: nat)
    ensures WithNumber(SortByNumber(fs), n) == WithNumber(fs, n)
    decreases |fs|
  {
    if fs != [] {
      var init := fs[..|fs| - 1];
      SortIsStable(init, n);
      InsertKeepsOrder(SortByNumber(init), fs[|fs| - 1], n);
    }
  }

  // ------------------------------------------------------- loading

  /** `f` applied to each element together with its position counted from `start`. */
  function MapWithIds<T, U>(f: (T, nat) -> U, xs: seq<T>, start: nat): (ys: seq<U>)
    ensures |ys| == |xs|
    decreases |xs|
  {
    if xs == [] then [] else [f(xs[0], start)] + MapWithIds(f, xs[1..], start + 1)
  }

  /** The k-th element of the map is `f` at the k-th element and position `start + k`. */
  lemma {:induction false} MapWithIdsAt<T, U>(f: (T, nat) -> U, xs: seq<T>, start: nat, k: nat)
    requires k < |xs|
    ensures MapWithIds(f, xs, start)[k] == f(xs[k], start + k)
    decreases k
  {
    if k > 0 {
      MapWithIdsAt(f, xs[1..], start + 1, k - 1);
    }
  }

  /** `LevelData::from_file` on one listed file, with id `id`. */
  function LoadOutcome(f: LevelFile, id: nat): Result<LevelData> {
    ParseLevelFile(f.path, f.content, id)
  }

  /** What `LevelData::from_file` gives for each file in turn, the k-th with id `startId + k`. */
  function Outcomes(files: seq<LevelFile>, startId: nat): (os: seq<Result<LevelData>>)
    ensures |os| == |files|
  {
    MapWithIds(LoadOutcome, files, startId)
  }

  /** The k-th outcome is the k-th file parsed with id `startId + k`. */
  lemma OutcomeAt(files: seq<LevelFile>, startId: nat, k: nat)
    requires k < |files|
    ensures Outcomes(files, startId)[k] == LoadOutcome(files[k], startId + k)
  {
    MapWithIdsAt(LoadOutcome, files, startId, k);
  }

  /**
   * The load loop over the first `n` outcomes: the levels in order, or the first
   * failure, reported with the path of the file that failed.
   */
  function Collect(files: seq<LevelFile>, outcomes: seq<Result<LevelData>>, n: nat): (r: Result<seq<LevelData>>)
    requires n <= |files| == |outcomes|
    ensures r.Ok? <==> forall k :: 0 <= k < n ==> outcomes[k].Ok?
    ensures r.Ok? ==> |r.value| == n && forall k :: 0 <= k < n ==> outcomes[k] == Ok(r.value[k])
    decreases n
  {
    if n == 0 then Ok([])
    else
      match Collect(files, outcomes, n - 1)
      case Err(e) => Err(e)
      case Ok(levels) =>
        match outcomes[n - 1]
        case Err(e) => Err("Erreur dans le fichier " + files[n - 1].path + ": " + e)
        case Ok(level) => Ok(levels + [level])
  }

  /** One more outcome after a run of successes: appended when it is a level, reported with its path when it is an error. */
  lemma CollectStep(files: seq<LevelFile>, outcomes: seq<Result<LevelData>>, n: nat, levels: seq<LevelData>, outcome: Result<LevelData>)
    requires n < |files| == |outcomes|
    requires Collect(files, outcomes, n) == Ok(levels)
    requires outcomes[n] == outcome
    ensures Collect(files, outcomes, n + 1)
            == if outcome.Err? then Err("Erreur dans le fichier " + files[n].path + ": " + outcome.error) else Ok(levels + [outcome.value])
  {
  }

  /** Once a file fails to load, the result is that failure however many files follow. */
  lemma {:induction false} CollectErrorSticks(files: seq<LevelFile>, outcomes: seq<Result<LevelData>>, m: nat, n: nat)
    requires m <= n <= |files| == |outcomes|
    requires Collect(files, outcomes, m).Err?
    ensures Collect(files, outcomes, n) == Collect(files, outcomes, m)
    decreases n
  {
    if m < n {
      CollectErrorSticks(files, outcomes, m, n - 1);
    }
  }

  /** A failed load reports the first file that failed, by path, with its error. */
  lemma {:induction false} CollectReportsFirstFailure(files: seq<LevelFile>, outcomes: seq<Result<LevelData>>, n: nat)
    requires n <= |files| == |outcomes|
    requires Collect(files, outcomes, n).Err?
    ensures exists k :: 0 <= k < n && outcomes[k].Err? && (forall j :: 0 <= j < k ==> outcomes[j].Ok?)
              && Collect(files, outcomes, n).error == "Erreur dans le fichier " + files[k].path + ": " + outcomes[k].error
    decreases n
  {
    if Collect(files, outcomes, n - 1).Err? {
      CollectReportsFirstFailure(files, outcomes, n - 1);
    } else {
      assert outcomes[n - 1].Err?;
    }
  }

  /** `load_levels_from_path`: list, select, sort by number, then load in that order. */
  function LoadLevels(path: string, listing: Result<seq<Result<FileEntry>>>, startId: nat): (r: Result<seq<LevelData>>)
    ensures listing.Err? ==> r == Err("Erreur lecture répertoire " + path + ": " + listing.error)
    ensures listing.Ok? && SelectLevelFiles(listing.value).Err? ==> r == Err(SelectLevelFiles(listing.value).error)
    ensures r.Ok? ==> listing.Ok? && SelectLevelFiles(listing.value).Ok?
                      && |r.value| == |SelectLevelFiles(listing.value).value|
  {
    match listing
    case Err(e) => Err("Erreur lecture répertoire " + path + ": " + e)
    case Ok(entries) =>
      match SelectLevelFiles(entries)
      case Err(e) => Err(e)
      case Ok(files) =>
        var sorted := SortByNumber(files);
        assert |sorted| == |multiset(sorted)| == |multiset(files)| == |files|;
        Collect(sorted, Outcomes(sorted, startId), |sorted|)
  }

  /** The loaded levels come in numeric file order, with ids counting up from `startId`. */
  lemma LoadedLevelsInFileOrder(path: string, entries: seq<Result<FileEntry>>, startId: nat)
    requires LoadLevels(path, Ok(entries), startId).Ok?
    ensures SelectLevelFiles(entries).Ok?
    ensures var sorted := SortByNumber(SelectLevelFiles(entries).value);
            var levels := LoadLevels(path, Ok(entries), startId).value;
            |levels| == |sorted|
            && (forall k :: 0 <= k < |levels| ==> ParsesTo(sorted[k], startId + k, levels[k]))
            && (forall i, j :: 0 <= i < j < |sorted| ==> sorted[i].number <= sorted[j].number)
  {
    var sorted := SortByNumber(SelectLevelFiles(entries).value);
    CollectedLevelsParse(sorted, startId);
  }

  /** `level` is what `LevelData::from_file` gives for file `f` with id `id`, and it carries that id. */
  ghost predicate ParsesTo(f: LevelFile, id: nat, level: LevelData) {
    ParseLevelFile(f.path, f.content, id).Ok? && ParseLevelFile(f.path, f.content, id).value == level && level.id == id
  }

  /** Levels collected from all the files are their parses, in order, with consecutive ids. */
  lemma CollectedLevelsParse(files: seq<LevelFile>, startId: nat)
    requires Collect(files, Outcomes(files, startId), |files|).Ok?
    ensures var levels := Collect(files, Outcomes(files, startId), |files|).value;
            |levels| == |files|
            && forall k :: 0 <= k < |levels| ==> ParsesTo(files[k], startId + k, levels[k])
  {
    CollectedAll(files, Outcomes(files, startId));
    OutcomesParse(files, startId);
  }

  /** Outcomes that are all levels are the files' parses, with consecutive ids. */
  lemma OutcomesParse(files: seq<LevelFile>, startId: nat)
    requires forall k :: 0 <= k < |files| ==> Outcomes(files, startId)[k].Ok?
    ensures forall k :: 0 <= k < |files| ==> ParsesTo(files[k], startId + k, Outcomes(files, startId)[k].value)
  {
    forall k | 0 <= k < |files|
      ensures ParsesTo(files[k], startId + k, Outcomes(files, startId)[k].value)
    {
      OutcomeAt(files, startId, k);
      ParsedLevelHasId(files[k].path, files[k].content, startId + k);
    }
  }

  /** A load that went through every file holds one level per outcome, in order. */
  lemma CollectedAll(files: seq<LevelFile>, outcomes: seq<Result<LevelData>>)
    requires |files| == |outcomes|
    requires Collect(files, outcomes, |files|).Ok?
    ensures var levels := Collect(files, outcomes, |files|).value;
            |levels| == |files|
            && forall k :: 0 <= k < |files| ==> outcomes[k].Ok? && outcomes[k].value == levels[k]
  {
  }

  lemma ParsedLevelHasId(path: string, content: Result<seq<string>>, id: nat)
    ensures ParseLevelFile(path, content, id).Ok? ==> ParseLevelFile(path, content, id).value.id == id
  {
  }

  /** Once the selection loop meets an unreadable entry, the result is that error whatever follows. */
  lemma {:induction false} SelectErrorSticks(entries: seq<Result<FileEntry>>, m: nat)
    requires m <= |entries|
    requires SelectLevelFiles(entries[..m]).Err?
    ensures SelectLevelFiles(entries) == SelectLevelFiles(entries[..m])
    decreases |entries|
  {
    if m < |entries| {
      var init := entries[..|entries| - 1];
      assert init[..m] == entries[..m];
      SelectErrorSticks(init, m);
    } else {
      assert entries[..m] == entries;
    }
  }

  /**
   * `files` lists the level files of `entries` in listing order, once each: `idx`
   * gives, in increasing order, the entry each file comes from, and names every
   * entry that is a level file.
   */
  ghost predicate PicksLevelFiles(entries: seq<Result<FileEntry>>, files: seq<LevelFile>, idx: seq<nat>) {
    |idx| == |files|
    && (forall i :: 0 <= i < |idx| ==>
          idx[i] < |entries| && entries[idx[i]].Ok? && IsLevelFile(entries[idx[i]].value)
          && files[i] == LevelFileOf(entries[idx[i]].value))
    && (forall i, j :: 0 <= i < j < |idx| ==> idx[i] < idx[j])
    && (forall k :: 0 <= k < |entries| && entries[k].Ok? && IsLevelFile(entries[k].value) ==> k in idx)
  }

  /** One more readable entry extends the picked files by that entry when it is a level file. */
  lemma PicksExtend(entries: seq<Result<FileEntry>>, files: seq<LevelFile>, idx: seq<nat>) returns (idx': seq<nat>)
    requires entries != [] && entries[|entries| - 1].Ok?
    requires PicksLevelFiles(entries[..|entries| - 1], files, idx)
    ensures var e := entries[|entries| - 1].value;
            PicksLevelFiles(entries, files + (if IsLevelFile(e) then [LevelFileOf(e)] else []), idx')
  {
    var n := |entries| - 1;
    var init := entries[..n];
    assert forall k :: 0 <= k < n ==> init[k] == entries[k];
    var e := entries[n].value;
    if IsLevelFile(e) {
      var files' := files + [LevelFileOf(e)];
      idx' := idx + [n];
      forall i | 0 <= i < |idx'|
        ensures idx'[i] < |entries| && entries[idx'[i]].Ok? && IsLevelFile(entries[idx'[i]].value)
                && files'[i] == LevelFileOf(entries[idx'[i]].value)
      {
        if i < |idx| {
          assert idx'[i] == idx[i] && files'[i] == files[i];
        }
      }
      forall k | 0 <= k < |entries| && entries[k].Ok? && IsLevelFile(entries[k].value)
        ensures k in idx'
      {
        if k < n {
          assert k in idx;
        } else {
          assert idx'[|idx|] == k;
        }
      }
    } else {
      idx' := idx;
      assert files + [] == files;
    }
  }

  /** The selection keeps the level files in listing order, each once. */
  lemma {:induction false} SelectionKeepsListingOrder(entries: seq<Result<FileEntry>>)
    requires SelectLevelFiles(entries).Ok?
    ensures exists idx :: PicksLevelFiles(entries, SelectLevelFiles(entries).value, idx)
    decreases |entries|
  {
    if entries == [] {
      assert PicksLevelFiles(entries, [], []);
    } else {
      var n := |entries| - 1;
      var init := entries[..n];
      SelectionKeepsListingOrder(init);
      var files := SelectLevelFiles(init).value;
      var idx: seq<nat> :| PicksLevelFiles(init, files, idx);
      var e := entries[n].value;
      assert SelectLevelFiles(entries).value == files + (if IsLevelFile(e) then [LevelFileOf(e)] else []);
      var idx' := PicksExtend(entries, files, idx);
      assert PicksLevelFiles(entries, SelectLevelFiles(entries).value, idx');
    }
  }

  /** An unreadable entry aborts the selection with the error of the first such entry. */
  lemma {:induction false} SelectionReportsFirstFailure(entries: seq<Result<FileEntry>>)
    requires SelectLevelFiles(entries).Err?
    ensures exists k :: 0 <= k < |entries| && entries[k].Err? && (forall j :: 0 <= j < k ==> entries[j].Ok?)
              && SelectLevelFiles(entries).error == "Erreur path: " + entries[k].error
    decreases |entries|
  {
    var n := |entries| - 1;
    var init := entries[..n];
    assert forall k :: 0 <= k < n ==> init[k] == entries[k];
    if SelectLevelFiles(init).Err? {
      SelectionReportsFirstFailure(init);
    } else {
      assert entries[n].Err?;
    }
  }

  /**
   * `load_levels_from_path`: the selection loop, the sort, and the load loop.
   * `listing` is the directory listing, or the error reading it.
   */
  method LoadLevelsFromPath(path: string, listing: Result<seq<Result<FileEntry>>>, startId: nat)
    returns (r: Result<seq<LevelData>>)
    ensures r == LoadLevels(path, listing, startId)
  {
    if listing.Err? {
      return Err("Erreur lecture répertoire " + path + ": " + listing.error);
    }
    var selected := SelectFiles(listing.value);
    if selected.Err? {
      return Err(selected.error);
    }
    var levelFiles := SortByNumber(selected.value);
    r := LoadAll(levelFiles, startId);
  }

  /** The selection loop: entries in listing order, stopping at the first unreadable one. */
  method SelectFiles(entries: seq<Result<FileEntry>>) returns (r: Result<seq<LevelFile>>)
    ensures r == SelectLevelFiles(entries)
  {
    var levelFiles: seq<LevelFile> := [];
    var j := 0;
    while j < |entries|
      invariant j <= |entries|
      invariant SelectLevelFiles(entries[..j]) == Ok(levelFiles)
    {
      assert entries[..j + 1][..j] == entries[..j];
      assert entries[..j + 1][j] == entries[j];
      var entry := entries[j];
      if entry.Err? {
        assert SelectLevelFiles(entries[..j + 1]) == Err("Erreur path: " + entry.error);
        SelectErrorSticks(entries, j + 1);
        return Err("Erreur path: " + entry.error);
      }
      var e := entry.value;
      ghost var before := levelFiles;
      if e.extension == Some("txt") && e.stem.Some? {
        var number := ParseUsize(e.stem.value);
        if number.Some? {
          levelFiles := levelFiles + [LevelFile(number.value, e.path, e.content)];
        }
      }
      assert levelFiles == before + (if IsLevelFile(e) then [LevelFileOf(e)] else []);
      j := j + 1;
    }
    assert entries[..j] == entries;
    r := Ok(levelFiles);
  }

  /** The load loop: each file in turn, with consecutive ids, stopping at the first failure. */
  method LoadAll(files: seq<LevelFile>, startId: nat) returns (r: Result<seq<LevelData>>)
    ensures r == Collect(files, Outcomes(files, startId), |files|)
  {
    ghost var outcomes := Outcomes(files, startId);
    r := Ok([]);
    var index := 0;
    while index < |files| && r.Ok?
      invariant index <= |files| == |outcomes|
      invariant r == Collect(files, outcomes, index)
    {
      r := LoadNext(files, startId, index, r.value);
      index := index + 1;
    }
    LoadLoopExit(files, outcomes, index, r);
  }

  /** Where the load loop stops, at the end or at a failure, it holds the whole collection. */
  lemma LoadLoopExit(files: seq<LevelFile>, outcomes: seq<Result<LevelData>>, index: nat, r: Result<seq<LevelData>>)
    requires index <= |files| == |outcomes|
    requires r == Collect(files, outcomes, index)
    requires index == |files| || r.Err?
    ensures r == Collect(files, outcomes, |files|)
  {
    if r.Err? {
      CollectErrorSticks(files, outcomes, index, |files|);
    }
  }

  /** One pass of the load loop: `from_file` on the file at `index`, appended to the levels so far or reported by path. */
  method LoadNext(files: seq<LevelFile>, startId: nat, index: nat, levels: seq<LevelData>) returns (r: Result<seq<LevelData>>)
    requires index < |files|
    requires Collect(files, Outcomes(files, startId), index).Ok?
    requires Collect(files, Outcomes(files, startId), index).value == levels
    ensures r == Collect(files, Outcomes(files, startId), index + 1)
  {
    var f := files[index];
    var id := startId + index;
    var level := FromFile(f.path, f.content, id);
    OutcomeAt(files, startId, index);
    CollectStep(files, Outcomes(files, startId), index, levels, level);
    if level.Err? {
      r := Err("Erreur dans le fichier " + f.path + ": " + level.error);
    } else {
      r := Ok(levels + [level.value]);
    }
  }

  // ----------------------------------------------------- progress records

  /** The progress map after `set_*_levels`: one fresh record per level id, later levels overwriting earlier ones. */
  function InsertStates(states: map<nat, ProblemState>, levels: seq<LevelData>): (m: map<nat, ProblemState>)
    ensures m.Keys == states.Keys + set k | 0 <= k < |levels| :: levels[k].id
    ensures forall id :: id in states && (forall k :: 0 <= k < |levels| ==> levels[k].id != id) ==> m[id] == states[id]
    decreases |levels|
  {
    if levels == [] then states
    else
      var last := levels[|levels| - 1];
      var init := levels[..|levels| - 1];
      var m := InsertStates(states, init);
      assert (set k | 0 <= k < |levels| :: levels[k].id) == (set k | 0 <= k < |init| :: init[k].id) + {last.id} by {
        assert levels == init + [last];
        IdsSnoc(init, last);
      }
      m[last.id := NewProblemState(|last.functionLimits|)]
  }

  /** The ids of a list of levels are those of all but the last, plus the last one's. */
  lemma IdsSnoc(init: seq<LevelData>, last: LevelData)
    ensures (set k | 0 <= k < |init + [last]| :: (init + [last])[k].id)
            == (set k | 0 <= k < |init| :: init[k].id) + {last.id}
  {
    var all := init + [last];
    forall k | 0 <= k < |all|
      ensures all[k].id in (set j | 0 <= j < |init| :: init[j].id) + {last.id}
    {
      if k < |init| {
        assert all[k] == init[k];
      }
    }
    forall k | 0 <= k < |init|
      ensures init[k].id in (set j | 0 <= j < |all| :: all[j].id)
    {
      assert all[k] == init[k];
    }
    assert all[|init|].id == last.id;
  }

  /** With distinct ids, every level gets a record of `function_limits.len()` empty functions and no progress. */
  lemma {:induction false} InsertStatesFresh(states: map<nat, ProblemState>, levels: seq<LevelData>, k: nat)
    requires k < |levels|
    requires forall i, j :: 0 <= i < j < |levels| ==> levels[i].id != levels[j].id
    ensures InsertStates(states, levels)[levels[k].id] == NewProblemState(|levels[k].functionLimits|)
    decreases |levels|
  {
    var init := levels[..|levels| - 1];
    if k < |levels| - 1 {
      InsertStatesFresh(states, init, k);
    }
  }

  /** `Iterator::all` over the levels: each has a record, and it is completed. */
  function AllCompleted(levels: seq<LevelData>, states: map<nat, ProblemState>): (b: bool)
    ensures b <==> forall k :: 0 <= k < |levels| ==> levels[k].id in states && states[levels[k].id].isCompleted
    decreases |levels|
  {
    if levels == [] then true
    else
      var ok := levels[0].id in states && states[levels[0].id].isCompleted;
      assert forall k :: 1 <= k < |levels| ==> levels[1..][k - 1] == levels[k];
      ok && AllCompleted(levels[1..], states)
  }

  /** `save_final_report`: the report file name, with the spaces of both names replaced by underscores. */
  function ReportFileName(lastName: string, firstName: string): (name: string)
    ensures name == "results_" + ReplaceSpaces(lastName) + "_" + ReplaceSpaces(firstName) + ".txt"
    ensures |name| == |lastName| + |firstName| + 13
    ensures forall i :: 0 <= i < |name| ==> name[i] != ' '
  {
    "results_" + ReplaceSpaces(lastName) + "_" + ReplaceSpaces(firstName) + ".txt"
  }

  // ------------------------------------------------------------ manager

  /** The level manager resource. */
  class LevelManager {
    var currentLevelId: nat
    var currentLevelType: LevelType
    var tutorialLevels: seq<LevelData>
    var normalLevels: seq<LevelData>
    var tutorialStates: map<nat, ProblemState>
    var normalStates: map<nat, ProblemState>

    /** `LevelManager::new`: tutorial mode, level 0, nothing loaded. */
    constructor ()
      ensures currentLevelId == 0 && currentLevelType == Tutorial
      ensures tutorialLevels == [] && normalLevels == []
      ensures tutorialStates == map[] && normalStates == map[]
    {
      currentLevelId := 0;
      currentLevelType := Tutorial;
      tutorialLevels := [];
      normalLevels := [];
      tutorialStates := map[];
      normalStates := map[];
    }

    /** `set_tutorial_levels`: a fresh progress record per level, then the levels themselves. */
    method SetTutorialLevels(levels: seq<LevelData>)
      modifies this
      ensures tutorialStates == InsertStates(old(tutorialStates), levels)
      ensures tutorialLevels == levels
      ensures currentLevelId == old(currentLevelId) && currentLevelType == old(currentLevelType)
      ensures normalLevels == old(normalLevels) && normalStates == old(normalStates)
    {
      var k := 0;
      while k < |levels|
        invariant k <= |levels|
        invariant tutorialStates == InsertStates(old(tutorialStates), levels[..k])
        invariant currentLevelId == old(currentLevelId) && currentLevelType == old(currentLevelType)
        invariant tutorialLevels == old(tutorialLevels)
        invariant normalLevels == old(normalLevels) && normalStates == old(normalStates)
      {
        var level := levels[k];
        assert levels[..k + 1][..k] == levels[..k];
        tutorialStates := tutorialStates[level.id := NewProblemState(|level.functionLimits|)];
        k := k + 1;
      }
      assert levels[..k] == levels;
      tutorialLevels := levels;
    }

    /** `set_normal_levels`: as `set_tutorial_levels`, for the normal collection. */
    method SetNormalLevels(levels: seq<LevelData>)
      modifies this
      ensures normalStates == InsertStates(old(normalStates), levels)
      ensures normalLevels == levels
      ensures currentLevelId == old(currentLevelId) && currentLevelType == old(currentLevelType)
      ensures tutorialLevels == old(tutorialLevels) && tutorialStates == old(tutorialStates)
    {
      var k := 0;
      while k < |levels|
        invariant k <= |levels|
        invariant normalStates == InsertStates(old(normalStates), levels[..k])
        invariant currentLevelId == old(currentLevelId) && currentLevelType == old(currentLevelType)
        invariant normalLevels == old(normalLevels)
        invariant tutorialLevels == old(tutorialLevels) && tutorialStates == old(tutorialStates)
      {
        var level := levels[k];
        assert levels[..k + 1][..k] == levels[..k];
        normalStates := normalStates[level.id := NewProblemState(|level.functionLimits|)];
        k := k + 1;
      }
      assert levels[..k] == levels;
      normalLevels := levels;
    }

    /** `get_levels`: the collection of the current type. */
    function GetLevels(): (ls: seq<LevelData>)
      reads this
      ensures ls == if currentLevelType == Tutorial then tutorialLevels else normalLevels
    {
      match currentLevelType
      case Tutorial => tutorialLevels
      case Normal => normalLevels
    }

    /** `get_levels_count`. */
    function GetLevelsCount(): (n: nat)
      reads this
      ensures n == |GetLevels()|
    {
      match currentLevelType
      case Tutorial => |tutorialLevels|
      case Normal => |normalLevels|
    }

    /** `get_current_level`: the level at the current position of the current collection, if there is one. */
    function GetCurrentLevel(): (l: Option<LevelData>)
      reads this
      ensures l.Some? <==> currentLevelId < GetLevelsCount()
      ensures l.Some? ==> l.value == GetLevels()[currentLevelId]
    {
      var levels := if currentLevelType == Tutorial then tutorialLevels else normalLevels;
      if currentLevelId < |levels| then Some(levels[currentLevelId]) else None
    }

    /** The progress map of the current type. */
    function States(): map<nat, ProblemState>
      reads this
    {
      if currentLevelType == Tutorial then tutorialStates else normalStates
    }

    /** `get_problem_state`: the record of `levelId` in the current type's map. */
    function GetProblemState(levelId: nat): (p: Option<ProblemState>)
      reads this
      ensures p.Some? <==> levelId in States()
      ensures p.Some? ==> p.value == States()[levelId]
    {
      match currentLevelType
      case Tutorial => if levelId in tutorialStates then Some(tutorialStates[levelId]) else None
      case Normal => if levelId in normalStates then Some(normalStates[levelId]) else None
    }

    /** The program of the current level, as the interpreter reads it: current level, then its record. */
    function CurrentProgram(): (fns: Option<seq<seq<Instruction>>>)
      reads this
      ensures fns.Some? <==> GetCurrentLevel().Some? && GetProblemState(GetCurrentLevel().value.id).Some?
      ensures fns.Some? ==> fns.value == GetProblemState(GetCurrentLevel().value.id).value.functions
    {
      match GetCurrentLevel()
      case None => None
      case Some(level) =>
        match GetProblemState(level.id)
        case None => None
        case Some(state) => Some(state.functions)
    }

    /** A write through `get_problem_state_mut`: replaces an existing record of the current type; nothing else changes. */
    method PutProblemState(levelId: nat, p: ProblemState)
      requires GetProblemState(levelId).Some?
      modifies this
      ensures States() == old(States())[levelId := p]
      ensures currentLevelType == Tutorial ==> normalStates == old(normalStates)
      ensures currentLevelType == Normal ==> tutorialStates == old(tutorialStates)
      ensures currentLevelId == old(currentLevelId) && currentLevelType == old(currentLevelType)
      ensures tutorialLevels == old(tutorialLevels) && normalLevels == old(normalLevels)
    {
      match currentLevelType
      case Tutorial => tutorialStates := tutorialStates[levelId := p];
      case Normal => normalStates := normalStates[levelId := p];
    }

    /** `switch_to_level`: only the position changes. */
    method SwitchToLevel(levelId: nat)
      modifies this
      ensures currentLevelId == levelId
      ensures currentLevelType == old(currentLevelType)
      ensures tutorialLevels == old(tutorialLevels) && normalLevels == old(normalLevels)
      ensures tutorialStates == old(tutorialStates) && normalStates == old(normalStates)
    {
      currentLevelId := levelId;
    }

    /** `switch_level_type`: changes the type and goes back to the first level of it. */
    method SwitchLevelType(levelType: LevelType)
      modifies this
      ensures currentLevelType == levelType && currentLevelId == 0
      ensures tutorialLevels == old(tutorialLevels) && normalLevels == old(normalLevels)
      ensures tutorialStates == old(tutorialStates) && normalStates == old(normalStates)
    {
      currentLevelType := levelType;
      currentLevelId := 0;
    }

    /** `can_proceed_to_next`: the current level exists and its record says completed. */
    function CanProceedToNext(): (ok: bool)
      reads this
      ensures ok <==> GetCurrentLevel().Some? && GetProblemState(GetCurrentLevel().value.id).Some?
                      && GetProblemState(GetCurrentLevel().value.id).value.isCompleted
    {
      match GetCurrentLevel()
      case None => false
      case Some(level) =>
        match GetProblemState(level.id)
        case None => false
        case Some(state) => state.isCompleted
    }

    /**
     * `try_next_level`: in tutorial mode the current level must be completed first;
     * then the position advances if a next level exists.
     */
    method TryNextLevel() returns (r: Option<nat>)
      modifies this
      ensures old(currentLevelType == Tutorial && !CanProceedToNext()) ==> r == None && currentLevelId == old(currentLevelId)
      ensures !old(currentLevelType == Tutorial && !CanProceedToNext()) ==>
                if old(currentLevelId) + 1 < old(GetLevelsCount())
                then r == Some(old(currentLevelId) + 1) && currentLevelId == old(currentLevelId) + 1
                else r == None && currentLevelId == old(currentLevelId)
      ensures r.Some? ==> currentLevelId < GetLevelsCount()
      ensures currentLevelType == old(currentLevelType)
      ensures tutorialLevels == old(tutorialLevels) && normalLevels == old(normalLevels)
      ensures tutorialStates == old(tutorialStates) && normalStates == old(normalStates)
    {
      if currentLevelType == Tutorial && !CanProceedToNext() {
        return None;
      }
      var nextId := currentLevelId + 1;
      if nextId < GetLevelsCount() {
        currentLevelId := nextId;
        r := Some(nextId);
      } else {
        r := None;
      }
    }

    /** `are_all_tutorials_completed`: true outside tutorial mode; otherwise every tutorial is completed. */
    function AreAllTutorialsCompleted(): (b: bool)
      reads this
      ensures currentLevelType != Tutorial ==> b
      ensures currentLevelType == Tutorial ==>
                (b <==> forall k :: 0 <= k < |tutorialLevels| ==>
                          tutorialLevels[k].id in tutorialStates && tutorialStates[tutorialLevels[k].id].isCompleted)
    {
      if currentLevelType != Tutorial then true else AllCompleted(tutorialLevels, tutorialStates)
    }

    /** `are_all_levels_completed`: every normal level has a completed record (a missing one counts as not completed). */
    function AreAllLevelsCompleted(): (b: bool)
      reads this
      ensures b <==> forall k :: 0 <= k < |normalLevels| ==>
                       normalLevels[k].id in normalStates && normalStates[normalLevels[k].id].isCompleted
    {
      AllCompleted(normalLevels, normalStates)
    }
  }
}
