/**
 * Level descriptions and per-level progress (src/structs/level.rs): the
 * line-oriented level file parser and the `ProblemState` record.
 */
module Levels {
  import opened Wrappers
  import opened Text
  import opened Controls
  import opened Tiles

  /** A parsed level. `tiles` is row-major, `width` cells per row. */
  datatype LevelData = LevelData(
    id: nat,
    name: string,
    width: int,
    height: int,
    tiles: seq<Option<Tile>>,
    robotStartPos: (int, int),
    robotStartDir: Direction,
    totalStars: nat,
    functionLimits: seq<nat>)

  // ------------------------------------------------------------ header

  /**
   * The values the directive lines set, before the grid is read. `name` stays `None`
   * until a `LEVEL` line gives one; the level then falls back to its default name.
   */
  datatype Header = Header(
    name: Option<string>,
    width: int,
    height: int,
    robotPos: (int, int),
    robotDir: Direction,
    functionLimits: seq<nat>)

  /** The name a level gets when it has no `LEVEL` line: its position, counted from one. */
  function DefaultName(id: nat): string {
    "Problème " + NatToString(id + 1)
  }

  /** Before any directive: no name yet, a 0 by 0 grid, robot at (0, 0) facing North, one function of 5 slots. */
  const InitialHeader := Header(None, 0, 0, (0, 0), North, [5])

  /** The level name: the last `LEVEL` line's, or the default one. */
  function LevelName(h: Header, id: nat): (name: string)
    ensures h.name.Some? ==> name == h.name.value
    ensures h.name.None? ==> name == DefaultName(id)
  {
    match h.name
    case Some(n) => n
    case None => DefaultName(id)
  }

  /** The messages a malformed directive produces. */
  const DirectiveErrors: set<string> := {
    "Erreur parse width", "Erreur parse height", "Erreur parse robot x",
    "Erreur parse robot y", "Direction invalide", "Erreur parse functions"
  }

  /** A (trimmed) line that sets part of the header. */
  predicate IsDirective(line: string) {
    StartsWith(line, "LEVEL ") || StartsWith(line, "SIZE ")
    || StartsWith(line, "ROBOT ") || StartsWith(line, "FUNCTIONS ")
  }

  /** The four directive prefixes start with different letters, so a line matches at most one. */
  lemma PrefixesExclusive(line: string)
    ensures StartsWith(line, "LEVEL ") ==> !StartsWith(line, "SIZE ") && !StartsWith(line, "ROBOT ") && !StartsWith(line, "FUNCTIONS ")
    ensures StartsWith(line, "SIZE ") ==> !StartsWith(line, "ROBOT ") && !StartsWith(line, "FUNCTIONS ")
    ensures StartsWith(line, "ROBOT ") ==> !StartsWith(line, "FUNCTIONS ")
  {
    if |line| > 0 {
      assert StartsWith(line, "LEVEL ") ==> line[0] == 'L';
      assert StartsWith(line, "SIZE ") ==> line[0] == 'S';
      assert StartsWith(line, "ROBOT ") ==> line[0] == 'R';
      assert StartsWith(line, "FUNCTIONS ") ==> line[0] == 'F';
    }
  }

  /** The grid marker is none of the four directives. */
  lemma GridIsNoDirective()
    ensures !IsDirective("GRID:")
  {
    var g := "GRID:";
    assert g[..5][0] == 'G';
    assert !StartsWith(g, "SIZE ") by { assert g[..5][0] != "SIZE "[0]; }
  }

  /** The `FUNCTIONS` numbers: one `usize` per token, or an error at the first token that is not one. */
  function ParseLimits(parts: seq<string>): (r: Result<seq<nat>>)
    ensures r.Ok? <==> forall k :: 0 <= k < |parts| ==> ParseUsize(parts[k]).Some?
    ensures r.Ok? ==> |r.value| == |parts| && forall k :: 0 <= k < |parts| ==> ParseUsize(parts[k]) == Some(r.value[k])
    ensures r.Err? ==> r.error == "Erreur parse functions"
  {
    CollectNumbers(ParseEach(parts), 0)
  }

  /** `parse::<usize>` applied to each token in order. */
  function ParseEach(parts: seq<string>): (numbers: seq<Option<nat>>)
    ensures |numbers| == |parts|
    ensures forall k :: 0 <= k < |parts| ==> numbers[k] == ParseUsize(parts[k])
    decreases |parts|
  {
    if parts == [] then []
    else
      assert forall k :: 1 <= k < |parts| ==> parts[1..][k - 1] == parts[k];
      [ParseUsize(parts[0])] + ParseEach(parts[1..])
  }

  /** `collect` into a `Result`: the numbers from position `i` on when all are present, otherwise the functions error. */
  function CollectNumbers(numbers: seq<Option<nat>>, i: nat): (r: Result<seq<nat>>)
    requires i <= |numbers|
    ensures r.Ok? <==> forall k :: i <= k < |numbers| ==> numbers[k].Some?
    ensures r.Ok? ==> |r.value| == |numbers| - i && forall k :: i <= k < |numbers| ==> numbers[k] == Some(r.value[k - i])
    ensures r.Err? ==> r.error == "Erreur parse functions"
    decreases |numbers| - i
  {
    if i == |numbers| then Ok([])
    else
      match numbers[i]
      case None => Err("Erreur parse functions")
      case Some(n) =>
        match CollectNumbers(numbers, i + 1)
        case Err(e) => Err(e)
        case Ok(rest) => Ok([n] + rest)
  }

  /** The four parts of the header that directives set. */
  datatype Field = NameField | SizeField | RobotField | LimitsField

  /** The value of one part of the header. */
  datatype FieldValue =
    | NameValue(name: Option<string>)
    | SizeValue(width: int, height: int)
    | RobotValue(pos: (int, int), dir: Direction)
    | LimitsValue(limits: seq<nat>)

  /** Part `f` of a header. */
  function Get(h: Header, f: Field): FieldValue {
    match f
    case NameField => NameValue(h.name)
    case SizeField => SizeValue(h.width, h.height)
    case RobotField => RobotValue(h.robotPos, h.robotDir)
    case LimitsField => LimitsValue(h.functionLimits)
  }

  /**
   * Whether a trimmed line sets part `f`: a line with its prefix, and for `SIZE` and
   * `ROBOT` only when it has exactly two or three tokens.
   */
  predicate Sets(line: string, f: Field) {
    match f
    case NameField => StartsWith(line, "LEVEL ")
    case SizeField => StartsWith(line, "SIZE ") && |Words(line[5..])| == 2
    case RobotField => StartsWith(line, "ROBOT ") && |Words(line[6..])| == 3
    case LimitsField => StartsWith(line, "FUNCTIONS ")
  }

  /** The value a line that sets `f` gives it, read token by token; None when a token does not parse. */
  function SetValue(line: string, f: Field): Option<FieldValue>
    requires Sets(line, f)
  {
    match f
    case NameField => Some(NameValue(Some(line[6..])))
    case SizeField =>
      var w := Words(line[5..]);
      if ParseI32(w[0]).Some? && ParseI32(w[1]).Some?
      then Some(SizeValue(ParseI32(w[0]).value, ParseI32(w[1]).value))
      else None
    case RobotField =>
      var w := Words(line[6..]);
      if ParseI32(w[0]).Some? && ParseI32(w[1]).Some? && FromStr(w[2]).Some?
      then Some(RobotValue((ParseI32(w[0]).value, ParseI32(w[1]).value), FromStr(w[2]).value))
      else None
    case LimitsField =>
      var limits := ParseLimits(Words(line[10..]));
      if limits.Ok? then Some(LimitsValue(limits.value)) else None
  }

  /**
   * One pass of the directive loop on a trimmed line. `SIZE` and `ROBOT` lines with
   * the wrong number of tokens are ignored; a token that does not parse is an error.
   * Each directive changes only its own fields.
   */
  function ApplyDirective(line: string, h: Header): (r: Result<Header>)
    ensures !IsDirective(line) ==> r == Ok(h)
    ensures r.Err? ==> r.error in DirectiveErrors
    ensures StartsWith(line, "LEVEL ") ==> r == Ok(h.(name := Some(line[6..])))
    ensures Sets(line, SizeField) ==>
              var w := Words(line[5..]);
              (r.Ok? <==> ParseI32(w[0]).Some? && ParseI32(w[1]).Some?)
              && (ParseI32(w[0]).None? ==> r == Err("Erreur parse width"))
              && (ParseI32(w[0]).Some? && ParseI32(w[1]).None? ==> r == Err("Erreur parse height"))
              && (r.Ok? ==> r.value.width == ParseI32(w[0]).value && r.value.height == ParseI32(w[1]).value)
    ensures Sets(line, RobotField) ==>
              var w := Words(line[6..]);
              (r.Ok? <==> ParseI32(w[0]).Some? && ParseI32(w[1]).Some? && FromStr(w[2]).Some?)
              && (ParseI32(w[0]).None? ==> r == Err("Erreur parse robot x"))
              && (ParseI32(w[0]).Some? && ParseI32(w[1]).None? ==> r == Err("Erreur parse robot y"))
              && (ParseI32(w[0]).Some? && ParseI32(w[1]).Some? && FromStr(w[2]).None? ==> r == Err("Direction invalide"))
              && (r.Ok? ==> r.value.robotPos == (ParseI32(w[0]).value, ParseI32(w[1]).value)
                            && r.value.robotDir == FromStr(w[2]).value)
    ensures StartsWith(line, "FUNCTIONS ") ==>
              (r.Ok? <==> ParseLimits(Words(line[10..])).Ok?)
              && (r.Err? ==> r == Err("Erreur parse functions"))
              && (r.Ok? ==> r.value.functionLimits == ParseLimits(Words(line[10..])).value)
    ensures r.Ok? && !StartsWith(line, "LEVEL ") ==> r.value.name == h.name
    ensures r.Ok? && !StartsWith(line, "SIZE ") ==> r.value.width == h.width && r.value.height == h.height
    ensures r.Ok? && !StartsWith(line, "ROBOT ") ==> r.value.robotPos == h.robotPos && r.value.robotDir == h.robotDir
    ensures r.Ok? && !StartsWith(line, "FUNCTIONS ") ==> r.value.functionLimits == h.functionLimits
    ensures StartsWith(line, "SIZE ") && |Words(line[5..])| != 2 ==> r == Ok(h)
    ensures StartsWith(line, "ROBOT ") && |Words(line[6..])| != 3 ==> r == Ok(h)
  {
    PrefixesExclusive(line);
    if StartsWith(line, "LEVEL ") then
      Ok(h.(name := Some(line[6..])))
    else if StartsWith(line, "SIZE ") then
      var parts := Words(line[5..]);
      if |parts| != 2 then Ok(h)
      else
        match ParseI32(parts[0])
        case None => Err("Erreur parse width")
        case Some(w) =>
          match ParseI32(parts[1])
          case None => Err("Erreur parse height")
          case Some(ht) => Ok(h.(width := w, height := ht))
    else if StartsWith(line, "ROBOT ") then
      var parts := Words(line[6..]);
      if |parts| != 3 then Ok(h)
      else
        match ParseI32(parts[0])
        case None => Err("Erreur parse robot x")
        case Some(x) =>
          match ParseI32(parts[1])
          case None => Err("Erreur parse robot y")
          case Some(y) =>
            match FromStr(parts[2])
            case None => Err("Direction invalide")
            case Some(d) => Ok(h.(robotPos := (x, y), robotDir := d))
    else if StartsWith(line, "FUNCTIONS ") then
      match ParseLimits(Words(line[10..]))
      case Err(e) => Err(e)
      case Ok(limits) => Ok(h.(functionLimits := limits))
    else Ok(h)
  }

  /** Where the directive loop ends: the header read so far and the index of the first grid line. */
  datatype Scan = Scan(header: Header, gridStart: nat)

  /** What one trimmed line does to the directive loop: update the header, end the header, or fail. */
  datatype LineStep = Continue(header: Header) | GridFound | Failed(error: string)

  /** One iteration of the directive loop on a trimmed line; `GRID:` is none of the four directives. */
  function StepLine(line: string, h: Header): (st: LineStep)
    ensures st.GridFound? <==> line == "GRID:"
    ensures st.Failed? ==> st.error in DirectiveErrors
    ensures !IsDirective(line) && line != "GRID:" ==> st == Continue(h)
  {
    if IsDirective(line) then
      GridIsNoDirective();
      match ApplyDirective(line, h)
      case Err(e) => Failed(e)
      case Ok(h') => Continue(h')
    else if line == "GRID:" then GridFound
    else Continue(h)
  }

  /** The directive loop from line `i`: it stops after the first line that trims to `GRID:`, or at the end. */
  function ScanDirectives(lines: seq<string>, i: nat, h: Header): (r: Result<Scan>)
    requires i <= |lines|
    ensures r.Ok? ==> i <= r.value.gridStart <= |lines|
    ensures r.Err? ==> r.error in DirectiveErrors
    decreases |lines| - i
  {
    if i == |lines| then Ok(Scan(h, i))
    else
      match StepLine(Trim(lines[i]), h)
      case Failed(e) => Err(e)
      case GridFound => Ok(Scan(h, i + 1))
      case Continue(h') => ScanDirectives(lines, i + 1, h')
  }

  /**
   * A directive line sets its own part of the header to the value its tokens spell and
   * leaves every other part alone; it fails exactly when one of its tokens does not parse.
   */
  lemma DirectiveSetsItsField(line: string, h: Header, f: Field)
    ensures var r := ApplyDirective(line, h);
            (Sets(line, f) && r.Ok? ==> SetValue(line, f) == Some(Get(r.value, f)))
            && (Sets(line, f) && SetValue(line, f).None? ==> r.Err?)
            && (!Sets(line, f) && r.Ok? ==> Get(r.value, f) == Get(h, f))
  {
    PrefixesExclusive(line);
  }

  /** The grid marker sets no part of the header. */
  lemma GridLineSetsNothing(f: Field)
    ensures !Sets("GRID:", f)
  {
    GridIsNoDirective();
  }

  /** A directive line one of whose parts does not parse. */
  predicate Malformed(line: string) {
    exists f :: Sets(line, f) && SetValue(line, f).None?
  }

  /** A directive fails exactly when it is malformed; other lines never fail. */
  lemma DirectiveFailsIffMalformed(line: string, h: Header)
    ensures ApplyDirective(line, h).Err? <==> Malformed(line)
    ensures !IsDirective(line) ==> !Malformed(line)
  {
    PrefixesExclusive(line);
    if ApplyDirective(line, h).Err? {
      var f := if StartsWith(line, "SIZE ") then SizeField
               else if StartsWith(line, "ROBOT ") then RobotField
               else LimitsField;
      assert Sets(line, f) && SetValue(line, f).None?;
    }
    if Malformed(line) {
      var f :| Sets(line, f) && SetValue(line, f).None?;
      DirectiveSetsItsField(line, h, f);
    }
  }

  /** A line that trims to the grid marker. */
  predicate IsGridLine(line: string) {
    Trim(line) == "GRID:"
  }

  /** Which lines are grid markers. */
  function GridMarks(lines: seq<string>): (marks: seq<bool>)
    ensures |marks| == |lines|
    ensures forall k :: 0 <= k < |lines| ==> marks[k] == IsGridLine(lines[k])
  {
    seq(|lines|, k requires 0 <= k < |lines| => IsGridLine(lines[k]))
  }

  /** One past the first marked position at or after `i`, or the end. */
  function FirstMark(marks: seq<bool>, i: nat): (start: nat)
    requires i <= |marks|
    ensures i <= start <= |marks|
    decreases |marks| - i
  {
    if i == |marks| then i
    else if marks[i] then i + 1
    else FirstMark(marks, i + 1)
  }

  lemma {:induction false} FirstMarkIsFirst(marks: seq<bool>, i: nat)
    requires i <= |marks|
    ensures forall k :: i <= k < FirstMark(marks, i) - 1 ==> !marks[k]
    ensures FirstMark(marks, i) == |marks| || (i < FirstMark(marks, i) && marks[FirstMark(marks, i) - 1])
    decreases |marks| - i
  {
    if i < |marks| && !marks[i] {
      FirstMarkIsFirst(marks, i + 1);
    }
  }

  /** Where the grid rows begin, scanning from line `i`: one past the first line that trims to `GRID:`, or the end of the file. */
  function GridStart(lines: seq<string>, i: nat): (start: nat)
    requires i <= |lines|
    ensures i <= start <= |lines|
  {
    FirstMark(GridMarks(lines), i)
  }

  /** The grid starts right after the first `GRID:` line, and at the end of the file when there is none. */
  lemma GridStartIsFirstMarker(lines: seq<string>, i: nat)
    requires i <= |lines|
    ensures forall k :: i <= k < GridStart(lines, i) - 1 ==> !IsGridLine(lines[k])
    ensures GridStart(lines, i) == |lines| || (i < GridStart(lines, i) && IsGridLine(lines[GridStart(lines, i) - 1]))
  {
    FirstMarkIsFirst(GridMarks(lines), i);
  }

  /** One line of the scan: a marker ends it right there; any other line leaves the grid start to the lines after it. */
  lemma GridStartStep(lines: seq<string>, i: nat)
    requires i < |lines|
    ensures IsGridLine(lines[i]) ==> GridStart(lines, i) == i + 1
    ensures !IsGridLine(lines[i]) ==> GridStart(lines, i) == GridStart(lines, i + 1)
  {
    assert GridMarks(lines)[i] == IsGridLine(lines[i]);
  }

  /** The directive loop stops where the grid starts. */
  lemma {:induction false} ScanFindsGridStart(lines: seq<string>, i: nat, h: Header)
    requires i <= |lines|
    requires ScanDirectives(lines, i, h).Ok?
    ensures ScanDirectives(lines, i, h).value.gridStart == GridStart(lines, i)
    decreases |lines| - i
  {
    if i < |lines| {
      GridStartStep(lines, i);
      var st := StepLine(Trim(lines[i]), h);
      if st.Continue? {
        ScanFindsGridStart(lines, i + 1, st.header);
      }
    }
  }

  /** Some line in `[i, j)` is a malformed directive. */
  predicate MalformedBefore(lines: seq<string>, i: nat, j: nat)
    requires j <= |lines|
  {
    exists k :: i <= k < j && Malformed(Trim(lines[k]))
  }

  /** Peeling the first line off a range. */
  lemma MalformedBeforeStep(lines: seq<string>, i: nat, j: nat)
    requires i < j <= |lines|
    ensures MalformedBefore(lines, i, j) <==> Malformed(Trim(lines[i])) || MalformedBefore(lines, i + 1, j)
  {
    if Malformed(Trim(lines[i])) {
      assert i <= i < j && Malformed(Trim(lines[i]));
    } else if MalformedBefore(lines, i, j) {
      var k :| i <= k < j && Malformed(Trim(lines[k]));
      assert i + 1 <= k < j && Malformed(Trim(lines[k]));
    }
  }

  /** The directive loop fails exactly when a directive before the grid has a token that does not parse. */
  lemma {:induction false} ScanFailsAtBadDirective(lines: seq<string>, i: nat, h: Header)
    requires i <= |lines|
    ensures ScanDirectives(lines, i, h).Err? <==> MalformedBefore(lines, i, GridStart(lines, i))
    decreases |lines| - i
  {
    if i < |lines| {
      GridStartStep(lines, i);
      var line := Trim(lines[i]);
      var st := StepLine(line, h);
      DirectiveFailsIffMalformed(line, h);
      MalformedBeforeStep(lines, i, GridStart(lines, i));
      if line == "GRID:" {
        GridIsNoDirective();
      } else if st.Continue? {
        ScanFailsAtBadDirective(lines, i + 1, st.header);
      }
    }
  }

  /** A line before the grid marker: the loop applies it and carries on with the next line. */
  lemma ScanContinues(lines: seq<string>, i: nat, h: Header)
    requires i < |lines| && !IsGridLine(lines[i])
    requires ScanDirectives(lines, i, h).Ok?
    ensures ApplyDirective(Trim(lines[i]), h).Ok?
    ensures ScanDirectives(lines, i, h) == ScanDirectives(lines, i + 1, ApplyDirective(Trim(lines[i]), h).value)
  {
  }

  /** A part of the header that no line before the grid sets keeps the value it had when the loop started. */
  lemma {:induction false} ScanKeepsUnsetField(lines: seq<string>, i: nat, h: Header, f: Field)
    requires i <= |lines|
    requires ScanDirectives(lines, i, h).Ok?
    requires forall k :: i <= k < GridStart(lines, i) ==> !Sets(Trim(lines[k]), f)
    ensures Get(ScanDirectives(lines, i, h).value.header, f) == Get(h, f)
    decreases |lines| - i
  {
    if i < |lines| && !IsGridLine(lines[i]) {
      GridStartStep(lines, i);
      ScanContinues(lines, i, h);
      DirectiveSetsItsField(Trim(lines[i]), h, f);
      ScanKeepsUnsetField(lines, i + 1, ApplyDirective(Trim(lines[i]), h).value, f);
    }
  }

  /** The first step of ScanTakesLastSetting: line i is not the marker, the loop applies it, and when it is the setting line it leaves that value. */
  lemma SettingStep(lines: seq<string>, i: nat, h: Header, f: Field, k: nat)
    requires i <= |lines|
    requires ScanDirectives(lines, i, h).Ok?
    requires i <= k < GridStart(lines, i) && Sets(Trim(lines[k]), f)
    ensures i < |lines| && !IsGridLine(lines[i])
    ensures GridStart(lines, i) == GridStart(lines, i + 1)
    ensures ApplyDirective(Trim(lines[i]), h).Ok?
    ensures ScanDirectives(lines, i, h) == ScanDirectives(lines, i + 1, ApplyDirective(Trim(lines[i]), h).value)
    ensures k == i ==> SetValue(Trim(lines[k]), f) == Some(Get(ApplyDirective(Trim(lines[i]), h).value, f))
  {
    GridStartStep(lines, i);
    GridLineSetsNothing(f);
    assert !IsGridLine(lines[i]);
    ScanContinues(lines, i, h);
    DirectiveSetsItsField(Trim(lines[i]), h, f);
  }

  /** A part of the header holds the value given by the last line before the grid that sets it. */
  lemma {:induction false} ScanTakesLastSetting(lines: seq<string>, i: nat, h: Header, f: Field, k: nat)
    requires i <= |lines|
    requires ScanDirectives(lines, i, h).Ok?
    requires i <= k < GridStart(lines, i) && Sets(Trim(lines[k]), f)
    requires forall j :: k < j < GridStart(lines, i) ==> !Sets(Trim(lines[j]), f)
    ensures SetValue(Trim(lines[k]), f) == Some(Get(ScanDirectives(lines, i, h).value.header, f))
    decreases |lines| - i
  {
    SettingStep(lines, i, h, f, k);
    var next := ApplyDirective(Trim(lines[i]), h).value;
    if k == i {
      ScanKeepsUnsetField(lines, i + 1, next, f);
    } else {
      ScanTakesLastSetting(lines, i + 1, next, f, k);
    }
  }

  // -------------------------------------------------------------- grid

  /** The token for column `x`; columns past the end of the line are holes. */
  function CellAt(cells: seq<string>, x: int): (c: string)
    ensures 0 <= x < |cells| ==> c == cells[x]
    ensures !(0 <= x < |cells|) ==> c == "X"
  {
    if 0 <= x < |cells| then cells[x] else "X"
  }

  /**
   * The cell a token describes: `X` is a hole; any other token is a tile at (x, y)
   * coloured by its first character, holding a star when it contains `*`.
   */
  function TileOf(cell: string, x: int, y: int): (t: Option<Tile>)
    ensures t.None? <==> cell == "X"
    ensures t.Some? ==> t.value.x == x && t.value.y == y && !t.value.starCollected
    ensures t.Some? ==> (t.value.hasStar <==> '*' in cell)
    ensures t.Some? ==> t.value.color == ColorFromChar(if cell == [] then '.' else cell[0])
  {
    if cell == "X" then None
    else Some(NewTile(x, y, ColorFromChar(if cell == [] then '.' else cell[0]), '*' in cell))
  }

  /** The first `n` cells of row `y`, left to right. */
  function RowTiles(cells: seq<string>, y: int, n: nat): (row: seq<Option<Tile>>)
    ensures |row| == n
    decreases n
  {
    if n == 0 then [] else RowTiles(cells, y, n - 1) + [TileOf(CellAt(cells, n - 1), n - 1, y)]
  }

  /** The first `rows` grid rows starting at line `start`, each `width` cells wide. */
  function GridTiles(lines: seq<string>, start: nat, width: nat, rows: nat): (ts: seq<Option<Tile>>)
    requires start + rows <= |lines|
    decreases rows
  {
    if rows == 0 then []
    else GridTiles(lines, start, width, rows - 1) + RowTiles(Words(lines[start + rows - 1]), rows - 1, width)
  }

  /** The grid read has `width` cells per row read. */
  lemma {:induction false} GridTilesLength(lines: seq<string>, start: nat, width: nat, rows: nat)
    requires start + rows <= |lines|
    ensures |GridTiles(lines, start, width, rows)| == rows * width
    decreases rows
  {
    if rows > 0 {
      GridTilesLength(lines, start, width, rows - 1);
      assert (rows - 1) * width + width == rows * width;
    }
  }

  /** How many grid rows the loop reads: `height` of them, or as many lines as remain. */
  function RowsRead(lineCount: nat, start: nat, height: int): (n: nat)
    ensures start + n <= lineCount || n == 0
    ensures n <= height || n == 0
    ensures height > 0 && start + height <= lineCount ==> n == height
    ensures height > 0 && start <= lineCount < start + height ==> n == lineCount - start
  {
    if height <= 0 || start >= lineCount then 0
    else if start + height <= lineCount then height
    else lineCount - start
  }

  /** The number of tiles holding a star. */
  function TotalStars(tiles: seq<Option<Tile>>): (n: nat)
    ensures n <= |tiles|
    decreases |tiles|
  {
    if tiles == [] then 0
    else
      var last := tiles[|tiles| - 1];
      TotalStars(tiles[..|tiles| - 1]) + (if last.Some? && last.value.hasStar then 1 else 0)
  }

  /** The indices of the tiles holding a star. */
  function StarIndices(tiles: seq<Option<Tile>>): set<nat> {
    set k: nat | k < |tiles| && tiles[k].Some? && tiles[k].value.hasStar
  }

  /** `total_stars` counts exactly the star tiles. */
  lemma {:induction false} TotalStarsCountsStarTiles(tiles: seq<Option<Tile>>)
    ensures TotalStars(tiles) == |StarIndices(tiles)|
    decreases |tiles|
  {
    if tiles != [] {
      var init := tiles[..|tiles| - 1];
      TotalStarsCountsStarTiles(init);
      var last := |tiles| - 1;
      if tiles[last].Some? && tiles[last].value.hasStar {
        assert StarIndices(tiles) == StarIndices(init) + {last};
      } else {
        assert StarIndices(tiles) == StarIndices(init);
      }
    }
  }

  // ------------------------------------------------------------- whole file

  /** `LevelData::from_file` on the lines of a file that was read. */
  function ParseLevel(lines: seq<string>, id: nat): (r: Result<LevelData>)
    ensures r.Ok? ==> r.value.id == id && r.value.totalStars == TotalStars(r.value.tiles)
    ensures r.Ok? ==> ScanDirectives(lines, 0, InitialHeader).Ok?
    ensures r.Err? ==> r.error in DirectiveErrors
  {
    match ScanDirectives(lines, 0, InitialHeader)
    case Err(e) => Err(e)
    case Ok(scan) =>
      var h := scan.header;
      var width: nat := if h.width > 0 then h.width else 0;
      var rows := RowsRead(|lines|, scan.gridStart, h.height);
      GridTilesLength(lines, scan.gridStart, width, rows);
      var tiles := GridTiles(lines, scan.gridStart, width, rows);
      Ok(LevelData(id, LevelName(h, id), h.width, h.height, tiles, h.robotPos, h.robotDir, TotalStars(tiles), h.functionLimits))
  }

  /**
   * A parsed level's header fields are those the directive loop read, its name falling
   * back to the default; the level parses exactly when the directive loop succeeds.
   */
  lemma ParsedHeader(lines: seq<string>, id: nat)
    ensures ParseLevel(lines, id).Ok? <==> ScanDirectives(lines, 0, InitialHeader).Ok?
    ensures ParseLevel(lines, id).Ok? ==>
              var h := ScanDirectives(lines, 0, InitialHeader).value.header;
              var level := ParseLevel(lines, id).value;
              level.name == LevelName(h, id) && level.width == h.width && level.height == h.height
              && level.robotStartPos == h.robotPos && level.robotStartDir == h.robotDir
              && level.functionLimits == h.functionLimits
  {
  }

  /** Which lines set part `f` of the header. */
  function SetterMarks(lines: seq<string>, f: Field): (marks: seq<bool>)
    ensures |marks| == |lines|
    ensures forall k :: 0 <= k < |lines| ==> marks[k] == Sets(Trim(lines[k]), f)
  {
    seq(|lines|, k requires 0 <= k < |lines| => Sets(Trim(lines[k]), f))
  }

  /** The last marked position before `j`, if any. */
  function LastMark(marks: seq<bool>, j: nat): (r: Option<nat>)
    requires j <= |marks|
    ensures r.Some? ==> r.value < j && marks[r.value] && forall m :: r.value < m < j ==> !marks[m]
    ensures r.None? ==> forall m :: 0 <= m < j ==> !marks[m]
  {
    if j == 0 then None
    else if marks[j - 1] then Some(j - 1)
    else LastMark(marks, j - 1)
  }

  /** The last line before `j` that sets part `f` of the header, if any. */
  function LastSetter(lines: seq<string>, j: nat, f: Field): (r: Option<nat>)
    requires j <= |lines|
    ensures r.Some? ==> r.value < j && SetterMarks(lines, f)[r.value]
                        && forall m :: r.value < m < j ==> !SetterMarks(lines, f)[m]
    ensures r.None? ==> forall m :: 0 <= m < j ==> !SetterMarks(lines, f)[m]
  {
    LastMark(SetterMarks(lines, f), j)
  }

  /**
   * Each part of a parsed level's header is the value spelled by the last line before
   * the grid that sets it, or its default when no such line exists.
   */
  lemma ParsedFieldIsLastSetting(lines: seq<string>, id: nat, f: Field)
    requires ParseLevel(lines, id).Ok?
    ensures var h := ScanDirectives(lines, 0, InitialHeader).value.header;
            var last := LastSetter(lines, GridStart(lines, 0), f);
            (last.None? ==> Get(h, f) == Get(InitialHeader, f))
            && (last.Some? ==> SetValue(Trim(lines[last.value]), f) == Some(Get(h, f)))
  {
    var last := LastSetter(lines, GridStart(lines, 0), f);
    if last.None? {
      ScanKeepsUnsetField(lines, 0, InitialHeader, f);
    } else {
      ScanTakesLastSetting(lines, 0, InitialHeader, f, last.value);
    }
  }

  /**
   * A parsed level's tiles are the grid rows that follow the first `GRID:` line, read
   * at the declared width (none when it is not positive), for the rows the file holds.
   */
  lemma ParsedTiles(lines: seq<string>, id: nat)
    requires ParseLevel(lines, id).Ok?
    ensures var level := ParseLevel(lines, id).value;
            var start := GridStart(lines, 0);
            var rows := RowsRead(|lines|, start, level.height);
            start + rows <= |lines|
            && level.tiles == GridTiles(lines, start, if level.width > 0 then level.width else 0, rows)
  {
    ScanFindsGridStart(lines, 0, InitialHeader);
  }

  /** A parsed level has one tile per column for every grid row read after the first `GRID:` line. */
  lemma ParsedGridSize(lines: seq<string>, id: nat)
    requires ParseLevel(lines, id).Ok?
    ensures var level := ParseLevel(lines, id).value;
            |level.tiles| == (if level.width > 0 then level.width else 0) * RowsRead(|lines|, GridStart(lines, 0), level.height)
  {
    var level := ParseLevel(lines, id).value;
    ScanFindsGridStart(lines, 0, InitialHeader);
    var start := GridStart(lines, 0);
    GridTilesLength(lines, start, if level.width > 0 then level.width else 0, RowsRead(|lines|, start, level.height));
  }

  /** `from_file` including the read: a file that could not be read is reported with its name. */
  function ParseLevelFile(filename: string, content: Result<seq<string>>, id: nat): Result<LevelData> {
    match content
    case Err(e) => Err("Erreur lecture fichier " + filename + ": " + e)
    case Ok(lines) => ParseLevel(lines, id)
  }

  /**
   * `LevelData::from_file`: the directive loop, then one row per grid line, then the
   * star count. `content` is the file's lines, or the read error.
   */
  method FromFile(filename: string, content: Result<seq<string>>, id: nat) returns (r: Result<LevelData>)
    ensures r == ParseLevelFile(filename, content, id)
  {
    if content.Err? {
      return Err("Erreur lecture fichier " + filename + ": " + content.error);
    }
    var lines := content.value;
    var scan := ReadHeader(lines);
    if scan.Err? {
      return Err(scan.error);
    }
    var h := scan.value.header;
    var tiles := ReadGrid(lines, scan.value.gridStart, h.width, h.height);
    var totalStars := TotalStars(tiles);
    r := Ok(LevelData(id, LevelName(h, id), h.width, h.height, tiles, h.robotPos, h.robotDir, totalStars, h.functionLimits));
  }

  /** The directive loop of `from_file`, up to and including the `GRID:` line. */
  method ReadHeader(lines: seq<string>) returns (r: Result<Scan>)
    ensures r == ScanDirectives(lines, 0, InitialHeader)
  {
    var header := InitialHeader;
    var i: nat := 0;
    while i < |lines|
      invariant i <= |lines|
      invariant ScanDirectives(lines, 0, InitialHeader) == ScanDirectives(lines, i, header)
      decreases |lines| - i
    {
      var line := Trim(lines[i]);
      var step := ReadLine(line, header);
      match step
      case Failed(e) =>
        return Err(e);
      case GridFound =>
        return Ok(Scan(header, i + 1));
      case Continue(next) =>
        header := next;
      i := i + 1;
    }
    r := Ok(Scan(header, i));
  }

  /** One iteration of the directive loop: a directive is applied; `GRID:` ends the header. */
  method ReadLine(line: string, header: Header) returns (step: LineStep)
    ensures step == StepLine(line, header)
  {
    if IsDirective(line) {
      var next := ReadDirective(line, header);
      if next.Err? {
        return Failed(next.error);
      }
      step := Continue(next.value);
    } else if line == "GRID:" {
      step := GridFound;
    } else {
      step := Continue(header);
    }
  }

  /** The body of the directive loop: the `if` chain over the four prefixes, assigning the local variables. */
  method ReadDirective(line: string, h: Header) returns (r: Result<Header>)
    ensures r == ApplyDirective(line, h)
  {
    PrefixesExclusive(line);
    var name, width, height, robotPos, robotDir, functionLimits :=
      h.name, h.width, h.height, h.robotPos, h.robotDir, h.functionLimits;
    if StartsWith(line, "LEVEL ") {
      name := Some(line[6..]);
    } else if StartsWith(line, "SIZE ") {
      var parts := Words(line[5..]);
      if |parts| == 2 {
        var w := ParseI32(parts[0]);
        if w.None? {
          return Err("Erreur parse width");
        }
        width := w.value;
        var ht := ParseI32(parts[1]);
        if ht.None? {
          return Err("Erreur parse height");
        }
        height := ht.value;
      }
    } else if StartsWith(line, "ROBOT ") {
      var parts := Words(line[6..]);
      if |parts| == 3 {
        var x := ParseI32(parts[0]);
        if x.None? {
          return Err("Erreur parse robot x");
        }
        var y := ParseI32(parts[1]);
        if y.None? {
          return Err("Erreur parse robot y");
        }
        robotPos := (x.value, y.value);
        var d := FromStr(parts[2]);
        if d.None? {
          return Err("Direction invalide");
        }
        robotDir := d.value;
      }
    } else if StartsWith(line, "FUNCTIONS ") {
      var limits := ParseLimits(Words(line[10..]));
      if limits.Err? {
        return Err(limits.error);
      }
      functionLimits := limits.value;
    }
    r := Ok(Header(name, width, height, robotPos, robotDir, functionLimits));
  }

  /** The nested grid loops of `from_file`: rows from line `start`, `width` tokens per row, holes as padding. */
  method ReadGrid(lines: seq<string>, start: nat, width: int, height: int) returns (tiles: seq<Option<Tile>>)
    requires start <= |lines|
    ensures tiles == GridTiles(lines, start, if width > 0 then width else 0, RowsRead(|lines|, start, height))
  {
    ghost var cols: nat := if width > 0 then width else 0;
    tiles := [];
    var y: int := 0;
    while y < height
      invariant 0 <= y && start + y <= |lines|
      invariant height > 0 ==> y <= height
      invariant height <= 0 ==> y == 0
      invariant tiles == GridTiles(lines, start, cols, y)
      decreases height - y
    {
      if start + y >= |lines| {
        assert y == RowsRead(|lines|, start, height);
        break;
      }
      var row := ReadRow(Words(lines[start + y]), y, width);
      tiles := tiles + row;
      y := y + 1;
    }
    assert y == RowsRead(|lines|, start, height);
  }

  /** The inner loop of the grid reader: one tile per column of row `y`, `X` past the end of the row. */
  method ReadRow(cells: seq<string>, y: int, width: int) returns (row: seq<Option<Tile>>)
    ensures row == RowTiles(cells, y, if width > 0 then width else 0)
  {
    row := [];
    var x: int := 0;
    while x < width
      invariant 0 <= x && (width > 0 ==> x <= width) && (width <= 0 ==> x == 0)
      invariant row == RowTiles(cells, y, x)
      decreases width - x
    {
      var cell := if x < |cells| then cells[x] else "X";
      assert cell == CellAt(cells, x);
      if cell == "X" {
        row := row + [None];
      } else {
        var hasStar := '*' in cell;
        var colorChar := if |cell| > 0 then cell[0] else '.';
        row := row + [Some(NewTile(x, y, ColorFromChar(colorChar), hasStar))];
      }
      assert row == RowTiles(cells, y, x) + [TileOf(cell, x, y)];
      x := x + 1;
    }
  }

  // ---------------------------------------------------------- properties

  /** A file without directive lines gets every default; without a `GRID:` line or size it has no tiles. */
  lemma {:induction false} DefaultsWithoutDirectives(lines: seq<string>, i: nat)
    requires i <= |lines|
    requires forall k :: i <= k < |lines| ==> !IsDirective(Trim(lines[k]))
    ensures ScanDirectives(lines, i, InitialHeader).Ok?
    ensures ScanDirectives(lines, i, InitialHeader).value.header == InitialHeader
    decreases |lines| - i
  {
    if i < |lines| && Trim(lines[i]) != "GRID:" {
      DefaultsWithoutDirectives(lines, i + 1);
    }
  }

  /** Hence a level file with no directive is the empty default level. */
  lemma DefaultLevel(lines: seq<string>, id: nat)
    requires forall k :: 0 <= k < |lines| ==> !IsDirective(Trim(lines[k]))
    ensures ParseLevel(lines, id) == Ok(LevelData(id, DefaultName(id), 0, 0, [], (0, 0), North, 0, [5]))
  {
    DefaultsWithoutDirectives(lines, 0);
  }

  /** Within row `y < n`, the first `n` cells hold column `x` at offset `x`. */
  lemma {:induction false} RowTileAt(cells: seq<string>, y: int, n: nat, x: nat)
    requires x < n
    ensures RowTiles(cells, y, n)[x] == TileOf(CellAt(cells, x), x, y)
    decreases n
  {
    if x < n - 1 {
      RowTileAt(cells, y, n - 1, x);
    }
  }

  /** The grid is row-major: the tile at index `y * width + x` comes from token `x` of grid row `y`, and so stands at (x, y). */
  lemma GridTileAt(lines: seq<string>, start: nat, width: nat, rows: nat, x: nat, y: nat)
    requires start + rows <= |lines|
    requires x < width && y < rows
    ensures y * width + x < rows * width == |GridTiles(lines, start, width, rows)|
    ensures GridTiles(lines, start, width, rows)[y * width + x]
            == TileOf(CellAt(Words(lines[start + y]), x), x, y)
  {
    var g := GridRows(lines, start, width, rows);
    GridTilesAreRows(lines, start, width, rows);
    FlattenAt(g, width, x, y);
    RowTileAt(Words(lines[start + y]), y, width, x);
    RowStartIsProduct(width, y);
    RowStartIsProduct(width, rows);
  }

  /** Where row `y` begins in a grid of rows `width` cells wide, counted row by row. */
  function RowStart(width: nat, y: nat): nat {
    if y == 0 then 0 else RowStart(width, y - 1) + width
  }

  lemma {:induction false} RowStartIsProduct(width: nat, y: nat)
    ensures RowStart(width, y) == y * width
  {
    if y > 0 {
      RowStartIsProduct(width, y - 1);
    }
  }

  /** Cell `x` of an earlier row comes before the start of a later row. */
  lemma {:induction false} RowStartBound(width: nat, x: nat, y: nat, rows: nat)
    requires x < width && y < rows
    ensures RowStart(width, y) + x < RowStart(width, rows)
    decreases rows
  {
    if y < rows - 1 {
      RowStartBound(width, x, y, rows - 1);
    }
  }

  /** Rows laid end to end. */
  function Flatten<T>(rs: seq<seq<T>>): seq<T>
    decreases |rs|
  {
    if rs == [] then [] else Flatten(rs[..|rs| - 1]) + rs[|rs| - 1]
  }

  /** In rows of `width` items laid end to end, item `x` of row `y` sits at the start of row `y` plus `x`. */
  lemma {:induction false} FlattenAt<T>(rs: seq<seq<T>>, width: nat, x: nat, y: nat)
    requires forall r :: 0 <= r < |rs| ==> |rs[r]| == width
    requires x < width && y < |rs|
    ensures |Flatten(rs)| == RowStart(width, |rs|)
    ensures RowStart(width, y) + x < |Flatten(rs)| && Flatten(rs)[RowStart(width, y) + x] == rs[y][x]
    decreases |rs|
  {
    var init := rs[..|rs| - 1];
    RowStartBound(width, x, y, |rs|);
    if y < |rs| - 1 {
      FlattenAt(init, width, x, y);
    } else if y > 0 {
      FlattenAt(init, width, 0, y - 1);
    }
  }

  /** The grid rows read, one sequence of `width` cells per line. */
  function GridRows(lines: seq<string>, start: nat, width: nat, rows: nat): (g: seq<seq<Option<Tile>>>)
    requires start + rows <= |lines|
    ensures |g| == rows
    ensures forall r :: 0 <= r < rows ==> g[r] == RowTiles(Words(lines[start + r]), r, width)
  {
    seq(rows, r requires 0 <= r < rows => RowTiles(Words(lines[start + r]), r, width))
  }

  /** The grid is its rows laid end to end. */
  lemma {:induction false} GridTilesAreRows(lines: seq<string>, start: nat, width: nat, rows: nat)
    requires start + rows <= |lines|
    ensures GridTiles(lines, start, width, rows) == Flatten(GridRows(lines, start, width, rows))
    decreases rows
  {
    if rows > 0 {
      GridTilesAreRows(lines, start, width, rows - 1);
      assert GridRows(lines, start, width, rows)[..rows - 1] == GridRows(lines, start, width, rows - 1);
    }
  }

  // ----------------------------------------------------------- directives

  /** The `i32` spelling a level file uses. */
  function IntToString(v: int): string {
    if v < 0 then "-" + NatToString(-v) else NatToString(v)
  }

  lemma IntToStringParses(v: int)
    requires I32_MIN <= v <= I32_MAX
    ensures ParseI32(IntToString(v)) == Some(v)
    ensures IsWord(IntToString(v))
  {
    if v < 0 {
      ParseI32OfSpelling(-v, true);
    } else {
      ParseI32OfSpelling(v, false);
    }
  }

  /** A `SIZE` line written from two `i32` values sets exactly those dimensions. */
  lemma SizeDirectiveRoundTrip(w: int, ht: int, h: Header)
    requires I32_MIN <= w <= I32_MAX && I32_MIN <= ht <= I32_MAX
    ensures ApplyDirective("SIZE " + Join([IntToString(w), IntToString(ht)], " "), h) == Ok(h.(width := w, height := ht))
  {
    var parts := [IntToString(w), IntToString(ht)];
    var line := "SIZE " + Join(parts, " ");
    IntToStringParses(w);
    IntToStringParses(ht);
    assert line[5..] == Join(parts, " ");
    WordsOfJoin(parts);
    assert StartsWith(line, "SIZE ");
    assert !StartsWith(line, "LEVEL ") by { assert line[0] != "LEVEL "[0]; }
  }

  /** The initial letter of a heading, one of the spellings `from_str` accepts. */
  function DirectionLetter(d: Direction): (w: string)
    ensures IsWord(w)
  {
    match d
    case North => "N"
    case East => "E"
    case South => "S"
    case West => "W"
  }

  /** The initial letter of a heading parses back to that heading. */
  lemma DirectionLetterParses(d: Direction)
    ensures FromStr(DirectionLetter(d)) == Some(d)
  {
    var w := DirectionLetter(d);
    assert ToUpper(w) == w;
    FromStrAcceptsSpellings(d, w);
  }

  /** A `ROBOT` line written from a position and a heading sets exactly that start pose. */
  lemma RobotDirectiveRoundTrip(x: int, y: int, d: Direction, h: Header)
    requires I32_MIN <= x <= I32_MAX && I32_MIN <= y <= I32_MAX
    ensures ApplyDirective("ROBOT " + Join([IntToString(x), IntToString(y), DirectionLetter(d)], " "), h)
            == Ok(h.(robotPos := (x, y), robotDir := d))
  {
    var parts := [IntToString(x), IntToString(y), DirectionLetter(d)];
    var line := "ROBOT " + Join(parts, " ");
    IntToStringParses(x);
    IntToStringParses(y);
    DirectionLetterParses(d);
    assert line[6..] == Join(parts, " ");
    assert forall k :: 0 <= k < 3 ==> IsWord(parts[k]) by {
      assert parts[0] == IntToString(x) && parts[1] == IntToString(y);
    }
    WordsOfJoin(parts);
    assert StartsWith(line, "ROBOT ");
    assert !StartsWith(line, "LEVEL ") by { assert line[0] != "LEVEL "[0]; }
    assert !StartsWith(line, "SIZE ") by { assert line[0] != "SIZE "[0]; }
    RobotLineApplies(line, h, x, y, d);
  }

  /** A `ROBOT` line whose three words read as x, y and a direction sets the robot pose. */
  lemma RobotLineApplies(line: string, h: Header, x: int, y: int, d: Direction)
    requires StartsWith(line, "ROBOT ") && !StartsWith(line, "LEVEL ") && !StartsWith(line, "SIZE ")
    requires var parts := Words(line[6..]);
             |parts| == 3 && ParseI32(parts[0]) == Some(x) && ParseI32(parts[1]) == Some(y)
             && FromStr(parts[2]) == Some(d)
    ensures ApplyDirective(line, h) == Ok(h.(robotPos := (x, y), robotDir := d))
  {
  }

  /** The decimal spellings of a list of limits. */
  function LimitSpellings(limits: seq<nat>): (ws: seq<string>)
    ensures |ws| == |limits|
    ensures forall k :: 0 <= k < |limits| ==> ws[k] == NatToString(limits[k])
  {
    seq(|limits|, k requires 0 <= k < |limits| => NatToString(limits[k]))
  }

  /** Reading back the spellings of `usize` limits gives the limits. */
  lemma {:induction false} ParseLimitsOfSpellings(limits: seq<nat>)
    requires forall k :: 0 <= k < |limits| ==> limits[k] <= USIZE_MAX
    ensures ParseLimits(LimitSpellings(limits)) == Ok(limits)
  {
    forall k | 0 <= k < |limits|
      ensures ParseUsize(LimitSpellings(limits)[k]) == Some(limits[k])
    {
      ParseUsizeOfNatToString(limits[k]);
    }
    var r := ParseLimits(LimitSpellings(limits));
    assert r.Ok?;
    assert forall k :: 0 <= k < |limits| ==> r.value[k] == limits[k];
    assert r.value == limits;
  }

  /** A `FUNCTIONS` line written from `usize` limits sets exactly those limits. */
  lemma FunctionsDirectiveRoundTrip(limits: seq<nat>, h: Header)
    requires forall k :: 0 <= k < |limits| ==> limits[k] <= USIZE_MAX
    ensures ApplyDirective("FUNCTIONS " + Join(LimitSpellings(limits), " "), h) == Ok(h.(functionLimits := limits))
  {
    var ws := LimitSpellings(limits);
    var line := "FUNCTIONS " + Join(ws, " ");
    forall k | 0 <= k < |ws|
      ensures IsWord(ws[k])
    {
      assert AllDigits(ws[k]);
    }
    WordsOfJoin(ws);
    ParseLimitsOfSpellings(limits);
    assert line[10..] == Join(ws, " ");
    assert StartsWith(line, "FUNCTIONS ");
    assert !StartsWith(line, "LEVEL ") by { assert line[0] != "LEVEL "[0]; }
    assert !StartsWith(line, "SIZE ") by { assert line[0] != "SIZE "[0]; }
    assert !StartsWith(line, "ROBOT ") by { assert line[0] != "ROBOT "[0]; }
  }

  // -------------------------------------------------------- ProblemState

  /**
   * A player's progress on one level: the program being edited, the stars currently
   * collected, whether the level was ever completed, and the best time.
   */
  datatype ProblemState = ProblemState(
    functions: seq<seq<Instruction>>,
    starsCollected: nat,
    isCompleted: bool,
    completionTime: Option<real>,
    startTime: real,
    completionTimeRecorded: bool)
  {
    /** `reset_stars`: the star count restarts; the completion history is kept, and the time may be recorded again only for an uncompleted level. */
    function ResetStars(): (p: ProblemState)
      ensures p.starsCollected == 0
      ensures p.functions == functions && p.isCompleted == isCompleted
      ensures p.completionTime == completionTime && p.startTime == startTime
      ensures p.completionTimeRecorded <==> completionTimeRecorded && isCompleted
    {
      this.(starsCollected := 0,
            completionTimeRecorded := if isCompleted then completionTimeRecorded else false)
    }

    /** `check_completion`: the level becomes completed when the collected count equals the total, and stays completed. */
    function CheckCompletion(totalStars: nat): (p: ProblemState)
      ensures p.isCompleted <==> isCompleted || starsCollected == totalStars
      ensures p == this.(isCompleted := p.isCompleted)
    {
      if starsCollected == totalStars && !isCompleted then this.(isCompleted := true) else this
    }

    /** `start_timer`: a new attempt starts at `now`, and its time has not been recorded. */
    function StartTimer(now: real): (p: ProblemState)
      ensures p.startTime == now && !p.completionTimeRecorded
      ensures p == this.(startTime := now, completionTimeRecorded := false)
    {
      this.(startTime := now, completionTimeRecorded := false)
    }

    /** `record_completion_time`: marks a completed level's time as recorded. */
    function RecordCompletionTime(): (p: ProblemState)
      ensures p.completionTimeRecorded <==> completionTimeRecorded || isCompleted
      ensures p == this.(completionTimeRecorded := p.completionTimeRecorded)
    {
      if !completionTimeRecorded && isCompleted then this.(completionTimeRecorded := true) else this
    }

    /** `set_completion_time`: keeps the better (smaller) of the stored time and `elapsed`. */
    function SetCompletionTime(elapsed: real): (p: ProblemState)
      ensures p.completionTime.Some? && p.completionTime.value <= elapsed
      ensures completionTime.Some? ==> p.completionTime.value <= completionTime.value
      ensures p.completionTime == Some(elapsed) || p.completionTime == completionTime
      ensures p == this.(completionTime := p.completionTime)
    {
      if completionTime.None? || elapsed < completionTime.value then this.(completionTime := Some(elapsed)) else this
    }
  }

  /** `ProblemState::new(n)`: `n` empty functions and no progress. */
  function NewProblemState(n: nat): (p: ProblemState)
    ensures |p.functions| == n && forall k :: 0 <= k < n ==> p.functions[k] == []
    ensures p.starsCollected == 0 && !p.isCompleted && p.completionTime.None? && !p.completionTimeRecorded
  {
    ProblemState(seq(n, _ => []), 0, false, None, 0.0, false)
  }

  /** Once completed, a level stays completed through every `ProblemState` update. */
  lemma CompletionIsSticky(p: ProblemState, total: nat, now: real, elapsed: real)
    requires p.isCompleted
    ensures p.ResetStars().isCompleted && p.CheckCompletion(total).isCompleted
    ensures p.StartTimer(now).isCompleted && p.RecordCompletionTime().isCompleted
    ensures p.SetCompletionTime(elapsed).isCompleted
  {
  }

  /** The smallest of a non-empty list of times. */
  function Min(ts: seq<real>): (m: real)
    requires |ts| > 0
    ensures m in ts && forall k :: 0 <= k < |ts| ==> m <= ts[k]
    decreases |ts|
  {
    if |ts| == 1 then ts[0]
    else
      var m := Min(ts[..|ts| - 1]);
      assert forall k :: 0 <= k < |ts| - 1 ==> ts[..|ts| - 1][k] == ts[k];
      if ts[|ts| - 1] < m then ts[|ts| - 1] else m
  }

  /** Setting the completion times of successive attempts, in order. */
  function SetCompletionTimes(p: ProblemState, ts: seq<real>): ProblemState
    decreases |ts|
  {
    if ts == [] then p else SetCompletionTimes(p, ts[..|ts| - 1]).SetCompletionTime(ts[|ts| - 1])
  }

  /** After several attempts the stored time is the best of them (and of any earlier best). */
  lemma {:induction false} CompletionTimeIsBest(p: ProblemState, ts: seq<real>)
    requires |ts| > 0
    ensures var q := SetCompletionTimes(p, ts);
            q.completionTime.Some?
            && (p.completionTime.None? ==> q.completionTime.value == Min(ts))
            && (p.completionTime.Some? ==> q.completionTime.value == (if Min(ts) < p.completionTime.value then Min(ts) else p.completionTime.value))
    decreases |ts|
  {
    var init := ts[..|ts| - 1];
    assert SetCompletionTimes(p, ts) == SetCompletionTimes(p, init).SetCompletionTime(ts[|ts| - 1]);
    if |ts| == 1 {
      assert init == [];
    } else {
      CompletionTimeIsBest(p, init);
      assert Min(ts) == (if ts[|ts| - 1] < Min(init) then ts[|ts| - 1] else Min(init));
    }
  }
}
