/** The microscope side of a run: the serpentine grid of fields of view built
    around the stage position, the loading of multipoint files, and the
    multipoint acquisition that visits every field and captures every
    channel configuration there. The camera, stage and shutter are reduced
    to the calls made on them; images are not modelled, only the files they
    are saved to and the metadata recorded with them. */
module Scope {
  import opened Outcomes
  import opened Text

  /** A stage position. Coordinates are exact real numbers: the floating
      point rounding of the stage arithmetic is not modelled. */
  datatype Point = Point(x: real, y: real)

  // ---------------------------------------------------------------------
  // set_grid
  // ---------------------------------------------------------------------

  /** Row r of the grid: `cols` points at height y + r * rowStep, stepping
      leftward by colStep from the origin's column when the row starts on
      the left, and coming back from the far column otherwise. */
  function Row(origin: Point, cols: int, r: int, startLeft: bool, colStep: real, rowStep: real): seq<Point> {
    seq(if cols > 0 then cols else 0, c =>
      Point(origin.x + Times(if startLeft then c else cols - c - 1, -colStep), origin.y + Times(r, rowStep)))
  }

  /** k steps of a given length. */
  function Times(k: int, step: real): real {
    (k as real) * step
  }

  /** The first `rows` rows of the grid, row 0 starting on the left and
      each later row starting on the other side. */
  function Grid(origin: Point, cols: int, rows: int, colStep: real, rowStep: real): seq<Point>
    decreases rows
  {
    if rows <= 0 then []
    else Grid(origin, cols, rows - 1, colStep, rowStep) + Row(origin, cols, rows - 1, (rows - 1) % 2 == 0, colStep, rowStep)
  }

  /** A grid has cols * rows points, and none when either count is not
      positive. */
  lemma GridSize(origin: Point, cols: int, rows: int, colStep: real, rowStep: real)
    ensures |Grid(origin, cols, rows, colStep, rowStep)| == if cols > 0 && rows > 0 then cols * rows else 0
  {
    if cols > 0 && rows > 0 {
      RowsBefore(origin, cols, rows, colStep, rowStep);
    } else if rows > 0 {
      NoColumns(origin, cols, rows, colStep, rowStep);
    }
  }

  /** The rows before row r hold r * cols points. */
  lemma {:induction false} RowsBefore(origin: Point, cols: int, r: int, colStep: real, rowStep: real)
    requires cols > 0 && r >= 0
    ensures |Grid(origin, cols, r, colStep, rowStep)| == r * cols
    decreases r
  {
    if r > 0 {
      RowsBefore(origin, cols, r - 1, colStep, rowStep);
      assert (r - 1) * cols + cols == r * cols;
    }
  }

  lemma {:induction false} NoColumns(origin: Point, cols: int, rows: int, colStep: real, rowStep: real)
    requires cols <= 0
    ensures Grid(origin, cols, rows, colStep, rowStep) == []
    decreases rows
  {
    if rows > 0 {
      NoColumns(origin, cols, rows - 1, colStep, rowStep);
    }
  }

  /** Adding rows keeps the rows already there. */
  lemma {:induction false} GridPrefix(origin: Point, cols: int, r: int, rows: int, colStep: real, rowStep: real)
    requires 0 <= r <= rows
    ensures Grid(origin, cols, r, colStep, rowStep) <= Grid(origin, cols, rows, colStep, rowStep)
    decreases rows - r
  {
    if r < rows {
      GridPrefix(origin, cols, r, rows - 1, colStep, rowStep);
    }
  }

  /** Row r of the grid comes right after the r rows before it. */
  lemma RowAt(origin: Point, cols: int, rows: int, colStep: real, rowStep: real, r: int, c: int)
    requires 0 <= r < rows && 0 <= c < cols
    ensures |Grid(origin, cols, r, colStep, rowStep)| + c < |Grid(origin, cols, rows, colStep, rowStep)|
    ensures Grid(origin, cols, rows, colStep, rowStep)[|Grid(origin, cols, r, colStep, rowStep)| + c] ==
      Row(origin, cols, r, r % 2 == 0, colStep, rowStep)[c]
  {
    GridPrefix(origin, cols, r + 1, rows, colStep, rowStep);
    var prev := Grid(origin, cols, r, colStep, rowStep);
    var row := Row(origin, cols, r, r % 2 == 0, colStep, rowStep);
    var upto := Grid(origin, cols, r + 1, colStep, rowStep);
    assert upto == prev + row;
    assert upto[|prev| + c] == row[c];
  }

  /** The point at position c of row r: at height y + r * rowStep, and in
      column c counted leftward from the origin in even rows, counted back
      from the far column in odd rows. */
  lemma RowPoint(origin: Point, cols: int, r: int, colStep: real, rowStep: real, c: int)
    requires 0 <= c < cols
    ensures Row(origin, cols, r, r % 2 == 0, colStep, rowStep)[c] ==
      Point(origin.x + Times(if r % 2 == 0 then c else cols - c - 1, -colStep), origin.y + Times(r, rowStep))
  {
  }

  /** The point at position c of row r is the (r * cols + c)-th of the
      grid, at height y + r * rowStep, in column c counted leftward from the
      origin in even rows and counted back from the far column in odd
      rows. */
  lemma GridAt(origin: Point, cols: int, rows: int, colStep: real, rowStep: real, r: int, c: int)
    requires 0 <= r < rows && 0 <= c < cols
    ensures r * cols + c < |Grid(origin, cols, rows, colStep, rowStep)|
    ensures Grid(origin, cols, rows, colStep, rowStep)[r * cols + c] ==
      Point(origin.x + Times(if r % 2 == 0 then c else cols - c - 1, -colStep), origin.y + Times(r, rowStep))
  {
    RowsBefore(origin, cols, r, colStep, rowStep);
    RowAt(origin, cols, rows, colStep, rowStep, r, c);
    RowPoint(origin, cols, r, colStep, rowStep, c);
  }

  /** Where one row ends the next begins: the last point of row r - 1 and
      the first point of row r share their x. */
  lemma GridTurn(origin: Point, cols: int, rows: int, colStep: real, rowStep: real, r: int)
    requires cols > 0 && 0 < r < rows
    ensures r * cols < |Grid(origin, cols, rows, colStep, rowStep)|
    ensures Grid(origin, cols, rows, colStep, rowStep)[r * cols - 1].x ==
      Grid(origin, cols, rows, colStep, rowStep)[r * cols].x
  {
    GridAt(origin, cols, rows, colStep, rowStep, r - 1, cols - 1);
    GridAt(origin, cols, rows, colStep, rowStep, r, 0);
    RowEnd(r, cols);
  }

  lemma RowEnd(r: int, cols: int)
    ensures (r - 1) * cols + (cols - 1) == r * cols - 1
    ensures ((r - 1) % 2 == 0) == (r % 2 != 0)
  {
  }

  // ---------------------------------------------------------------------
  // load_multipoints and load_csv_multipoints
  // ---------------------------------------------------------------------

  /** The two multipoint file formats. */
  datatype Format = Csv | Xml

  /** Python's `path[-3:]`: the last three characters, or the whole path
      when it is shorter. */
  function Suffix(path: string): (s: string)
    ensures |s| == if |path| < 3 then |path| else 3
    ensures path == path[..|path| - |s|] + s
  {
    if |path| < 3 then path else path[|path| - 3..]
  }

  /** The loader `load_multipoints` picks: by the path's last three
      characters when the file type is "auto", by the given type otherwise;
      "csv" and "xml" are known and anything else is refused. */
  function FormatOf(path: string, filetype: string): (r: Result<Format>)
    ensures var key := if filetype == "auto" then Suffix(path) else filetype;
      && (r == Success(Csv) <==> key == "csv")
      && (r == Success(Xml) <==> key == "xml")
      && (r.Failure? <==> key != "csv" && key != "xml")
      && (r.Failure? ==> r.error == UnknownFiletype)
  {
    var key := if filetype == "auto" then Suffix(path) else filetype;
    if key == "csv" then Success(Csv)
    else if key == "xml" then Success(Xml)
    else Failure(UnknownFiletype)
  }

  /** `load_csv_multipoints` on the text of a file: one position per line,
      the piece after the last newline dropped, and one field per
      ';'-separated item. The fields stay text: converting them to floats
      and scaling them by 1000 is not modelled. */
  function CsvPositions(text: string): seq<seq<string>> {
    var lines := Split(text, '\n');
    seq(|lines| - 1, i requires 0 <= i < |lines| - 1 => Split(lines[i], ';'))
  }

  /** A file with one line per position, each line ending in a newline and
      holding the position's fields separated by ';'. */
  function CsvText(positions: seq<seq<string>>): string
    decreases |positions|
  {
    if positions == [] then ""
    else CsvText(positions[..|positions| - 1]) + Join(positions[|positions| - 1], ";") + "\n"
  }

  /** A position holds at least one field and no field holds a separator. */
  predicate Plain(position: seq<string>) {
    |position| >= 1 && forall j :: 0 <= j < |position| ==> ';' !in position[j] && '\n' !in position[j]
  }

  /** The lines of the file, one per position, without their newlines. */
  function Lines(positions: seq<seq<string>>): seq<string> {
    seq(|positions|, i requires 0 <= i < |positions| => Join(positions[i], ";"))
  }

  /** Writing positions out and loading them back gives them back: the
      loader finds one position per line and one field per item. */
  lemma CsvRoundTrip(positions: seq<seq<string>>)
    requires forall i :: 0 <= i < |positions| ==> Plain(positions[i])
    ensures CsvPositions(CsvText(positions)) == positions
  {
    var lines := Lines(positions) + [""];
    LinesPlain(positions);
    CsvLines(positions);
    SplitJoin(lines, '\n');
    var loaded := CsvPositions(CsvText(positions));
    assert |loaded| == |positions|;
    forall i | 0 <= i < |positions|
      ensures loaded[i] == positions[i]
    {
      assert lines[i] == Join(positions[i], ";");
      SplitJoin(positions[i], ';');
    }
  }

  /** No line holds a newline. */
  lemma LinesPlain(positions: seq<seq<string>>)
    requires forall i :: 0 <= i < |positions| ==> Plain(positions[i])
    ensures forall i :: 0 <= i < |positions| + 1 ==> '\n' !in (Lines(positions) + [""])[i]
  {
    forall i | 0 <= i < |positions|
      ensures '\n' !in Lines(positions)[i]
    {
      JoinKeeps(positions[i], ";", '\n');
    }
  }

  /** The file is its lines joined by newlines, with an empty piece after
      the final newline. */
  lemma {:induction false} CsvLines(positions: seq<seq<string>>)
    ensures CsvText(positions) == Join(Lines(positions) + [""], "\n")
    decreases |positions|
  {
    if positions != [] {
      var front := positions[..|positions| - 1];
      CsvLines(front);
      assert Lines(positions) == Lines(front) + [Join(positions[|positions| - 1], ";")];
      JoinSnoc(Lines(front), Join(positions[|positions| - 1], ";"), "\n");
    }
  }

  /** Joining pieces and one more piece, each followed by a separator. */
  lemma {:induction false} JoinSnoc(parts: seq<string>, last: string, sep: string)
    ensures Join(parts + [last] + [""], sep) == Join(parts + [""], sep) + last + sep
    decreases |parts|
  {
    if parts == [] {
      assert [last] + [""] == [last, ""];
      assert Join([""], sep) == "";
    } else {
      JoinSnoc(parts[1..], last, sep);
      assert (parts + [last] + [""])[1..] == parts[1..] + [last] + [""];
      assert (parts + [""])[1..] == parts[1..] + [""];
    }
  }

  /** A join holds a character only if a piece or the separator does. */
  lemma {:induction false} JoinKeeps(parts: seq<string>, sep: string, c: char)
    requires c !in sep && forall j :: 0 <= j < |parts| ==> c !in parts[j]
    ensures c !in Join(parts, sep)
    decreases |parts|
  {
    if |parts| > 1 {
      JoinKeeps(parts[1..], sep, c);
    }
  }

  // ---------------------------------------------------------------------
  // multipoint_aq
  // ---------------------------------------------------------------------

  /** What the acquisition does to the microscope, in order. */
  datatype Action =
    | MoveTo(p: Point)          // mmc.setXYPosition
    | SetConfig(config: string) // mmc.setConfig in the channel group
    | FocusOn                   // mmc.setProperty("PFS", "FocusMaintenance", "On")
    | Snap                      // mmc.snapImage: between shutter calls in an acquisition, alone in snap_image

  /** One metadata entry: the field, the configuration and the stage
      position at capture time. The stage is taken to report the position
      it was last sent to, so `at` is the field's point. */
  datatype Capture = Capture(fov: int, config: string, at: Point)

  /** A file written by the microscope side. */
  datatype Saved =
    | ImageFile(path: string)
    | MetadataFile(path: string, table: seq<Capture>)

  /** The configurations of the list that the channel group does not
      define, in list order. */
  function Undefined(configs: seq<string>, defined: set<string>): seq<string>
    decreases |configs|
  {
    if configs == [] then []
    else
      var last := configs[|configs| - 1];
      Undefined(configs[..|configs| - 1], defined) + (if last in defined then [] else [last])
  }

  /** A configuration is reported exactly when it is listed and undefined,
      so the report is empty exactly when every listed configuration is
      defined. */
  lemma {:induction false} UndefinedIff(configs: seq<string>, defined: set<string>)
    ensures forall c :: c in Undefined(configs, defined) <==> c in configs && c !in defined
    ensures Undefined(configs, defined) == [] <==> forall i :: 0 <= i < |configs| ==> configs[i] in defined
    decreases |configs|
  {
    if configs != [] {
      var front := configs[..|configs| - 1];
      UndefinedIff(front, defined);
      assert configs == front + [configs[|configs| - 1]];
    }
  }

  function UndefinedMessage(undefined: seq<string>): string {
    "The following configs are undefined: " + Join(undefined, ", ")
  }

  /** Focus maintenance is switched on for every configuration whose name
      does not mention "noPFS". */
  function Focus(config: string): seq<Action> {
    if Contains(config, "noPFS") then [] else [FocusOn]
  }

  /** Select a configuration, then capture: for each configuration in turn. */
  function Exposures(configs: seq<string>): seq<Action>
    decreases |configs|
  {
    if configs == [] then []
    else
      var last := configs[|configs| - 1];
      Exposures(configs[..|configs| - 1]) + [SetConfig(last)] + Focus(last) + [Snap]
  }

  /** One field: move there, expose every configuration, then return to the
      first configuration. */
  function Visit(p: Point, configs: seq<string>): seq<Action>
    requires configs != []
  {
    [MoveTo(p)] + Exposures(configs) + [SetConfig(configs[0])] + Focus(configs[0])
  }

  /** Every field of the grid, in order. */
  function Visits(grid: seq<Point>, configs: seq<string>): seq<Action>
    requires configs != []
    decreases |grid|
  {
    if grid == [] then [] else Visits(grid[..|grid| - 1], configs) + Visit(grid[|grid| - 1], configs)
  }

  /** The captures of field `fov`, at stage position p, one per
      configuration. */
  function Shots(fov: int, p: Point, configs: seq<string>): seq<Capture> {
    seq(|configs|, j requires 0 <= j < |configs| => Capture(fov, configs[j], p))
  }

  /** The captures of the whole grid, field by field. */
  function Captures(grid: seq<Point>, configs: seq<string>): seq<Capture>
    decreases |grid|
  {
    if grid == [] then []
    else Captures(grid[..|grid| - 1], configs) + Shots(|grid| - 1, grid[|grid| - 1], configs)
  }

  /** The grid's first fields give the first captures. */
  lemma {:induction false} CapturesPrefix(grid: seq<Point>, configs: seq<string>, n: int)
    requires 0 <= n <= |grid|
    ensures Captures(grid[..n], configs) <= Captures(grid, configs)
    decreases |grid| - n
  {
    if n < |grid| {
      var front := grid[..|grid| - 1];
      CapturesPrefix(front, configs, n);
      assert front[..n] == grid[..n];
    } else {
      assert grid[..n] == grid;
    }
  }

  /** The fields before field fov give fov * |configs| captures. */
  lemma {:induction false} CapturesSize(grid: seq<Point>, configs: seq<string>)
    ensures |Captures(grid, configs)| == |grid| * |configs|
    decreases |grid|
  {
    if grid != [] {
      CapturesSize(grid[..|grid| - 1], configs);
      assert (|grid| - 1) * |configs| + |configs| == |grid| * |configs|;
    }
  }

  /** The capture of configuration j at field fov comes after the captures
      of the fields before it. */
  lemma CaptureAt(grid: seq<Point>, configs: seq<string>, fov: int, j: int)
    requires 0 <= fov < |grid| && 0 <= j < |configs|
    ensures |Captures(grid[..fov], configs)| + j < |Captures(grid, configs)|
    ensures Captures(grid, configs)[|Captures(grid[..fov], configs)| + j] == Capture(fov, configs[j], grid[fov])
  {
    CapturesPrefix(grid, configs, fov + 1);
    var front := grid[..fov + 1];
    assert front[..fov] == grid[..fov];
    assert Captures(front, configs) == Captures(grid[..fov], configs) + Shots(fov, grid[fov], configs);
  }

  /** Captures are field-major and configuration-minor: the capture of
      configuration j at field fov is capture fov * |configs| + j. */
  lemma CaptureOrder(grid: seq<Point>, configs: seq<string>, fov: int, j: int)
    requires 0 <= fov < |grid| && 0 <= j < |configs|
    ensures fov * |configs| + j < |Captures(grid, configs)|
    ensures Captures(grid, configs)[fov * |configs| + j] == Capture(fov, configs[j], grid[fov])
  {
    CapturesSize(grid[..fov], configs);
    CaptureAt(grid, configs, fov, j);
  }

  /** The file an image is saved to. */
  function ImagePath(folder: string, c: Capture, timepoint: int): string {
    folder + "fov=" + IntToString(c.fov) + "_config=" + c.config + "_t=" + IntToString(timepoint) + ".hdf5"
  }

  /** One image file per capture, in capture order. */
  function ImageFiles(folder: string, captures: seq<Capture>, timepoint: int): seq<Saved> {
    seq(|captures|, k requires 0 <= k < |captures| => ImageFile(ImagePath(folder, captures[k], timepoint)))
  }

  /** The image files and then the metadata table. */
  function Files(folder: string, captures: seq<Capture>, timepoint: int): seq<Saved> {
    ImageFiles(folder, captures, timepoint) + [MetadataFile(folder + "metadata_" + IntToString(timepoint) + ".hdf5", captures)]
  }

  /** One row of `set_grid`: the points of row `row`, from the origin's
      column leftward when the row starts on the left, and from the far
      column back otherwise. */
  method LayRow(origin: Point, cols: int, row: int, startLeft: bool, colStep: real, rowStep: real)
    returns (line: seq<Point>)
    ensures line == Row(origin, cols, row, startLeft, colStep, rowStep)
  {
    ghost var target := Row(origin, cols, row, startLeft, colStep, rowStep);
    var yDisp := Times(row, rowStep);
    line := [];
    var col := 0;
    while col < cols
      invariant 0 <= col && (col <= cols || col == 0) && col <= |target|
      invariant line == target[..col]
    {
      var xDisp := if startLeft then Times(col, -colStep) else Times(cols - col - 1, -colStep);
      line := line + [Point(origin.x + xDisp, origin.y + yDisp)];
      col := col + 1;
    }
  }

  /** One more field visited and captured. */
  lemma SweepStep(grid: seq<Point>, configs: seq<string>, fov: int)
    requires configs != [] && 0 <= fov < |grid|
    ensures Visits(grid[..fov + 1], configs) == Visits(grid[..fov], configs) + Visit(grid[fov], configs)
    ensures Captures(grid[..fov + 1], configs) == Captures(grid[..fov], configs) + Shots(fov, grid[fov], configs)
  {
    assert grid[..fov + 1][..fov] == grid[..fov];
  }

  /** One more image file saved. */
  lemma ImageFilesStep(folder: string, captures: seq<Capture>, k: int, timepoint: int)
    requires 0 <= k < |captures|
    ensures ImageFiles(folder, captures[..k + 1], timepoint) ==
      ImageFiles(folder, captures[..k], timepoint) + [ImageFile(ImagePath(folder, captures[k], timepoint))]
  {
    var longer := ImageFiles(folder, captures[..k + 1], timepoint);
    var shorter := ImageFiles(folder, captures[..k], timepoint);
    forall j | 0 <= j < k
      ensures longer[j] == shorter[j]
    {
      assert captures[..k + 1][j] == captures[..k][j];
    }
  }

  /** Calls made one batch after another are the batches in order. */
  lemma Regroup(start: seq<Action>, a: seq<Action>, b: seq<Action>, c: seq<Action>, d: seq<Action>)
    ensures start + a + b + c + d == start + (a + b + c + d)
  {
  }

  lemma Then(start: seq<Action>, a: seq<Action>, b: seq<Action>)
    ensures start + a + b == start + (a + b)
  {
  }

  /** One more configuration exposed and captured. */
  lemma ExposeStep(fov: int, p: Point, configs: seq<string>, j: int)
    requires 0 <= j < |configs|
    ensures Exposures(configs[..j + 1]) == Exposures(configs[..j]) + [SetConfig(configs[j])] + Focus(configs[j]) + [Snap]
    ensures Shots(fov, p, configs[..j + 1]) == Shots(fov, p, configs[..j]) + [Capture(fov, configs[j], p)]
  {
    assert configs[..j + 1][..j] == configs[..j];
  }

  class Microscope {
    /** The configurations the channel group defines. */
    const defined: set<string>
    /** The stage position. */
    var position: Point
    /** Every call made on the microscope, in order. */
    var calls: seq<Action>
    /** Every file written, in order. */
    var saved: seq<Saved>

    constructor (defined: set<string>, position: Point)
      ensures this.defined == defined && this.position == position
      ensures calls == [] && saved == []
    {
      this.defined := defined;
      this.position := position;
      calls := [];
      saved := [];
    }

    /** `set_grid`: the serpentine grid of `cols` by `rows` fields around
        the current stage position. */
    method SetGrid(cols: int, rows: int, colStep: real, rowStep: real) returns (grid: seq<Point>)
      ensures grid == Grid(position, cols, rows, colStep, rowStep)
    {
      var origin := position;
      grid := [];
      var startLeft := true;
      var row := 0;
      while row < rows
        invariant 0 <= row && (row <= rows || row == 0)
        invariant startLeft == (row % 2 == 0)
        invariant grid == Grid(origin, cols, row, colStep, rowStep)
      {
        var line := LayRow(origin, cols, row, startLeft, colStep, rowStep);
        grid := grid + line;
        startLeft := !startLeft;
        row := row + 1;
      }
    }

    /** The validation loop of `multipoint_aq`: the listed configurations
        the channel group does not define. */
    method CheckConfigs(configs: seq<string>) returns (undefined: seq<string>)
      ensures undefined == Undefined(configs, defined)
    {
      undefined := [];
      for i := 0 to |configs|
        invariant undefined == Undefined(configs[..i], defined)
      {
        if configs[i] !in defined {
          undefined := undefined + [configs[i]];
        }
        assert configs[..i + 1][..i] == configs[..i];
      }
      assert configs[..|configs|] == configs;
    }

    method Move(p: Point)
      modifies this`position, this`calls
      ensures position == p && calls == old(calls) + [MoveTo(p)]
    {
      position := p;
      calls := calls + [MoveTo(p)];
    }

    /** Select a configuration, with focus maintenance unless its name
        mentions "noPFS". */
    method Select(config: string)
      modifies this`calls
      ensures calls == old(calls) + [SetConfig(config)] + Focus(config)
    {
      calls := calls + [SetConfig(config)];
      if !Contains(config, "noPFS") {
        calls := calls + [FocusOn];
      }
    }

    method SnapImage()
      modifies this`calls
      ensures calls == old(calls) + [Snap]
    {
      calls := calls + [Snap];
    }

    /** Save an image taken outside an acquisition (a snapshot). */
    method SaveImage(path: string)
      modifies this`saved
      ensures saved == old(saved) + [ImageFile(path)]
    {
      saved := saved + [ImageFile(path)];
    }

    /** The inner loop of `multipoint_aq`: at field `fov`, expose every
        configuration and record one capture each. */
    method Expose(fov: int, configs: seq<string>) returns (shots: seq<Capture>)
      modifies this`calls
      ensures calls == old(calls) + Exposures(configs)
      ensures shots == Shots(fov, position, configs)
    {
      shots := [];
      for j := 0 to |configs|
        invariant calls == old(calls) + Exposures(configs[..j])
        invariant shots == Shots(fov, position, configs[..j])
      {
        Select(configs[j]);
        SnapImage();
        shots := shots + [Capture(fov, configs[j], position)];
        ExposeStep(fov, position, configs, j);
        Regroup(old(calls), Exposures(configs[..j]), [SetConfig(configs[j])], Focus(configs[j]), [Snap]);
      }
      assert configs[..|configs|] == configs;
    }

    /** The saving loop of `multipoint_aq`: one file per capture, then the
        metadata table. */
    method Persist(captures: seq<Capture>, folder: string, timepoint: int)
      modifies this`saved
      ensures saved == old(saved) + Files(folder, captures, timepoint)
    {
      var files: seq<Saved> := [];
      for k := 0 to |captures|
        invariant files == ImageFiles(folder, captures[..k], timepoint)
        invariant saved == old(saved)
      {
        files := files + [ImageFile(ImagePath(folder, captures[k], timepoint))];
        ImageFilesStep(folder, captures, k, timepoint);
      }
      assert captures[..|captures|] == captures;
      files := files + [MetadataFile(folder + "metadata_" + IntToString(timepoint) + ".hdf5", captures)];
      saved := saved + files;
    }

    /** The field loop of `multipoint_aq`: move to each field in turn,
        expose every configuration there and return to the first
        configuration. */
    method Sweep(grid: seq<Point>, configs: seq<string>) returns (captures: seq<Capture>)
      requires configs != []
      modifies this`position, this`calls
      ensures calls == old(calls) + Visits(grid, configs) && captures == Captures(grid, configs)
    {
      captures := [];
      for fov := 0 to |grid|
        invariant calls == old(calls) + Visits(grid[..fov], configs)
        invariant captures == Captures(grid[..fov], configs)
      {
        var shots := VisitField(fov, grid[fov], configs);
        captures := captures + shots;
        SweepStep(grid, configs, fov);
        Then(old(calls), Visits(grid[..fov], configs), Visit(grid[fov], configs));
      }
      assert grid[..|grid|] == grid;
    }

    /** One field: move there, expose every configuration, and return to
        the first configuration. */
    method VisitField(fov: int, p: Point, configs: seq<string>) returns (shots: seq<Capture>)
      requires configs != []
      modifies this`position, this`calls
      ensures calls == old(calls) + Visit(p, configs) && shots == Shots(fov, p, configs)
    {
      ghost var start := calls;
      Move(p);
      shots := Expose(fov, configs);
      Select(configs[0]);
      Regroup(start, [MoveTo(p)], Exposures(configs), [SetConfig(configs[0])], Focus(configs[0]));
    }

    /** `multipoint_aq`: refuse undefined configurations before anything
        moves; then visit the fields in grid order, capturing every
        configuration at each, return to the first field, and save the
        images and the metadata. An empty grid or an empty configuration
        list fails where the code first indexes it. */
    method MultipointAq(grid: seq<Point>, configs: seq<string>, timepoint: int, folder: string)
      returns (outcome: Outcome)
      modifies this`position, this`calls, this`saved
      ensures Undefined(configs, defined) != [] ==>
        && outcome == Fail(UndefinedConfigs(UndefinedMessage(Undefined(configs, defined))))
        && position == old(position) && calls == old(calls) && saved == old(saved)
      ensures Undefined(configs, defined) == [] && grid == [] ==>
        outcome == Fail(MissingFirstPoint) && position == old(position) && calls == old(calls) && saved == old(saved)
      ensures grid != [] && configs == [] ==>
        && outcome == Fail(MissingFirstConfig) && position == grid[0]
        && calls == old(calls) + [MoveTo(grid[0]), MoveTo(grid[0])] && saved == old(saved)
      ensures Undefined(configs, defined) == [] && grid != [] && configs != [] ==>
        && outcome == Pass && position == grid[0]
        && calls == old(calls) + [MoveTo(grid[0])] + Visits(grid, configs) + [MoveTo(grid[0])]
        && saved == old(saved) + Files(folder, Captures(grid, configs), timepoint)
    {
      var undefined := CheckConfigs(configs);
      if |undefined| > 0 {
        return Fail(UndefinedConfigs(UndefinedMessage(undefined)));
      }
      if |grid| == 0 {
        return Fail(MissingFirstPoint);
      }
      Move(grid[0]);
      if |configs| == 0 {
        Move(grid[0]);
        var none := Expose(0, configs);
        return Fail(MissingFirstConfig);
      }
      var captures := Sweep(grid, configs);
      Move(grid[0]);
      Persist(captures, folder, timepoint);
      outcome := Pass;
    }
  }
}
