/** The bookkeeping of one photographed experiment in the seed-dataset
    clustering run: what kind of experiment a file name describes, which
    class of seeds lies in which part of the photograph, where each part
    starts in the whole image, and whether the colour chart found in the
    left strip is trusted. File names are strings; the image is known only
    by its size, and the parts are the row and column ranges of the views
    the program takes. */
module Experiments {
  import opened Wrappers
  import opened Numeric
  import opened Geometry
  import ColorCheckers

  // ----- Strings -----

  predicate StartsWith(s: string, prefix: string)
  {
    |prefix| <= |s| && s[..|prefix|] == prefix
  }

  predicate EndsWith(s: string, suffix: string)
  {
    |suffix| <= |s| && s[|s| - |suffix|..] == suffix
  }

  /** `t` occurs in `s` starting at `i`. */
  predicate OccursAt(s: string, t: string, i: nat)
  {
    i + |t| <= |s| && s[i..i + |t|] == t
  }

  /** `t` occurs somewhere in `s`. */
  ghost predicate Occurs(s: string, t: string)
  {
    exists i: nat :: OccursAt(s, t, i)
  }

  /** `indexOf(t, from)`: the first position at or after `from` where `t`
      starts, found by trying the positions in turn. */
  function IndexFrom(s: string, t: string, from: nat): (r: Option<nat>)
    decreases |s| - from
  {
    if from + |t| > |s| then None
    else if s[from..from + |t|] == t then Some(from)
    else IndexFrom(s, t, from + 1)
  }

  /** The search finds `t` exactly when it occurs at or after `from`, and it
      finds the first such position. */
  lemma {:induction false} IndexFromMeaning(s: string, t: string, from: nat)
    ensures var r := IndexFrom(s, t, from);
      (r.Some? <==> exists i: nat :: from <= i && OccursAt(s, t, i)) &&
      (r.Some? ==> from <= r.value && OccursAt(s, t, r.value) &&
                   forall i: nat :: from <= i < r.value ==> !OccursAt(s, t, i))
    decreases |s| - from
  {
    if from + |t| > |s| {
    } else if s[from..from + |t|] == t {
      assert OccursAt(s, t, from);
    } else {
      IndexFromMeaning(s, t, from + 1);
      assert !OccursAt(s, t, from);
      if exists i: nat :: from <= i && OccursAt(s, t, i) {
        var i: nat :| from <= i && OccursAt(s, t, i);
        assert i != from;
      }
    }
  }

  /** `String.contains`: `indexOf` from the start is not -1. */
  predicate Contains(s: string, t: string)
  {
    IndexFrom(s, t, 0).Some?
  }

  lemma ContainsMeaning(s: string, t: string)
    ensures Contains(s, t) <==> Occurs(s, t)
  {
    IndexFromMeaning(s, t, 0);
  }

  // ----- File names -----

  datatype FileType = TwoClasses | FourClasses | Other

  /** `fileType`: a ".jpg" whose name has "exp" and no "label" is an
      experiment; it has four classes when the name starts with the four
      class names, two otherwise. */
  function FileTypeOf(name: string): FileType
  {
    if !EndsWith(name, ".jpg") || Contains(name, "label") || !Contains(name, "exp") then Other
    else if StartsWith(name, "class1_class2_class3_class4") then FourClasses
    else TwoClasses
  }

  /** The three file types, each stated by which substrings occur. */
  lemma FileTypeMeaning(name: string)
    ensures FileTypeOf(name) != Other <==>
      EndsWith(name, ".jpg") && !Occurs(name, "label") && Occurs(name, "exp")
    ensures FileTypeOf(name) == FourClasses <==>
      FileTypeOf(name) != Other && StartsWith(name, "class1_class2_class3_class4")
    ensures FileTypeOf(name) == TwoClasses <==>
      FileTypeOf(name) != Other && !StartsWith(name, "class1_class2_class3_class4")
  {
    ContainsMeaning(name, "label");
    ContainsMeaning(name, "exp");
  }

  /** `isCC`: the photograph shows a colour chart. */
  predicate IsChartPhoto(name: string)
  {
    Contains(name, "_cc_")
  }

  lemma IsChartPhotoMeaning(name: string)
    ensures IsChartPhoto(name) <==> Occurs(name, "_cc_")
  {
    ContainsMeaning(name, "_cc_");
  }

  /** Why a name or a class gives no answer: `charAt` past the end
      (StringIndexOutOfBoundsException), `parseInt` of a non-digit
      (NumberFormatException), and the two IllegalStateExceptions. */
  datatype Failure = IndexOutOfBounds(index: nat) | NotADigit(c: char) | WrongClass | WrongFileName

  predicate IsDigit(c: char)
  {
    '0' <= c <= '9'
  }

  /** `getDigit`: the character at `index` read as a decimal number. */
  function Digit(name: string, index: nat): (r: Result<int, Failure>)
    ensures r.Ok? ==> 0 <= r.value <= 9
  {
    if index >= |name| then Err(IndexOutOfBounds(index))
    else if !IsDigit(name[index]) then Err(NotADigit(name[index]))
    else Ok(name[index] as int - '0' as int)
  }

  /** A digit is read back exactly, and each failure names its cause. */
  lemma DigitMeaning(name: string, index: nat, d: int)
    ensures Digit(name, index) == Ok(d) <==>
      index < |name| && 0 <= d <= 9 && name[index] == ('0' as int + d) as char
    ensures Digit(name, index).Err? ==>
      (index >= |name| && Digit(name, index).error == IndexOutOfBounds(index)) ||
      (index < |name| && !IsDigit(name[index]) && Digit(name, index).error == NotADigit(name[index]))
  {
  }

  /** `leftClass`, `rightClass`: the class digits of "classL_classR...". */
  function LeftClass(name: string): Result<int, Failure> { Digit(name, 5) }

  function RightClass(name: string): Result<int, Failure> { Digit(name, 12) }

  // ----- Parts of the photograph -----

  /** The first column of seeds starts at 38% of the width, the second at
      65%, and the second row of seeds at 45% of the height. */
  const FirstColumnFraction: real := 0.38
  const SecondColumnFraction: real := 0.65
  const RowFraction: real := 0.45

  function FirstColumnBorder(cols: nat): int { Trunc(cols as real * FirstColumnFraction) }

  function SecondColumnBorder(cols: nat): int { Trunc(cols as real * SecondColumnFraction) }

  function RowBorder(rows: nat): int { Trunc(rows as real * RowFraction) }

  /** The borders cut the image into ordered, non-empty-or-empty strips
      that never leave it. */
  lemma BordersOrdered(rows: nat, cols: nat)
    ensures 0 <= FirstColumnBorder(cols) <= SecondColumnBorder(cols) <= cols
    ensures 0 <= RowBorder(rows) <= rows
  {
    TruncMonotone(cols as real * FirstColumnFraction, cols as real * SecondColumnFraction);
  }

  /** Rows [rowStart, rowEnd) and columns [colStart, colEnd): an OpenCV
      `Range` pair, the view `new Mat(image, rows, cols)` takes. */
  datatype Region = Region(rowStart: int, rowEnd: int, colStart: int, colEnd: int)

  predicate Inside(g: Region, rows: nat, cols: nat)
  {
    0 <= g.rowStart <= g.rowEnd <= rows && 0 <= g.colStart <= g.colEnd <= cols
  }

  /** `getCC`: every row, and the columns before 4 * cols / 10. */
  function ChartRegion(rows: nat, cols: nat): (g: Region)
    ensures Inside(g, rows, cols)
  {
    Region(0, rows, 0, 4 * cols / 10)
  }

  /** The chart strip reaches at least as far as the first column of seeds,
      so the two overlap whenever the first border is below 40% of the width. */
  lemma ChartStripCoversFirstBorder(rows: nat, cols: nat)
    ensures FirstColumnBorder(cols) <= ChartRegion(rows, cols).colEnd
  {
    var w := ChartRegion(rows, cols).colEnd;
    assert cols as real * FirstColumnFraction < w as real + 1.0 by {
      assert 4 * cols == 10 * w + (4 * cols) % 10;
    }
  }

  /** `getClasses`: the class numbers and their parts of the photograph.
      Four classes: 1 and 2 above the row border, 3 and 4 below it, odd ones
      in the first column. Two classes: the left and right class take the
      whole height of their column; when the two digits agree the later
      `put` of the right part wins. Any other file has none. */
  function Classes(name: string, rows: nat, cols: nat): Result<map<int, Region>, Failure>
  {
    var first, second := FirstColumnBorder(cols), SecondColumnBorder(cols);
    var row := RowBorder(rows);
    match FileTypeOf(name)
    case FourClasses =>
      Ok(map[1 := Region(0, row, first, second), 2 := Region(0, row, second, cols),
             3 := Region(row, rows, first, second), 4 := Region(row, rows, second, cols)])
    case TwoClasses =>
      (match LeftClass(name)
       case Err(e) => Err(e)
       case Ok(left) =>
         match RightClass(name)
         case Err(e) => Err(e)
         case Ok(right) =>
           Ok(map[left := Region(0, rows, first, second)][right := Region(0, rows, second, cols)]))
    case Other => Ok(map[])
  }

  /** Which classes there are, and that every part lies inside the image. */
  lemma ClassesKeys(name: string, rows: nat, cols: nat)
    ensures var r := Classes(name, rows, cols);
      (FileTypeOf(name) == FourClasses ==> r.Ok? && r.value.Keys == {1, 2, 3, 4}) &&
      (FileTypeOf(name) == Other ==> r == Ok(map[])) &&
      (FileTypeOf(name) == TwoClasses ==>
        (r.Ok? <==> LeftClass(name).Ok? && RightClass(name).Ok?) &&
        (r.Ok? ==> r.value.Keys == {LeftClass(name).value, RightClass(name).value})) &&
      (r.Err? ==> (FileTypeOf(name) == TwoClasses &&
        r.error == (if LeftClass(name).Err? then LeftClass(name).error else RightClass(name).error))) &&
      (r.Ok? ==> forall k :: k in r.value ==> Inside(r.value[k], rows, cols))
  {
    BordersOrdered(rows, cols);
  }

  /** `xOffset`: the first column of the part of class `c`. An odd class of
      four (Java's `%`, so -1 is not odd here) is in the first column; of two,
      the left class is, then the right one is in the second; anything else
      is refused. */
  function XOffset(name: string, cols: nat, c: int): Result<int, Failure>
  {
    match FileTypeOf(name)
    case FourClasses =>
      if JavaRem(c, 2) == 1 then Ok(FirstColumnBorder(cols)) else Ok(SecondColumnBorder(cols))
    case TwoClasses =>
      (match LeftClass(name)
       case Err(e) => Err(e)
       case Ok(left) =>
         if c == left then Ok(FirstColumnBorder(cols))
         else match RightClass(name)
           case Err(e) => Err(e)
           case Ok(right) => if c == right then Ok(SecondColumnBorder(cols)) else Err(WrongClass))
    case Other => Err(WrongClass)
  }

  /** `yOffset`: the first row of the part of class `c`; only a photograph
      of four classes has parts below the row border, from class 3 on. */
  function YOffset(name: string, rows: nat, c: int): Result<int, Failure>
  {
    match FileTypeOf(name)
    case FourClasses => if c < 3 then Ok(0) else Ok(RowBorder(rows))
    case TwoClasses => Ok(0)
    case Other => Err(WrongFileName)
  }

  /** The offsets the seeds of a class are shifted by are where that class's
      part starts, for every class the photograph has, provided a two-class
      name names two different classes. */
  lemma OffsetsAreRegionCorners(name: string, rows: nat, cols: nat, c: int)
    requires Classes(name, rows, cols).Ok? && c in Classes(name, rows, cols).value
    requires FileTypeOf(name) == TwoClasses ==> LeftClass(name) != RightClass(name)
    ensures XOffset(name, cols, c) == Ok(Classes(name, rows, cols).value[c].colStart)
    ensures YOffset(name, rows, c) == Ok(Classes(name, rows, cols).value[c].rowStart)
  {
    ClassesKeys(name, rows, cols);
  }

  /** When both class digits are equal, the one class keeps the right part,
      yet its x offset is the first column border. */
  lemma EqualDigitsOffsetMismatch(name: string, rows: nat, cols: nat)
    requires FileTypeOf(name) == TwoClasses && LeftClass(name).Ok? && LeftClass(name) == RightClass(name)
    ensures var c := LeftClass(name).value;
      Classes(name, rows, cols).Ok? && Classes(name, rows, cols).value == map[c := Region(0, rows, SecondColumnBorder(cols), cols)] &&
      XOffset(name, cols, c) == Ok(FirstColumnBorder(cols))
  {
    var c := LeftClass(name).value;
    assert map[c := Region(0, rows, FirstColumnBorder(cols), SecondColumnBorder(cols))][c := Region(0, rows, SecondColumnBorder(cols), cols)]
      == map[c := Region(0, rows, SecondColumnBorder(cols), cols)];
  }

  /** A photograph that is not an experiment has no offsets at all. */
  lemma OtherFilesRefused(name: string, rows: nat, cols: nat, c: int)
    requires FileTypeOf(name) == Other
    ensures XOffset(name, cols, c) == Err(WrongClass) && YOffset(name, rows, c) == Err(WrongFileName)
  {
  }

  // ----- Scale and chart acceptance -----

  /** The default pixel area in square millimetres: the photograph is taken
      to show 80% of an A4 sheet's 297 mm across and 85% of its 210 mm down.
      Java's division by a zero size gives no finite value. */
  function A4Scale(rows: nat, cols: nat): (r: Option<real>)
    ensures r.Some? <==> rows > 0 && cols > 0
    ensures r.Some? ==> r.value > 0.0
  {
    if rows == 0 || cols == 0 then None
    else Some((297.0 / 0.8 / cols as real) * (210.0 / 0.85 / rows as real))
  }

  /** The default scale times the number of pixels is the visible area of the sheet. */
  lemma A4ScaleCoversSheet(rows: nat, cols: nat)
    requires rows > 0 && cols > 0
    ensures A4Scale(rows, cols).value * (cols as real * rows as real) == (297.0 / 0.8) * (210.0 / 0.85)
  {
    var w, h := 297.0 / 0.8, 210.0 / 0.85;
    var c, r := cols as real, rows as real;
    assert (w / c) * c == w;
    assert (h / r) * r == h;
    assert (w / c) * (h / r) * (c * r) == ((w / c) * c) * ((h / r) * r);
  }

  /** The chart quad found in the strip is believable: it covers less than a
      quarter of the strip. A strip with no pixels makes the ratio NaN or
      infinite, which is never below a quarter. */
  predicate AreaPlausible(chart: Quad, stripRows: nat, stripCols: nat)
  {
    stripRows > 0 && stripCols > 0 && Area(chart) / stripCols as real / stripRows as real < 0.25
  }

  /** What the run does with one photograph before its seeds: whether the
      chart is used to calibrate, and the pixel area (None where Java's
      double would be infinite). */
  datatype Calibration = Calibration(chartUsed: bool, scale: Option<real>)

  /** The chart decision: only a chart photograph is searched; a quad too
      large for its strip, or a chart whose Lab deviation from the reference
      exceeds 25, is dropped and the A4 scale stays; otherwise the chart's own
      pixel area is the scale. `deviation` is what the chart built from the
      quad reports. */
  function ChartDecision(name: string, rows: nat, cols: nat, chart: Quad, deviation: real): Calibration
  {
    var strip := ChartRegion(rows, cols);
    if IsChartPhoto(name) && AreaPlausible(chart, strip.rowEnd - strip.rowStart, strip.colEnd - strip.colStart)
       && deviation <= 25.0
    then Calibration(true, ColorCheckers.PixelArea(chart))
    else Calibration(false, A4Scale(rows, cols))
  }

  /** The chart is used exactly when the photograph has one, it covers less
      than a quarter of the strip and its deviation is at most 25; the scale
      is then the chart's, else the A4 default. */
  lemma ChartDecisionMeaning(name: string, rows: nat, cols: nat, chart: Quad, deviation: real)
    ensures var d := ChartDecision(name, rows, cols, chart, deviation);
      var stripCols := 4 * cols / 10;
      (d.chartUsed <==> (Occurs(name, "_cc_") && rows > 0 && stripCols > 0 &&
         Area(chart) < 0.25 * (stripCols as real * rows as real) && deviation <= 25.0)) &&
      (d.chartUsed ==> d.scale == ColorCheckers.PixelArea(chart)) &&
      (!d.chartUsed ==> d.scale == A4Scale(rows, cols))
  {
    IsChartPhotoMeaning(name);
    var strip := ChartRegion(rows, cols);
    var sc, sr := strip.colEnd as real, rows as real;
    if sc > 0.0 && sr > 0.0 {
      RatioBelow(Area(chart), sc, sr, 0.25);
    }
  }

  /** a / b / c < t exactly when a < t * (b * c), for positive b and c. */
  lemma RatioBelow(a: real, b: real, c: real, t: real)
    requires b > 0.0 && c > 0.0
    ensures a / b / c < t <==> a < t * (b * c)
  {
    assert a / b / c == a / (b * c);
    assert (a / (b * c)) * (b * c) == a;
  }
}
