/** The colour vote over the seeds of one photograph: each seed's pixels
    give a feature (the median blue, green and red), three one-colour
    classifiers score it, the highest-priority positive score names its
    colour, and the photograph takes the colour that strictly outnumbers
    the other two. The medians and the three classifiers are given
    functions; the contours, their areas and the pixels collected for each
    contour are inputs. */
module SeedClassifiers {
  import opened Wrappers
  import opened Pixels
  import opened SeedUtils

  /** `SeedColor`, with the name `getValue` reports. */
  datatype SeedColor = Purple | Red | Unknown | White {
    function Value(): string
    {
      match this
      case Purple => "Purple"
      case Red => "Red"
      case Unknown => "Unknown"
      case White => "White"
    }
  }

  /** Distinct colours report distinct names. */
  lemma ValuesDistinct(a: SeedColor, b: SeedColor)
    requires a != b
    ensures a.Value() != b.Value()
  {
  }

  // ----- One seed -----

  /** The blue, green and red values of a seed's pixels, in pixel order. */
  function Blues(pixels: seq<Sample>): (s: seq<real>)
    ensures |s| == |pixels|
  {
    seq(|pixels|, i requires 0 <= i < |pixels| => pixels[i].color.c0)
  }

  function Greens(pixels: seq<Sample>): (s: seq<real>)
    ensures |s| == |pixels|
  {
    seq(|pixels|, i requires 0 <= i < |pixels| => pixels[i].color.c1)
  }

  function Reds(pixels: seq<Sample>): (s: seq<real>)
    ensures |s| == |pixels|
  {
    seq(|pixels|, i requires 0 <= i < |pixels| => pixels[i].color.c2)
  }

  /** The loop of `classifySingleSeed` that fills the three channel arrays,
      one pixel at a time. */
  method ChannelArrays(pixels: seq<Sample>) returns (reds: array<real>, greens: array<real>, blues: array<real>)
    ensures fresh(reds) && fresh(greens) && fresh(blues)
    ensures reds[..] == Reds(pixels) && greens[..] == Greens(pixels) && blues[..] == Blues(pixels)
  {
    reds := new real[|pixels|];
    greens := new real[|pixels|];
    blues := new real[|pixels|];
    for i := 0 to |pixels|
      invariant forall j :: 0 <= j < i ==> reds[j] == pixels[j].color.c2
      invariant forall j :: 0 <= j < i ==> greens[j] == pixels[j].color.c1
      invariant forall j :: 0 <= j < i ==> blues[j] == pixels[j].color.c0
    {
      reds[i] := pixels[i].color.c2;
      greens[i] := pixels[i].color.c1;
      blues[i] := pixels[i].color.c0;
    }
  }

  /** The feature row: median blue, median green, median red, in that order. */
  function Feature(pixels: seq<Sample>, median: seq<real> -> real): (f: Triple)
    ensures f.c0 == median(Blues(pixels)) && f.c1 == median(Greens(pixels)) && f.c2 == median(Reds(pixels))
  {
    Triple(median(Blues(pixels)), median(Greens(pixels)), median(Reds(pixels)))
  }

  /** The three classifiers' scores of one feature. */
  datatype Scores = Scores(purple: real, red: real, white: real)

  /** `classifySingleSeed`'s decision: white before purple before red, each
      only on a positive score. */
  function Label(s: Scores): SeedColor
  {
    if s.white > 0.0 then White
    else if s.purple > 0.0 then Purple
    else if s.red > 0.0 then Red
    else Unknown
  }

  /** The rank of a colour among the three candidates: white first. */
  function Priority(c: SeedColor): nat
  {
    match c
    case White => 3
    case Purple => 2
    case Red => 1
    case Unknown => 0
  }

  function Score(s: Scores, c: SeedColor): real
  {
    match c
    case White => s.white
    case Purple => s.purple
    case Red => s.red
    case Unknown => 0.0
  }

  /** The label is the highest-ranked colour with a positive score, and
      Unknown exactly when no score is positive. */
  lemma LabelIsBestPositive(s: Scores)
    ensures Label(s) != Unknown ==> Score(s, Label(s)) > 0.0
    ensures forall c :: c != Unknown && Score(s, c) > 0.0 ==> Priority(c) <= Priority(Label(s))
    ensures Label(s) == Unknown <==> s.white <= 0.0 && s.purple <= 0.0 && s.red <= 0.0
  {
  }

  /** The label of a seed: its feature scored by the three classifiers. */
  function Classify(pixels: seq<Sample>, median: seq<real> -> real,
                    purple: Triple -> real, red: Triple -> real, white: Triple -> real): SeedColor
  {
    var f := Feature(pixels, median);
    Label(Scores(purple(f), red(f), white(f)))
  }

  // ----- The vote -----

  /** A contour found in the photograph and the pixels collected for it. */
  datatype Candidate = Candidate(contour: Contour, pixels: seq<Sample>)

  /** A candidate is classified when its scaled area lies strictly between
      5 and 30 and pixels were collected for it. A scale that is not finite
      (None) makes every scaled area infinite or NaN, and none qualifies. */
  predicate Eligible(scale: Option<real>, c: Candidate)
  {
    scale.Some? && InAreaWindow(scale.value, c.contour) && c.pixels != []
  }

  datatype Counts = Counts(purple: nat, red: nat, white: nat)

  /** The labels of the eligible candidates, in contour order. */
  function Labels(cs: seq<Candidate>, scale: Option<real>, median: seq<real> -> real,
                  purple: Triple -> real, red: Triple -> real, white: Triple -> real): (ls: seq<SeedColor>)
    ensures |ls| <= |cs|
  {
    if |cs| == 0 then []
    else
      var rest := Labels(cs[..|cs| - 1], scale, median, purple, red, white);
      var c := cs[|cs| - 1];
      if Eligible(scale, c) then rest + [Classify(c.pixels, median, purple, red, white)] else rest
  }

  /** The counters after the seeds of `cs`: one more for the counter of each
      seed's label, none for Unknown. */
  function Tally(cs: seq<Candidate>, scale: Option<real>, median: seq<real> -> real,
                 purple: Triple -> real, red: Triple -> real, white: Triple -> real): Counts
  {
    if |cs| == 0 then Counts(0, 0, 0)
    else
      var t := Tally(cs[..|cs| - 1], scale, median, purple, red, white);
      var c := cs[|cs| - 1];
      if !Eligible(scale, c) then t else Bump(t, Classify(c.pixels, median, purple, red, white))
  }

  /** One more seed of colour `l`: its counter goes up, Unknown changes none. */
  function Bump(t: Counts, l: SeedColor): Counts
  {
    match l
    case Purple => t.(purple := t.purple + 1)
    case Red => t.(red := t.red + 1)
    case White => t.(white := t.white + 1)
    case Unknown => t
  }

  /** The counters hold the number of each colour among the labels. */
  predicate Counted(t: Counts, ls: seq<SeedColor>)
  {
    t.purple == multiset(ls)[Purple] && t.red == multiset(ls)[Red] && t.white == multiset(ls)[White] &&
    t.purple + t.red + t.white + multiset(ls)[Unknown] == |ls|
  }

  lemma BumpCounted(t: Counts, ls: seq<SeedColor>, l: SeedColor)
    requires Counted(t, ls)
    ensures Counted(Bump(t, l), ls + [l])
  {
    assert multiset(ls + [l]) == multiset(ls) + multiset{l};
  }

  /** Each counter is the number of eligible seeds with its colour, so the
      three together count every labelled seed once and Unknown seeds never. */
  lemma {:induction false} TallyCountsLabels(cs: seq<Candidate>, scale: Option<real>, median: seq<real> -> real,
                                             purple: Triple -> real, red: Triple -> real, white: Triple -> real)
    ensures Counted(Tally(cs, scale, median, purple, red, white), Labels(cs, scale, median, purple, red, white))
  {
    if |cs| > 0 {
      TallyCountsLabels(cs[..|cs| - 1], scale, median, purple, red, white);
      var c := cs[|cs| - 1];
      if Eligible(scale, c) {
        BumpCounted(Tally(cs[..|cs| - 1], scale, median, purple, red, white),
                    Labels(cs[..|cs| - 1], scale, median, purple, red, white),
                    Classify(c.pixels, median, purple, red, white));
      }
    }
  }

  /** The final comparison of `classifySeeds`: a colour wins only by strictly
      outnumbering both others. */
  function Verdict(t: Counts): SeedColor
  {
    if t.purple > t.red && t.purple > t.white then Purple
    else if t.red > t.purple && t.red > t.white then Red
    else if t.white > t.purple && t.white > t.red then White
    else Unknown
  }

  function Count(t: Counts, c: SeedColor): nat
  {
    match c
    case Purple => t.purple
    case Red => t.red
    case White => t.white
    case Unknown => 0
  }

  function MaxCount(t: Counts): nat
  {
    if t.purple >= t.red && t.purple >= t.white then t.purple
    else if t.red >= t.white then t.red
    else t.white
  }

  /** A colour is the verdict exactly when its count exceeds each other
      colour's. */
  lemma VerdictIsStrictMajority(t: Counts, c: SeedColor)
    requires c != Unknown
    ensures Verdict(t) == c <==> forall d :: d != Unknown && d != c ==> Count(t, c) > Count(t, d)
  {
    if Verdict(t) != c {
      var d := if c == Purple then (if t.red >= t.purple then Red else White)
               else if c == Red then (if t.purple >= t.red then Purple else White)
               else (if t.purple >= t.white then Purple else Red);
      assert d != Unknown && d != c && Count(t, c) <= Count(t, d);
    }
  }

  /** The verdict is Unknown exactly when two colours share the largest
      count; with no seeds counted all three do. */
  lemma VerdictUnknownOnTie(t: Counts)
    ensures Verdict(t) == Unknown <==>
      exists c, d :: c != Unknown && d != Unknown && c != d && Count(t, c) == Count(t, d) == MaxCount(t)
    ensures t == Counts(0, 0, 0) ==> Verdict(t) == Unknown
  {
    if Verdict(t) == Unknown {
      var m := MaxCount(t);
      if t.purple == m && t.red == m {
        assert Count(t, Purple) == Count(t, Red) == m;
      } else if t.purple == m && t.white == m {
        assert Count(t, Purple) == Count(t, White) == m;
      } else {
        assert Count(t, Red) == Count(t, White) == m;
      }
    }
  }

  /** `classifySeeds`: the loop over the contours, counting the labels of the
      eligible seeds, then the verdict. */
  method ClassifySeeds(cs: seq<Candidate>, scale: Option<real>, median: seq<real> -> real,
                       purple: Triple -> real, red: Triple -> real, white: Triple -> real)
    returns (verdict: SeedColor)
    ensures verdict == Verdict(Tally(cs, scale, median, purple, red, white))
  {
    var purpleCount, redCount, whiteCount := 0, 0, 0;
    for k := 0 to |cs|
      invariant Tally(cs[..k], scale, median, purple, red, white) == Counts(purpleCount, redCount, whiteCount)
    {
      assert cs[..k + 1][..k] == cs[..k];
      var c := cs[k];
      if scale.Some? && InAreaWindow(scale.value, c.contour) {
        if c.pixels != [] {
          var f := Feature(c.pixels, median);
          var prediction := Label(Scores(purple(f), red(f), white(f)));
          match prediction
          case Purple => purpleCount := purpleCount + 1;
          case Red => redCount := redCount + 1;
          case White => whiteCount := whiteCount + 1;
          case Unknown =>
        }
      }
    }
    assert cs[..|cs|] == cs;
    if purpleCount > redCount && purpleCount > whiteCount {
      return Purple;
    } else if redCount > purpleCount && redCount > whiteCount {
      return Red;
    } else if whiteCount > purpleCount && whiteCount > redCount {
      return White;
    }
    return Unknown;
  }

  /** Seeds that are not classified do not move the vote: dropping the
      ineligible candidates leaves the verdict as it was. */
  lemma {:induction false} IneligibleIgnored(cs: seq<Candidate>, scale: Option<real>, median: seq<real> -> real,
                                             purple: Triple -> real, red: Triple -> real, white: Triple -> real)
    ensures var kept := Kept(cs, scale);
      Tally(kept, scale, median, purple, red, white) == Tally(cs, scale, median, purple, red, white) &&
      forall i :: 0 <= i < |kept| ==> Eligible(scale, kept[i])
  {
    if |cs| > 0 {
      IneligibleIgnored(cs[..|cs| - 1], scale, median, purple, red, white);
      var kept := Kept(cs[..|cs| - 1], scale);
      var c := cs[|cs| - 1];
      if Eligible(scale, c) {
        assert (kept + [c])[..|kept|] == kept;
      }
    }
  }

  /** The eligible candidates, in order. */
  function Kept(cs: seq<Candidate>, scale: Option<real>): (kept: seq<Candidate>)
    ensures |kept| <= |cs|
  {
    if |cs| == 0 then []
    else
      var rest := Kept(cs[..|cs| - 1], scale);
      if Eligible(scale, cs[|cs| - 1]) then rest + [cs[|cs| - 1]] else rest
  }

  /** Without a finite scale no seed is classified and the verdict is Unknown. */
  lemma {:induction false} NoScaleNoVerdict(cs: seq<Candidate>, median: seq<real> -> real,
                                            purple: Triple -> real, red: Triple -> real, white: Triple -> real)
    ensures Tally(cs, None, median, purple, red, white) == Counts(0, 0, 0)
    ensures Verdict(Tally(cs, None, median, purple, red, white)) == Unknown
  {
    if |cs| > 0 {
      NoScaleNoVerdict(cs[..|cs| - 1], median, purple, red, white);
    }
  }
}
