/** The command-line parser of the standalone tracker program: `argParse`
    walks `argv` from index 1, consuming one option and its values per step
    and writing the matching field of the parameter record. */
module TrackArgs {
  import opened Common

  /** Return codes of `argParse`. */
  const EOK := 0
  const HELP := 1
  const EBAD_ARGC := 2
  const EBAD_NUMBER := 3

  /** Evaluation types selected by `-et`. */
  const DEFAULT := 0
  const GRAY_HIST := 1
  const RGB_HIST := 2
  const HYBRID := 3

  datatype Size = Size(width: int, height: int)

  /** The `inputParams` record.  `vidFile` is a C string pointer that starts
      out NULL. */
  datatype Params = Params(
    vidFile: Option<string>,
    p: int, sx: int, sy: int, sw: int, sh: int, sr: int,
    resize: Size,
    evalType: int, m: int, n: int,
    dt: bool, dap: bool, dpm: bool, dpe: bool, tl: bool, te: bool,
    testStep: int, pDyn: int, overlapTresh: int)

  /** The values `main` fills in before parsing. */
  const Defaults := Params(None, 300, 5, 5, 0, 0, 0, Size(24, 24), 0, 1, 1,
                           false, false, false, false, false, false, 0, 100, 2400)

  /** The C library's number conversions, as seen by the `int` fields they
      are stored into: `atoi`, and `atof` followed by the conversion of the
      double to `int`. */
  datatype Conversions = Conversions(atoi: string -> int, atof: string -> int)

  /** The options that take one number, by the field they write. */
  datatype NumberOption =
    Particles | NoiseX | NoiseY | NoiseWidth | NoiseHeight | NoiseRotation
    | OverlapThreshold | TestStep

  /** The options that only raise a flag. */
  datatype FlagOption = DrawTrajectory | DrawAllParticles | DynamicMotion | TestExecute

  /** What a token at an option position is. */
  datatype Kind =
    | Help | EvalType | Resize
    | Number(option: NumberOption)
    | Flag(flag: FlagOption)
    | File

  /** The `strcmp` chain of the loop body, read as a classification. */
  function KindOf(token: string): Kind {
    if token == "-h" then Help
    else if token == "-et" then EvalType
    else if token == "-rs" then Resize
    else if token == "-p" then Number(Particles)
    else if token == "-sx" then Number(NoiseX)
    else if token == "-sy" then Number(NoiseY)
    else if token == "-sw" then Number(NoiseWidth)
    else if token == "-sh" then Number(NoiseHeight)
    else if token == "-sr" then Number(NoiseRotation)
    else if token == "-dt" then Flag(DrawTrajectory)
    else if token == "-dap" then Flag(DrawAllParticles)
    else if token == "-dpm" then Flag(DynamicMotion)
    else if token == "-dpe" then Number(OverlapThreshold)
    else if token == "-tl" then Number(TestStep)
    else if token == "-te" then Flag(TestExecute)
    else File
  }

  /** One pass of the loop body: either the index of the next token to read,
      or a return code.  Fields written before an error return stay
      written, as in the program. */
  datatype Step = Next(at: nat, params: Params) | Stop(code: int, params: Params)

  /** What the loop body does with the token at `argv[i]`. */
  function StepAt(argv: seq<string>, i: nat, q: Params, conv: Conversions): (r: Step)
    requires i < |argv|
    ensures r.Next? ==> i < r.at <= |argv|
    ensures r.Stop? ==> r.code in {HELP, EBAD_ARGC, EBAD_NUMBER}
  {
    StepOf(KindOf(argv[i]), argv, i, q, conv)
  }

  /** The loop body for a token of the given kind; anything that is not an
      option becomes the video file name. */
  function StepOf(kind: Kind, argv: seq<string>, i: nat, q: Params, conv: Conversions): (r: Step)
    requires i < |argv|
    ensures r.Next? ==> i < r.at <= |argv|
    ensures r.Stop? ==> r.code in {HELP, EBAD_ARGC, EBAD_NUMBER}
  {
    match kind
    case Help => Stop(HELP, q)
    case EvalType => EvalTypeStep(argv, i, q, conv)
    case Resize => ResizeStep(argv, i, q, conv)
    case Number(o) => ValueStep(argv, i, q, conv, o)
    case Flag(f) => Next(i + 1, WithFlag(q, f))
    case File => Next(i + 1, q.(vidFile := Some(argv[i])))
  }

  /** The evaluation type `-et WORD` selects for a word other than hyb: def,
      gray and rgb name one, any other word keeps the current one. */
  function NamedEvalType(word: string, current: int): int {
    if word == "def" then DEFAULT
    else if word == "gray" then GRAY_HIST
    else if word == "rgb" then RGB_HIST
    else current
  }

  /** `-et WORD`, and `-et hyb M N`. */
  function EvalTypeStep(argv: seq<string>, i: nat, q: Params, conv: Conversions): (r: Step)
    requires i < |argv|
    ensures r.Next? ==> i < r.at <= |argv|
    ensures r.Stop? ==> r.code in {EBAD_ARGC, EBAD_NUMBER}
  {
    if |argv| <= i + 1 then Stop(EBAD_ARGC, q)
    else if argv[i + 1] == "hyb" then
      var h := q.(evalType := HYBRID);
      if |argv| <= i + 3 then Stop(EBAD_ARGC, h)
      else
        var h' := h.(m := conv.atof(argv[i + 2]), n := conv.atof(argv[i + 3]));
        if h'.m < 1 || h'.n < 1 then Stop(EBAD_NUMBER, h') else Next(i + 4, h')
    else Next(i + 2, q.(evalType := NamedEvalType(argv[i + 1], q.evalType)))
  }

  /** `-rs WIDTH HEIGHT`: the size is stored only when both are positive. */
  function ResizeStep(argv: seq<string>, i: nat, q: Params, conv: Conversions): (r: Step)
    requires i < |argv|
    ensures r.Next? ==> i < r.at <= |argv|
    ensures r.Stop? ==> r.code in {EBAD_ARGC, EBAD_NUMBER}
  {
    if |argv| <= i + 2 then Stop(EBAD_ARGC, q)
    else
      var width := conv.atoi(argv[i + 1]);
      var height := conv.atoi(argv[i + 2]);
      if width < 1 || height < 1 then Stop(EBAD_NUMBER, q)
      else Next(i + 3, q.(resize := Size(width, height)))
  }

  /** The smallest value a one-number option accepts. */
  function Lowest(o: NumberOption): int {
    if o == Particles || o == TestStep then 1 else 0
  }

  /** The field a one-number option writes. */
  function WithValue(q: Params, o: NumberOption, v: int): Params {
    match o
    case Particles => q.(p := v)
    case NoiseX => q.(sx := v)
    case NoiseY => q.(sy := v)
    case NoiseWidth => q.(sw := v)
    case NoiseHeight => q.(sh := v)
    case NoiseRotation => q.(sr := v)
    case OverlapThreshold => q.(overlapTresh := v)
    case TestStep => q.(testStep := v)
  }

  /** `-dpe` and `-tl` raise their flag before looking for the value. */
  function Announced(q: Params, o: NumberOption): Params {
    if o == OverlapThreshold then q.(dpe := true)
    else if o == TestStep then q.(tl := true)
    else q
  }

  function WithFlag(q: Params, f: FlagOption): Params {
    match f
    case DrawTrajectory => q.(dt := true)
    case DrawAllParticles => q.(dap := true)
    case DynamicMotion => q.(dpm := true)
    case TestExecute => q.(te := true)
  }

  /** A one-number option: the value is stored before it is checked; `-p`
      reads it with `atoi`, the others with `atof`. */
  function ValueStep(argv: seq<string>, i: nat, q: Params, conv: Conversions, o: NumberOption): (r: Step)
    requires i < |argv|
    ensures r.Next? ==> r.at == i + 2 <= |argv|
    ensures r.Stop? ==> r.code in {EBAD_ARGC, EBAD_NUMBER}
  {
    var q0 := Announced(q, o);
    if |argv| <= i + 1 then Stop(EBAD_ARGC, q0)
    else
      var v := if o == Particles then conv.atoi(argv[i + 1]) else conv.atof(argv[i + 1]);
      var q' := WithValue(q0, o, v);
      if v < Lowest(o) then Stop(EBAD_NUMBER, q') else Next(i + 2, q')
  }

  datatype Parsed = Parsed(code: int, params: Params)

  /** `argParse` from index `i` on: steps until a return or until the
      tokens run out, which is EOK. */
  function Parse(argv: seq<string>, i: nat, q: Params, conv: Conversions): (r: Parsed)
    decreases |argv| - i
    ensures r.code in {EOK, HELP, EBAD_ARGC, EBAD_NUMBER}
    ensures |argv| <= i ==> r == Parsed(EOK, q)
  {
    if |argv| <= i then Parsed(EOK, q)
    else match StepAt(argv, i, q, conv)
      case Next(j, q') => Parse(argv, j, q', conv)
      case Stop(c, q') => Parsed(c, q')
  }

  /** The loop of `argParse` over `argv[1..]`, writing into a copy of the
      caller's record. */
  method ArgParse(argv: seq<string>, params: Params, conv: Conversions) returns (code: int, out: Params)
    ensures Parsed(code, out) == Parse(argv, 1, params, conv)
    ensures 1 < |argv| && argv[1] == "-h" ==> code == HELP && out == params
  {
    out := params;
    var i: nat := 1;
    while i < |argv|
      invariant Parse(argv, i, out, conv) == Parse(argv, 1, params, conv)
      decreases |argv| - i
    {
      var token := argv[i];
      ghost var at := i;
      ghost var before := out;
      assert Parse(argv, at, before, conv) == match StepAt(argv, at, before, conv)
        case Next(j, q') => Parse(argv, j, q', conv)
        case Stop(c, q') => Parsed(c, q');
      match KindOf(token) {
        case Help =>
          return HELP, out;
        case EvalType =>
          code, out, i := EvalTypeOption(argv, i, out, conv);
        case Resize =>
          if |argv| <= i + 2 {
            return EBAD_ARGC, out;
          }
          var width := conv.atoi(argv[i + 1]);
          var height := conv.atoi(argv[i + 2]);
          if width < 1 || height < 1 {
            return EBAD_NUMBER, out;
          }
          out := out.(resize := Size(width, height));
          i := i + 3;
          code := EOK;
        case Number(o) =>
          code, out, i := ValueOption(argv, i, out, conv, o);
        case Flag(f) =>
          match f {
            case DrawTrajectory => out := out.(dt := true);
            case DrawAllParticles => out := out.(dap := true);
            case DynamicMotion => out := out.(dpm := true);
            case TestExecute => out := out.(te := true);
          }
          i := i + 1;
          code := EOK;
        case File =>
          out := out.(vidFile := Some(token));
          i := i + 1;
          code := EOK;
      }
      if code != EOK {
        return;
      }
    }
    return EOK, out;
  }

  /** The `-et` branch; on EOK, `next` is the index after its values. */
  method EvalTypeOption(argv: seq<string>, i: nat, q: Params, conv: Conversions)
    returns (code: int, out: Params, next: nat)
    requires i < |argv| && argv[i] == "-et"
    ensures code == EOK ==> StepAt(argv, i, q, conv) == Next(next, out)
    ensures code != EOK ==> StepAt(argv, i, q, conv) == Stop(code, out)
  {
    next := i + 1;
    out := q;
    if |argv| <= next {
      return EBAD_ARGC, out, next;
    }
    var word := argv[next];
    if word == "def" {
      out := out.(evalType := DEFAULT);
    } else if word == "gray" {
      out := out.(evalType := GRAY_HIST);
    } else if word == "rgb" {
      out := out.(evalType := RGB_HIST);
    } else if word == "hyb" {
      out := out.(evalType := HYBRID);
      if |argv| <= next + 2 {
        return EBAD_ARGC, out, next;
      }
      next := next + 1;
      out := out.(m := conv.atof(argv[next]));
      next := next + 1;
      out := out.(n := conv.atof(argv[next]));
      if out.m < 1 || out.n < 1 {
        return EBAD_NUMBER, out, next;
      }
    }
    return EOK, out, next + 1;
  }

  /** The branches of the options that take one number: `-p`, the five
      noise options, `-dpe` and `-tl`. */
  method ValueOption(argv: seq<string>, i: nat, q: Params, conv: Conversions, o: NumberOption)
    returns (code: int, out: Params, next: nat)
    requires i < |argv|
    ensures code == EOK ==> ValueStep(argv, i, q, conv, o) == Next(next, out)
    ensures code != EOK ==> ValueStep(argv, i, q, conv, o) == Stop(code, out)
  {
    out := q;
    if o == OverlapThreshold {
      out := out.(dpe := true);
    } else if o == TestStep {
      out := out.(tl := true);
    }
    if |argv| <= i + 1 {
      return EBAD_ARGC, out, i;
    }
    var v: int;
    if o == Particles {
      v := conv.atoi(argv[i + 1]);
    } else {
      v := conv.atof(argv[i + 1]);
    }
    match o {
      case Particles => out := out.(p := v);
      case NoiseX => out := out.(sx := v);
      case NoiseY => out := out.(sy := v);
      case NoiseWidth => out := out.(sw := v);
      case NoiseHeight => out := out.(sh := v);
      case NoiseRotation => out := out.(sr := v);
      case OverlapThreshold => out := out.(overlapTresh := v);
      case TestStep => out := out.(testStep := v);
    }
    if v < Lowest(o) {
      return EBAD_NUMBER, out, i;
    }
    return EOK, out, i + 2;
  }

  /** The ranges every accepted value lies in. */
  predicate InRange(q: Params) {
    q.p >= 1 && q.sx >= 0 && q.sy >= 0 && q.sw >= 0 && q.sh >= 0 && q.sr >= 0
    && q.resize.width >= 1 && q.resize.height >= 1
    && DEFAULT <= q.evalType <= HYBRID && q.m >= 1 && q.n >= 1
    && q.overlapTresh >= 0 && (q.tl ==> q.testStep >= 1)
  }

  lemma DefaultsInRange()
    ensures InRange(Defaults)
  {
  }

  /** A one-number option that goes on has accepted the value it stored. */
  lemma ValueStepKeepsInRange(argv: seq<string>, i: nat, q: Params, conv: Conversions, o: NumberOption)
    requires i < |argv| && InRange(q)
    requires ValueStep(argv, i, q, conv, o).Next?
    ensures InRange(ValueStep(argv, i, q, conv, o).params)
  {
    var v := if o == Particles then conv.atoi(argv[i + 1]) else conv.atof(argv[i + 1]);
    assert ValueStep(argv, i, q, conv, o) == Next(i + 2, WithValue(Announced(q, o), o, v));
  }

  /** Raising a flag moves no value out of its range. */
  lemma FlagKeepsInRange(q: Params, f: FlagOption)
    requires InRange(q)
    ensures InRange(WithFlag(q, f))
  {
  }

  /** A step that goes on has accepted whatever value it stored. */
  lemma StepKeepsInRange(kind: Kind, argv: seq<string>, i: nat, q: Params, conv: Conversions)
    requires i < |argv| && InRange(q)
    requires StepOf(kind, argv, i, q, conv).Next?
    ensures InRange(StepOf(kind, argv, i, q, conv).params)
  {
    match kind
    case Number(o) =>
      ValueStepKeepsInRange(argv, i, q, conv, o);
    case Flag(f) =>
      FlagKeepsInRange(q, f);
    case _ =>
  }

  /** A parse that ends in EOK leaves every field in its range: each value
      option rejects what lies outside it before the loop goes on. */
  lemma {:induction false} AcceptedParamsInRange(argv: seq<string>, i: nat, q: Params, conv: Conversions)
    requires InRange(q)
    requires Parse(argv, i, q, conv).code == EOK
    ensures InRange(Parse(argv, i, q, conv).params)
    decreases |argv| - i
  {
    if i < |argv| {
      match StepAt(argv, i, q, conv)
      case Next(j, q') =>
        StepKeepsInRange(KindOf(argv[i]), argv, i, q, conv);
        AcceptedParamsInRange(argv, j, q', conv);
      case Stop(_, _) =>
    }
  }

  /** The `-et` word: def, gray, rgb and hyb select 0 to 3; any other word
      is consumed and leaves the type as it was. */
  lemma EvalTypeWord(argv: seq<string>, i: nat, q: Params, conv: Conversions)
    requires i + 1 < |argv| && argv[i] == "-et"
    ensures var r := StepAt(argv, i, q, conv);
      var word := argv[i + 1];
      && (word == "def" ==> r == Next(i + 2, q.(evalType := 0)))
      && (word == "gray" ==> r == Next(i + 2, q.(evalType := 1)))
      && (word == "rgb" ==> r == Next(i + 2, q.(evalType := 2)))
      && (word == "hyb" ==> r.params.evalType == 3)
      && (word !in ["def", "gray", "rgb", "hyb"] ==> r == Next(i + 2, q))
  {
  }

  /** `-h` ends the parse with HELP wherever it is read as an option, and
      leaves the record as it was at that point. */
  lemma HelpStops(argv: seq<string>, i: nat, q: Params, conv: Conversions)
    requires i < |argv| && KindOf(argv[i]) == Help
    ensures Parse(argv, i, q, conv) == Parsed(HELP, q)
  {
  }

  /** An option whose value tokens run past the end of `argv` ends the parse
      with EBAD_ARGC: one value for the one-number options and for `-et`,
      two for `-rs` and for the two numbers after `-et hyb`. */
  lemma MissingValueIsArgcError(argv: seq<string>, i: nat, q: Params, conv: Conversions)
    requires i < |argv|
    requires || ((KindOf(argv[i]).Number? || KindOf(argv[i]) == EvalType) && |argv| <= i + 1)
             || (KindOf(argv[i]) == Resize && |argv| <= i + 2)
             || (KindOf(argv[i]) == EvalType && i + 1 < |argv| && argv[i + 1] == "hyb" && |argv| <= i + 3)
    ensures Parse(argv, i, q, conv).code == EBAD_ARGC
  {
  }

  /** A value below its option's lower bound ends the parse with
      EBAD_NUMBER: a particle count or test step below 1, a negative noise
      or overlap threshold, a resize dimension below 1, or an `-et hyb`
      grid dimension below 1. */
  lemma RejectedValueIsNumberError(argv: seq<string>, i: nat, q: Params, conv: Conversions)
    requires i < |argv|
    requires || (KindOf(argv[i]).Number? && i + 1 < |argv|
                 && (if KindOf(argv[i]).option == Particles then conv.atoi(argv[i + 1])
                     else conv.atof(argv[i + 1])) < Lowest(KindOf(argv[i]).option))
             || (KindOf(argv[i]) == Resize && i + 2 < |argv|
                 && (conv.atoi(argv[i + 1]) < 1 || conv.atoi(argv[i + 2]) < 1))
             || (KindOf(argv[i]) == EvalType && i + 3 < |argv| && argv[i + 1] == "hyb"
                 && (conv.atof(argv[i + 2]) < 1 || conv.atof(argv[i + 3]) < 1))
    ensures Parse(argv, i, q, conv).code == EBAD_NUMBER
  {
  }

  /** Appending tokens after a step that stayed inside `argv` does not
      change that step. */
  lemma StepIgnoresLaterTokens(argv: seq<string>, more: seq<string>, i: nat, q: Params, conv: Conversions)
    requires i < |argv|
    requires StepAt(argv, i, q, conv).Next?
    ensures StepAt(argv + more, i, q, conv) == StepAt(argv, i, q, conv)
  {
    var all := argv + more;
    assert all[i] == argv[i];
    if i + 1 < |argv| {
      assert all[i + 1] == argv[i + 1];
    }
    if i + 2 < |argv| {
      assert all[i + 2] == argv[i + 2];
    }
    if i + 3 < |argv| {
      assert all[i + 3] == argv[i + 3];
    }
  }

  /** The last file name wins: a token that is not an option, added after
      a command line that parses cleanly, replaces `vidFile` and changes
      nothing else. */
  lemma {:induction false} TrailingFileWins(argv: seq<string>, file: string, i: nat, q: Params, conv: Conversions)
    requires KindOf(file) == File
    requires i <= |argv|
    requires Parse(argv, i, q, conv).code == EOK
    ensures Parse(argv + [file], i, q, conv)
         == Parsed(EOK, Parse(argv, i, q, conv).params.(vidFile := Some(file)))
    decreases |argv| - i
  {
    var all := argv + [file];
    if i == |argv| {
      assert all[i] == file;
      assert StepAt(all, i, q, conv) == Next(i + 1, q.(vidFile := Some(file)));
    } else {
      match StepAt(argv, i, q, conv)
      case Next(j, q') =>
        StepIgnoresLaterTokens(argv, [file], i, q, conv);
        TrailingFileWins(argv, file, j, q', conv);
      case Stop(_, _) =>
    }
  }
}

/** The dynamic-parameter bookkeeping of the standalone tracker: a ring of
    the last `DYN_PT_LEN` best positions, kept newest first, and the motion
    noise derived from the best particle's displacement between frames. */
module DynamicParams {
  import opened TrackArgs

  const DYN_PT_LEN := 10
  const NUM_PARTICLES_MIN := 100
  const NUM_PARTICLES_MAX := 600
  const NOISE_MAX := 20

  /** A `CvPoint`. */
  datatype Point = Point(x: int, y: int)

  /** A `CvParticleState`; its coordinates are doubles in the program and
      are taken here as the integers a `CvPoint` receives from them. */
  datatype ParticleState = ParticleState(x: int, y: int, width: int, height: int, angle: int)

  function Centre(s: ParticleState): Point {
    Point(s.x, s.y)
  }

  /** The points after one update: `newest` in front, the rest moved one
      slot back, the oldest dropped. */
  function Shifted(points: seq<Point>, newest: Point): (r: seq<Point>)
    requires |points| > 0
    ensures |r| == |points|
    ensures r[0] == newest
    ensures forall k :: 1 <= k < |r| ==> r[k] == points[k - 1]
  {
    [newest] + points[..|points| - 1]
  }

  /** The points after updating with each of `updates` in turn. */
  function Updated(points: seq<Point>, updates: seq<Point>): (r: seq<Point>)
    requires |points| > 0
    ensures |r| == |points|
    decreases |updates|
  {
    if updates == [] then points
    else Shifted(Updated(points, updates[..|updates| - 1]), updates[|updates| - 1])
  }

  /** After a run of updates, slot `k` holds the `k`-th most recent update,
      and once the updates are used up, the older contents in their old
      order. */
  lemma {:induction false} UpdatedHistory(points: seq<Point>, updates: seq<Point>, k: nat)
    requires |points| > 0 && k < |points|
    ensures k < |updates| ==> Updated(points, updates)[k] == updates[|updates| - 1 - k]
    ensures |updates| <= k ==> Updated(points, updates)[k] == points[k - |updates|]
    decreases |updates|
  {
    if updates != [] {
      var earlier := updates[..|updates| - 1];
      if k > 0 {
        UpdatedHistory(points, earlier, k - 1);
      }
    }
  }

  /** Once at least `DYN_PT_LEN` updates have followed, slot 4 and the last
      slot, which the overlap handling subtracts, are the fifth and the
      tenth most recent best positions. */
  lemma OverlapPointsAreRecent(points: seq<Point>, updates: seq<Point>)
    requires |points| == DYN_PT_LEN && |updates| >= DYN_PT_LEN
    ensures Updated(points, updates)[4] == updates[|updates| - 5]
    ensures Updated(points, updates)[DYN_PT_LEN - 1] == updates[|updates| - DYN_PT_LEN]
  {
    UpdatedHistory(points, updates, 4);
    UpdatedHistory(points, updates, DYN_PT_LEN - 1);
  }

  /** `initDynPts`: every slot gets the best particle's centre, and that
      particle becomes the last good one. */
  method InitDynPts(dynPt: array<Point>, best: ParticleState) returns (lastGood: ParticleState)
    requires dynPt.Length == DYN_PT_LEN
    modifies dynPt
    ensures forall k :: 0 <= k < dynPt.Length ==> dynPt[k] == Centre(best)
    ensures lastGood == best
  {
    for i := 0 to DYN_PT_LEN
      invariant forall k :: 0 <= k < i ==> dynPt[k] == Centre(best)
    {
      dynPt[i] := Centre(best);
    }
    lastGood := best;
  }

  /** `updateDynPts`: shift toward the end, from the last slot down, then
      store the new centre in slot 0. */
  method UpdateDynPts(dynPt: array<Point>, best: ParticleState) returns (lastGood: ParticleState)
    requires dynPt.Length == DYN_PT_LEN
    modifies dynPt
    ensures dynPt[..] == Shifted(old(dynPt[..]), Centre(best))
    ensures lastGood == best
  {
    var i := DYN_PT_LEN - 1;
    while i > 0
      invariant 0 <= i <= DYN_PT_LEN - 1
      invariant forall k :: 0 <= k <= i ==> dynPt[k] == old(dynPt[k])
      invariant forall k :: i < k < DYN_PT_LEN ==> dynPt[k] == old(dynPt[k - 1])
    {
      dynPt[i] := dynPt[i - 1];
      i := i - 1;
    }
    dynPt[0] := Centre(best);
    lastGood := best;
  }

  function Abs(v: int): (r: nat)
    ensures r == v || r == -v
  {
    if v < 0 then -v else v
  }

  /** The particle count for a displacement: the noise interval 0 to
      `NOISE_MAX` maps linearly onto `NUM_PARTICLES_MIN` to
      `NUM_PARTICLES_MAX` (25 per unit of the halved sum), capped at the
      maximum. */
  function ParticleCount(dx: nat, dy: nat): (n: int)
    ensures NUM_PARTICLES_MIN <= n <= NUM_PARTICLES_MAX
  {
    var scaled := NUM_PARTICLES_MIN
      + (NUM_PARTICLES_MAX - NUM_PARTICLES_MIN) / NOISE_MAX * ((dx + dy) / 2);
    if scaled > NUM_PARTICLES_MAX then NUM_PARTICLES_MAX else scaled
  }

  /** More movement never asks for fewer particles; no movement asks for
      the minimum, and a summed displacement of 40 or more for the maximum. */
  lemma ParticleCountMonotone(dx: nat, dy: nat, dx': nat, dy': nat)
    requires dx + dy <= dx' + dy'
    ensures ParticleCount(dx, dy) <= ParticleCount(dx', dy')
    ensures ParticleCount(0, 0) == NUM_PARTICLES_MIN
    ensures dx + dy >= 2 * NOISE_MAX ==> ParticleCount(dx, dy) == NUM_PARTICLES_MAX
  {
  }

  /** `dynamicParamMotion` with its function-static `xOld`/`yOld` made
      explicit: the statics are initialised from the best particle of the
      first call, so that call sees no displacement. */
  class MotionMemory {
    var started: bool
    var xOld: int
    var yOld: int

    constructor ()
      ensures !started
    {
      started := false;
      xOld := 0;
      yOld := 0;
    }

    /** One call with the best particle at (`xNew`, `yNew`): the noise is the
        displacement plus 5 on each axis, the particle count follows the
        summed displacement, and the position is remembered. */
    method DynamicParamMotion(params: Params, xNew: int, yNew: int) returns (out: Params)
      modifies this
      ensures var x0 := if old(started) then old(xOld) else xNew;
        var y0 := if old(started) then old(yOld) else yNew;
        out == params.(sx := Abs(x0 - xNew) + 5, sy := Abs(y0 - yNew) + 5,
                       pDyn := ParticleCount(Abs(x0 - xNew), Abs(y0 - yNew)))
      ensures !old(started) ==> out.sx == 5 && out.sy == 5 && out.pDyn == NUM_PARTICLES_MIN
      ensures started && xOld == xNew && yOld == yNew
    {
      if !started {
        started := true;
        xOld := xNew;
        yOld := yNew;
      }
      var dx := Abs(xOld - xNew);
      var dy := Abs(yOld - yNew);
      out := params.(sx := dx + 5, sy := dy + 5, pDyn := ParticleCount(dx, dy));
      xOld := xNew;
      yOld := yNew;
    }
  }
}
