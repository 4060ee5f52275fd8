/**
 * What the image job draws, face by face, and the text report it assembles.
 * Pixels are not modelled: each face yields an ordered display list of drawing
 * operations, applied in order to a copy of the decoded image.
 */
module Annotation {
  import opened Text
  import opened Commands

  /** An RGBA colour, one byte per channel. */
  datatype Color = Color(r: int, g: int, b: int, a: int)

  const Yellow: Color := Color(255, 255, 0, 255)
  const Cyan: Color := Color(0, 255, 255, 255)
  const Purple: Color := Color(255, 0, 255, 255)
  const Green: Color := Color(0, 255, 0, 255)
  const Blue: Color := Color(0, 0, 255, 255)
  const Red: Color := Color(255, 0, 0, 255)

  /** `colors`: the cycle faces are painted in. */
  const Colors: seq<Color> := [Yellow, Cyan, Purple, Green, Blue, Red]

  /** `maskColor`: opaque black. */
  const MaskColor: Color := Color(0, 0, 0, 255)

  const CircleRadius: int := 6

  /** `colorForIndex`: face `i` (0-based, input order) gets `colors[i mod 6]`. */
  function ColorForIndex(i: nat): (c: Color)
    ensures c in Colors
  {
    Colors[i % |Colors|]
  }

  /** The colours repeat with period six. */
  lemma ColorCycle(i: nat)
    ensures ColorForIndex(i + |Colors|) == ColorForIndex(i)
  {
  }

  /** Faces fewer than six places apart never share a colour. */
  lemma ColorsDistinctWithinCycle(i: nat, j: nat)
    requires i < j < i + |Colors|
    ensures ColorForIndex(i) != ColorForIndex(j)
  {
    assert i % 6 != j % 6;
    assert forall p, q :: 0 <= p < 6 && 0 <= q < 6 && p != q ==> Colors[p] != Colors[q];
  }

  /** A face rectangle from the detection service, in pixels. */
  datatype Rect = Rect(left: int, top: int, width: int, height: int)

  /** A landmark position (floating point in the service's answer). */
  datatype Point = Point(x: real, y: real)

  /** The `image.Rect(x0, y0, x1, y1)` a sub-image is cut from. */
  datatype Region = Region(x0: int, y0: int, x1: int, y1: int)

  /** The six eye landmarks from which the eye mask polygon is derived. */
  datatype EyePoints = EyePoints(lt: Point, lb: Point, lo: Point, rt: Point, rb: Point, ro: Point)

  /** One drawing operation on the canvas. */
  datatype DrawOp =
      /** MoveTo the first point, LineTo each next one, Close, FillStroke (the fill is transparent). */
    | Stroke(path: seq<Point>, color: Color)
      /** DrawString of `text` with its left edge at `x` (the baseline follows the font size). */
    | Label(text: string, x: int, color: Color)
      /** A full circle of `radius` around `center`, stroked. */
    | Dot(center: Point, radius: int, color: Color)
      /** The polygon `genMaskPoints(eyes)` filled with `color`. */
    | MaskEyes(eyes: EyePoints, color: Color)
      /** The sub-image `region` pixelated with `blockSize` and copied back with its corner at (atX, atY). */
    | Pixelate(region: Region, blockSize: int, atX: int, atY: int)

  /** The new image: a copy of the decoded one, of the same size, with each face's display list applied in order. */
  datatype Canvas = Canvas(width: int, height: int, layers: seq<seq<DrawOp>>)

  /** One face found by face detection; the attribute lines are already formatted, in the service's map order. */
  datatype Face = Face(
    rect: Rect,
    landmarks: map<string, Point>,
    facialHair: seq<string>,
    headPose: seq<string>,
    emotion: seq<string>)

  /** One face found by emotion recognition, with its formatted score lines. */
  datatype EmotionFace = EmotionFace(rect: Rect, scores: seq<string>)

  const MarkerKeys: seq<string> := ["noseTip", "pupilRight", "pupilLeft", "mouthRight", "mouthLeft"]
  const EyeKeys: seq<string> :=
    ["eyeLeftTop", "eyeLeftBottom", "eyeLeftOuter", "eyeRightTop", "eyeRightBottom", "eyeRightOuter"]

  /** Every key of `keys` is a landmark of `points`. */
  predicate AllKeys(keys: seq<string>, points: map<string, Point>) {
    forall k :: k in keys ==> k in points
  }

  /** `hasAllKeys`: looks the keys up in order and gives up at the first missing one. */
  method HasAllKeys(keys: seq<string>, points: map<string, Point>) returns (b: bool)
    ensures b <==> AllKeys(keys, points)
  {
    var i := 0;
    while i < |keys|
      invariant 0 <= i <= |keys|
      invariant forall j :: 0 <= j < i ==> keys[j] in points
    {
      if keys[i] !in points {
        return false;
      }
      i := i + 1;
    }
    return true;
  }

  /** Integer to floating point, as `float64(n)`. */
  function Corner(x: int, y: int): Point {
    Point(x as real, y as real)
  }

  /** The outline of a face: (L,T) → (L+W,T) → (L+W,T+H) → (L,T+H) → (L,T). */
  function BoxPath(r: Rect): (path: seq<Point>)
    ensures |path| == 5 && path[0] == path[4] == Corner(r.left, r.top)
    // Every corner of the rectangle is visited once, going right along the top edge first.
    ensures Corner(r.left, r.top) in path[..4] && Corner(r.left + r.width, r.top) in path[..4]
    ensures Corner(r.left + r.width, r.top + r.height) in path[..4] && Corner(r.left, r.top + r.height) in path[..4]
    ensures path[1].y == path[0].y && path[3].x == path[0].x
    ensures forall k :: 0 <= k < 4 ==> path[k].x == path[k + 1].x || path[k].y == path[k + 1].y
    ensures forall k :: 0 <= k < 5 ==>
      (path[k].x == r.left as real || path[k].x == (r.left + r.width) as real) &&
      (path[k].y == r.top as real || path[k].y == (r.top + r.height) as real)
    ensures path[2] == Corner(r.left + r.width, r.top + r.height)
  {
    var corners := [Corner(r.left, r.top), Corner(r.left + r.width, r.top), Corner(r.left + r.width, r.top + r.height),
      Corner(r.left, r.top + r.height)];
    assert (corners + [Corner(r.left, r.top)])[..4] == corners;
    assert corners[1] in corners && corners[2] in corners && corners[3] in corners;
    corners + [Corner(r.left, r.top)]
  }

  /** The label of face `i`: "Face #" and its 1-based number. */
  function FaceLabel(i: nat): (s: string)
    ensures |s| > 6 && s[..6] == "Face #"
    ensures AllDigits(s[6..]) && DecimalValue(s[6..]) == i + 1 && s[6] != '0'
  {
    var digits := NatToString(i + 1);
    assert ("Face #" + digits)[6..] == digits;
    "Face #" + digits
  }

  /** Different faces carry different labels. */
  lemma FaceLabelsDistinct(i: nat, j: nat)
    requires i != j
    ensures FaceLabel(i) != FaceLabel(j)
  {
  }

  /** Box and label of face `i`, both in the face's colour. */
  function BoxOps(i: nat, r: Rect): seq<DrawOp> {
    [Stroke(BoxPath(r), ColorForIndex(i)), Label(FaceLabel(i), r.left, ColorForIndex(i))]
  }

  /** Nose tip, right and left pupil as dots, then the mouth as a segment. */
  function MarkerOps(lm: map<string, Point>, c: Color): seq<DrawOp>
    requires AllKeys(MarkerKeys, lm)
  {
    assert "noseTip" in MarkerKeys && "pupilRight" in MarkerKeys && "pupilLeft" in MarkerKeys;
    assert "mouthRight" in MarkerKeys && "mouthLeft" in MarkerKeys;
    [Dot(lm["noseTip"], CircleRadius, c), Dot(lm["pupilRight"], CircleRadius, c),
     Dot(lm["pupilLeft"], CircleRadius, c), Stroke([lm["mouthRight"], lm["mouthLeft"]], c)]
  }

  function EyesOf(lm: map<string, Point>): EyePoints
    requires AllKeys(EyeKeys, lm)
  {
    assert EyeKeys[0] in EyeKeys && EyeKeys[1] in EyeKeys && EyeKeys[2] in EyeKeys;
    assert EyeKeys[3] in EyeKeys && EyeKeys[4] in EyeKeys && EyeKeys[5] in EyeKeys;
    EyePoints(lm["eyeLeftTop"], lm["eyeLeftBottom"], lm["eyeLeftOuter"],
              lm["eyeRightTop"], lm["eyeRightBottom"], lm["eyeRightOuter"])
  }

  /** Go's integer division, which truncates toward zero. */
  function GoQuo(a: int, b: int): (q: int)
    requires b > 0
    // The quotient rounds toward zero: the remainder takes the sign of the dividend and is smaller than the divisor.
    ensures a >= 0 ==> 0 <= a - q * b < b
    ensures a < 0 ==> -b < a - q * b <= 0
  {
    if a >= 0 then a / b else -((-a) / b)
  }

  /** The pixelation block size of a face: its width divided by eight, not clamped. */
  function BlockSize(r: Rect): (n: int)
    ensures r.width >= 0 ==> 0 <= n && n * 8 <= r.width < (n + 1) * 8
    ensures 0 <= r.width < 8 ==> n == 0
  {
    GoQuo(r.width, 8)
  }

  /** The region of a face: the sub-image bounded by its rectangle. */
  function FaceRegion(r: Rect): Region {
    Region(r.left, r.top, r.left + r.width, r.top + r.height)
  }

  /** The display list of face `i` under one of the three per-face commands. */
  function FaceOps(op: Op, i: nat, f: Face): (ops: seq<DrawOp>)
    requires op.PerFace()
    // Face Detection: box and label first, in the face's colour ...
    ensures op == FaceOp ==> |ops| >= 2 && ops[..2] == BoxOps(i, f.rect)
    // ... then the landmark markers, all of them or none.
    ensures op == FaceOp ==> (|ops| > 2 <==> AllKeys(MarkerKeys, f.landmarks))
    ensures op == FaceOp && |ops| > 2 ==> ops[2..] == MarkerOps(f.landmarks, ColorForIndex(i))
    ensures op == FaceOp ==> forall k :: 0 <= k < |ops| ==> !ops[k].MaskEyes? && !ops[k].Pixelate? && ops[k].color == ColorForIndex(i)
    // Eye censoring: one black mask exactly when all six eye points are present.
    ensures op == CensorEyesOp ==> (ops != [] <==> AllKeys(EyeKeys, f.landmarks))
    ensures op == CensorEyesOp && ops != [] ==> ops == [MaskEyes(EyesOf(f.landmarks), MaskColor)]
    // Face masking: the face rectangle, and only it, pixelated in place.
    ensures op == MaskFacesOp ==>
      ops == [Pixelate(FaceRegion(f.rect), BlockSize(f.rect), f.rect.left, f.rect.top)]
  {
    match op
    case FaceOp =>
      BoxOps(i, f.rect) + (if AllKeys(MarkerKeys, f.landmarks) then MarkerOps(f.landmarks, ColorForIndex(i)) else [])
    case CensorEyesOp =>
      if AllKeys(EyeKeys, f.landmarks) then [MaskEyes(EyesOf(f.landmarks), MaskColor)] else []
    case MaskFacesOp =>
      [Pixelate(FaceRegion(f.rect), BlockSize(f.rect), f.rect.left, f.rect.top)]
  }

  /** The display lists of all faces, in input order. */
  function FacePlans(op: Op, faces: seq<Face>): seq<seq<DrawOp>>
    requires op.PerFace()
  {
    seq(|faces|, i requires 0 <= i < |faces| => FaceOps(op, i, faces[i]))
  }

  /** Emotion recognition draws box and label only. */
  function EmotionPlans(faces: seq<EmotionFace>): seq<seq<DrawOp>> {
    seq(|faces|, i requires 0 <= i < |faces| => BoxOps(i, faces[i].rect))
  }

  /** The report section of face `i` under Face Detection. */
  function FaceSection(i: nat, f: Face): (s: string)
    ensures HasPrefix(s, "[" + FaceLabel(i) + "]\n")
  {
    var head := "[" + FaceLabel(i) + "]\n";
    var s := head + "> Facial Hair\n" + Join(f.facialHair, "\n")
      + "\n> Head Pose\n" + Join(f.headPose, "\n")
      + "\n> Emotion\n" + Join(f.emotion, "\n");
    assert s[..|head|] == head;
    s
  }

  /**
   * Face `i`'s section lists its attribute lines under their headings: the
   * facial-hair lines between "> Facial Hair" and "> Head Pose", the head-pose
   * lines between "> Head Pose" and "> Emotion", and the emotion lines last.
   */
  lemma FaceSectionLayout(i: nat, f: Face)
    ensures Contains(FaceSection(i, f), "> Facial Hair\n" + Join(f.facialHair, "\n") + "\n> Head Pose\n")
    ensures Contains(FaceSection(i, f), "\n> Head Pose\n" + Join(f.headPose, "\n") + "\n> Emotion\n")
    ensures var s := FaceSection(i, f); var tail := "\n> Emotion\n" + Join(f.emotion, "\n");
      |tail| <= |s| && s[|s| - |tail|..] == tail
  {
    SevenParts("[" + FaceLabel(i) + "]\n", "> Facial Hair\n", Join(f.facialHair, "\n"), "\n> Head Pose\n",
               Join(f.headPose, "\n"), "\n> Emotion\n", Join(f.emotion, "\n"));
  }

  /** Every facial-hair, head-pose and emotion line of a face appears in its section. */
  lemma FaceSectionLists(i: nat, f: Face)
    ensures forall k :: 0 <= k < |f.facialHair| ==> Contains(FaceSection(i, f), f.facialHair[k])
    ensures forall k :: 0 <= k < |f.headPose| ==> Contains(FaceSection(i, f), f.headPose[k])
    ensures forall k :: 0 <= k < |f.emotion| ==> Contains(FaceSection(i, f), f.emotion[k])
  {
    var s := FaceSection(i, f);
    SevenParts("[" + FaceLabel(i) + "]\n", "> Facial Hair\n", Join(f.facialHair, "\n"), "\n> Head Pose\n",
               Join(f.headPose, "\n"), "\n> Emotion\n", Join(f.emotion, "\n"));
    JoinedPiecesContained(s, "> Facial Hair\n", f.facialHair, "\n", "\n> Head Pose\n");
    JoinedPiecesContained(s, "\n> Head Pose\n", f.headPose, "\n", "\n> Emotion\n");
    JoinedPiecesContained(s, "\n> Emotion\n", f.emotion, "\n", "");
  }

  /** Every attribute line of every face appears in the Face Detection report. */
  lemma FaceReportLists(faces: seq<Face>, i: nat)
    requires i < |faces|
    ensures Contains(FaceReport(faces), FaceSection(i, faces[i]))
    ensures forall k :: 0 <= k < |faces[i].facialHair| ==> Contains(FaceReport(faces), faces[i].facialHair[k])
    ensures forall k :: 0 <= k < |faces[i].headPose| ==> Contains(FaceReport(faces), faces[i].headPose[k])
    ensures forall k :: 0 <= k < |faces[i].emotion| ==> Contains(FaceReport(faces), faces[i].emotion[k])
  {
    var r := FaceReport(faces);
    var sec := FaceSection(i, faces[i]);
    JoinContains(FaceSections(faces), "\n\n", i);
    assert FaceSections(faces)[i] == sec;
    FaceSectionLists(i, faces[i]);
    forall k | 0 <= k < |faces[i].facialHair| ensures Contains(r, faces[i].facialHair[k]) {
      ContainsTransitive(r, sec, faces[i].facialHair[k]);
    }
    forall k | 0 <= k < |faces[i].headPose| ensures Contains(r, faces[i].headPose[k]) {
      ContainsTransitive(r, sec, faces[i].headPose[k]);
    }
    forall k | 0 <= k < |faces[i].emotion| ensures Contains(r, faces[i].emotion[k]) {
      ContainsTransitive(r, sec, faces[i].emotion[k]);
    }
  }

  /** The report section of face `i` under Emotion Recognition: its score lines. */
  function EmotionSection(i: nat, e: EmotionFace): (s: string)
    ensures HasPrefix(s, "[" + FaceLabel(i) + "]\n")
  {
    var head := "[" + FaceLabel(i) + "]\n";
    var s := head + Join(e.scores, "\n");
    assert s[..|head|] == head;
    s
  }

  function FaceSections(faces: seq<Face>): seq<string> {
    seq(|faces|, i requires 0 <= i < |faces| => FaceSection(i, faces[i]))
  }

  function EmotionSections(faces: seq<EmotionFace>): seq<string> {
    seq(|faces|, i requires 0 <= i < |faces| => EmotionSection(i, faces[i]))
  }

  /** The Face Detection report: one section per face, in input order, separated by a blank line. */
  function FaceReport(faces: seq<Face>): (r: string)
    ensures r == "" <==> faces == []
    ensures |faces| > 0 ==> HasPrefix(r, FaceSection(0, faces[0]))
    ensures |faces| == 1 ==> r == FaceSection(0, faces[0])
  {
    var s := FaceSections(faces);
    assert |faces| > 0 ==> s[0] == FaceSection(0, faces[0]) && |s[0]| > 0;
    Join(s, "\n\n")
  }

  /** The Emotion Recognition report, built the same way. */
  function EmotionReport(faces: seq<EmotionFace>): (r: string)
    ensures r == "" <==> faces == []
    ensures |faces| > 0 ==> HasPrefix(r, EmotionSection(0, faces[0]))
    ensures |faces| == 1 ==> r == EmotionSection(0, faces[0])
  {
    var s := EmotionSections(faces);
    assert |faces| > 0 ==> s[0] == EmotionSection(0, faces[0]) && |s[0]| > 0;
    Join(s, "\n\n")
  }

  /** A report over at least one face opens with the first face's section heading, so it is never empty. */
  lemma ReportsOpenWithFirstFace(faces: seq<Face>, emotions: seq<EmotionFace>)
    ensures |faces| > 0 ==> HasPrefix(FaceReport(faces), "[Face #1]\n")
    ensures |emotions| > 0 ==> HasPrefix(EmotionReport(emotions), "[Face #1]\n")
  {
    assert NatToString(1) == "1";
    assert "[" + FaceLabel(0) + "]\n" == "[Face #1]\n";
    if |faces| > 0 {
      var s := FaceSections(faces);
      assert s[0] == FaceSection(0, faces[0]);
      PrefixTransitive(FaceReport(faces), s[0], "[Face #1]\n");
    }
    if |emotions| > 0 {
      var s := EmotionSections(emotions);
      assert s[0] == EmotionSection(0, emotions[0]);
      PrefixTransitive(EmotionReport(emotions), s[0], "[Face #1]\n");
    }
  }

  /** The section of face `i` and the label drawn on face `i` name the same face. */
  lemma SectionMatchesLabel(faces: seq<Face>, i: nat)
    requires i < |faces|
    ensures FacePlans(FaceOp, faces)[i][1] == Label(FaceLabel(i), faces[i].rect.left, ColorForIndex(i))
    ensures HasPrefix(FaceSections(faces)[i], "[" + FaceLabel(i) + "]\n")
  {
    assert FacePlans(FaceOp, faces)[i] == FaceOps(FaceOp, i, faces[i]);
  }

  /**
   * Two detected faces: two boxes labelled "Face #1" and "Face #2" in the first
   * two colours of the cycle, and a report with their two sections in that order.
   */
  lemma TwoFaces(f0: Face, f1: Face)
    ensures var plans := FacePlans(FaceOp, [f0, f1]);
      && |plans| == 2
      && plans[0][..2] == [Stroke(BoxPath(f0.rect), Yellow), Label("Face #1", f0.rect.left, Yellow)]
      && plans[1][..2] == [Stroke(BoxPath(f1.rect), Cyan), Label("Face #2", f1.rect.left, Cyan)]
      && FaceReport([f0, f1]) == FaceSection(0, f0) + "\n\n" + FaceSection(1, f1)
  {
    var plans := FacePlans(FaceOp, [f0, f1]);
    assert plans[0] == FaceOps(FaceOp, 0, f0) && plans[1] == FaceOps(FaceOp, 1, f1);
    assert NatToString(1) == "1" && NatToString(2) == "2";
    assert FaceLabel(0) == "Face #1" && FaceLabel(1) == "Face #2";
    assert ColorForIndex(0) == Yellow && ColorForIndex(1) == Cyan;
    var s := FaceSections([f0, f1]);
    assert s == [FaceSection(0, f0), FaceSection(1, f1)];
    assert s[1..] == [FaceSection(1, f1)];
  }

  /** A report grows face by face: each further face adds a blank line and its own section at the end. */
  lemma FaceReportSnoc(faces: seq<Face>, i: nat)
    requires 0 < i < |faces|
    ensures FaceReport(faces[..i + 1]) == FaceReport(faces[..i]) + "\n\n" + FaceSection(i, faces[i])
  {
    FaceSectionsSnoc(faces, i);
    JoinSnoc(FaceSections(faces[..i]), FaceSection(i, faces[i]), "\n\n");
  }

  lemma EmotionReportSnoc(faces: seq<EmotionFace>, i: nat)
    requires 0 < i < |faces|
    ensures EmotionReport(faces[..i + 1]) == EmotionReport(faces[..i]) + "\n\n" + EmotionSection(i, faces[i])
  {
    EmotionSectionsSnoc(faces, i);
    JoinSnoc(EmotionSections(faces[..i]), EmotionSection(i, faces[i]), "\n\n");
  }

  /** The body of the per-face loop: what one face gets drawn under `op`. */
  method DrawFace(op: Op, i: nat, f: Face) returns (ops: seq<DrawOp>)
    requires op.PerFace()
    ensures ops == FaceOps(op, i, f)
  {
    match op {
      case FaceOp =>
        var color := ColorForIndex(i);
        ops := [Stroke(BoxPath(f.rect), color), Label(FaceLabel(i), f.rect.left, color)];
        var marked := HasAllKeys(MarkerKeys, f.landmarks);
        if marked {
          ops := ops + MarkerOps(f.landmarks, color);
        }
      case CensorEyesOp =>
        ops := [];
        var masked := HasAllKeys(EyeKeys, f.landmarks);
        if masked {
          ops := [MaskEyes(EyesOf(f.landmarks), MaskColor)];
        }
      case MaskFacesOp =>
        var r := f.rect;
        ops := [Pixelate(Region(r.left, r.top, r.left + r.width, r.top + r.height), GoQuo(r.width, 8), r.left, r.top)];
    }
  }

  lemma FacePlansSnoc(op: Op, faces: seq<Face>, i: nat)
    requires op.PerFace() && i < |faces|
    ensures FacePlans(op, faces[..i + 1]) == FacePlans(op, faces[..i]) + [FaceOps(op, i, faces[i])]
  {
    var l := FacePlans(op, faces[..i + 1]);
    var r := FacePlans(op, faces[..i]) + [FaceOps(op, i, faces[i])];
    forall k | 0 <= k < i + 1 ensures l[k] == r[k] {
      if k < i {
        assert l[k] == FaceOps(op, k, faces[k]) == FacePlans(op, faces[..i])[k];
      }
    }
  }

  lemma FaceSectionsSnoc(faces: seq<Face>, i: nat)
    requires i < |faces|
    ensures FaceSections(faces[..i + 1]) == FaceSections(faces[..i]) + [FaceSection(i, faces[i])]
  {
  }

  /**
   * The per-face loop of the image job for the three face-detection commands:
   * each face, in input order, gets its drawing and, under Face Detection,
   * its report section.
   */
  method RenderFaces(op: Op, faces: seq<Face>) returns (layers: seq<seq<DrawOp>>, strs: seq<string>)
    requires op.PerFace()
    ensures layers == FacePlans(op, faces)
    ensures strs == if op == FaceOp then FaceSections(faces) else []
  {
    layers, strs := [], [];
    var i := 0;
    while i < |faces|
      invariant 0 <= i <= |faces|
      invariant layers == FacePlans(op, faces[..i])
      invariant strs == if op == FaceOp then FaceSections(faces[..i]) else []
    {
      var ops := DrawFace(op, i, faces[i]);
      FacePlansSnoc(op, faces, i);
      if op == FaceOp {
        FaceSectionsSnoc(faces, i);
        strs := strs + [FaceSection(i, faces[i])];
      }
      layers := layers + [ops];
      i := i + 1;
    }
    assert faces[..|faces|] == faces;
  }

  lemma EmotionPlansSnoc(faces: seq<EmotionFace>, i: nat)
    requires i < |faces|
    ensures EmotionPlans(faces[..i + 1]) == EmotionPlans(faces[..i]) + [BoxOps(i, faces[i].rect)]
  {
  }

  lemma EmotionSectionText(i: nat, e: EmotionFace)
    ensures EmotionSection(i, e) == "[Face #" + NatToString(i + 1) + "]\n" + Join(e.scores, "\n")
  {
  }

  lemma EmotionSectionsSnoc(faces: seq<EmotionFace>, i: nat)
    requires i < |faces|
    ensures EmotionSections(faces[..i + 1]) == EmotionSections(faces[..i]) + [EmotionSection(i, faces[i])]
  {
  }

  /**
   * The two loops of the Emotion Recognition branch: box and label per face
   * while collecting each face's score lines, then one section per face, joined.
   */
  method RenderEmotions(faces: seq<EmotionFace>) returns (layers: seq<seq<DrawOp>>, message: string)
    ensures layers == EmotionPlans(faces)
    ensures message == EmotionReport(faces)
  {
    layers := [];
    var emos: seq<string> := [];
    var i := 0;
    while i < |faces|
      invariant 0 <= i <= |faces|
      invariant layers == EmotionPlans(faces[..i])
      invariant |emos| == i && forall k :: 0 <= k < i ==> emos[k] == Join(faces[k].scores, "\n")
    {
      var e := faces[i];
      var color := ColorForIndex(i);
      EmotionPlansSnoc(faces, i);
      layers := layers + [[Stroke(BoxPath(e.rect), color), Label(FaceLabel(i), e.rect.left, color)]];
      emos := emos + [Join(e.scores, "\n")];
      i := i + 1;
    }
    var strs: seq<string> := [];
    var j := 0;
    while j < |emos|
      invariant 0 <= j <= |emos|
      invariant strs == EmotionSections(faces[..j])
    {
      EmotionSectionsSnoc(faces, j);
      EmotionSectionText(j, faces[j]);
      strs := strs + ["[Face #" + NatToString(j + 1) + "]\n" + emos[j]];
      j := j + 1;
    }
    assert faces[..|faces|] == faces;
    message := Join(strs, "\n\n");
  }
}
