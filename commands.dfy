/**
 * The bot's commands: their labels, the one-character short codes derived from
 * them at start-up, the lookup tables built from those codes, and the way the
 * image job tells commands apart.
 */
module Commands {

  // Command labels (a `CognitiveCommand` is its label).
  const Emotion: string := "Emotion Recognition"
  const Face: string := "Face Detection"
  const Describe: string := "Describe This Image"
  const Ocr: string := "OCR"
  const Handwritten: string := "Handwritten Text Recognition"
  const Tag: string := "Tag This Image"

  /** `allCmds`, in declaration order. */
  const AllCmds: seq<string> := [Emotion, Face, Describe, Ocr, Handwritten, Tag]

  // Fixed texts of the conversation.
  const MessageActionImage: string := "Choose action for this image:"
  const MessageUnprocessable: string := "Unprocessable message."
  const MessageFailedToGetFile: string := "Failed to get file from the server."
  const MessageCanceled: string := "Canceled."
  const MessageHelp: string :=
    "Send any image to this bot, and select one of the following actions:\n\n"
    + "- Emotion Recognition\n- Face Detection\n- Describe This Image\n- OCR\n"
    + "- Handwritten Text Recognition\n- Tag This Image\n\n"
    + "then it will send the result message or image back to you.\n"

  /** The callback data of the cancel button. */
  const CommandCancel: string := "cancel"

  /** Every label has a first letter (indexing an empty label would panic). */
  predicate Labelled(cmds: seq<string>) {
    forall i :: 0 <= i < |cmds| ==> |cmds[i]| > 0
  }

  /** The start-up invariant: no two commands share a first letter. */
  predicate DistinctCodes(cmds: seq<string>) {
    Labelled(cmds) && forall i, j :: 0 <= i < j < |cmds| ==> cmds[i][0] != cmds[j][0]
  }

  /** Every first letter is an upper-case ASCII letter. */
  predicate UpperCodes(cmds: seq<string>) {
    Labelled(cmds) && forall i :: 0 <= i < |cmds| ==> 'A' <= cmds[i][0] <= 'Z'
  }

  /** The short code of a command: its first letter, as a one-character string. */
  function Code(cmd: string): string
    requires |cmd| > 0
  {
    [cmd[0]]
  }

  /** `shortCmdsMap` after the start-up loop has visited `cmds`. */
  function ShortTable(cmds: seq<string>): (m: map<string, string>)
    requires Labelled(cmds)
    ensures m.Keys == set c | c in cmds
    ensures forall c :: c in m ==> |c| > 0 && m[c] == Code(c)
  {
    if cmds == [] then map[]
    else
      var last := cmds[|cmds| - 1];
      var m0 := ShortTable(cmds[..|cmds| - 1]);
      assert cmds == cmds[..|cmds| - 1] + [last];
      m0[last := Code(last)]
  }

  /** `cmdsMap` after the start-up loop has visited `cmds`: a later command overwrites an earlier one with the same code. */
  function CodeTable(cmds: seq<string>): (m: map<string, string>)
    requires Labelled(cmds)
    ensures m.Keys == set c | c in cmds && |c| > 0 :: Code(c)
    ensures forall k :: k in m ==> m[k] in cmds && |m[k]| > 0 && Code(m[k]) == k
  {
    if cmds == [] then map[]
    else
      var last := cmds[|cmds| - 1];
      var m0 := CodeTable(cmds[..|cmds| - 1]);
      assert cmds == cmds[..|cmds| - 1] + [last];
      m0[Code(last) := last]
  }

  /** The two lookup tables, read-only once start-up is over. */
  datatype Tables = Tables(shortCmds: map<string, string>, cmds: map<string, string>)

  /** The tables the start-up loop builds from `cmds`. */
  function TablesOf(cmds: seq<string>): Tables
    requires Labelled(cmds)
  {
    Tables(ShortTable(cmds), CodeTable(cmds))
  }

  /** The start-up loop of `init`: fills both tables, command by command. */
  method Init(allCmds: seq<string>) returns (t: Tables)
    requires Labelled(allCmds)
    ensures t == TablesOf(allCmds)
  {
    var shortCmds: map<string, string> := map[];
    var cmds: map<string, string> := map[];
    var i := 0;
    while i < |allCmds|
      invariant 0 <= i <= |allCmds|
      invariant shortCmds == ShortTable(allCmds[..i])
      invariant cmds == CodeTable(allCmds[..i])
    {
      var c := allCmds[i];
      var firstLetter := [c[0]];
      shortCmds := shortCmds[c := firstLetter];
      cmds := cmds[firstLetter := c];
      assert allCmds[..i + 1][..i] == allCmds[..i];
      i := i + 1;
    }
    assert allCmds[..|allCmds|] == allCmds;
    t := Tables(shortCmds, cmds);
  }

  /** With distinct first letters, the code table maps each command's code back to that command. */
  lemma {:induction false} CodeTableInverts(cmds: seq<string>, i: nat)
    requires DistinctCodes(cmds) && i < |cmds|
    ensures Code(cmds[i]) in CodeTable(cmds) && CodeTable(cmds)[Code(cmds[i])] == cmds[i]
  {
    var n := |cmds| - 1;
    var prefix := cmds[..n];
    assert DistinctCodes(prefix);
    if i < n {
      CodeTableInverts(prefix, i);
      assert prefix[i] == cmds[i];
      assert cmds[i][0] != cmds[n][0];
    }
  }

  /** With distinct first letters, the code table has one entry per command. */
  lemma {:induction false} CodeTableSize(cmds: seq<string>)
    requires DistinctCodes(cmds)
    ensures |CodeTable(cmds)| == |cmds|
  {
    if cmds != [] {
      var n := |cmds| - 1;
      var prefix := cmds[..n];
      assert DistinctCodes(prefix);
      CodeTableSize(prefix);
      var m0 := CodeTable(prefix);
      assert Code(cmds[n]) !in m0;
      assert CodeTable(cmds) == m0[Code(cmds[n]) := cmds[n]];
    }
  }

  /** Short code out, command back in: `cmdsMap[shortCmdsMap[c]] == c` for every command. */
  lemma CodesRoundTrip(cmds: seq<string>, c: string)
    requires DistinctCodes(cmds) && c in cmds
    ensures c in ShortTable(cmds) && ShortTable(cmds)[c] in CodeTable(cmds)
    ensures CodeTable(cmds)[ShortTable(cmds)[c]] == c
  {
    var i :| 0 <= i < |cmds| && cmds[i] == c;
    CodeTableInverts(cmds, i);
  }

  /** The six labels start with E, F, D, O, H and T: distinct, upper-case codes. */
  lemma MainCodes()
    ensures DistinctCodes(AllCmds) && UpperCodes(AllCmds)
  {
    assert Emotion[0] == 'E' && Face[0] == 'F' && Describe[0] == 'D';
    assert Ocr[0] == 'O' && Handwritten[0] == 'H' && Tag[0] == 'T';
  }

  /** Hence `cmdsMap` has exactly six entries, and each letter leads back to its command. */
  lemma MainTable()
    ensures |CodeTable(AllCmds)| == 6
    ensures CodeTable(AllCmds)["E"] == Emotion && CodeTable(AllCmds)["F"] == Face
    ensures CodeTable(AllCmds)["D"] == Describe && CodeTable(AllCmds)["O"] == Ocr
    ensures CodeTable(AllCmds)["H"] == Handwritten && CodeTable(AllCmds)["T"] == Tag
  {
    MainCodes();
    CodeTableSize(AllCmds);
    forall i | 0 <= i < 6
      ensures Code(AllCmds[i]) in CodeTable(AllCmds) && CodeTable(AllCmds)[Code(AllCmds[i])] == AllCmds[i]
    {
      CodeTableInverts(AllCmds, i);
    }
    assert Code(AllCmds[0]) == "E" && Code(AllCmds[1]) == "F" && Code(AllCmds[2]) == "D";
    assert Code(AllCmds[3]) == "O" && Code(AllCmds[4]) == "H" && Code(AllCmds[5]) == "T";
  }

  /** The labels of the two commands this revision of the image job adds, which the six-label table does not name. */
  datatype ExtraLabels = ExtraLabels(censorEyes: string, maskFaces: string)

  /** The command list of the revision that knows the two extra commands. */
  function HelperCmds(x: ExtraLabels): seq<string> {
    AllCmds + [x.censorEyes, x.maskFaces]
  }

  /** What the image job does, as chosen by its `switch command`. */
  datatype Op =
    | EmotionOp | FaceOp | CensorEyesOp | MaskFacesOp
    | DescribeOp | OcrOp | HandwrittenOp | TagOp
    | Unsupported
  {
    /** The three commands that run face detection and draw per face. */
    predicate PerFace() {
      FaceOp? || CensorEyesOp? || MaskFacesOp?
    }
  }

  /** The label a command is written with. */
  function LabelOf(x: ExtraLabels, op: Op): string
    requires op != Unsupported
  {
    match op
    case EmotionOp => Emotion
    case FaceOp => Face
    case CensorEyesOp => x.censorEyes
    case MaskFacesOp => x.maskFaces
    case DescribeOp => Describe
    case OcrOp => Ocr
    case HandwrittenOp => Handwritten
    case TagOp => Tag
  }

  /** The image job's `switch command`: the first case whose label equals the command wins. */
  function Classify(x: ExtraLabels, command: string): (op: Op)
    ensures op == Unsupported <==> command !in HelperCmds(x)
    ensures op != Unsupported ==> LabelOf(x, op) == command
  {
    if command == Emotion then EmotionOp
    else if command == Face then FaceOp
    else if command == x.censorEyes then CensorEyesOp
    else if command == x.maskFaces then MaskFacesOp
    else if command == Describe then DescribeOp
    else if command == Ocr then OcrOp
    else if command == Handwritten then HandwrittenOp
    else if command == Tag then TagOp
    else Unsupported
  }

  /** With distinct first letters every command reaches its own case of the switch. */
  lemma ClassifyLabel(x: ExtraLabels, op: Op)
    requires DistinctCodes(HelperCmds(x)) && op != Unsupported
    ensures Classify(x, LabelOf(x, op)) == op
  {
    var cmds := HelperCmds(x);
    assert forall i, j :: 0 <= i < j < |cmds| ==> cmds[i] != cmds[j];
    assert cmds[0] == Emotion && cmds[1] == Face && cmds[2] == Describe && cmds[3] == Ocr;
    assert cmds[4] == Handwritten && cmds[5] == Tag && cmds[6] == x.censorEyes && cmds[7] == x.maskFaces;
  }

  /** The Go zero value of a label, which `cmdsMap` yields for an unknown code, reaches the `default` case. */
  lemma EmptyLabelUnsupported(x: ExtraLabels)
    requires Labelled(HelperCmds(x))
    ensures Classify(x, "") == Unsupported
  {
    assert |HelperCmds(x)[6]| > 0 && |HelperCmds(x)[7]| > 0;
  }
}
