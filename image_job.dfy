/**
 * `processImage`: runs the chosen command on an image, sends the result, then
 * deletes the prompt message and reports the error, if any. The remote
 * services, the download, the image codec and the chat platform are inputs
 * (their answers or their failure descriptions); what the job does is the
 * trace of calls it makes.
 */
module ImageJob {
  import opened Wrappers
  import opened Text
  import opened Commands
  import opened Annotation
  import opened Events

  /** Bounds of the decoded image. */
  datatype Size = Size(width: int, height: int)

  /** A description: formatted caption lines and bare tags. */
  datatype Description = Description(captions: seq<string>, tags: seq<string>)

  /** What each external call answers for this run. */
  datatype Services = Services(
    emotions: Result<seq<EmotionFace>>,         // emotion recognition
    faces: Result<seq<Face>>,                   // face detection
    download: Status,                           // fetching the image from its URL
    decoded: Result<Size>,                      // decoding the image
    encoded: Status,                            // encoding the annotated image as JPEG
    photoSent: Result<int>,                     // sending the photo: the new message's id
    textSent: Status,                           // sending the result text
    described: Result<Description>,             // image description
    ocr: Result<seq<seq<seq<string>>>>,         // printed text: regions of lines of words
    handwritten: Result<seq<string>>,           // handwriting: the text of each line
    tags: Result<seq<string>>)                  // tagging: formatted tag lines

  /** The calls of one branch and the error message it leaves ("" when none). */
  datatype Step = Step(events: seq<Event>, error: string)

  /** The whole run: every call in order, and the error message reported at the end ("" when none). */
  datatype Run = Run(trace: seq<Event>, error: string)

  const NoEmotionRecognized: string := "No emotion recognized on this image."
  const NoFaceDetected: string := "No face detected on this image."
  const CouldNotDescribe: string := "Could not describe given image."
  const NoTextRecognized: string := "Could not recognize any text from given image."
  const CouldNotTag: string := "Could not tag given image."

  function Caption(command: string): string {
    "Process result of '" + command + "'"
  }

  /** The events a branch may emit before the clean-up. */
  predicate WorkEvent(e: Event) {
    e.ChatAction? || e.SendPhoto? || e.SendMessage?
  }

  /** The service found something (at least one face). */
  predicate Found<T>(found: Result<seq<T>>) {
    found.Ok? && |found.value| > 0
  }

  /** The image was found, fetched and decoded: the point where drawing starts. */
  predicate Drawable<T>(found: Result<seq<T>>, svc: Services) {
    Found(found) && svc.download.Done? && svc.decoded.Ok?
  }

  /** The error after sending a text result: `prefix` and the platform's description, or none. */
  function SendError(prefix: string, svc: Services): string {
    if svc.textSent.Failed? then prefix + svc.textSent.description else ""
  }

  /** Sends a text result if it is not blank; otherwise reports `blank`. */
  function TextStep(message: string, svc: Services, sendFailure: string, blank: string): (r: Step)
    requires |sendFailure| > 0 && |blank| > 0 && sendFailure[0] != blank[0]
    ensures r.error == blank <==> Blank(message)
    ensures r.events == if Blank(message) then [] else [SendMessage(message, None, None)]
    ensures r.error == if Blank(message) then blank
      else if svc.textSent.Failed? then sendFailure + svc.textSent.description else ""
  {
    if |TrimSpace(message)| > 0 then
      assert svc.textSent.Failed? ==> (sendFailure + svc.textSent.description)[0] == sendFailure[0];
      Step([SendMessage(message, None, None)], if svc.textSent.Failed? then sendFailure + svc.textSent.description else "")
    else Step([], blank)
  }

  /**
   * The common tail of the drawing branches: "uploading photo", the encoded
   * photo, then the text result in answer to it when there is one. An encoding
   * failure is reported only when `reportEncoding` holds.
   */
  function PhotoStep(canvas: Canvas, command: string, message: string, reply: bool, reportEncoding: bool,
                     sendFailure: string, svc: Services): (r: Step)
    requires |sendFailure| > 0
    ensures forall e :: e in r.events ==> WorkEvent(e)
    ensures |r.events| >= 1 && r.events[0] == ChatAction(UploadPhoto)
    ensures forall e :: e in r.events && e.SendPhoto? ==> svc.encoded.Done? && e == SendPhoto(canvas, Caption(command))
    ensures forall e :: e in r.events && e.SendMessage? ==>
      svc.encoded.Done? && svc.photoSent.Ok? && |message| > 0 &&
      e == SendMessage(message, if reply then Some(svc.photoSent.value) else None, None)
    ensures r.error == "" <==>
      (svc.encoded.Failed? && !reportEncoding) || (svc.encoded.Done? && svc.photoSent.Ok? && (|message| > 0 ==> svc.textSent.Done?))
    ensures svc.encoded.Failed? ==>
      r == Step([ChatAction(UploadPhoto)], if reportEncoding then "Failed to encode image: " + svc.encoded.description else "")
    ensures svc.encoded.Done? ==> |r.events| >= 2 && r.events[1] == SendPhoto(canvas, Caption(command))
    ensures svc.encoded.Done? && svc.photoSent.Err? ==>
      |r.events| == 2 && r.error == "Failed to send image: " + svc.photoSent.error
    ensures svc.encoded.Done? && svc.photoSent.Ok? ==>
      |r.events| == (if |message| > 0 then 3 else 2) &&
      r.error == (if |message| > 0 && svc.textSent.Failed? then sendFailure + svc.textSent.description else "")
  {
    var upload := [ChatAction(UploadPhoto)];
    if svc.encoded.Failed? then
      Step(upload, if reportEncoding then "Failed to encode image: " + svc.encoded.description else "")
    else
      var photo := SendPhoto(canvas, Caption(command));
      match svc.photoSent
      case Err(d) => Step(upload + [photo], "Failed to send image: " + d)
      case Ok(id) =>
        if |message| > 0 then
          Step(upload + [photo, SendMessage(message, if reply then Some(id) else None, None)],
               if svc.textSent.Failed? then sendFailure + svc.textSent.description else "")
        else Step(upload + [photo], "")
  }

  /** The Emotion Recognition branch. */
  function EmotionStep(command: string, svc: Services): (r: Step)
    ensures forall e :: e in r.events ==> WorkEvent(e)
    ensures svc.emotions == Ok([]) ==> r == Step([], NoEmotionRecognized)
    ensures svc.emotions.Err? ==> r == Step([], "Failed to recognize emotion: " + svc.emotions.error)
    // The photo is the decoded image with a box and a label per face.
    ensures forall e :: e in r.events && e.SendPhoto? ==>
      Drawable(svc.emotions, svc) && svc.encoded.Done? && e.caption == Caption(command) &&
      e.canvas == Canvas(svc.decoded.value.width, svc.decoded.value.height, EmotionPlans(svc.emotions.value))
    // The report answers the photo.
    ensures forall e :: e in r.events && e.SendMessage? ==>
      Drawable(svc.emotions, svc) && svc.photoSent.Ok? &&
      e == SendMessage(EmotionReport(svc.emotions.value), Some(svc.photoSent.value), None)
    // A JPEG encoding failure is not reported on this branch.
    ensures r.error == "" <==>
      Drawable(svc.emotions, svc) && (svc.encoded.Failed? || (svc.photoSent.Ok? && svc.textSent.Done?))
    // Fetching and decoding the image, once faces were found.
    ensures Found(svc.emotions) && svc.download.Failed? ==>
      r == Step([], "Failed to open image: " + svc.download.description)
    ensures Found(svc.emotions) && svc.download.Done? && svc.decoded.Err? ==>
      r == Step([], "Failed to decode image: " + svc.decoded.error)
    ensures Drawable(svc.emotions, svc) && svc.encoded.Failed? ==> r == Step([ChatAction(UploadPhoto)], "")
    // Once encoded, the photo is always sent, right after the upload action.
    ensures Drawable(svc.emotions, svc) && svc.encoded.Done? ==>
      |r.events| >= 2 && r.events[0] == ChatAction(UploadPhoto) && r.events[1].SendPhoto?
    ensures Drawable(svc.emotions, svc) && svc.encoded.Done? && svc.photoSent.Err? ==>
      |r.events| == 2 && r.error == "Failed to send image: " + svc.photoSent.error
    // Once the photo is sent, the report always follows it.
    ensures Drawable(svc.emotions, svc) && svc.encoded.Done? && svc.photoSent.Ok? ==>
      |r.events| == 3 && r.events[2].SendMessage? &&
      r.error == (if svc.textSent.Failed? then "Failed to send emotions: " + svc.textSent.description else "")
  {
    match svc.emotions
    case Err(e) => Step([], "Failed to recognize emotion: " + e)
    case Ok(faces) =>
      if |faces| == 0 then Step([], NoEmotionRecognized)
      else if svc.download.Failed? then Step([], "Failed to open image: " + svc.download.description)
      else if svc.decoded.Err? then Step([], "Failed to decode image: " + svc.decoded.error)
      else
        var size := svc.decoded.value;
        PhotoStep(Canvas(size.width, size.height, EmotionPlans(faces)), command, EmotionReport(faces), true, false,
                  "Failed to send emotions: ", svc)
  }

  /** The branch shared by Face Detection, eye censoring and face masking. */
  function FaceStep(op: Op, command: string, svc: Services): (r: Step)
    requires op.PerFace()
    ensures forall e :: e in r.events ==> WorkEvent(e)
    ensures svc.faces == Ok([]) ==> r == Step([], NoFaceDetected)
    ensures svc.faces.Err? ==> r == Step([], "Failed to detect faces: " + svc.faces.error)
    // The photo is the decoded image with every face's display list applied.
    ensures forall e :: e in r.events && e.SendPhoto? ==>
      Drawable(svc.faces, svc) && svc.encoded.Done? && e.caption == Caption(command) &&
      e.canvas == Canvas(svc.decoded.value.width, svc.decoded.value.height, FacePlans(op, svc.faces.value))
    // Only Face Detection sends a report, in answer to the photo.
    ensures forall e :: e in r.events && e.SendMessage? ==>
      op == FaceOp && Drawable(svc.faces, svc) && svc.photoSent.Ok? &&
      e == SendMessage(FaceReport(svc.faces.value), Some(svc.photoSent.value), None)
    ensures r.error == "" <==>
      Drawable(svc.faces, svc) && svc.encoded.Done? && svc.photoSent.Ok? && (op == FaceOp ==> svc.textSent.Done?)
    // Fetching, decoding and encoding the image, once faces were found.
    ensures Found(svc.faces) && svc.download.Failed? ==>
      r == Step([], "Failed to open image: " + svc.download.description)
    ensures Found(svc.faces) && svc.download.Done? && svc.decoded.Err? ==>
      r == Step([], "Failed to decode image: " + svc.decoded.error)
    ensures Drawable(svc.faces, svc) && svc.encoded.Failed? ==>
      r == Step([ChatAction(UploadPhoto)], "Failed to encode image: " + svc.encoded.description)
    // Once encoded, the photo is always sent, right after the upload action.
    ensures Drawable(svc.faces, svc) && svc.encoded.Done? ==>
      |r.events| >= 2 && r.events[0] == ChatAction(UploadPhoto) && r.events[1].SendPhoto?
    ensures Drawable(svc.faces, svc) && svc.encoded.Done? && svc.photoSent.Err? ==>
      |r.events| == 2 && r.error == "Failed to send image: " + svc.photoSent.error
    // Once the photo is sent, Face Detection always sends its report; the other two send nothing more.
    ensures Drawable(svc.faces, svc) && svc.encoded.Done? && svc.photoSent.Ok? && op == FaceOp ==>
      |r.events| == 3 && r.events[2].SendMessage? &&
      r.error == (if svc.textSent.Failed? then "Failed to send faces: " + svc.textSent.description else "")
    ensures Drawable(svc.faces, svc) && svc.encoded.Done? && svc.photoSent.Ok? && op != FaceOp ==>
      |r.events| == 2 && r.error == ""
  {
    match svc.faces
    case Err(e) => Step([], "Failed to detect faces: " + e)
    case Ok(faces) =>
      if |faces| == 0 then Step([], NoFaceDetected)
      else if svc.download.Failed? then Step([], "Failed to open image: " + svc.download.description)
      else if svc.decoded.Err? then Step([], "Failed to decode image: " + svc.decoded.error)
      else
        var size := svc.decoded.value;
        var message := if op == FaceOp then FaceReport(faces) else "";
        PhotoStep(Canvas(size.width, size.height, FacePlans(op, faces)), command, message, op == FaceOp, true,
                  "Failed to send faces: ", svc)
  }

  /** The description message: captions one per line, then the tags in parentheses. */
  function DescriptionText(d: Description): (r: string)
    ensures HasPrefix(r, Join(d.captions, "\n") + "\n\n(") && r[|r| - 1] == ')'
    ensures r[|Join(d.captions, "\n")| + 3..|r| - 1] == Join(d.tags, ", ")
    ensures !Blank(r)
  {
    var r := Join(d.captions, "\n") + "\n\n(" + Join(d.tags, ", ") + ")";
    assert r[|r| - 1] == ')' && !IsSpace(')');
    assert r[..|Join(d.captions, "\n") + "\n\n("|] == Join(d.captions, "\n") + "\n\n(";
    assert r[|Join(d.captions, "\n")| + 3..|r| - 1] == Join(d.tags, ", ");
    r
  }

  /** The Describe branch; its message always holds "()", so "could not describe" is never reported. */
  function DescribeStep(svc: Services): (r: Step)
    ensures forall e :: e in r.events ==> WorkEvent(e)
    ensures svc.described.Err? ==> r == Step([], "Failed to describe image: " + svc.described.error)
    ensures svc.described.Ok? ==>
      r == Step([SendMessage(DescriptionText(svc.described.value), None, None)], SendError("Failed to send described text: ", svc))
    ensures r.error != CouldNotDescribe
    ensures r.error == "" <==> svc.described.Ok? && svc.textSent.Done?
  {
    match svc.described
    case Err(e) =>
      assert ("Failed to describe image: " + e)[0] != CouldNotDescribe[0];
      Step([], "Failed to describe image: " + e)
    case Ok(d) =>
      var message := DescriptionText(d);
      assert "Failed to send described text: "[0] != CouldNotDescribe[0];
      TextStep(message, svc, "Failed to send described text: ", CouldNotDescribe)
  }

  /** The words of a printed-text result, region by region, line by line. */
  function Flatten(regions: seq<seq<seq<string>>>): seq<string> {
    if regions == [] then [] else Flatten(regions[..|regions| - 1]) + FlattenLines(regions[|regions| - 1])
  }

  function FlattenLines(lines: seq<seq<string>>): seq<string> {
    if lines == [] then [] else FlattenLines(lines[..|lines| - 1]) + lines[|lines| - 1]
  }

  /** The three nested loops that collect the words of a printed-text result. */
  method CollectWords(regions: seq<seq<seq<string>>>) returns (words: seq<string>)
    ensures words == Flatten(regions)
  {
    words := [];
    var i := 0;
    while i < |regions|
      invariant 0 <= i <= |regions|
      invariant words == Flatten(regions[..i])
    {
      var lines := regions[i];
      var j := 0;
      while j < |lines|
        invariant 0 <= j <= |lines|
        invariant words == Flatten(regions[..i]) + FlattenLines(lines[..j])
      {
        var k := 0;
        while k < |lines[j]|
          invariant 0 <= k <= |lines[j]|
          invariant words == Flatten(regions[..i]) + FlattenLines(lines[..j]) + lines[j][..k]
        {
          words := words + [lines[j][k]];
          assert lines[j][..k + 1] == lines[j][..k] + [lines[j][k]];
          k := k + 1;
        }
        assert lines[..j + 1][..j] == lines[..j];
        assert lines[j][..|lines[j]|] == lines[j];
        j := j + 1;
      }
      assert regions[..i + 1][..i] == regions[..i];
      assert lines[..|lines|] == lines;
      i := i + 1;
    }
    assert regions[..|regions|] == regions;
  }

  /** The printed-text branch: the words joined by spaces, plus a newline; blank exactly when every word is. */
  function OcrStep(svc: Services): (r: Step)
    ensures forall e :: e in r.events ==> WorkEvent(e)
    ensures svc.ocr.Err? ==> r == Step([], "Failed to recognize text: " + svc.ocr.error)
    ensures svc.ocr.Ok? ==>
      (r.error == NoTextRecognized <==> AllBlank(Flatten(svc.ocr.value)))
    // Blank text is not sent.
    ensures svc.ocr.Ok? && AllBlank(Flatten(svc.ocr.value)) ==> r == Step([], NoTextRecognized)
    // Recognised text is always sent.
    ensures svc.ocr.Ok? && !AllBlank(Flatten(svc.ocr.value)) ==>
      r == Step([SendMessage(Join(Flatten(svc.ocr.value), " ") + "\n", None, None)],
                SendError("Failed to send recognized text: ", svc))
  {
    match svc.ocr
    case Err(e) => Step([], "Failed to recognize text: " + e)
    case Ok(regions) =>
      var words := Flatten(regions);
      var message := Join(words, " ") + "\n";
      assert NoTextRecognized[0] == ("Could " + "not recognize any text from given image.")[0];
      JoinBlank(words, " ");
      BlankConcat(Join(words, " "), "\n");
      TextStep(message, svc, "Failed to send recognized text: ", NoTextRecognized)
  }

  /** The handwriting branch: the lines joined by spaces; blank exactly when every line is. */
  function HandwrittenStep(svc: Services): (r: Step)
    ensures forall e :: e in r.events ==> WorkEvent(e)
    ensures svc.handwritten.Err? ==> r == Step([], "Failed to recognize handwritten text: " + svc.handwritten.error)
    ensures svc.handwritten.Ok? ==>
      (r.error == NoTextRecognized <==> AllBlank(svc.handwritten.value))
    ensures svc.handwritten.Ok? && AllBlank(svc.handwritten.value) ==> r == Step([], NoTextRecognized)
    ensures svc.handwritten.Ok? && !AllBlank(svc.handwritten.value) ==>
      r == Step([SendMessage(Join(svc.handwritten.value, " "), None, None)], SendError("Failed to send recognized text: ", svc))
  {
    match svc.handwritten
    case Err(e) => Step([], "Failed to recognize handwritten text: " + e)
    case Ok(lines) =>
      assert NoTextRecognized[0] == ("Could " + "not recognize any text from given image.")[0];
      JoinBlank(lines, " ");
      TextStep(Join(lines, " "), svc, "Failed to send recognized text: ", NoTextRecognized)
  }

  /** The tagging branch: one tag per line; blank exactly when every tag line is. */
  function TagStep(svc: Services): (r: Step)
    ensures forall e :: e in r.events ==> WorkEvent(e)
    ensures svc.tags.Err? ==> r == Step([], "Failed to tag image: " + svc.tags.error)
    ensures svc.tags.Ok? ==>
      (r.error == CouldNotTag <==> AllBlank(svc.tags.value))
    ensures svc.tags.Ok? && AllBlank(svc.tags.value) ==> r == Step([], CouldNotTag)
    ensures svc.tags.Ok? && !AllBlank(svc.tags.value) ==>
      r == Step([SendMessage(Join(svc.tags.value, "\n"), None, None)], SendError("Failed to send tags: ", svc))
  {
    match svc.tags
    case Err(e) => Step([], "Failed to tag image: " + e)
    case Ok(tags) =>
      assert "Failed to send tags: "[0] != CouldNotTag[0];
      JoinBlank(tags, "\n");
      TextStep(Join(tags, "\n"), svc, "Failed to send tags: ", CouldNotTag)
  }

  /** The branch `processImage` takes for a command. */
  function StepFor(op: Op, command: string, svc: Services): (r: Step)
    ensures forall e :: e in r.events ==> WorkEvent(e)
    ensures forall e :: e in r.events && e.SendPhoto? ==> op == EmotionOp || op.PerFace()
    ensures op in {CensorEyesOp, MaskFacesOp} ==> forall e :: e in r.events ==> !e.SendMessage?
    ensures op.PerFace() && svc.faces == Ok([]) ==> r == Step([], NoFaceDetected)
    ensures op == Unsupported ==> r == Step([], "Command not supported: " + command)
  {
    match op
    case EmotionOp => EmotionStep(command, svc)
    case FaceOp => FaceStep(op, command, svc)
    case CensorEyesOp => FaceStep(op, command, svc)
    case MaskFacesOp => FaceStep(op, command, svc)
    case DescribeOp => DescribeStep(svc)
    case OcrOp => OcrStep(svc)
    case HandwrittenOp => HandwrittenStep(svc)
    case TagOp => TagStep(svc)
    case Unsupported => Step([], "Command not supported: " + command)
  }

  /** "typing", the branch's events, the prompt's deletion, then the error message if there is one. */
  function Trace(events: seq<Event>, messageIdToDelete: int, error: string): seq<Event> {
    [ChatAction(Typing)] + events + [DeleteMessage(messageIdToDelete)] +
      (if error == "" then [] else [SendMessage(error, None, None)])
  }

  /** Whatever a branch does, the prompt is deleted exactly once and the error comes last. */
  lemma TraceShape(events: seq<Event>, messageIdToDelete: int, error: string)
    requires forall e :: e in events ==> WorkEvent(e)
    ensures var t := Trace(events, messageIdToDelete, error);
      && t[0] == ChatAction(Typing)
      && t[1..|t| - (if error == "" then 1 else 2)] == events
      && (error == "" ==> t[|t| - 1] == DeleteMessage(messageIdToDelete))
      && (error != "" ==> t[|t| - 2..] == [DeleteMessage(messageIdToDelete), SendMessage(error, None, None)])
      && (forall k :: 0 <= k < |t| && t[k].DeleteMessage? ==> k == |events| + 1)
      && ((forall e :: e in events ==> !e.SendMessage?) ==>
            forall k :: 0 <= k < |t| && t[k].SendMessage? ==> error != "" && k == |events| + 2)
  {
    var t := Trace(events, messageIdToDelete, error);
    forall k | 0 <= k < |t| && (t[k].DeleteMessage? || t[k].SendMessage?)
      ensures t[k].DeleteMessage? ==> k == |events| + 1
      ensures t[k].SendMessage? && (forall e :: e in events ==> !e.SendMessage?) ==> error != "" && k == |events| + 2
    {
      if 1 <= k <= |events| {
        assert t[k] == events[k - 1];
        assert t[k] in events;
      }
    }
  }

  /**
   * `processImage`: "typing", the command's branch, then the prompt message is
   * deleted on every path, exactly once, and only then is the error (if any) sent.
   */
  function ProcessImage(x: ExtraLabels, messageIdToDelete: int, command: string, svc: Services): (r: Run)
    ensures |r.trace| >= 2 && r.trace[0] == ChatAction(Typing)
    // Between "typing" and the deletion come exactly the events of the command's branch, and its error is the job's.
    ensures r.error == StepFor(Classify(x, command), command, svc).error
    ensures r.trace == Trace(StepFor(Classify(x, command), command, svc).events, messageIdToDelete, r.error)
    ensures r.error == "" ==> r.trace[|r.trace| - 1] == DeleteMessage(messageIdToDelete)
    ensures r.error != "" ==>
      |r.trace| >= 3 && r.trace[|r.trace| - 2..] == [DeleteMessage(messageIdToDelete), SendMessage(r.error, None, None)]
    ensures forall k :: 0 <= k < |r.trace| && r.trace[k].DeleteMessage? ==>
      k == |r.trace| - (if r.error == "" then 1 else 2)
  {
    var op := Classify(x, command);
    var step := StepFor(op, command, svc);
    TraceShape(step.events, messageIdToDelete, step.error);
    Run(Trace(step.events, messageIdToDelete, step.error), step.error)
  }

  /** Every entry of a trace is "typing", an event of the branch, the deletion or the error. */
  lemma TraceEntries(events: seq<Event>, messageIdToDelete: int, error: string)
    ensures forall e :: e in Trace(events, messageIdToDelete, error) ==>
      e == ChatAction(Typing) || e in events || e == DeleteMessage(messageIdToDelete) ||
      (error != "" && e == SendMessage(error, None, None))
  {
  }

  /** An unknown command leaves only its error: typing, the deletion, then "Command not supported: <command>". */
  lemma UnsupportedOutcome(x: ExtraLabels, messageIdToDelete: int, command: string, svc: Services)
    requires Classify(x, command) == Unsupported
    ensures ProcessImage(x, messageIdToDelete, command, svc).trace ==
      [ChatAction(Typing), DeleteMessage(messageIdToDelete), SendMessage("Command not supported: " + command, None, None)]
  {
    assert StepFor(Unsupported, command, svc).events == [];
    assert "Command not supported: " + command != "";
  }

  /** No face detected: the error says so, and no photo is sent. */
  lemma NoFaceOutcome(x: ExtraLabels, messageIdToDelete: int, command: string, svc: Services)
    requires Classify(x, command).PerFace() && svc.faces == Ok([])
    ensures var r := ProcessImage(x, messageIdToDelete, command, svc);
      r.error == NoFaceDetected && forall e :: e in r.trace ==> !e.SendPhoto?
  {
    var step := StepFor(Classify(x, command), command, svc);
    TraceEntries(step.events, messageIdToDelete, step.error);
    assert step.events == [];
  }

  /** Eye censoring and face masking send no text: the only message is the error, last. */
  lemma CensorMaskTextless(x: ExtraLabels, messageIdToDelete: int, command: string, svc: Services)
    requires Classify(x, command) in {CensorEyesOp, MaskFacesOp}
    ensures var r := ProcessImage(x, messageIdToDelete, command, svc);
      forall k :: 0 <= k < |r.trace| && r.trace[k].SendMessage? ==> k == |r.trace| - 1 && r.error != ""
  {
    var step := StepFor(Classify(x, command), command, svc);
    TraceShape(step.events, messageIdToDelete, step.error);
  }

  /** Only Emotion Recognition and the per-face commands send a photo. */
  lemma PhotoOnlyFromDrawing(x: ExtraLabels, messageIdToDelete: int, command: string, svc: Services)
    ensures forall e :: e in ProcessImage(x, messageIdToDelete, command, svc).trace && e.SendPhoto? ==>
      Classify(x, command) == EmotionOp || Classify(x, command).PerFace()
  {
    var step := StepFor(Classify(x, command), command, svc);
    TraceEntries(step.events, messageIdToDelete, step.error);
  }
}
