/**
 * The two update handlers: an incoming message is answered with the action
 * keyboard (for an image) or the help text, and a pressed button is decoded,
 * the file looked up and the image job started in the background.
 */
module Handlers {
  import opened Wrappers
  import opened Text
  import opened Commands
  import opened Dispatch
  import opened Events
  import opened ImageJob

  datatype Document = Document(fileId: string, mimeType: string)

  /** An incoming message: its id, the sizes of an attached photo (smallest first) and an attached document. */
  datatype Message = Message(messageId: int, photos: seq<string>, document: Option<Document>)

  /** What a handler did, in order, and the boolean it returns. */
  datatype Handled = Handled(events: seq<Event>, result: bool)

  /** The file to offer actions on: the largest photo size, else a document of an "image/" type. */
  function ImageFileId(m: Message): (f: Option<string>)
    ensures |m.photos| > 0 ==> f == Some(m.photos[|m.photos| - 1])
    ensures |m.photos| == 0 && m.document.Some? && HasPrefix(m.document.value.mimeType, "image/") ==>
      f == Some(m.document.value.fileId)
    ensures f.None? <==> |m.photos| == 0 && (m.document.None? || !HasPrefix(m.document.value.mimeType, "image/"))
  {
    if |m.photos| > 0 then Some(m.photos[|m.photos| - 1])
    else if m.document.Some? && HasPrefix(m.document.value.mimeType, "image/") then Some(m.document.value.fileId)
    else None
  }

  /**
   * `processUpdate` over the command list `allCmds` (whose tables `init` built):
   * one reply to the message; an image gets the action prompt with the keyboard
   * for its file, anything else the help text. The result is whether sending succeeded.
   */
  function ProcessUpdate(allCmds: seq<string>, m: Message, sendOk: bool): (h: Handled)
    requires Labelled(allCmds)
    ensures |h.events| == 1 && h.events[0].SendMessage? && h.events[0].replyTo == Some(m.messageId)
    ensures h.result == sendOk
    ensures ImageFileId(m).Some? ==>
      h.events[0].text == MessageActionImage &&
      h.events[0].keyboard == Some(KeyboardFor(TablesOf(allCmds), allCmds, ImageFileId(m).value))
    ensures ImageFileId(m).None? ==> h.events[0].text == MessageHelp && h.events[0].keyboard.None?
  {
    match ImageFileId(m)
    case Some(f) =>
      Handled([SendMessage(MessageActionImage, Some(m.messageId), Some(KeyboardFor(TablesOf(allCmds), allCmds, f)))], sendOk)
    case None => Handled([SendMessage(MessageHelp, Some(m.messageId), None)], sendOk)
  }

  /** A pressed button: its callback data, and the text and id of the prompt message it sits under. */
  datatype CallbackQuery = CallbackQuery(data: string, promptText: string, promptId: int)

  /** The platform's answers: the file URL lookup, the callback answer and the prompt edit. */
  datatype CallbackEnv = CallbackEnv(fileUrl: Result<string>, answered: bool, edited: bool)

  function ProcessingText(command: string): string {
    "Processing '" + command + "' on received image..."
  }

  /** The text the prompt is replaced with, and the job started, if any. */
  function Outcome(t: Tables, q: CallbackQuery, env: CallbackEnv): (o: (string, Option<Job>))
    requires |q.data| > 0
    ensures q.data == CommandCancel ==> o == (MessageCanceled, None)
    ensures q.data != CommandCancel && env.fileUrl.Err? ==> o == (MessageFailedToGetFile, None)
    ensures q.data != CommandCancel && env.fileUrl.Ok? && !Contains(q.promptText, "image") ==>
      o == (MessageUnprocessable, None)
    // The only case that starts a job: its command is the one the first character encodes.
    ensures o.1.Some? <==> q.data != CommandCancel && env.fileUrl.Ok? && Contains(q.promptText, "image")
    ensures o.1.Some? ==>
      o.1.value == Job(q.promptId, env.fileUrl.value, Lookup(t.cmds, [q.data[0]])) &&
      o.0 == "Processing '" + o.1.value.command + "' on received image..."
  {
    match Decode(t, q.data)
    case Canceled => (MessageCanceled, None)
    case Chosen(command, _) =>
      match env.fileUrl
      case Err(_) => (MessageFailedToGetFile, None)
      case Ok(url) =>
        if Contains(q.promptText, "image") then (ProcessingText(command), Some(Job(q.promptId, url, command)))
        else (MessageUnprocessable, None)
  }

  /**
   * `processCallbackQuery`: the file is looked up unless the press is the
   * cancel sentinel; the job is started only for a found file under a prompt
   * mentioning "image"; the query is always answered, and only then is the
   * prompt edited. The result holds exactly when both answer and edit succeeded.
   */
  function ProcessCallbackQuery(t: Tables, q: CallbackQuery, env: CallbackEnv): (h: Handled)
    requires |q.data| > 0
    ensures h.result <==> env.answered && env.edited
    ensures GetFile(q.data[1..]) in h.events <==> q.data != CommandCancel
    ensures forall e :: e in h.events && e.GetFile? ==> e.fileId == q.data[1..]
    ensures (exists j :: Spawn(j) in h.events) <==>
      q.data != CommandCancel && env.fileUrl.Ok? && Contains(q.promptText, "image")
    ensures forall j :: Spawn(j) in h.events ==>
      j == Job(q.promptId, env.fileUrl.value, Decode(t, q.data).command)
    ensures AnswerCallbackQuery in h.events
    ensures (exists s :: EditMessageText(s) in h.events) <==> env.answered
    ensures q.data == CommandCancel ==> forall s :: EditMessageText(s) in h.events ==> s == MessageCanceled
  {
    var (text, job) := Outcome(t, q, env);
    var lookup := if q.data == CommandCancel then [] else [GetFile(q.data[1..])];
    var spawn := if job.Some? then [Spawn(job.value)] else [];
    var reply := if env.answered then [AnswerCallbackQuery, EditMessageText(text)] else [AnswerCallbackQuery];
    var head := lookup + spawn;
    Handled(head + reply, env.answered && env.edited)
  }

  /**
   * The order of a press's calls: the query is answered after the lookup and
   * the spawn, and, once answered, the prompt is edited last, with the outcome's text.
   */
  lemma CallbackOrder(t: Tables, q: CallbackQuery, env: CallbackEnv)
    requires |q.data| > 0
    // Each call happens once: the lookup (unless cancelled), the job (if any), the answer, the edit (once answered).
    ensures |ProcessCallbackQuery(t, q, env).events| ==
      (if q.data == CommandCancel then 0 else 1) + (if Outcome(t, q, env).1.Some? then 1 else 0) + (if env.answered then 2 else 1)
    ensures q.data != CommandCancel ==> ProcessCallbackQuery(t, q, env).events[0] == GetFile(q.data[1..])
    ensures Outcome(t, q, env).1.Some? ==>
      ProcessCallbackQuery(t, q, env).events[if q.data == CommandCancel then 0 else 1] == Spawn(Outcome(t, q, env).1.value)
    ensures var h := ProcessCallbackQuery(t, q, env);
      env.answered ==> |h.events| >= 2 && h.events[|h.events| - 2..] == [AnswerCallbackQuery, EditMessageText(Outcome(t, q, env).0)]
    ensures var h := ProcessCallbackQuery(t, q, env);
      !env.answered ==> |h.events| >= 1 && h.events[|h.events| - 1] == AnswerCallbackQuery
  {
    var h := ProcessCallbackQuery(t, q, env);
    var n := if q.data == CommandCancel then 0 else 1;
    var m := if Outcome(t, q, env).1.Some? then 1 else 0;
    assert |h.events| == n + m + (if env.answered then 2 else 1);
  }

  /** The prompt sent with the keyboard mentions "image", so a press under it can start a job. */
  lemma PromptMentionsImage()
    ensures Contains(MessageActionImage, "image")
  {
    assert MessageActionImage == "Choose action for this " + "image" + ":";
    ContainsInfix("Choose action for this ", "image", ":");
  }

  /** A press that decodes to a command, once the file is found, looks that file up and starts that command's job. */
  lemma ChosenSpawns(t: Tables, q: CallbackQuery, url: string, answered: bool, edited: bool, c: string, f: string)
    requires |q.data| > 0 && Decode(t, q.data) == Chosen(c, f) && Contains(q.promptText, "image")
    ensures var h := ProcessCallbackQuery(t, q, CallbackEnv(Ok(url), answered, edited));
      GetFile(f) in h.events && Spawn(Job(q.promptId, url, c)) in h.events
  {
    var h := ProcessCallbackQuery(t, q, CallbackEnv(Ok(url), answered, edited));
    assert q.data[1..] == f;
    assert exists j :: Spawn(j) in h.events;
  }

  /**
   * End to end: pressing any command button of the keyboard sent for an image,
   * under that prompt, once the file is found, looks up the offered file and
   * starts the job for exactly that command, deleting that prompt; when every
   * listed command is one the image job knows, the job handles it.
   */
  lemma OfferThenChoose(x: ExtraLabels, allCmds: seq<string>, m: Message, c: string, promptId: int, url: string,
                        answered: bool, edited: bool)
    requires DistinctCodes(allCmds) && UpperCodes(allCmds)
    requires forall k :: k in allCmds ==> k in HelperCmds(x)
    requires ImageFileId(m).Some? && c in allCmds
    ensures var t := TablesOf(allCmds);
      var kb := ProcessUpdate(allCmds, m, true).events[0].keyboard;
      && kb.Some? && c in kb.value.choices
      && var q := CallbackQuery(kb.value.choices[c], MessageActionImage, promptId);
      && |q.data| > 0
      && var h := ProcessCallbackQuery(t, q, CallbackEnv(Ok(url), answered, edited));
      && GetFile(ImageFileId(m).value) in h.events
      && Spawn(Job(promptId, url, c)) in h.events
      && Classify(x, c) != Unsupported && LabelOf(x, Classify(x, c)) == c
  {
    var t := TablesOf(allCmds);
    var f := ImageFileId(m).value;
    KeyboardDecodes(allCmds, f);
    PromptMentionsImage();
    var kb := KeyboardFor(t, allCmds, f);
    var q := CallbackQuery(kb.choices[c], MessageActionImage, promptId);
    ChosenSpawns(t, q, url, answered, edited, c, f);
  }

  /** With main.go's six commands, every offered button starts a supported job. */
  lemma OfferThenChooseMain(x: ExtraLabels, m: Message, c: string, promptId: int, url: string, answered: bool, edited: bool)
    requires ImageFileId(m).Some? && c in AllCmds
    ensures var kb := ProcessUpdate(AllCmds, m, true).events[0].keyboard;
      && kb.Some? && c in kb.value.choices
      && var q := CallbackQuery(kb.value.choices[c], MessageActionImage, promptId);
      && |q.data| > 0
      && Spawn(Job(promptId, url, c)) in ProcessCallbackQuery(TablesOf(AllCmds), q, CallbackEnv(Ok(url), answered, edited)).events
    ensures Classify(x, c) != Unsupported
  {
    MainCodes();
    MainCmdsKnown(x);
    OfferThenChoose(x, AllCmds, m, c, promptId, url, answered, edited);
  }

  /**
   * With the extended list (the six plus eye censoring and face masking), the
   * two extra commands are offered and reachable too, given distinct upper-case codes.
   */
  lemma OfferThenChooseExtended(x: ExtraLabels, m: Message, c: string, promptId: int, url: string, answered: bool, edited: bool)
    requires DistinctCodes(HelperCmds(x)) && UpperCodes(HelperCmds(x))
    requires ImageFileId(m).Some? && c in HelperCmds(x)
    ensures var kb := ProcessUpdate(HelperCmds(x), m, true).events[0].keyboard;
      && kb.Some? && c in kb.value.choices
      && var q := CallbackQuery(kb.value.choices[c], MessageActionImage, promptId);
      && |q.data| > 0
      && Spawn(Job(promptId, url, c)) in ProcessCallbackQuery(TablesOf(HelperCmds(x)), q, CallbackEnv(Ok(url), answered, edited)).events
      && LabelOf(x, Classify(x, c)) == c
  {
    OfferThenChoose(x, HelperCmds(x), m, c, promptId, url, answered, edited);
  }

  /** Every one of main.go's commands is one the image job knows. */
  lemma MainCmdsKnown(x: ExtraLabels)
    ensures forall k :: k in AllCmds ==> k in HelperCmds(x)
  {
    forall k | k in AllCmds ensures k in HelperCmds(x) {
      var i :| 0 <= i < |AllCmds| && AllCmds[i] == k;
      assert HelperCmds(x)[i] == k;
    }
  }

  /**
   * A press whose first character is no command's code (and is not the cancel
   * sentinel) starts a job with the empty command, and that job ends in
   * "Command not supported: " after deleting the prompt.
   */
  lemma UnknownCodeUnsupported(x: ExtraLabels, t: Tables, q: CallbackQuery, env: CallbackEnv, svc: Services)
    requires Labelled(HelperCmds(x))
    requires |q.data| > 0 && q.data != CommandCancel && [q.data[0]] !in t.cmds
    requires env.fileUrl.Ok? && Contains(q.promptText, "image")
    ensures Spawn(Job(q.promptId, env.fileUrl.value, "")) in ProcessCallbackQuery(t, q, env).events
    ensures ProcessImage(x, q.promptId, "", svc).trace ==
      [ChatAction(Typing), DeleteMessage(q.promptId), SendMessage("Command not supported: ", None, None)]
  {
    EmptyLabelUnsupported(x);
    UnsupportedOutcome(x, q.promptId, "", svc);
    assert "Command not supported: " + "" == "Command not supported: ";
    var h := ProcessCallbackQuery(t, q, env);
    assert Spawn(Job(q.promptId, env.fileUrl.value, Decode(t, q.data).command)) in h.events;
  }
}
