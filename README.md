# MS Cognitive Services Telegram bot — decision and layout logic in Dafny

This project models the deterministic core of a Telegram bot. A user sends the bot an image, and the bot offers an inline keyboard of Microsoft Cognitive Services actions. When the user presses a button, the bot runs the chosen action on the image in the background. It then replies with an annotated photo, a text report or an error message, and deletes the prompt.

All Telegram, HTTP, image-codec and Cognitive Services calls are abstracted:

- their results are inputs (`Services`, `CallbackEnv`, the `sendOk` flag);
- the calls the bot makes are recorded, in order, as `Event`s.

Modules, in dependency order:

- `Wrappers`: `Option`, `Result`, and `Status` for calls whose only output is success or failure.
- `Text`: the Go string functions the core relies on.
  - `strings.Join`, `HasPrefix` and `Contains`.
  - `strings.TrimSpace`, with Go's `unicode.IsSpace` set.
  - `%d` formatting.
- `Commands`: the command labels and the two code tables built in `init`. Also the classification of a command label into the branch of the image job (its `switch command`).
- `Dispatch`: the callback protocol.
  - Each keyboard button carries `code ++ fileId`; the cancel button carries `"cancel"`.
  - The callback data of a pressed button is decoded back into a command and a file id.
- `Annotation`: what the image job draws, and the report it writes.
  - Pixels are not modelled. Each face yields an ordered display list (`DrawOp`s: stroked paths, labels, marker dots, the eye mask, the pixelated region).
  - The Face and Emotion reports are assembled from per-face sections.
- `Events`: the recorded platform calls.
- `ImageJob`: `processImage`. It shows "typing", runs one branch per command, deletes the prompt, and sends the error message if there is one.
- `Handlers`: `processUpdate` and `processCallbackQuery`, plus end-to-end lemmas tying the keyboard offered for an image to the job a press starts.

The two source files come from different revisions. The command table comes from `main.go`. Handler and image-job behaviour come from `helper.go`, which also knows two more commands, eye censoring and face masking. `main.go` does not define their labels, so they are abstract (`ExtraLabels`), and properties that need distinct codes require it explicitly.

Where the code and its documentation differ, the model follows the code:

- Callback data whose first character is no command's code decodes to the empty command (a Go map read of a missing key). The job still starts, shows "Processing '' on received image...", and ends with "Command not supported: ".
- The pixelation block size is `Width / 8` with Go's truncating division and no lower bound, so a face narrower than 8 pixels gives block size 0.
- A JPEG encoding failure in the Emotion Recognition branch is silent: no error message is sent.
- The job is started (helper.go:99) before the query is answered and the prompt edited (helper.go:121-127). The job deletes that same prompt (helper.go:562), so the edit can find the prompt already gone and fail. The model keeps this order: `Spawn` comes before `AnswerCallbackQuery` and `EditMessageText`, and whether the edit succeeds is a free input (`CallbackEnv.edited`).
- The Describe branch's message always contains "(" and ")". Its "Could not describe given image." error is therefore unreachable, and `DescribeStep` proves it.

## Model

| member | source | states |
|---|---|---|
| Commands.ShortTable | main.go:145-151 | `shortCmdsMap` has exactly the labels as keys, each mapped to its first character |
| Commands.CodeTable | main.go:145-151 | `cmdsMap`'s keys are exactly the first characters of the labels, and each maps back to a label starting with it |
| Commands.Init | main.go:145-151 | the loop over `allCmds` fills both maps exactly as `ShortTable`/`CodeTable` describe them |
| Commands.CodeTableInverts | main.go:145-151 | with pairwise distinct first letters, `cmdsMap[code(c)] == c` for every command |
| Commands.CodeTableSize | main.go:145-151 | with distinct first letters, `cmdsMap` has one entry per command |
| Commands.CodesRoundTrip | main.go:145-151 | `cmdsMap[shortCmdsMap[c]] == c` for every command in the list |
| Commands.MainCodes | main.go:54-72 | the six labels start with pairwise distinct upper-case letters |
| Commands.MainTable | main.go:54-72 | `cmdsMap` has six entries: E, F, D, O, H, T map to the six commands |
| Commands.Classify | helper.go:147-558 | a label selects its own branch; exactly the labels outside the command list fall to `default` |
| Commands.ClassifyLabel | helper.go:147-558 | with distinct codes, every branch is selected by its own label |
| Commands.EmptyLabelUnsupported | helper.go:557-558 | the empty command (from an unknown code) reaches the `default` case |
| Dispatch.GenImageInlineKeyboards | helper.go:573-583 | the loop builds one button per command with data `shortCmdsMap[cmd] ++ fileId`, plus the "Cancel"/"cancel" button |
| Dispatch.Rows | helper.go:579-583 | for an order listing each command once: one row per command, holding exactly that command's button, no row twice, and the cancel button alone in the last row |
| Dispatch.RowsDecode | helper.go:576-583 | every command row's button decodes back to its own label and the offered file, and the last row's to Canceled |
| Dispatch.TokenShape | helper.go:576 | a button's data is the label's first character followed by the file id, verbatim |
| Dispatch.Decode | helper.go:89-93 | "cancel" is tested first; otherwise the command is `cmdsMap[data[0]]` (empty if unknown) and the file id is the rest, verbatim |
| Dispatch.TokenNotCancel | main.go:56-61 | upper-case codes mean no button's data equals the sentinel "cancel" (main.go:108) |
| Dispatch.DecodeToken | helper.go:576 | round trip: decoding a button's data gives back the same command and exactly the same file id |
| Dispatch.KeyboardDecodes | helper.go:573-583 | every button of the keyboard decodes to its own label and the offered file; the cancel button decodes to Canceled |
| Annotation.ColorForIndex | helper.go:586-589 | face colours come from the six-colour cycle |
| Annotation.ColorCycle | main.go:604-607 | `colorForIndex(i + 6) == colorForIndex(i)` |
| Annotation.ColorsDistinctWithinCycle | helper.go:34-41 | any six consecutive faces get six different colours |
| Annotation.HasAllKeys | helper.go:592-600 | the early-return loop answers true exactly when every key is present (so true for no keys) |
| Annotation.BoxPath | helper.go:294-299 | the face box is a closed five-point path whose first four points are the four corners (L,T), (L+W,T), (L+W,T+H), (L,T+H), with axis-aligned sides |
| Annotation.FaceLabel | helper.go:303-305 | a face's label is "Face #" followed by decimal digits, without a leading zero, denoting its 1-based number |
| Annotation.FaceLabelsDistinct | helper.go:303-305 | different faces get different labels |
| Annotation.GoQuo | helper.go:416 | Go's integer `/` rounds toward zero: the remainder has the dividend's sign and is smaller than the divisor |
| Annotation.BlockSize | helper.go:416 | block size is the width divided by 8, truncated: `8n <= W < 8(n+1)`, 0 for faces narrower than 8 |
| Annotation.FaceOps | helper.go:275-425 | Face: box and label first, markers exactly when all five points exist, all in the face's colour; CensorEyes: one black mask exactly when all six eye points exist; MaskFaces: pixelates exactly the face rectangle, placed at its corner |
| Annotation.FaceSection | helper.go:365-377 | each Face report section opens with "[Face #i+1]" |
| Annotation.FaceSectionLayout | helper.go:365-377 | the facial-hair lines, joined by newlines, sit between "> Facial Hair" and "> Head Pose"; the head-pose lines between "> Head Pose" and "> Emotion"; and the section ends with "> Emotion" and the emotion lines |
| Annotation.FaceSectionLists | helper.go:365-377 | every facial-hair, head-pose and emotion line of a face appears in its section |
| Annotation.FaceReportLists | helper.go:365-431 | every face's section, and so every attribute line of every face, appears in the Face report |
| Annotation.EmotionSection | helper.go:214-221 | each Emotion report section opens with "[Face #i+1]" |
| Annotation.FaceReport | helper.go:428-431 | the Face report is empty exactly when there are no faces, otherwise opens with the first face's section, and is exactly that section for one face |
| Annotation.EmotionReport | helper.go:223 | the Emotion report is empty exactly when there are no faces, otherwise opens with the first face's section, and is exactly that section for one face |
| Annotation.FaceReportSnoc | helper.go:365-431 | the report on one more face is the previous report, a blank line, and the new face's section |
| Annotation.EmotionReportSnoc | helper.go:214-223 | the report on one more face is the previous report, a blank line, and the new face's section |
| Annotation.ReportsOpenWithFirstFace | helper.go:223 | a report on at least one face starts with the first face's section header |
| Annotation.SectionMatchesLabel | helper.go:303-377 | face i's drawn label and its report section carry the same number |
| Annotation.TwoFaces | helper.go:275-311 | for two faces, the first is yellow and "Face #1" and the second is cyan and "Face #2" |
| Annotation.DrawFace | helper.go:276-424 | one face's drawing is exactly its display list |
| Annotation.RenderFaces | helper.go:275-425 | the loop over faces draws each face's list in input order, and collects report sections only for Face |
| Annotation.RenderEmotions | helper.go:175-223 | both loops draw a box per face and build the report, one section per face, joined by blank lines |
| ImageJob.TextStep | helper.go:485-492 | a text result is sent exactly when not blank; otherwise the branch's "could not" message is the error |
| ImageJob.EmotionStep | helper.go:148-255 | each failure leaves its own message ("Failed to recognize emotion", "No emotion recognized", "Failed to open/decode image", "Failed to send image/emotions"); once decoded and encoded, "uploading photo" then the photo with a box per face is sent, and once it is sent the report always follows in answer to it; an encoding failure is silent |
| ImageJob.FaceStep | helper.go:256-476 | each failure leaves its own message ("Failed to detect faces", "No face detected", "Failed to open/decode/encode image", "Failed to send image/faces"); once encoded, "uploading photo" then the photo with every face's display list is sent; after it, Face Detection always sends its report in answer, the other two nothing |
| ImageJob.DescriptionText | helper.go:483 | the description is the captions joined by newlines, a blank line, and exactly the tags joined by ", " between the parentheses; it is never blank |
| ImageJob.DescribeStep | helper.go:477-495 | captions and tags are sent; "Could not describe given image." is never the error |
| ImageJob.CollectWords | helper.go:498-505 | the nested loops collect every word, region by region and line by line |
| ImageJob.OcrStep | helper.go:496-518 | unless every word is blank, exactly one message, the words joined by spaces, is sent, and a send failure is reported as "Failed to send recognized text"; the error is "Could not recognize any text" exactly when every word is blank, and then nothing is sent |
| ImageJob.HandwrittenStep | helper.go:519-537 | unless every line is blank, exactly one message, the lines joined by spaces, is sent, with its send failure reported; "Could not recognize any text" exactly when every line is blank, and then nothing is sent |
| ImageJob.TagStep | helper.go:538-556 | unless every tag is blank, exactly one message, the tags one per line, is sent, with its send failure reported; "Could not tag" exactly when every tag is blank, and then nothing is sent |
| ImageJob.StepFor | helper.go:147-558 | only drawing commands send a photo; CensorEyes/MaskFaces send no text; no face gives "No face detected"; an unknown command gives "Command not supported: " |
| ImageJob.TraceShape | helper.go:560-569 | whatever the branch did, the prompt is deleted exactly once, and only the error message comes after it |
| ImageJob.ProcessImage | helper.go:140-570 | "typing" first, then exactly the events of the command's branch, whose error is the job's; the prompt is deleted once on every path, then the error if any |
| ImageJob.UnsupportedOutcome | helper.go:557-569 | an unknown command leaves only "typing", the deletion and "Command not supported: <command>" |
| ImageJob.NoFaceOutcome | helper.go:256-476 | a per-face command with no face detected ends in "No face detected" and sends no photo |
| ImageJob.CensorMaskTextless | helper.go:428-434 | eye censoring and face masking send no text: the only message is the error, last |
| ImageJob.PhotoOnlyFromDrawing | helper.go:147-558 | only Emotion Recognition and the per-face commands send a photo |
| Handlers.ImageFileId | helper.go:53-67 | a photo's file is its last (largest) size; without photos, a document with an "image/" MIME type gives its own file; nothing else gives a file |
| Handlers.ProcessUpdate | helper.go:45-77 | one reply to the message: the prompt with the keyboard of the command list for the image's file, or the help text; the result is whether sending succeeded |
| Handlers.Outcome | helper.go:89-117 | Canceled / Failed to get file / Unprocessable / Processing '<cmd>'; a job starts only in the last case |
| Handlers.ProcessCallbackQuery | helper.go:80-137 | no file lookup for "cancel"; the job starts exactly for a found file under a prompt mentioning "image", with the decoded command; always answered; edited only once answered; result iff both succeed |
| Handlers.CallbackOrder | helper.go:95-135 | each call happens once and in order: the lookup first (unless cancelled), then the job if any, then the answer; once answered, the last call is the edit with the outcome's text, otherwise the answer is last |
| Handlers.PromptMentionsImage | helper.go:98 | the action prompt contains "image", so a press under it can start a job |
| Handlers.ChosenSpawns | helper.go:89-104 | a press that decodes to a command, with the file found, looks the file up and starts that command's job |
| Handlers.OfferThenChoose | helper.go:53-104 | for any command list with distinct upper-case codes: pressing any button offered for an image looks up the offered file and starts that command's job under that prompt, and the job's branch is that command's own |
| Handlers.OfferThenChooseMain | main.go:65-72 | with main.go's six commands, every offered button starts a job the image job supports |
| Handlers.OfferThenChooseExtended | helper.go:573-583 | with the two extra commands listed too, eye censoring and face masking are offered and reachable |
| Handlers.UnknownCodeUnsupported | helper.go:92 | an unknown code starts a job with the empty command, which ends in "Command not supported: " |
| Text.Join | helper.go:223 | `strings.Join`: empty for no pieces, the piece itself for one, and always starting with the first piece |
| Text.JoinSnoc | helper.go:223 | joining one more piece appends the separator and that piece |
| Text.JoinLength | helper.go:223 | a join is as long as its pieces plus one separator between each two |
| Text.PrefixTransitive | helper.go:60 | `strings.HasPrefix` is transitive |
| Text.ContainsInfix | helper.go:98 | `strings.Contains` finds every infix |
| Text.ContainsTransitive | helper.go:98 | an infix of an infix is an infix |
| Text.JoinContains | helper.go:431 | every piece occurs in the joined string |
| Text.TrimSpace | helper.go:485 | the trimmed text is empty exactly when the text is all white space |
| Text.JoinBlank | helper.go:506 | a join with a blank separator is blank exactly when every piece is |
| Text.NatToString | helper.go:304 | `%d` of a natural number: decimal digits denoting it, with no leading zero |

## Left out

- Telegram transport, the long-polling loop and the `go` statement. Each call is a recorded `Event`, and its outcome is an input. The spawned job is a `Spawn` event; `ImageJob.ProcessImage` is its behaviour, called separately.
- `http.Get`, `image.Decode`, `jpeg.Encode` and the Cognitive Services clients. These are foreign I/O: their results are the fields of `Services`.
- Rasterisation (draw2d, freetype), the label's y coordinate, and the internals of `gift.Pixelate`. The y coordinate comes from a float font size and a fixed-point shift. Each face is modelled as its display list: paths, the label's text and x, marker centres and radius, and the pixelated region with its block size.
- `genMaskPoints` (helper.go:603-623) is float geometry. The `MaskEyes` operation records the six eye points it is computed from.
- Float formatting: the `%.3f%%` score lines, the head-pose and facial-hair lines, and the caption and tag lines. Each is an opaque string given as input.
- Go map iteration order. It decides the order of score lines and of keyboard buttons, so `Rows` takes the order as a parameter.
- The command list: `allCmds` in main.go lists six commands, so the eye-censoring and face-masking branches of `processImage` are reachable from a button only when the list also holds them (`Handlers.OfferThenChooseExtended`); with main.go's list they are not (`Handlers.OfferThenChooseMain`).
- Logging (loggly), config loading, font parsing, signal handling and the requester's user name. None of them affects replies.
- `Dispatch.Decode`: requires non-empty callback data, because the source indexes its first byte unchecked and would panic.
- `Dispatch.Decode`: splits off the first character of the callback data, where the source splits off its first byte. For data whose first character is not ASCII, the source's file id keeps that character's trailing bytes and the model's does not. The bot itself only issues data that starts with an ASCII code.
- `Commands.Code`: the code is the first character. The source takes the first byte, so labels with a non-ASCII first character are not modelled.
- `Handlers.ImageFileId`: a document without a MIME type is not modelled (the source dereferences it unchecked).
- main.go:186-277 hold an older revision of `processUpdate` and `processCallbackQuery`. They make the same decisions, except that the reply is not linked to the incoming message and the job does not delete the prompt. The model follows helper.go.
- main.go:279-600 hold an older `processImage`, superseded by helper.go:140-570, which is modelled.
