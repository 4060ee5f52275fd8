/**
 * The callback protocol: each inline-keyboard button carries `code ++ fileId`,
 * the cancel button carries the sentinel "cancel", and a pressed button's data
 * is decoded back into a command and a file id.
 */
module Dispatch {
  import opened Commands

  datatype Button = Button(text: string, callbackData: string)

  /**
   * The inline keyboard offered for an image: one button per command (the label
   * maps to the callback data; the library lays the map out one button per row,
   * in its own order), followed by a last row holding the cancel button.
   */
  datatype Keyboard = Keyboard(choices: map<string, string>, cancel: Button)

  /** `strings.Title("cancel")` over the sentinel itself. */
  const CancelButton: Button := Button("Cancel", CommandCancel)

  /** A Go map read: a missing key yields the zero value, the empty string. */
  function Lookup(m: map<string, string>, key: string): string {
    if key in m then m[key] else ""
  }

  /** The callback data of a command's button: `shortCmdsMap[cmd]` followed by the file id. */
  function Token(t: Tables, command: string, fileId: string): string {
    Lookup(t.shortCmds, command) + fileId
  }

  /** The keyboard `genImageInlineKeyboards` builds for `fileId` over the command list `cmds`. */
  function KeyboardFor(t: Tables, cmds: seq<string>, fileId: string): Keyboard {
    Keyboard(map c | c in cmds :: Token(t, c, fileId), CancelButton)
  }

  /** `genImageInlineKeyboards`: fills the button map command by command, then adds the cancel row. */
  method GenImageInlineKeyboards(t: Tables, allCmds: seq<string>, fileId: string) returns (kb: Keyboard)
    ensures kb == KeyboardFor(t, allCmds, fileId)
  {
    var data: map<string, string> := map[];
    var i := 0;
    while i < |allCmds|
      invariant 0 <= i <= |allCmds|
      invariant data == map c | c in allCmds[..i] :: Token(t, c, fileId)
    {
      var cmd := allCmds[i];
      data := data[cmd := Lookup(t.shortCmds, cmd) + fileId];
      assert allCmds[..i + 1] == allCmds[..i] + [cmd];
      i := i + 1;
    }
    assert allCmds[..|allCmds|] == allCmds;
    kb := Keyboard(data, Button("Cancel", CommandCancel));
  }

  /**
   * The rows sent to the chat, for `order` the library's enumeration of the
   * button map (each command once, in some order): one command button per row,
   * each command in exactly one row, and the cancel button alone in the last row.
   */
  function Rows(kb: Keyboard, order: seq<string>): (rows: seq<seq<Button>>)
    requires forall k :: k in kb.choices <==> k in order
    requires forall i, j :: 0 <= i < j < |order| ==> order[i] != order[j]
    ensures |rows| == |kb.choices| + 1
    ensures rows[|rows| - 1] == [kb.cancel]
    ensures forall i :: 0 <= i < |rows| - 1 ==>
      |rows[i]| == 1 && rows[i][0].text in kb.choices && rows[i][0].callbackData == kb.choices[rows[i][0].text]
    ensures forall c :: c in kb.choices ==> exists i :: 0 <= i < |rows| - 1 && rows[i] == [Button(c, kb.choices[c])]
    ensures forall i, j :: 0 <= i < j < |rows| - 1 ==> rows[i] != rows[j]
  {
    DistinctCard(order);
    assert kb.choices.Keys == set k | k in order;
    var rows := seq(|order|, i requires 0 <= i < |order| => [Button(order[i], kb.choices[order[i]])]) + [[kb.cancel]];
    forall c | c in kb.choices
      ensures exists i :: 0 <= i < |rows| - 1 && rows[i] == [Button(c, kb.choices[c])]
    {
      var i :| 0 <= i < |order| && order[i] == c;
      assert rows[i] == [Button(c, kb.choices[c])];
    }
    forall i, j | 0 <= i < j < |rows| - 1 ensures rows[i] != rows[j] {
      assert rows[i][0].text == order[i] && rows[j][0].text == order[j];
    }
    rows
  }

  /** A list without repetitions has as many distinct elements as entries. */
  lemma {:induction false} DistinctCard(xs: seq<string>)
    requires forall i, j :: 0 <= i < j < |xs| ==> xs[i] != xs[j]
    ensures |set k | k in xs| == |xs|
  {
    if |xs| > 0 {
      var init := xs[..|xs| - 1];
      DistinctCard(init);
      assert (set k | k in xs) == (set k | k in init) + {xs[|xs| - 1]};
      assert xs[|xs| - 1] !in init;
    }
  }

  /** What a pressed button asks for. */
  datatype Selection = Canceled | Chosen(command: string, fileId: string)

  /**
   * The decoding in `processCallbackQuery`: the sentinel is tested first;
   * otherwise the first character selects the command through `cmdsMap`
   * (an unknown one gives the empty label) and the rest is the file id, verbatim.
   */
  function Decode(t: Tables, data: string): (s: Selection)
    requires |data| > 0
    ensures s.Canceled? <==> data == CommandCancel
    ensures s.Chosen? ==> data == [data[0]] + s.fileId
    ensures s.Chosen? && [data[0]] !in t.cmds ==> s.command == ""
    ensures s.Chosen? && [data[0]] in t.cmds ==> s.command == t.cmds[[data[0]]]
  {
    if data == CommandCancel then Canceled
    else Chosen(Lookup(t.cmds, [data[0]]), data[1..])
  }

  /** A command's token is never the cancel sentinel when the codes are upper-case letters. */
  lemma TokenNotCancel(cmds: seq<string>, c: string, fileId: string)
    requires UpperCodes(cmds) && c in cmds
    ensures Token(TablesOf(cmds), c, fileId) != CommandCancel
  {
    var i :| 0 <= i < |cmds| && cmds[i] == c;
    var tok := Token(TablesOf(cmds), c, fileId);
    assert tok[0] == c[0];
    assert CommandCancel[0] == 'c';
  }

  /**
   * Round trip: decoding the token of a command returns that command and exactly
   * the same file id, given distinct codes and a token other than the sentinel.
   */
  lemma DecodeToken(cmds: seq<string>, c: string, fileId: string)
    requires DistinctCodes(cmds) && c in cmds
    requires Token(TablesOf(cmds), c, fileId) != CommandCancel
    ensures Decode(TablesOf(cmds), Token(TablesOf(cmds), c, fileId)) == Chosen(c, fileId)
  {
    CodesRoundTrip(cmds, c);
    var tok := Token(TablesOf(cmds), c, fileId);
    assert tok == Code(c) + fileId;
    assert [tok[0]] == Code(c) && tok[1..] == fileId;
  }

  /**
   * Every button of an offered keyboard decodes to the command it is labelled
   * with and the offered file id, and the cancel button decodes to Canceled.
   */
  lemma KeyboardDecodes(cmds: seq<string>, fileId: string)
    requires DistinctCodes(cmds) && UpperCodes(cmds)
    ensures var t := TablesOf(cmds); var kb := KeyboardFor(t, cmds, fileId);
      && kb.choices.Keys == set c | c in cmds
      && (forall c :: c in kb.choices ==> |kb.choices[c]| > 0 && Decode(t, kb.choices[c]) == Chosen(c, fileId))
      && Decode(t, kb.cancel.callbackData) == Canceled
  {
    var t := TablesOf(cmds);
    var kb := KeyboardFor(t, cmds, fileId);
    forall c | c in kb.choices
      ensures |kb.choices[c]| > 0 && Decode(t, kb.choices[c]) == Chosen(c, fileId)
    {
      TokenNotCancel(cmds, c, fileId);
      DecodeToken(cmds, c, fileId);
    }
  }

  /** A command's callback data is its one-character code, the command's first letter, then the file id. */
  lemma TokenShape(cmds: seq<string>, c: string, fileId: string)
    requires Labelled(cmds) && c in cmds
    ensures var tok := Token(TablesOf(cmds), c, fileId);
      |tok| == |fileId| + 1 && tok[0] == c[0] && tok[1..] == fileId
  {
    var tok := Token(TablesOf(cmds), c, fileId);
    assert tok == Code(c) + fileId;
  }

  /**
   * In the rows actually sent, whatever order the library lists the buttons in,
   * each command row decodes to the command it shows and the offered file, and
   * the last row decodes to Canceled.
   */
  lemma RowsDecode(cmds: seq<string>, fileId: string, order: seq<string>)
    requires DistinctCodes(cmds) && UpperCodes(cmds)
    requires forall k :: k in cmds <==> k in order
    requires forall i, j :: 0 <= i < j < |order| ==> order[i] != order[j]
    ensures var t := TablesOf(cmds); var kb := KeyboardFor(t, cmds, fileId);
      && (forall k :: k in kb.choices <==> k in order)
      && var rows := Rows(kb, order);
      && (forall i :: 0 <= i < |rows| - 1 ==>
            |rows[i][0].callbackData| > 0 && Decode(t, rows[i][0].callbackData) == Chosen(rows[i][0].text, fileId))
      && Decode(t, rows[|rows| - 1][0].callbackData) == Canceled
  {
    KeyboardDecodes(cmds, fileId);
  }
}
