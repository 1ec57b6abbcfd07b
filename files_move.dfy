/** Moving a file (`listeners/filesMove.ts`): the listing of the directories a file can
    be moved to, fifteen to a page, each with its `/moveFileTo_N` command, and the
    listener of the "file_move" chat state that answers those commands. The listener's
    effects are its one reply, the two paths it hands to the storage manager's `move`,
    and the flush of the chat's state; sending and moving themselves are not
    modelled. */
module FilesMove {
  import opened Wrappers
  import opened Text
  import opened Seqs
  import opened ServiceIndex
  import opened StorageManager
  import opened Dict
  import opened Database
  import opened ChatStateManager
  import Paths

  /** `PAGE_SIZE` */
  const PageSize := 15

  /** The listener's replies. */
  const MoveCancel := "Перемещение отменено!"
  const LocationIdNotPassed := "Индекс локации должен быть передан!"
  const SelectMoveLocation := Cancelable("Выберите директорию для перемещения файла")
  const UnknownCommand := "Неизвестная команда"

  /** The command that picks a location. */
  const MoveTo := "/moveFileTo"

  /** The data of the "file_move" state: the file, its base name and the directories it
      can go to. */
  datatype MoveData = MoveData(file: FileData, target: string, locations: seq<FileData>)

  /** The line of a location on a page starting at index `first`. */
  function LocationLine(first: int): (FileData, nat) -> seq<string> {
    (location: FileData, index: nat) => ["<code>" + location.path + "</code> [" + MoveTo + "_" + IntToString(first + index) + "]"]
  }

  /** `createMessage`: the locations of page `page` under a header naming the file, with
      the cancel command after them. */
  function CreateMessage(target: string, locations: seq<FileData>, page: int): string {
    var first := page * PageSize;
    Cancelable(Listing("Перемещение файла <code>" + target + "</code>. Выберите новое местоположение файла",
      Slice(locations, first, first + PageSize), LocationLine(first)))
  }

  /** What the listener does: it replies once, and may move the file and flush the
      chat's state; `Crashed` is a listener that throws before doing anything. */
  datatype Outcome = Outcome(reply: string, moved: Option<(string, string)>, flushed: bool) | Crashed

  /** `locations[parseInt(index)]`, when that is a location. */
  function Location(locations: seq<FileData>, index: string): Option<FileData> {
    match ParseInt(index)
    case Some(i) => if 0 <= i < |locations| then Some(locations[i]) else None
    case None => None
  }

  /** `parseInt` without a radix reads a "0x" index in base 16: "0x10" names the
      location at index 16. */
  lemma HexLocation(locations: seq<FileData>)
    ensures Location(locations, "0x10") == if 16 < |locations| then Some(locations[16]) else None
  {
    assert "0x10" == "0x" + "10";
    assert AllHexDigits("10");
    ParseIntHex("10");
    assert "10"[..1] == "1";
    assert HexValue("10") == 16;
  }

  /** The reply to a move. */
  function MovedText(name: string, size: int, path: string): string {
    "Файл <code>" + name + " [" + IntToString(size) + "]</code> успешно перемещен в <code>" + path + "</code>!"
  }

  /** The paths the listener hands to `move`: the file's path, and the location joined
      with the file's name and extension, so that the file keeps its base name in the
      location. */
  function MovePaths(file: FileData, location: string): (r: (string, string))
    ensures r.0 == file.path
    ensures location != "" ==> Paths.Dir(r.1) == location && Paths.Base(r.1) == Paths.Base(file.path)
  {
    var base := Paths.Base(file.path);
    Paths.NameThenExt(base);
    if location != "" then
      Paths.JoinParse(location, Paths.Name(base) + Paths.Ext(base));
      (file.path, Paths.Join(location, Paths.Name(base) + Paths.Ext(base)))
    else
      (file.path, Paths.Join(location, Paths.Name(base) + Paths.Ext(base)))
  }

  /** What the listener does for a message, given the state's data. Without a message it
      asks for a location; a command is the message up to its first '_'. An index that
      names no location makes the destructuring of `undefined` throw. */
  function Handle(data: MoveData, message: Option<string>): Outcome {
    match message
    case None => Outcome(SelectMoveLocation, None, false)
    case Some(text) =>
      var parts := Split(text, '_');
      if parts[0] == MoveTo then
        if |parts| < 2 then Outcome(LocationIdNotPassed, None, true)
        else match Location(data.locations, parts[1])
          case None => Crashed
          case Some(location) =>
            Outcome(MovedText(Paths.Name(Paths.Base(data.file.path)), data.file.size, location.path), Some(MovePaths(data.file, location.path)), true)
      else if parts[0] == "/cancel" then Outcome(MoveCancel, None, true)
      else Outcome(UnknownCommand, None, false)
  }

  /** The listener of "state:file_move": it answers the message and, unless the command
      is unknown, there is no message or it throws, flushes the chat's state. */
  method OnFileMove(states: ChatStateManager<MoveData>, data: MoveData, chatId: ChatId, message: Option<string>)
    returns (o: Outcome)
    requires states.Valid()
    modifies states.db
    ensures states.Valid()
    ensures o == Handle(data, message)
    ensures o.Outcome? && o.flushed ==>
      states.db.entries == Put(old(states.db.entries), ChatKey(chatId, StateCategory), Some(NoState()))
    ensures !(o.Outcome? && o.flushed) ==> states.db.entries == old(states.db.entries)
  {
    if message.None? {
      return Outcome(SelectMoveLocation, None, false);
    }
    var parts := Split(message.value, '_');
    if parts[0] == MoveTo {
      if |parts| < 2 {
        o := Outcome(LocationIdNotPassed, None, true);
      } else {
        var location := Location(data.locations, parts[1]);
        if location.None? {
          return Crashed;
        }
        var base := Paths.Base(data.file.path);
        var name, ext := Paths.Name(base), Paths.Ext(base);
        var dest := Paths.Join(location.value.path, name + ext);
        o := Outcome(MovedText(name, data.file.size, location.value.path), Some((data.file.path, dest)), true);
        assert o.moved == Some(MovePaths(data.file, location.value.path));
      }
    } else if parts[0] == "/cancel" {
      o := Outcome(MoveCancel, None, true);
    } else {
      return Outcome(UnknownCommand, None, false);
    }
    states.Flush(chatId);
  }

  /** The event of a chat in the "file_move" state handed to its listener as the
      listener takes its arguments; data that is not there makes the destructuring
      throw. */
  method OnEvent(states: ChatStateManager<MoveData>, e: Event<MoveData>) returns (o: Outcome)
    requires states.Valid() && e.name == "state:file_move"
    modifies states.db
    ensures states.Valid()
    ensures o == match ListenerData(ListenerArgs(e))
      case None => Crashed
      case Some(data) => Handle(data, ListenerText(ListenerArgs(e)))
    ensures ListenerData(ListenerArgs(e)).Some? && o.Outcome? && o.flushed ==>
      states.db.entries == Put(old(states.db.entries), ChatKey(e.chatId, StateCategory), Some(NoState()))
    ensures !(ListenerData(ListenerArgs(e)).Some? && o.Outcome? && o.flushed) ==> states.db.entries == old(states.db.entries)
  {
    var args := ListenerArgs(e);
    var data := ListenerData(args);
    if data.None? {
      return Crashed;
    }
    o := OnFileMove(states, data.value, e.chatId, ListenerText(args));
  }

  /** "/moveFileTo" with no index answers that the index is missing, moves nothing and
      ends the dialogue. */
  lemma MissingIndex(data: MoveData)
    ensures Handle(data, Some(MoveTo)) == Outcome(LocationIdNotPassed, None, true)
  {
    assert '_' !in MoveTo;
    SplitJoin(MoveTo, '_');
  }

  /** Every outcome but an unknown command, a missing message and a throw ends the
      dialogue; an unknown command and a missing message keep it, and only a chosen
      location moves the file. */
  lemma FlushUnlessUnknown(data: MoveData, text: string)
    ensures var o := Handle(data, Some(text));
      && (o.Outcome? ==> (o.flushed <==> o.reply != UnknownCommand))
      && (o.Outcome? && o.moved.Some? ==> Split(text, '_')[0] == MoveTo)
    ensures !Handle(data, None).flushed && Handle(data, None).moved.None?
  {
  }

  /** A file is moved only into one of the listed locations. */
  lemma MovedIntoLocation(data: MoveData, message: Option<string>)
    requires Handle(data, message).Outcome? && Handle(data, message).moved.Some?
    ensures exists i :: 0 <= i < |data.locations| && Handle(data, message).moved == Some(MovePaths(data.file, data.locations[i].path))
  {
    var parts := Split(message.value, '_');
    var i := ParseInt(parts[1]).value;
    assert Location(data.locations, parts[1]) == Some(data.locations[i]);
  }

  /** The line of the `k`-th location of page `page` carries the index of that location
      in the whole list. */
  lemma {:induction false} ListedLine(target: string, locations: seq<FileData>, page: nat, k: nat)
    requires k < |Slice(locations, page * PageSize, page * PageSize + PageSize)|
    ensures page * PageSize + k < |locations|
    ensures var lines := Entries(Slice(locations, page * PageSize, page * PageSize + PageSize), LocationLine(page * PageSize));
      && |lines| == |Slice(locations, page * PageSize, page * PageSize + PageSize)|
      && lines[k] == "<code>" + locations[page * PageSize + k].path + "</code> [" + MoveTo + "_" + IntToString(page * PageSize + k) + "]"
  {
    var first := page * PageSize;
    var shown := Slice(locations, first, first + PageSize);
    SliceWindow(locations, first, PageSize);
    EntriesOnePerElement(shown, LocationLine(first));
  }

  /** The command for index `n` splits into the command name and the index, which
      reads back as `n`. */
  lemma CommandParts(n: int)
    ensures Split(MoveTo + "_" + IntToString(n), '_') == [MoveTo, IntToString(n)]
    ensures ParseInt(IntToString(n)) == Some(n)
  {
    var digits := IntToString(n);
    assert '_' !in MoveTo;
    assert '_' !in digits by {
      assert forall i :: 0 <= i < |digits| ==> digits[i] == '-' || IsDigit(digits[i]);
    }
    SplitAfterPiece(MoveTo, digits, '_');
    SplitJoin(digits, '_');
    assert Split(digits, '_') == [digits];
    assert MoveTo + "_" + digits == MoveTo + ['_'] + digits;
    ParseIntOfIntToString(n);
  }

  /** The command naming location `n` moves the file there and ends the dialogue. */
  lemma CommandMoves(data: MoveData, n: nat)
    requires n < |data.locations|
    ensures var o := Handle(data, Some(MoveTo + "_" + IntToString(n)));
      && o.Outcome? && o.flushed
      && o.moved == Some(MovePaths(data.file, data.locations[n].path))
  {
    CommandParts(n);
    assert Location(data.locations, IntToString(n)) == Some(data.locations[n]);
  }

  /** Sending back the command listed for a location moves the file into that location
      and ends the dialogue. */
  lemma ListedCommandMoves(data: MoveData, page: nat, k: nat)
    requires k < |Slice(data.locations, page * PageSize, page * PageSize + PageSize)|
    ensures var n := page * PageSize + k;
      && n < |data.locations|
      && var o := Handle(data, Some(MoveTo + "_" + IntToString(n)));
      && o.Outcome? && o.flushed
      && o.moved == Some(MovePaths(data.file, data.locations[n].path))
  {
    SliceWindow(data.locations, page * PageSize, PageSize);
    CommandMoves(data, page * PageSize + k);
  }

  /** As `process` emits its arguments, the listener finds no text whatever the message:
      a chat in the "file_move" state is asked for a location again and again, no file
      is moved and the dialogue never ends. */
  lemma EmittedCommandIgnored(e: Event<MoveData>, data: MoveData)
    ensures Handle(data, ListenerText(EmittedArgs(e))) == Outcome(SelectMoveLocation, None, false)
  {
    EmittedArgsMissListener(e);
  }

  /** Emitted as the listener takes its arguments, the listed command of a location
      reaches the listener and moves the file there. */
  lemma ListedCommandReachesListener(e: Event<MoveData>, data: MoveData, page: nat, k: nat)
    requires e.data == Some(data) && k < |Slice(data.locations, page * PageSize, page * PageSize + PageSize)|
    requires e.text == MoveTo + "_" + IntToString(page * PageSize + k)
    ensures var o := Handle(ListenerData(ListenerArgs(e)).value, ListenerText(ListenerArgs(e)));
      && o.Outcome? && o.flushed
      && o.moved == Some(MovePaths(data.file, data.locations[page * PageSize + k].path))
  {
    ListenerArgsReachListener(e);
    ListedCommandMoves(data, page, k);
  }
}
