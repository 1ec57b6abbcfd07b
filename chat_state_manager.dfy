/** `ChatStateManager` (`service/telegram/chatStateManager.ts`): the dialogue state of
    each chat, kept in the chat data store under the "state" category, and the dispatch
    of an incoming message to the listener of its chat's state. The state's data is any
    value the listener stored; here it has type `D`, `null` being `None`. */
module ChatStateManager {
  import opened Wrappers
  import opened Text
  import opened Dict
  import opened Database

  const StateCategory := "state"

  /** `ComposedState` */
  datatype ComposedState<D> = ComposedState(state: string, data: Option<D>)

  /** `NO_STATE` */
  function NoState<D>(): ComposedState<D> {
    ComposedState("no-state", None)
  }

  /** An incoming message: its chat and its text, when it has one. */
  datatype Message = Message(chatId: ChatId, text: Option<string>)

  /** An emitted event: its name, the message, the state's data and the trimmed text. */
  datatype Event<D> = Event(name: string, message: Message, data: Option<D>, chatId: ChatId, text: string)

  /** The state `getState` finds in the store entries: the stored one, or `NO_STATE`. */
  function StateOf<D(==)>(entries: seq<Entry<string, Option<ComposedState<D>>>>, chatId: ChatId): ComposedState<D> {
    GetOrDefault(entries, ChatKey(chatId, StateCategory), None).GetOr(NoState())
  }

  /** Two chats share their state exactly when their ids have the same string form. */
  lemma StateKeysDiffer(a: ChatId, b: ChatId)
    requires ChatIdString(a) != ChatIdString(b)
    ensures ChatKey(a, StateCategory) != ChatKey(b, StateCategory)
  {
    var ka, kb := ChatKey(a, StateCategory), ChatKey(b, StateCategory);
    if |ka| == |kb| {
      assert ka[..|ChatIdString(a)|] == ChatIdString(a);
      assert kb[..|ChatIdString(b)|] == ChatIdString(b);
    }
  }

  /** A chat whose state was never set is in `NO_STATE`; after `state(c, s, d)` the chat
      is in `{s, d}`, after `flush` it is in `NO_STATE` again, and other chats keep their
      state throughout. */
  lemma StateThenGetState<D>(entries: seq<Entry<string, Option<ComposedState<D>>>>, c: ChatId, s: ComposedState<D>, other: ChatId)
    ensures !Has(entries, ChatKey(c, StateCategory)) ==> StateOf(entries, c) == NoState()
    ensures StateOf(Put(entries, ChatKey(c, StateCategory), Some(s)), c) == s
    ensures ChatIdString(other) != ChatIdString(c) ==>
      StateOf(Put(entries, ChatKey(c, StateCategory), Some(s)), other) == StateOf(entries, other)
  {
    UpdateThenGet(entries, ChatKey(c, StateCategory), Some(s), None, ChatKey(other, StateCategory));
    if ChatIdString(other) != ChatIdString(c) {
      StateKeysDiffer(c, other);
    }
  }

  /** The event `process` emits for a message in state `s`, if any. */
  function Dispatch<D>(s: ComposedState<D>, message: Message): (e: Option<Event<D>>)
    ensures e.None? <==> s.state == "no-state"
    ensures e.Some? ==> e.value.name == "state:" + s.state && e.value.data == s.data && e.value.message == message
    ensures e.Some? ==> e.value.text == if message.text.Some? then Trim(message.text.value) else ""
  {
    if s.state == "no-state" then None
    else Some(Event("state:" + s.state, message, s.data, message.chatId, if message.text.Some? then Trim(message.text.value) else ""))
  }

  /** An argument an event hands to its listener. */
  datatype Arg<D> = MessageArg(message: Message) | DataArg(data: Option<D>) | ContextArg(chatId: ChatId, text: string)

  /** The arguments `process` emits as written: the message, the state's data, then the
      context of the chat id and the trimmed text. */
  function EmittedArgs<D>(e: Event<D>): seq<Arg<D>> {
    [MessageArg(e.message), DataArg(e.data), ContextArg(e.chatId, e.text)]
  }

  /** The arguments the state listeners are written to take: the state's data, then the
      context. */
  function ListenerArgs<D>(e: Event<D>): seq<Arg<D>> {
    [DataArg(e.data), ContextArg(e.chatId, e.text)]
  }

  /** The state data a listener reads from its first parameter; read from any other
      object its fields are `undefined` (`None`). */
  function ListenerData<D>(args: seq<Arg<D>>): Option<D> {
    if |args| >= 1 && args[0].DataArg? then args[0].data else None
  }

  /** The `message` field a listener reads from its second parameter: `undefined`
      (`None`) unless that parameter is the context. */
  function ListenerText<D>(args: seq<Arg<D>>): Option<string> {
    if |args| >= 2 && args[1].ContextArg? then Some(args[1].text) else None
  }

  /** As written, a listener finds neither the state's data nor the text: its first
      parameter is the message and its second the data. */
  lemma EmittedArgsMissListener<D>(e: Event<D>)
    ensures ListenerData(EmittedArgs(e)) == None && ListenerText(EmittedArgs(e)) == None
  {
  }

  /** Emitted as the listeners take them, the data and the trimmed text arrive, so the
      listener always has a text. */
  lemma ListenerArgsReachListener<D>(e: Event<D>)
    ensures ListenerData(ListenerArgs(e)) == e.data && ListenerText(ListenerArgs(e)) == Some(e.text)
  {
  }

  class ChatStateManager<D(==)> {
    /** The chat data store. */
    const db: Store<Option<ComposedState<D>>>

    ghost predicate Valid()
      reads this, db
    {
      db.Valid()
    }

    constructor (db: Store<Option<ComposedState<D>>>)
      requires db.Valid()
      ensures Valid() && this.db == db
    {
      this.db := db;
    }

    /** `state` */
    method State(chatId: ChatId, newState: string, data: Option<D>)
      requires Valid()
      modifies db
      ensures Valid() && db.entries == Put(old(db.entries), ChatKey(chatId, StateCategory), Some(ComposedState(newState, data)))
      ensures StateOf(db.entries, chatId) == ComposedState(newState, data)
    {
      db.UpdateChatData(chatId, StateCategory, Some(ComposedState(newState, data)));
      StateThenGetState(old(db.entries), chatId, ComposedState(newState, data), chatId);
    }

    /** `flush` */
    method Flush(chatId: ChatId)
      requires Valid()
      modifies db
      ensures Valid() && db.entries == Put(old(db.entries), ChatKey(chatId, StateCategory), Some(NoState()))
      ensures StateOf(db.entries, chatId) == NoState()
    {
      db.UpdateChatData(chatId, StateCategory, Some(NoState()));
      StateThenGetState(old(db.entries), chatId, NoState(), chatId);
    }

    /** `getState` */
    method GetState(chatId: ChatId) returns (s: ComposedState<D>)
      ensures s == StateOf(db.entries, chatId)
    {
      var stored := db.GetChatData(chatId, StateCategory, None);
      s := stored.GetOr(NoState());
    }

    /** `process`: the event emitted for the message, if any; the state is not
        changed. */
    method Process(message: Message) returns (e: Option<Event<D>>)
      ensures e == Dispatch(StateOf(db.entries, message.chatId), message)
    {
      var s := GetState(message.chatId);
      if s.state == "no-state" {
        return None;
      }
      var text := if message.text.Some? then Trim(message.text.value) else "";
      e := Some(Event("state:" + s.state, message, s.data, message.chatId, text));
    }
  }
}
