/** `MessageWorker` (`service/messageWorker.ts`): one bot message per chat that is sent
    once and then edited in place. The worker remembers the last message's id and text;
    with `useLastMessage` the memory is also kept in the chat data store under the
    "lastMessage" category, so it survives a restart. The bot is outside the model: its
    answer to a send or an edit is a parameter. */
module MessageWorker {
  import opened Wrappers
  import opened Dict
  import opened Database

  const LastMessageCategory := "lastMessage"

  /** `LastMessageData` */
  datatype LastMessage = LastMessage(id: int, text: string)

  /** The bot call a send makes: none, an edit of a sent message, or a new message. */
  datatype BotCall = NoCall | EditCall(messageId: int, text: string) | SendCall(text: string)

  /** What `send` leads to: the remembered message afterwards, the promise's outcome and
      the bot call made. `delivered` is the bot's answer: the id of a new message (unused
      for an edit), or the error it rejected with. */
  datatype Sending = Sending(last: Option<LastMessage>, result: Result<int, string>, call: BotCall)

  function SendOutcome(last: Option<LastMessage>, message: string, delivered: Result<int, string>): (s: Sending)
    ensures last.Some? && last.value.text == message ==> s == Sending(last, Success(last.value.id), NoCall)
    ensures last.Some? && last.value.text != message ==> s.call == EditCall(last.value.id, message)
    ensures last.None? ==> s.call == SendCall(message)
    ensures s.call != NoCall && delivered.Failure? ==> s == Sending(last, Failure(delivered.error), s.call)
  {
    match last
    case Some(m) =>
      if m.text == message then Sending(last, Success(m.id), NoCall)
      else if delivered.Failure? then Sending(last, Failure(delivered.error), EditCall(m.id, message))
      else Sending(Some(LastMessage(m.id, message)), Success(m.id), EditCall(m.id, message))
    case None =>
      if delivered.Failure? then Sending(last, Failure(delivered.error), SendCall(message))
      else Sending(Some(LastMessage(delivered.value, message)), Success(delivered.value), SendCall(message))
  }

  /** A delivered send leaves the message remembered with the sent text, under the id it
      returns: the remembered id when there was one, the new message's id otherwise. */
  lemma DeliveredIsRemembered(last: Option<LastMessage>, message: string, delivered: Result<int, string>)
    requires delivered.Success?
    ensures var s := SendOutcome(last, message, delivered);
      && s.result.Success? && s.last == Some(LastMessage(s.result.value, message))
      && s.result.value == (if last.Some? then last.value.id else delivered.value)
  {
  }

  /** Sending the same text again makes no bot call and returns the same id. */
  lemma SendTwice(last: Option<LastMessage>, message: string, first: Result<int, string>, second: Result<int, string>)
    requires SendOutcome(last, message, first).result.Success?
    ensures var s1 := SendOutcome(last, message, first);
      var s2 := SendOutcome(s1.last, message, second);
      s2.call == NoCall && s2.result == s1.result && s2.last == s1.last
  {
  }

  class MessageWorker {
    const chatId: ChatId
    const useLastMessage: bool
    /** `_lastMessage`, `null` being `None`. */
    var lastMessage: Option<LastMessage>
    /** The chat data store; it holds `None` where the data is `null`. */
    const db: Store<Option<LastMessage>>

    ghost predicate Valid()
      reads this, db
    {
      db.Valid()
    }

    /** The constructor loads the remembered message only with `useLastMessage`. */
    constructor (chatId: ChatId, useLastMessage: bool, db: Store<Option<LastMessage>>)
      requires db.Valid()
      ensures Valid() && this.chatId == chatId && this.useLastMessage == useLastMessage && this.db == db
      ensures lastMessage == if useLastMessage then GetOrDefault(db.entries, ChatKey(chatId, LastMessageCategory), None) else None
    {
      var loaded := None;
      if useLastMessage {
        loaded := db.GetChatData(chatId, LastMessageCategory, None);
      }
      this.chatId := chatId;
      this.useLastMessage := useLastMessage;
      this.db := db;
      lastMessage := loaded;
    }

    /** `send`: the remembered message and the result are those of `SendOutcome`; after a
        bot call that succeeded, the remembered message is persisted with
        `useLastMessage`. */
    method Send(message: string, delivered: Result<int, string>) returns (r: Result<int, string>, call: BotCall)
      requires Valid()
      modifies this, db
      ensures Valid()
      ensures Sending(lastMessage, r, call) == SendOutcome(old(lastMessage), message, delivered)
      ensures db.entries ==
        if useLastMessage && call != NoCall && r.Success?
        then Put(old(db.entries), ChatKey(chatId, LastMessageCategory), lastMessage)
        else old(db.entries)
    {
      if lastMessage.Some? {
        var m := lastMessage.value;
        if m.text == message {
          return Success(m.id), NoCall;
        }
        call := EditCall(m.id, message);
        if delivered.Failure? {
          return Failure(delivered.error), call;
        }
        lastMessage := Some(LastMessage(m.id, message));
      } else {
        call := SendCall(message);
        if delivered.Failure? {
          return Failure(delivered.error), call;
        }
        lastMessage := Some(LastMessage(delivered.value, message));
      }
      if useLastMessage {
        db.UpdateChatData(chatId, LastMessageCategory, lastMessage);
      }
      r := Success(lastMessage.value.id);
    }

    /** `forgetLastMessage`: only a remembered message of a persisting worker is
        forgotten, in memory and in the store. */
    method ForgetLastMessage()
      requires Valid()
      modifies this, db
      ensures Valid()
      ensures old(lastMessage).Some? && useLastMessage ==>
        lastMessage == None && db.entries == Remove(old(db.entries), ChatKey(chatId, LastMessageCategory))
      ensures old(lastMessage).None? || !useLastMessage ==> lastMessage == old(lastMessage) && db.entries == old(db.entries)
    {
      if lastMessage.Some? && useLastMessage {
        db.DeleteChatData(chatId, LastMessageCategory);
        lastMessage := None;
      }
    }
  }
}
