/** The bot's chat data store (`service/database.ts`): one file-backed FSDB whose
    entries are addressed by flat keys. Chat data is stored under the chat id's string
    form, a colon and the data's category. The store is modelled as its entries in
    insertion order (`getAll` returns them in that order); the file it is saved to is not
    modelled. */
module Database {
  import opened Wrappers
  import opened Text
  import opened Dict

  /** `ChatId`: Telegram gives a number or a string. */
  datatype ChatId = NumericId(n: int) | NamedId(name: string)

  /** `chatId.toString()` */
  function ChatIdString(id: ChatId): string {
    match id
    case NumericId(n) => IntToString(n)
    case NamedId(name) => name
  }

  /** The key of a chat's data of one category. */
  function ChatKey(id: ChatId, category: string): (r: string)
    ensures EndsWith(r, ":" + category) && StartsWith(r, ChatIdString(id) + ":")
  {
    ChatIdString(id) + ":" + category
  }

  /** A numeric chat id has no colon in its string form, so its keys tell both the chat
      and the category apart. */
  lemma NumericChatKeyInjective(a: int, b: int, c1: string, c2: string)
    requires ChatKey(NumericId(a), c1) == ChatKey(NumericId(b), c2)
    ensures a == b && c1 == c2
  {
    var s1, s2 := IntToString(a), IntToString(b);
    var k := ChatKey(NumericId(a), c1);
    assert ':' !in s1 && ':' !in s2 by {
      assert forall i :: 0 <= i < |s1| ==> s1[i] == '-' || IsDigit(s1[i]);
      assert forall i :: 0 <= i < |s2| ==> s2[i] == '-' || IsDigit(s2[i]);
    }
    assert forall i :: 0 <= i < |s1| ==> k[i] == s1[i] != ':';
    assert forall i :: 0 <= i < |s2| ==> k[i] == s2[i] != ':';
    assert k[|s1|] == ':' && k[|s2|] == ':';
    assert s1 == k[..|s1|] == s2;
    ParseIntOfIntToString(a);
    ParseIntOfIntToString(b);
    assert c1 == k[|s1| + 1..] == c2;
  }

  /** `getData(key, def)`: the stored value, or the default when there is none. */
  function GetOrDefault<V(==)>(entries: seq<Entry<string, V>>, key: string, def: V): (r: V)
    ensures Has(entries, key) ==> Entry(key, r) in entries
    ensures !Has(entries, key) ==> r == def
  {
    Find(entries, key).GetOr(def)
  }

  /** `getAll(category)`: the entries whose key ends with the category, in store order. */
  function EntriesOf<V(==)>(entries: seq<Entry<string, V>>, category: string): seq<Entry<string, V>> {
    FilterKeys(entries, (k: string) => EndsWith(k, category))
  }

  /** `getAll(category)` returns exactly the entries whose key ends with the category. */
  lemma EntriesOfIff<V>(entries: seq<Entry<string, V>>, category: string, e: Entry<string, V>)
    ensures e in EntriesOf(entries, category) <==> e in entries && EndsWith(e.key, category)
  {
    var r := EntriesOf(entries, category);
    if e in r {
      var i :| 0 <= i < |r| && r[i] == e;
    }
    if e in entries && EndsWith(e.key, category) {
      var i :| 0 <= i < |entries| && entries[i] == e;
    }
  }

  /** The data of every chat in a category is among that category's entries. */
  lemma ChatDataInCategory<V>(entries: seq<Entry<string, V>>, id: ChatId, category: string, v: V)
    requires Entry(ChatKey(id, category), v) in entries
    ensures Entry(ChatKey(id, category), v) in EntriesOf(entries, category)
  {
    var k := ChatKey(id, category);
    assert EndsWith(k, category) by {
      assert k[|k| - |category|..] == (":" + category)[1..];
    }
    EntriesOfIff(entries, category, Entry(k, v));
  }

  /** Data written is read back, and deleted data reads as the default; other keys are
      left as they were. */
  lemma UpdateThenGet<V>(entries: seq<Entry<string, V>>, key: string, data: V, def: V, other: string)
    ensures GetOrDefault(Put(entries, key, data), key, def) == data
    ensures GetOrDefault(Remove(entries, key), key, def) == def
    ensures other != key ==>
      && GetOrDefault(Put(entries, key, data), other, def) == GetOrDefault(entries, other, def)
      && GetOrDefault(Remove(entries, key), other, def) == GetOrDefault(entries, other, def)
  {
    PutFind(entries, key, data, key);
    PutFind(entries, key, data, other);
    RemoveFind(entries, key, key);
    RemoveFind(entries, key, other);
  }

  /** The FSDB instance behind the bot's data. */
  class Store<V(==)> {
    var entries: seq<Entry<string, V>>

    ghost predicate Valid()
      reads this
    {
      UniqueKeys(entries)
    }

    constructor ()
      ensures Valid() && entries == []
    {
      entries := [];
    }

    /** `updateData` */
    method UpdateData(key: string, data: V)
      requires Valid()
      modifies this
      ensures Valid() && entries == Put(old(entries), key, data)
    {
      PutUnique(entries, key, data);
      entries := Put(entries, key, data);
    }

    /** `getData` */
    method GetData(key: string, def: V) returns (r: V)
      ensures r == GetOrDefault(entries, key, def)
    {
      r := Find(entries, key).GetOr(def);
    }

    /** `deleteData` */
    method DeleteData(key: string)
      requires Valid()
      modifies this
      ensures Valid() && entries == Remove(old(entries), key)
    {
      RemoveUnique(entries, key);
      entries := Remove(entries, key);
    }

    /** `getAll` */
    method GetAll(category: string) returns (r: seq<Entry<string, V>>)
      ensures r == EntriesOf(entries, category)
    {
      r := FilterKeys(entries, (k: string) => EndsWith(k, category));
    }

    /** `updateChatData` */
    method UpdateChatData(id: ChatId, category: string, data: V)
      requires Valid()
      modifies this
      ensures Valid() && entries == Put(old(entries), ChatKey(id, category), data)
    {
      UpdateData(ChatKey(id, category), data);
    }

    /** `getChatData` */
    method GetChatData(id: ChatId, category: string, def: V) returns (r: V)
      ensures r == GetOrDefault(entries, ChatKey(id, category), def)
    {
      r := GetData(ChatKey(id, category), def);
    }

    /** `deleteChatData` */
    method DeleteChatData(id: ChatId, category: string)
      requires Valid()
      modifies this
      ensures Valid() && entries == Remove(old(entries), ChatKey(id, category))
    {
      DeleteData(ChatKey(id, category));
    }
  }
}
