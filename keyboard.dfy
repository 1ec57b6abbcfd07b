/** The inline keyboards of `service/keyboard.ts`: a one-button confirmation keyboard and
    the pagination row. A button's callback data is the handler prefix, a colon and the
    payload. */
module Keyboard {
  import opened Wrappers
  import opened Text

  datatype Button = Button(text: string, callbackData: string)

  /** An inline keyboard: rows of buttons. */
  type InlineKeyboard = seq<seq<Button>>

  const ConfirmText := "Подтвердить"

  /** The callback data of a button for handler `prefix`. */
  function Callback(prefix: string, payload: string): (r: string)
    ensures StartsWith(r, prefix + ":") && r[|prefix| + 1..] == payload
  {
    prefix + ":" + payload
  }

  /** `makeConfirmationKeyboard`: one row holding one confirm button for `payload`. */
  function ConfirmationKeyboard(prefix: string, payload: string): (k: InlineKeyboard)
    ensures |k| == 1 && |k[0]| == 1
    ensures k[0][0].text == ConfirmText && k[0][0].callbackData == prefix + ":" + payload
  {
    [[Button(ConfirmText, Callback(prefix, payload))]]
  }

  /** The pages the pagination buttons lead to, in button order: the first and the
      previous page when there is a previous page, the next and the last page when there
      is a next one. */
  function Targets(page: int, total: int): (r: seq<int>)
    ensures |r| == (if page > 0 then 2 else 0) + (if page < total then 2 else 0)
  {
    (if page > 0 then [0, page - 1] else []) + (if page < total then [page + 1, total] else [])
  }

  /** `makePaginationKeyboard`: a single row of navigation buttons. */
  function PaginationKeyboard(prefix: string, page: int, total: int): (k: InlineKeyboard)
    ensures |k| == 1 && |k[0]| <= 4
    ensures |k[0]| == |Targets(page, total)|
    ensures forall i :: 0 <= i < |k[0]| ==> k[0][i].callbackData == Callback(prefix, IntToString(Targets(page, total)[i]))
  {
    var back := if page > 0 then [Button("<<", Callback(prefix, "0")), Button("<", Callback(prefix, IntToString(page - 1)))] else [];
    var forward := if page < total then [Button(">", Callback(prefix, IntToString(page + 1))), Button(">>", Callback(prefix, IntToString(total)))] else [];
    [back + forward]
  }

  /** The labels of the pagination row: "<<" and "<" first when there is a previous page,
      then ">" and ">>" when there is a next one. */
  lemma PaginationLabels(prefix: string, page: int, total: int)
    ensures var row := PaginationKeyboard(prefix, page, total)[0];
      && (page > 0 ==> row[0].text == "<<" && row[1].text == "<")
      && (page < total ==> row[|row| - 2].text == ">" && row[|row| - 1].text == ">>")
      && (page <= 0 && page >= total <==> row == [])
  {
  }

  /** For a page within [0, total], every button leads to a page within [0, total]. */
  lemma TargetsInRange(page: int, total: int)
    requires 0 <= page <= total
    ensures forall t :: t in Targets(page, total) ==> 0 <= t <= total
  {
  }

  /** The page a button leads to is read back from its callback data. */
  lemma CallbackPage(prefix: string, page: int, total: int, i: nat)
    requires i < |PaginationKeyboard(prefix, page, total)[0]|
    ensures var data := PaginationKeyboard(prefix, page, total)[0][i].callbackData;
      StartsWith(data, prefix + ":") && ParseInt(data[|prefix| + 1..]) == Some(Targets(page, total)[i])
  {
    ParseIntOfIntToString(Targets(page, total)[i]);
  }
}
