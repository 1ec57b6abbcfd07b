/** `PanelManager` and `Panel` (`service/panelManager.ts`): one status message per chat
    that lists the running downloads with a progress bar each and a summary line. A
    panel keeps its downloads' data and bars by download id; adding or removing one asks
    for an update, and an update sends the panel's text through the chat's message
    worker, backing off when the send fails. The throttling of updates is outside the
    model: whether a call asks for an update is returned, and an update is a method of
    its own. Number formatting (`humanFormat`, `toFixed(2)`) is left abstract. */
module PanelManager {
  import opened Wrappers
  import opened Text
  import opened Dict
  import opened Seqs
  import opened ServiceIndex
  import opened Database
  import opened MessageWorker
  import opened ProgressBar

  /** `PANEL_UPDATE_INTERVAL` and the bounds of the back-off. */
  const PanelUpdateInterval := 5000
  const MaxInterval := 25000000
  const IntervalStep := 1000000

  /** The text of a panel with no downloads. */
  const AllDone := "Все данные успешно загружены\\!"

  /** `PanelData` */
  datatype PanelData = PanelData(name: string, speed: real, size: real, downloaded: real, percent: real, isSubsection: bool)

  /** `humanFormat` and `toFixed(2)` */
  datatype Format = Format(human: real -> string, fixed: real -> string)

  /** Whether `add` asks for an update: for a new download, or a changed name, percent or
      speed. */
  predicate Triggers(prev: Option<PanelData>, data: PanelData) {
    prev.None? || prev.value.name != data.name || prev.value.percent != data.percent || prev.value.speed != data.speed
  }

  /** A change of size or downloaded amount alone does not ask for an update. */
  lemma SizeChangeIsQuiet(prev: PanelData, size: real, downloaded: real)
    ensures !Triggers(Some(prev), prev.(size := size, downloaded := downloaded))
    ensures Triggers(None, prev)
  {
  }

  /** The interval after an update: a failed send lengthens it by a step up to the
      maximum; a delivered one shortens it by a step down to the base interval. */
  function NextInterval(interval: int, delivered: bool): (r: int)
    ensures PanelUpdateInterval <= interval <= MaxInterval ==> PanelUpdateInterval <= r <= MaxInterval
    ensures !delivered && interval <= MaxInterval ==> r >= interval
    ensures delivered && interval >= PanelUpdateInterval ==> r <= interval
  {
    if !delivered then (if interval + IntervalStep < MaxInterval then interval + IntervalStep else MaxInterval)
    else if interval != PanelUpdateInterval then (if interval - IntervalStep > PanelUpdateInterval then interval - IntervalStep else PanelUpdateInterval)
    else interval
  }

  /** The interval after `n` updates with the same outcome. */
  function Repeated(interval: int, delivered: bool, n: nat): int
    decreases n
  {
    if n == 0 then interval else NextInterval(Repeated(interval, delivered, n - 1), delivered)
  }

  /** `n` failed sends in a row lengthen the interval by `n` steps, up to the maximum;
      `n` delivered ones shorten it by `n` steps, down to the base interval. */
  lemma {:induction false} RepeatedInterval(interval: int, n: nat)
    requires PanelUpdateInterval <= interval <= MaxInterval
    ensures Repeated(interval, false, n) == if interval + n * IntervalStep < MaxInterval then interval + n * IntervalStep else MaxInterval
    ensures Repeated(interval, true, n) == if interval - n * IntervalStep > PanelUpdateInterval then interval - n * IntervalStep else PanelUpdateInterval
    decreases n
  {
    if n > 0 {
      RepeatedInterval(interval, n - 1);
    }
  }

  /** The progress bar of a download line: a bar of total 100 and length 17 set to the
      download's percent. */
  function Bar(percent: real): string {
    Rendered(Absolute(Clamp(percent, 100.0), 100.0, 17), 17)
  }

  /** The line of one download: its name fitted to 64 characters, its bar, the amounts,
      the speed unless it is a subsection, and the percent. */
  function EntryLine(d: PanelData, fmt: Format): string {
    LineOf(d, Bar(d.percent), fmt)
  }

  /** The line of one download around its rendered bar. */
  function LineOf(d: PanelData, bar: string, fmt: Format): string {
    Fitted(d.name, 64) + ": " + bar + " [" + fmt.human(d.downloaded) + " из " + fmt.human(d.size) + "]"
      + (if d.isSubsection then "" else " " + fmt.human(d.speed) + "/S")
      + " (" + fmt.fixed(d.percent) + "%)"
  }

  /** The summary `_message` accumulates. */
  datatype Totals = Totals(speed: real, percent: real, downloaded: real, size: real, sections: nat)

  /** One step of the accumulation: a subsection adds nothing. */
  function Step(t: Totals, d: PanelData): Totals {
    if d.isSubsection then t
    else Totals(t.speed + d.speed, t.percent + d.percent, t.downloaded + d.downloaded, t.size + d.size, t.sections + 1)
  }

  /** The summary of the downloads `entries`. */
  function Summed(entries: seq<Entry<string, PanelData>>): Totals
    decreases |entries|
  {
    if entries == [] then Totals(0.0, 0.0, 0.0, 0.0, 0)
    else Step(Summed(entries[..|entries| - 1]), entries[|entries| - 1].value)
  }

  /** The download lines of `entries`, in order. */
  function Lines(entries: seq<Entry<string, PanelData>>, fmt: Format): seq<string>
    decreases |entries|
  {
    if entries == [] then []
    else Lines(entries[..|entries| - 1], fmt) + [EntryLine(entries[|entries| - 1].value, fmt)]
  }

  /** The summary line; with no section the average percent is `NaN`. */
  function Header(t: Totals, fmt: Format): string {
    "Выполняется загрузка... [" + fmt.human(t.downloaded) + " из " + fmt.human(t.size) + "] " + fmt.human(t.speed) + "/S ("
      + (if t.sections == 0 then "NaN" else fmt.fixed(t.percent / t.sections as real)) + "%)\n"
  }

  /** What `_message` returns for the downloads `entries`. */
  function PanelMessage(entries: seq<Entry<string, PanelData>>, fmt: Format): string {
    if entries == [] then AllDone
    else "```\n" + Join([Header(Summed(entries), fmt)] + Lines(entries, fmt), "\n") + "```"
  }

  predicate IsSection(e: Entry<string, PanelData>) {
    !e.value.isSubsection
  }

  /** The summary counts only the downloads that are not subsections: it is the summary
      of those alone, and counts them. */
  lemma {:induction false} SummedSectionsOnly(entries: seq<Entry<string, PanelData>>)
    ensures Summed(entries) == Summed(Filter(entries, IsSection))
    ensures Summed(entries).sections == |Filter(entries, IsSection)|
    decreases |entries|
  {
    if entries != [] {
      var init, last := entries[..|entries| - 1], entries[|entries| - 1];
      SummedSectionsOnly(init);
      assert entries == init + [last];
      FilterAppend(init, [last], IsSection);
      var kept := Filter(entries, IsSection);
      if IsSection(last) {
        assert kept[..|kept| - 1] == Filter(init, IsSection);
      } else {
        assert kept == Filter(init, IsSection);
      }
    }
  }

  /** There is one line per download, in order. */
  lemma {:induction false} LinesOnePerEntry(entries: seq<Entry<string, PanelData>>, fmt: Format)
    ensures |Lines(entries, fmt)| == |entries|
    ensures forall i :: 0 <= i < |entries| ==> Lines(entries, fmt)[i] == EntryLine(entries[i].value, fmt)
    decreases |entries|
  {
    if entries != [] {
      var init := entries[..|entries| - 1];
      LinesOnePerEntry(init, fmt);
      assert forall i :: 0 <= i < |init| ==> init[i] == entries[i];
    }
  }

  lemma SnocStep(entries: seq<Entry<string, PanelData>>, i: nat, fmt: Format)
    requires i < |entries|
    ensures Summed(entries[..i + 1]) == Step(Summed(entries[..i]), entries[i].value)
    ensures Lines(entries[..i + 1], fmt) == Lines(entries[..i], fmt) + [EntryLine(entries[i].value, fmt)]
  {
    assert entries[..i + 1][..i] == entries[..i];
  }

  /** The downloads with data are those with a bar. */
  ghost predicate SameKeys(data: seq<Entry<string, PanelData>>, keys: set<string>) {
    forall k :: k in keys <==> Has(data, k)
  }

  lemma PutSameKeys(data: seq<Entry<string, PanelData>>, keys: set<string>, id: string, d: PanelData)
    requires SameKeys(data, keys)
    ensures SameKeys(Put(data, id, d), keys + {id})
  {
    PutKeys(data, id, d);
  }

  lemma RemoveSameKeys(data: seq<Entry<string, PanelData>>, keys: set<string>, id: string)
    requires SameKeys(data, keys)
    ensures SameKeys(Dict.Remove(data, id), keys - {id})
  {
    forall k ensures Has(Dict.Remove(data, id), k) <==> Has(data, k) && k != id {
      RemoveHas(data, id, k);
    }
  }

  /** Every bar has total 100 and length 17. */
  ghost predicate ValidBars(bars: map<string, ProgressBar>)
    reads bars.Values
  {
    forall k :: k in bars ==> bars[k].Valid() && bars[k].total == 100.0 && bars[k].length == 17
  }

  /** The bars of the first `n` downloads show their downloads' percents. */
  ghost predicate BarsSet(entries: seq<Entry<string, PanelData>>, bars: map<string, ProgressBar>, n: int)
    requires 0 <= n <= |entries|
    reads bars.Values
  {
    forall j :: 0 <= j < n ==> entries[j].key in bars && bars[entries[j].key].current == Clamp(entries[j].value.percent, 100.0)
  }

  /** Each download has a bar of its own: `add` creates a new one per id. */
  predicate DistinctBars(bars: map<string, ProgressBar>) {
    forall a, b :: a in bars && b in bars && a != b ==> bars[a] != bars[b]
  }

  /** The worker's state after `_update` sent `message` from a worker that held `last`
      and a store that held `entries`: a delivered new text is kept and stored under the
      chat's key, and a delivered text of an empty panel is then forgotten and its key
      deleted from the store. */
  ghost predicate WorkerAfter(worker: MessageWorker, last: Option<LastMessage>, entries: seq<Entry<string, Option<LastMessage>>>,
                              message: string, delivered: Result<int, string>, empty: bool)
    reads worker, worker.db
  {
    var s := SendOutcome(last, message, delivered);
    var key := ChatKey(worker.chatId, LastMessageCategory);
    var persisted := if worker.useLastMessage && s.call != NoCall && s.result.Success? then Put(entries, key, s.last) else entries;
    var forget := s.result.Success? && empty && worker.useLastMessage;
    && worker.lastMessage == (if forget then None else s.last)
    && worker.db.entries == (if forget then Remove(persisted, key) else persisted)
  }

  class Panel {
    /** `_data`, in insertion order. */
    var data: seq<Entry<string, PanelData>>
    /** `_bars` */
    var bars: map<string, ProgressBar>
    /** `__lastInterval` */
    var lastInterval: int
    /** `_worker` */
    const worker: MessageWorker

    ghost predicate Valid()
      reads this, bars.Values, worker, worker.db
    {
      Shape() && BarsValid() && worker.Valid()
    }

    /** Each download has one entry and one bar, and the interval stays within its
        bounds. */
    ghost predicate Shape()
      reads this
    {
      UniqueKeys(data) && SameKeys(data, bars.Keys) && DistinctBars(bars) && PanelUpdateInterval <= lastInterval <= MaxInterval
    }

    /** The bars are all valid. */
    ghost predicate BarsValid()
      reads this, bars.Values
    {
      ValidBars(bars)
    }

    constructor (worker: MessageWorker)
      requires worker.Valid()
      ensures Valid() && this.worker == worker && data == [] && bars == map[] && lastInterval == PanelUpdateInterval
    {
      this.worker := worker;
      data := [];
      bars := map[];
      lastInterval := PanelUpdateInterval;
    }

    /** `add`: the data is stored, an existing bar is kept and a missing one is created
        at 0; the result says whether an update is asked for. */
    method Add(id: string, d: PanelData) returns (triggered: bool)
      requires Valid()
      modifies this
      ensures Valid()
      ensures data == Put(old(data), id, d) && lastInterval == old(lastInterval)
      ensures id in old(bars) ==> bars == old(bars)
      ensures id !in old(bars) ==> id in bars && bars == old(bars)[id := bars[id]] && fresh(bars[id]) && bars[id].current == 0.0
      ensures triggered == Triggers(Find(old(data), id), d)
    {
      var prev := Find(data, id);
      PutUnique(data, id, d);
      PutSameKeys(data, bars.Keys, id, d);
      data := Put(data, id, d);
      if id !in bars {
        var bar := new ProgressBar(100.0, 17);
        bars := bars[id := bar];
      } else {
        assert bars.Keys + {id} == bars.Keys;
      }
      triggered := prev.None? || prev.value.name != d.name || prev.value.percent != d.percent || prev.value.speed != d.speed;
    }

    /** `remove`: the data and bar are dropped; an update is asked for only when the
        download was there. */
    method Remove(id: string) returns (triggered: bool)
      requires Valid()
      modifies this
      ensures Valid()
      ensures data == Dict.Remove(old(data), id) && bars == old(bars) - {id} && lastInterval == old(lastInterval)
      ensures triggered == Has(old(data), id)
    {
      triggered := Has(data, id) || id in bars;
      if triggered {
        RemoveUnique(data, id);
        RemoveSameKeys(data, bars.Keys, id);
        data := Dict.Remove(data, id);
        bars := bars - {id};
      } else {
        RemoveAbsent(data, id);
        assert bars - {id} == bars;
      }
    }

    /** `_message`: each bar is set to its download's percent and rendered. */
    method Message(fmt: Format) returns (m: string)
      requires Valid()
      modifies bars.Values
      ensures Valid()
      ensures m == PanelMessage(data, fmt)
      ensures forall i :: 0 <= i < |data| ==> bars[data[i].key].current == Clamp(data[i].value.percent, 100.0)
    {
      if |data| == 0 {
        return AllDone;
      }
      var totals, lines := RenderAll(data, bars, fmt);
      m := "```\n" + Join([Header(totals, fmt)] + lines, "\n") + "```";
    }

    /** The loop of `_message`: every download's bar is rendered into its line, and the
        summary is accumulated. */
    static method RenderAll(entries: seq<Entry<string, PanelData>>, bars: map<string, ProgressBar>, fmt: Format)
      returns (totals: Totals, lines: seq<string>)
      requires ValidBars(bars) && DistinctBars(bars) && UniqueKeys(entries) && forall k :: k in Keys(entries) ==> k in bars
      modifies bars.Values
      ensures ValidBars(bars)
      ensures totals == Summed(entries) && lines == Lines(entries, fmt)
      ensures forall i :: 0 <= i < |entries| ==> bars[entries[i].key].current == Clamp(entries[i].value.percent, 100.0)
    {
      totals := Totals(0.0, 0.0, 0.0, 0.0, 0);
      lines := [];
      for i := 0 to |entries|
        invariant ValidBars(bars)
        invariant totals == Summed(entries[..i]) && lines == Lines(entries[..i], fmt)
        invariant BarsSet(entries, bars, i)
      {
        var d := entries[i].value;
        var line := RenderAt(entries, bars, i, fmt);
        SnocStep(entries, i, fmt);
        lines := lines + [line];
        ghost var before := totals;
        if !d.isSubsection {
          totals := Totals(totals.speed + d.speed, totals.percent + d.percent, totals.downloaded + d.downloaded,
                           totals.size + d.size, totals.sections + 1);
        }
        assert totals == Step(before, d);
      }
      assert entries[..|entries|] == entries;
    }

    /** The pass of the loop of `_message` at download `i`: its bar is rendered, and the
        bars already rendered keep their state. */
    static method RenderAt(entries: seq<Entry<string, PanelData>>, bars: map<string, ProgressBar>, i: int, fmt: Format)
      returns (line: string)
      requires ValidBars(bars) && DistinctBars(bars) && UniqueKeys(entries) && forall k :: k in Keys(entries) ==> k in bars
      requires 0 <= i < |entries| && BarsSet(entries, bars, i)
      modifies bars.Values
      ensures ValidBars(bars) && BarsSet(entries, bars, i + 1)
      ensures line == EntryLine(entries[i].value, fmt)
    {
      BarsApart(entries, bars, i);
      line := RenderEntry(bars[entries[i].key], entries[i].value, fmt);
    }

    /** The bar rendered at pass `i` is none of the bars rendered before it. */
    static lemma BarsApart(entries: seq<Entry<string, PanelData>>, bars: map<string, ProgressBar>, i: int)
      requires DistinctBars(bars) && UniqueKeys(entries) && forall k :: k in Keys(entries) ==> k in bars
      requires 0 <= i < |entries|
      ensures entries[i].key in bars
      ensures forall j :: 0 <= j < i ==> entries[j].key in bars && bars[entries[j].key] != bars[entries[i].key]
    {
      assert Keys(entries)[i] == entries[i].key;
      forall j | 0 <= j < i
        ensures entries[j].key in bars && bars[entries[j].key] != bars[entries[i].key]
      {
        assert Keys(entries)[j] == entries[j].key;
      }
    }

    /** One pass of the loop of `_message`: the bar is set to the download's percent and
        rendered into the download's line. */
    static method RenderEntry(bar: ProgressBar, d: PanelData, fmt: Format) returns (line: string)
      requires bar.Valid() && bar.total == 100.0 && bar.length == 17
      modifies bar
      ensures bar.Valid() && bar.current == Clamp(d.percent, 100.0)
      ensures line == EntryLine(d, fmt)
    {
      bar.Set(d.percent);
      var rendered := bar.Render();
      line := LineOf(d, rendered, fmt);
    }

    /** `_update`: the panel's text is sent; a failed send lengthens the interval and
        ends the update, a delivered one shortens it, and a delivered empty panel makes
        the worker forget its message. */
    method Update(fmt: Format, delivered: Result<int, string>) returns (message: string, sent: Result<int, string>)
      requires Valid()
      modifies this, bars.Values, worker, worker.db
      ensures Valid()
      ensures data == old(data) && bars == old(bars)
      ensures message == PanelMessage(data, fmt)
      ensures sent == SendOutcome(old(worker.lastMessage), message, delivered).result
      ensures lastInterval == NextInterval(old(lastInterval), sent.Success?)
      ensures sent.Success? && data == [] && worker.useLastMessage ==> worker.lastMessage == None
      ensures sent.Failure? || data != [] ==> worker.lastMessage == SendOutcome(old(worker.lastMessage), message, delivered).last
      ensures WorkerAfter(worker, old(worker.lastMessage), old(worker.db.entries), message, delivered, data == [])
    {
      message := Message(fmt);
      sent := Deliver(message, delivered);
    }

    /** The rest of `_update` once the text is built: the send, the new interval and,
        for a delivered empty panel, forgetting the message. */
    method Deliver(message: string, delivered: Result<int, string>) returns (sent: Result<int, string>)
      requires Valid()
      modifies this, worker, worker.db
      ensures Valid()
      ensures data == old(data) && bars == old(bars)
      ensures sent == SendOutcome(old(worker.lastMessage), message, delivered).result
      ensures lastInterval == NextInterval(old(lastInterval), sent.Success?)
      ensures sent.Success? && data == [] && worker.useLastMessage ==> worker.lastMessage == None
      ensures sent.Failure? || data != [] ==> worker.lastMessage == SendOutcome(old(worker.lastMessage), message, delivered).last
      ensures WorkerAfter(worker, old(worker.lastMessage), old(worker.db.entries), message, delivered, data == [])
    {
      var call;
      sent, call := worker.Send(message, delivered);
      if sent.Failure? {
        lastInterval := if lastInterval + IntervalStep < MaxInterval then lastInterval + IntervalStep else MaxInterval;
        return;
      }
      if lastInterval != PanelUpdateInterval {
        lastInterval := if lastInterval - IntervalStep > PanelUpdateInterval then lastInterval - IntervalStep else PanelUpdateInterval;
      }
      if |data| == 0 {
        worker.ForgetLastMessage();
      }
    }
  }

  /** `PanelManager`: the panels by the string form of the chat id. */
  class PanelManager {
    var panels: map<string, Panel>
    /** The chat data store the panels' workers keep their message in. */
    const db: Store<Option<LastMessage>>

    ghost predicate Valid()
      reads this, db
    {
      db.Valid()
    }

    constructor (db: Store<Option<LastMessage>>)
      requires db.Valid()
      ensures Valid() && this.db == db && panels == map[]
    {
      this.db := db;
      panels := map[];
    }

    /** `getPanel`: a chat's panel is created on the first call, with a worker that
        keeps its message, and the same panel is returned from then on. */
    method GetPanel(chatId: ChatId) returns (panel: Panel)
      requires Valid()
      modifies this
      ensures Valid()
      ensures ChatIdString(chatId) in old(panels) ==> panel == old(panels)[ChatIdString(chatId)] && panels == old(panels)
      ensures ChatIdString(chatId) !in old(panels) ==>
        && fresh(panel) && fresh(panel.worker) && panels == old(panels)[ChatIdString(chatId) := panel]
        && panel.Valid() && panel.data == [] && panel.lastInterval == PanelUpdateInterval
        && panel.worker.chatId == chatId && panel.worker.useLastMessage && panel.worker.db == db
        && panel.worker.lastMessage == GetOrDefault(db.entries, ChatKey(chatId, LastMessageCategory), None)
    {
      var key := ChatIdString(chatId);
      if key in panels {
        return panels[key];
      }
      var worker := new MessageWorker(chatId, true, db);
      panel := new Panel(worker);
      panels := panels[key := panel];
    }
  }
}
