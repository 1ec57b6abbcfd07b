/** The older scheduler (`service/mediaPostProcessor.ts`): the same persisted
    `processing.*` and `completed.*` records and running map, a fixed ceiling of two
    jobs, no progress information and an unguarded pull of the first completed record
    of any customer. */
module LegacyMediaPostProcessor {
  import opened Wrappers
  import opened Dict
  import opened MediaProcessor
  import opened MediaPostProcessor

  /** `_maxTasks` */
  const LegacyMaxTasks: nat := 2

  /** One older `_processNext` pass as its loop walks the store from `from` with the
      ids `launched` so far: an id in the running map is skipped; otherwise `_process`
      claims it, and the pass stops once the batch holds `_maxTasks` jobs. The jobs
      that were already running are not counted. */
  function LegacyDrain(stored: seq<Entry<string, CustomerOrder>>, from: nat, running: map<string, CustomerOrder>,
                       launched: seq<string>): DrainResult
    requires from <= |stored|
    decreases |stored| - from
  {
    if from == |stored| then DrainResult(launched, running)
    else if stored[from].key in running then LegacyDrain(stored, from + 1, running, launched)
    else if |launched| + 1 >= LegacyMaxTasks then
      DrainResult(launched + [stored[from].key], running[stored[from].key := stored[from].value])
    else LegacyDrain(stored, from + 1, running[stored[from].key := stored[from].value], launched + [stored[from].key])
  }

  /** The older pass is the newer one given room for `_maxTasks` jobs whatever is
      already running. */
  lemma {:induction false} LegacyDrainIsDrain(stored: seq<Entry<string, CustomerOrder>>, from: nat,
      running: map<string, CustomerOrder>, launched: seq<string>)
    requires from <= |stored| && |launched| < LegacyMaxTasks
    ensures LegacyDrain(stored, from, running, launched) == Drain(stored, from, running, LegacyMaxTasks - |launched|, launched)
    decreases |stored| - from
  {
    if from < |stored| {
      var k := stored[from].key;
      if k in running {
        LegacyDrainIsDrain(stored, from + 1, running, launched);
      } else if |launched| + 1 >= LegacyMaxTasks {
        DrainFull(stored, from + 1, running[k := stored[from].value], launched + [k]);
      } else {
        LegacyDrainIsDrain(stored, from + 1, running[k := stored[from].value], launched + [k]);
      }
    }
  }

  /** A pass with no room left launches nothing more. */
  lemma {:induction false} DrainFull(stored: seq<Entry<string, CustomerOrder>>, from: nat,
      running: map<string, CustomerOrder>, launched: seq<string>)
    requires from <= |stored|
    ensures Drain(stored, from, running, 0, launched) == DrainResult(launched, running)
    decreases |stored| - from
  {
    if from < |stored| && stored[from].key in running {
      DrainFull(stored, from + 1, running, launched);
    }
  }

  /** What an older pass over a well-formed store does: it launches at most two ids,
      none twice and none that was running; the running jobs keep their orders and
      each launched id runs its stored order. */
  lemma LegacyDrainClaims(stored: seq<Entry<string, CustomerOrder>>, before: map<string, CustomerOrder>)
    requires UniqueKeys(stored)
    ensures var r := LegacyDrain(stored, 0, before, []);
      && Distinct(r.launched) && |r.launched| <= LegacyMaxTasks
      && (forall id :: id in r.launched ==> id !in before && Has(stored, id))
      && (forall id :: id in r.running <==> id in before || id in r.launched)
      && (forall id :: id in before ==> r.running[id] == before[id])
      && (forall id :: id in r.launched ==> Find(stored, id) == Some(r.running[id]))
  {
    LegacyDrainIsDrain(stored, 0, before, []);
    DrainLaunches(stored, before, LegacyMaxTasks);
    DrainClaims(stored, before, LegacyMaxTasks);
  }

  /** `restoreProcessing` as a sequence of `passes` older passes, each starting from the
      running map the previous one left. */
  function Restore(stored: seq<Entry<string, CustomerOrder>>, running: map<string, CustomerOrder>, passes: nat,
                   launched: seq<string>): DrainResult
    decreases passes
  {
    if passes == 0 then DrainResult(launched, running)
    else
      var r := LegacyDrain(stored, 0, running, []);
      Restore(stored, r.running, passes - 1, launched + r.launched)
  }

  /** The inherited names whose call throws in the older `_process`: `__proto__` is no
      function, and the getter and setter definers demand a function as their second
      argument, which an order is not. */
  const ThrowingNames: set<string> := {"__proto__", "__defineGetter__", "__defineSetter__"}

  /** Whether the older `_process` deletes a job of this type from the running map. There
      is no try/catch: the job leaves when the call resolves. A processor resolves as its
      ffmpeg run does; an inherited name other than a throwing one returns at once, so the
      job leaves without any work done and stays stored. */
  function LegacyJobLeaves(mediaType: string, processorResolved: bool): (r: bool)
    ensures mediaType in Processors ==> (r <==> processorResolved)
    ensures mediaType in InheritedNames ==> (r <==> mediaType !in ThrowingNames)
  {
    if mediaType in Processors then processorResolved else mediaType in InheritedNames - ThrowingNames
  }

  /** An order of type "toString" leaves the running map at once yet stays stored, so the
      next older pass launches it again, and again after that. */
  lemma InheritedTypeRelaunched(order: CustomerOrder)
    requires order.mediaType == "toString"
    ensures Admitted(order.mediaType) && LegacyJobLeaves(order.mediaType, false)
    ensures var stored := [Entry("a", order)];
      var first := LegacyDrain(stored, 0, map[], []);
      && first.launched == ["a"]
      && LegacyDrain(stored, 0, first.running - {"a"}, []).launched == ["a"]
  {
    var stored := [Entry("a", order)];
    var empty: map<string, CustomerOrder> := map[];
    assert LegacyDrain(stored, 0, empty, []) == LegacyDrain(stored, 1, empty["a" := order], ["a"]);
    assert LegacyDrain(stored, 1, empty["a" := order], ["a"]) == DrainResult(["a"], empty["a" := order]);
    assert empty["a" := order] - {"a"} == empty;
  }

  /** How many passes `restoreProcessing` runs: `_maxTasks` less the running jobs. */
  function RestorePasses(running: map<string, CustomerOrder>): (n: nat)
    ensures |running| + n >= LegacyMaxTasks
    ensures n > 0 ==> |running| + n == LegacyMaxTasks
  {
    if |running| < LegacyMaxTasks then LegacyMaxTasks - |running| else 0
  }

  /** On a cold start with four stored orders, `restoreProcessing` runs two passes of
      two jobs each: four jobs run at once against a ceiling of two. */
  lemma ColdRestoreExceedsCeiling(order: CustomerOrder)
    ensures var stored := [Entry("a", order), Entry("b", order), Entry("c", order), Entry("d", order)];
      var r := Restore(stored, map[], RestorePasses(map[]), []);
      r.launched == ["a", "b", "c", "d"] && |r.running| == 4 > LegacyMaxTasks
  {
    var stored := [Entry("a", order), Entry("b", order), Entry("c", order), Entry("d", order)];
    var first := LegacyDrain(stored, 0, map[], []);
    assert stored[1].key == "b" && "b" !in map["a" := order];
    assert ["a"] + ["b"] == ["a", "b"];
    assert LegacyDrain(stored, 1, map["a" := order], ["a"]) == DrainResult(["a", "b"], map["a" := order, "b" := order]);
    assert stored[0].key == "a" && [] + ["a"] == ["a"] && map[]["a" := order] == map["a" := order];
    assert first == LegacyDrain(stored, 1, map["a" := order], ["a"]);
    var m := first.running;
    assert m.Keys == {"a", "b"};
    assert LegacyDrain(stored, 0, m, []) == LegacyDrain(stored, 1, m, []) == LegacyDrain(stored, 2, m, []);
    assert stored[3].key == "d" && "d" !in m["c" := order];
    assert ["c"] + ["d"] == ["c", "d"];
    assert LegacyDrain(stored, 3, m["c" := order], ["c"]) == DrainResult(["c", "d"], m["c" := order]["d" := order]);
    var second := LegacyDrain(stored, 0, m, []);
    assert stored[2].key == "c" && "c" !in m && [] + ["c"] == ["c"];
    assert second == LegacyDrain(stored, 3, m["c" := order], ["c"]);
    assert second == DrainResult(["c", "d"], m["c" := order]["d" := order]);
    assert RestorePasses(map[]) == 2;
    assert Restore(stored, map[], 2, []) == Restore(stored, m, 1, ["a", "b"]);
    assert Restore(stored, m, 1, ["a", "b"]) == DrainResult(["a", "b"] + ["c", "d"], second.running);
    assert second.running.Keys == {"a", "b", "c", "d"};
  }

  class LegacyMediaPostProcessor {
    /** The stored `processing.*` records. */
    var processing: seq<Entry<string, CustomerOrder>>
    /** The stored `completed.*` records. */
    var completed: seq<Entry<string, CustomerOrderProcessing>>
    /** `_currentProcessing` */
    var current: map<string, CustomerOrder>

    /** The SHA-256 digest of a media path, the job id. */
    const hash: string -> string

    ghost predicate Valid()
      reads this
    {
      UniqueKeys(processing) && UniqueKeys(completed)
    }

    /** A fresh processor over the records found in the store. */
    constructor (hash: string -> string, processing: seq<Entry<string, CustomerOrder>>,
                 completed: seq<Entry<string, CustomerOrderProcessing>>)
      requires UniqueKeys(processing) && UniqueKeys(completed)
      ensures Valid()
      ensures this.hash == hash && this.processing == processing && this.completed == completed
      ensures current == map[]
    {
      this.hash := hash;
      this.processing := processing;
      this.completed := completed;
      current := map[];
    }

    /** The older `process`: the same admission as the newer one, then an older pass. */
    method Process(order: CustomerOrder) returns (r: ProcessResult, launched: seq<string>)
      requires Valid()
      modifies this
      ensures Valid()
      ensures r.id == hash(order.pathToMedia)
      ensures old(Has(processing, r.id)) ==>
        r.result == AlreadyProcessing && launched == [] && unchanged(this)
      ensures !old(Has(processing, r.id)) && !Admitted(order.mediaType) ==>
        r.result == BadMediatype && launched == [] && unchanged(this)
      ensures !old(Has(processing, r.id)) && Admitted(order.mediaType) ==>
        && r.result == ProcessOutcome.Success
        && processing == Put(old(processing), r.id, order)
        && LegacyDrain(processing, 0, old(current), []) == DrainResult(launched, current)
        && completed == old(completed)
    {
      var id := hash(order.pathToMedia);
      if Has(processing, id) {
        return ProcessResult(AlreadyProcessing, id), [];
      }
      if Admitted(order.mediaType) {
        PutUnique(processing, id, order);
        processing := Put(processing, id, order);
        launched := DrainPass();
      } else {
        return ProcessResult(BadMediatype, id), [];
      }
      r := ProcessResult(ProcessOutcome.Success, id);
    }

    /** One older `_processNext` pass: launch unclaimed stored jobs in store order until
        the batch holds `_maxTasks`. */
    method DrainPass() returns (launched: seq<string>)
      requires Valid()
      modifies this
      ensures Valid()
      ensures LegacyDrain(processing, 0, old(current), []) == DrainResult(launched, current)
      ensures processing == old(processing) && completed == old(completed)
    {
      ghost var target := LegacyDrain(processing, 0, current, []);
      launched := [];
      var i := 0;
      while i < |processing|
        invariant 0 <= i <= |processing|
        invariant unchanged(this`processing, this`completed)
        invariant |launched| < LegacyMaxTasks
        invariant LegacyDrain(processing, i, current, launched) == target
      {
        var id := processing[i].key;
        if id in current {
          i := i + 1;
          continue;
        }
        launched := launched + [id];
        current := current[id := processing[i].value];
        if |launched| >= LegacyMaxTasks {
          return;
        }
        i := i + 1;
      }
    }

    /** `restoreProcessing`: one older pass per free slot, as counted before the first. */
    method RestoreProcessing() returns (launched: seq<string>)
      requires Valid()
      modifies this
      ensures Valid()
      ensures Restore(processing, old(current), RestorePasses(old(current)), []) == DrainResult(launched, current)
      ensures processing == old(processing) && completed == old(completed)
    {
      var rest := RestorePasses(current);
      ghost var target := Restore(processing, current, rest, []);
      launched := [];
      var i := 0;
      while i < rest
        invariant 0 <= i <= rest
        invariant Valid() && processing == old(processing) && completed == old(completed)
        invariant Restore(processing, current, rest - i, launched) == target
      {
        var pass := DrainPass();
        launched := launched + pass;
        i := i + 1;
      }
    }

    /** The older `_process` once the job settles: the job leaves the running map only
        when `LegacyJobLeaves` says so. */
    method Settle(id: string, processorResolved: bool)
      requires Valid()
      modifies this
      ensures Valid()
      ensures current ==
        if id in old(current) && !LegacyJobLeaves(old(current)[id].mediaType, processorResolved) then old(current)
        else old(current) - {id}
      ensures processing == old(processing) && completed == old(completed)
    {
      if id !in current || LegacyJobLeaves(current[id].mediaType, processorResolved) {
        current := current - {id};
      }
    }

    /** The older `_onDone`: `completed.<id>` is written, then `processing.<id>` deleted. */
    method OnDone(p: CustomerOrderProcessing)
      requires Valid()
      modifies this
      ensures Valid()
      ensures completed == Put(old(completed), p.id, p)
      ensures processing == Remove(old(processing), p.id)
      ensures current == old(current)
    {
      PutUnique(completed, p.id, p);
      RemoveUnique(processing, p.id);
      completed := Put(completed, p.id, p);
      processing := Remove(processing, p.id);
    }

    /** The older `pullCompleted`: the first completed record of any customer goes to the
        callback and is deleted once the callback succeeds; with no record the
        `noElements` callback runs (`None`). */
    method PullCompleted(callbackSucceeds: bool) returns (delivered: Option<CustomerOrderProcessing>)
      requires Valid()
      modifies this
      ensures Valid()
      ensures old(completed) == [] ==> delivered == None && completed == []
      ensures old(completed) != [] ==> delivered == Some(old(completed)[0].value)
      ensures old(completed) != [] && callbackSucceeds ==> completed == old(completed)[1..]
      ensures old(completed) != [] && !callbackSucceeds ==> completed == old(completed)
      ensures processing == old(processing) && current == old(current)
    {
      if completed == [] {
        return None;
      }
      delivered := Some(completed[0].value);
      if callbackSucceeds {
        RemoveFirst(completed);
        completed := Remove(completed, completed[0].key);
      }
    }
  }
}
