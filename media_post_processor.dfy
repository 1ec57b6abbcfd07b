/** The post-processing scheduler (`postprocessing/mediaPostProcessor.ts`): the
    persisted `processing.*` and `completed.*` records, the jobs running in this
    process, the per-customer progress information and the single-flight delivery of
    completed jobs. Each asynchronous step of the source is one method here: the drain
    pass, the settling of one launched job, the processor's "done", "error" and
    "progress" events, and the two halves of a pull (before and after the customer's
    callback). */
module MediaPostProcessor {
  import opened Wrappers
  import opened Dict
  import opened Seqs
  import opened MediaProcessor

  datatype Status = Processing | Completed | Error

  /** `MediaProcessingInfo` */
  datatype MediaProcessingInfo = MediaProcessingInfo(status: Status, speed: real, progress: real)

  /** `ProcessResult.result` */
  datatype ProcessOutcome = Success | AlreadyProcessing | BadMediatype

  datatype ProcessResult = ProcessResult(result: ProcessOutcome, id: string)

  /** Progress information per customer, then per job id (`_info`). */
  type Info = map<string, map<string, MediaProcessingInfo>>

  /** The media types that have a processor: "movies" and "tv" share the video processor. */
  const Processors: set<string> := {"movies", "tv"}

  /** The names every object literal inherits from `Object.prototype`. */
  const InheritedNames: set<string> := {"constructor", "hasOwnProperty", "isPrototypeOf", "propertyIsEnumerable",
    "toString", "toLocaleString", "valueOf", "__proto__", "__defineGetter__", "__defineSetter__",
    "__lookupGetter__", "__lookupSetter__"}

  /** `order.type in this._processors`: JavaScript's `in` also finds the inherited names,
      so an order of type "toString" is admitted although no processor handles it. */
  predicate Admitted(mediaType: string) {
    mediaType in Processors || mediaType in InheritedNames
  }

  /** Whether `_process` deletes a job of this type from the running map. It does so only
      when a processor's promise resolves: an inherited name has no `process` method, so
      the call throws, the catch swallows the error and the job keeps its place. */
  function JobLeaves(mediaType: string, processorResolved: bool): (r: bool)
    ensures r ==> mediaType in Processors
    ensures mediaType in Processors ==> (r <==> processorResolved)
  {
    mediaType in Processors && processorResolved
  }

  /** An order of an inherited type is admitted and then never leaves the running map,
      whatever its promise does. */
  lemma InheritedTypeSticks(mediaType: string, processorResolved: bool)
    requires mediaType in InheritedNames
    ensures Admitted(mediaType) && !JobLeaves(mediaType, processorResolved)
  {
    assert "movies" !in InheritedNames && "tv" !in InheritedNames;
  }

  /** What `_markProcessingAsDone` records. */
  const DoneInfo := MediaProcessingInfo(Completed, 0.0, 100.0)

  /** What `_onError` records. */
  const ErrorInfo := MediaProcessingInfo(Error, 0.0, 100.0)

  /** `_info[customer][id] = v`, creating the customer's record first when it is missing. */
  function SetInfo(info: Info, customer: string, id: string, v: MediaProcessingInfo): (r: Info)
    ensures customer in r && id in r[customer] && r[customer][id] == v
    ensures forall c :: c in info ==> c in r
    ensures forall c, k :: c in info && k in info[c] && (c != customer || k != id) ==>
      k in r[c] && r[c][k] == info[c][k]
  {
    info[customer := (if customer in info then info[customer] else map[])[id := v]]
  }

  /** `init`'s loop as a fold: every completed record marked done for its customer. */
  function MarkAllDone(info: Info, done: seq<Entry<string, CustomerOrderProcessing>>): Info
    decreases |done|
  {
    if done == [] then info
    else MarkAllDone(SetInfo(info, done[0].value.order.customer, done[0].key, DoneInfo), done[1..])
  }

  /** Marking records done leaves alone every entry that no record names. */
  lemma {:induction false} MarkAllDoneKeeps(info: Info, done: seq<Entry<string, CustomerOrderProcessing>>, c: string, k: string)
    requires c in info && k in info[c]
    requires forall i :: 0 <= i < |done| ==> done[i].value.order.customer != c || done[i].key != k
    ensures var r := MarkAllDone(info, done); c in r && k in r[c] && r[c][k] == info[c][k]
    decreases |done|
  {
    if done != [] {
      var next := SetInfo(info, done[0].value.order.customer, done[0].key, DoneInfo);
      MarkAllDoneKeeps(next, done[1..], c, k);
    }
  }

  /** A done entry stays done whatever further records are marked. */
  lemma {:induction false} MarkAllDoneStaysDone(info: Info, done: seq<Entry<string, CustomerOrderProcessing>>, c: string, k: string)
    requires c in info && k in info[c] && info[c][k] == DoneInfo
    ensures var r := MarkAllDone(info, done); c in r && k in r[c] && r[c][k] == DoneInfo
    decreases |done|
  {
    if done != [] {
      var next := SetInfo(info, done[0].value.order.customer, done[0].key, DoneInfo);
      MarkAllDoneStaysDone(next, done[1..], c, k);
    }
  }

  /** After `init`, every stored completed record shows as completed, 100%, speed 0. */
  lemma {:induction false} MarkAllDoneMarksAll(info: Info, done: seq<Entry<string, CustomerOrderProcessing>>, i: nat)
    requires i < |done|
    ensures var r := MarkAllDone(info, done); var c := done[i].value.order.customer;
      c in r && done[i].key in r[c] && r[c][done[i].key] == DoneInfo
    decreases |done|
  {
    var next := SetInfo(info, done[0].value.order.customer, done[0].key, DoneInfo);
    if i == 0 {
      MarkAllDoneStaysDone(next, done[1..], done[0].value.order.customer, done[0].key);
    } else {
      MarkAllDoneMarksAll(next, done[1..], i - 1);
    }
  }

  /** The ids of the stored orders from position `from` on that are not running, in
      store order. */
  function Unclaimed(stored: seq<Entry<string, CustomerOrder>>, from: nat, running: set<string>): (r: seq<string>)
    requires from <= |stored|
    ensures forall k :: 0 <= k < |r| ==> r[k] !in running && Has(stored, r[k])
    decreases |stored| - from
  {
    if from == |stored| then []
    else if stored[from].key in running then Unclaimed(stored, from + 1, running)
    else [stored[from].key] + Unclaimed(stored, from + 1, running)
  }

  /** What a drain pass produces: the ids it launched and the running map after it. */
  datatype DrainResult = DrainResult(launched: seq<string>, running: map<string, CustomerOrder>)

  /** One `_processNext` pass, as its loop walks the store from position `from` with the
      ids `launched` so far and `room` more allowed: an id in the running map is skipped;
      otherwise the pass stops when no room is left, or `_process` claims the id with
      its stored order. */
  function Drain(stored: seq<Entry<string, CustomerOrder>>, from: nat, running: map<string, CustomerOrder>,
                 room: int, launched: seq<string>): DrainResult
    requires from <= |stored|
    decreases |stored| - from
  {
    if from == |stored| then DrainResult(launched, running)
    else if stored[from].key in running then Drain(stored, from + 1, running, room, launched)
    else if room <= 0 then DrainResult(launched, running)
    else Drain(stored, from + 1, running[stored[from].key := stored[from].value], room - 1,
               launched + [stored[from].key])
  }

  /** `running` with each of `ids` claimed in turn with its stored order. */
  function Claim(running: map<string, CustomerOrder>, stored: seq<Entry<string, CustomerOrder>>, ids: seq<string>): map<string, CustomerOrder>
    decreases |ids|
  {
    if ids == [] then running
    else match Find(stored, ids[0])
      case Some(order) => Claim(running[ids[0] := order], stored, ids[1..])
      case None => Claim(running, stored, ids[1..])
  }

  /** The first `room` of `u`, or all of `u` when it is shorter. */
  function Take(u: seq<string>, room: int): (r: seq<string>)
    ensures |r| <= |u| && r == u[..|r|]
    ensures |r| == if room <= 0 then 0 else if room < |u| then room else |u|
  {
    u[..if room <= 0 then 0 else if room < |u| then room else |u|]
  }

  lemma TakeCons(k: string, u: seq<string>, room: int)
    requires room > 0
    ensures Take([k] + u, room) == [k] + Take(u, room - 1)
  {
    var r := Take(u, room - 1);
    assert ([k] + u)[..|r| + 1] == [k] + u[..|r|];
  }

  lemma ClaimCons(running: map<string, CustomerOrder>, stored: seq<Entry<string, CustomerOrder>>,
                  k: string, order: CustomerOrder, rest: seq<string>)
    requires Find(stored, k) == Some(order)
    ensures Claim(running, stored, [k] + rest) == Claim(running[k := order], stored, rest)
  {
    assert ([k] + rest)[1..] == rest;
  }

  /** A drain pass over a well-formed store launches the first `room` unclaimed ids in
      store order (all of them when there are fewer) and claims exactly those. `base`
      holds the ids running when the pass began; from `from` on the store sees the
      same ids running as it did then. */
  lemma {:induction false} DrainIsClaimOfUnclaimed(stored: seq<Entry<string, CustomerOrder>>, from: nat,
      running: map<string, CustomerOrder>, room: int, launched: seq<string>, base: set<string>)
    requires from <= |stored| && UniqueKeys(stored)
    requires forall j :: from <= j < |stored| ==> (stored[j].key in running <==> stored[j].key in base)
    ensures Drain(stored, from, running, room, launched).launched == launched + Take(Unclaimed(stored, from, base), room)
    ensures Drain(stored, from, running, room, launched).running == Claim(running, stored, Take(Unclaimed(stored, from, base), room))
    decreases |stored| - from
  {
    if from == |stored| || (stored[from].key !in running && room <= 0) {
      DrainStopStep(stored, from, running, room, launched, base);
    } else if stored[from].key in running {
      DrainIsClaimOfUnclaimed(stored, from + 1, running, room, launched, base);
      DrainSkipStep(stored, from, running, room, launched, base);
    } else {
      var next, more := running[stored[from].key := stored[from].value], launched + [stored[from].key];
      ClaimKeepsAgreement(stored, from, running, base);
      DrainIsClaimOfUnclaimed(stored, from + 1, next, room - 1, more, base);
      var after, rest := Drain(stored, from + 1, next, room - 1, more), Take(Unclaimed(stored, from + 1, base), room - 1);
      assert after.launched == more + rest && after.running == Claim(next, stored, rest);
      FindAt(stored, from);
      DrainLaunchStep(stored, from, running, room, launched, base);
    }
  }

  /** The stopping case of `DrainIsClaimOfUnclaimed`: the store is exhausted, or the
      next unclaimed id finds no room. */
  lemma DrainStopStep(stored: seq<Entry<string, CustomerOrder>>, from: nat,
      running: map<string, CustomerOrder>, room: int, launched: seq<string>, base: set<string>)
    requires from <= |stored|
    requires from < |stored| ==> stored[from].key !in running && stored[from].key !in base && room <= 0
    ensures Drain(stored, from, running, room, launched).launched == launched + Take(Unclaimed(stored, from, base), room)
    ensures Drain(stored, from, running, room, launched).running == Claim(running, stored, Take(Unclaimed(stored, from, base), room))
  {
    var ids := Take(Unclaimed(stored, from, base), room);
    assert ids == [];
    assert launched + ids == launched;
  }

  /** The skipping case of `DrainIsClaimOfUnclaimed`: a running id is passed over. */
  lemma DrainSkipStep(stored: seq<Entry<string, CustomerOrder>>, from: nat,
      running: map<string, CustomerOrder>, room: int, launched: seq<string>, base: set<string>)
    requires from < |stored| && stored[from].key in running && stored[from].key in base
    requires Drain(stored, from + 1, running, room, launched).launched == launched + Take(Unclaimed(stored, from + 1, base), room)
    requires Drain(stored, from + 1, running, room, launched).running == Claim(running, stored, Take(Unclaimed(stored, from + 1, base), room))
    ensures Drain(stored, from, running, room, launched).launched == launched + Take(Unclaimed(stored, from, base), room)
    ensures Drain(stored, from, running, room, launched).running == Claim(running, stored, Take(Unclaimed(stored, from, base), room))
  {
    assert Unclaimed(stored, from, base) == Unclaimed(stored, from + 1, base);
  }

  /** Claiming the id at `from` changes nothing the rest of the store sees: no later
      entry has that id. */
  lemma ClaimKeepsAgreement(stored: seq<Entry<string, CustomerOrder>>, from: nat,
      running: map<string, CustomerOrder>, base: set<string>)
    requires from < |stored| && UniqueKeys(stored)
    requires forall j :: from <= j < |stored| ==> (stored[j].key in running <==> stored[j].key in base)
    ensures stored[from].key in running <==> stored[from].key in base
    ensures forall j :: from + 1 <= j < |stored| ==>
      (stored[j].key in running[stored[from].key := stored[from].value] <==> stored[j].key in base)
  {
    forall j | from + 1 <= j < |stored|
      ensures stored[j].key in running[stored[from].key := stored[from].value] <==> stored[j].key in base
    {
      assert stored[j].key != stored[from].key;
    }
  }

  /** The launching case of `DrainIsClaimOfUnclaimed`: the id at `from` is claimed with
      its stored order and the rest of the pass goes on with one less room. */
  lemma DrainLaunchStep(stored: seq<Entry<string, CustomerOrder>>, from: nat,
      running: map<string, CustomerOrder>, room: int, launched: seq<string>, base: set<string>)
    requires from < |stored| && stored[from].key !in running && stored[from].key !in base && room > 0
    requires Find(stored, stored[from].key) == Some(stored[from].value)
    requires Drain(stored, from + 1, running[stored[from].key := stored[from].value], room - 1, launched + [stored[from].key]).launched
      == (launched + [stored[from].key]) + Take(Unclaimed(stored, from + 1, base), room - 1)
    requires Drain(stored, from + 1, running[stored[from].key := stored[from].value], room - 1, launched + [stored[from].key]).running
      == Claim(running[stored[from].key := stored[from].value], stored, Take(Unclaimed(stored, from + 1, base), room - 1))
    ensures Drain(stored, from, running, room, launched).launched == launched + Take(Unclaimed(stored, from, base), room)
    ensures Drain(stored, from, running, room, launched).running == Claim(running, stored, Take(Unclaimed(stored, from, base), room))
  {
    var k := stored[from].key;
    var next, more := running[k := stored[from].value], launched + [k];
    var rest := Take(Unclaimed(stored, from + 1, base), room - 1);
    var ids := Take(Unclaimed(stored, from, base), room);
    assert Drain(stored, from, running, room, launched) == Drain(stored, from + 1, next, room - 1, more);
    assert Unclaimed(stored, from, base) == [k] + Unclaimed(stored, from + 1, base);
    TakeCons(k, Unclaimed(stored, from + 1, base), room);
    assert ids == [k] + rest;
    ClaimCons(running, stored, k, stored[from].value, rest);
    AppendAssoc(launched, [k], rest);
  }

  /** No element occurs twice. */
  predicate Distinct<T(==)>(s: seq<T>) {
    forall i, j :: 0 <= i < j < |s| ==> s[i] != s[j]
  }

  /** A key stored nowhere from `from` on is not among the unclaimed ids from there. */
  lemma {:induction false} UnclaimedOnlyFrom(stored: seq<Entry<string, CustomerOrder>>, from: nat, running: set<string>, key: string)
    requires from <= |stored|
    requires forall j :: from <= j < |stored| ==> stored[j].key != key
    ensures key !in Unclaimed(stored, from, running)
    decreases |stored| - from
  {
    if from < |stored| {
      UnclaimedOnlyFrom(stored, from + 1, running, key);
    }
  }

  /** In a well-formed store no id is unclaimed twice, so no job is launched twice. */
  lemma {:induction false} UnclaimedDistinct(stored: seq<Entry<string, CustomerOrder>>, from: nat, running: set<string>)
    requires from <= |stored| && UniqueKeys(stored)
    ensures Distinct(Unclaimed(stored, from, running))
    decreases |stored| - from
  {
    if from < |stored| {
      UnclaimedDistinct(stored, from + 1, running);
      var u := Unclaimed(stored, from + 1, running);
      if stored[from].key !in running {
        UnclaimedOnlyFrom(stored, from + 1, running, stored[from].key);
        var full := [stored[from].key] + u;
        forall i, j | 0 <= i < j < |full| ensures full[i] != full[j] {
          assert full[j] == u[j - 1];
          if i > 0 {
            assert full[i] == u[i - 1];
          }
        }
      }
    }
  }

  lemma {:induction false} ClaimHas(running: map<string, CustomerOrder>, stored: seq<Entry<string, CustomerOrder>>, ids: seq<string>, x: string)
    ensures x in Claim(running, stored, ids) <==> x in running || (x in ids && Has(stored, x))
    decreases |ids|
  {
    if ids != [] {
      match Find(stored, ids[0])
      case Some(order) => ClaimHas(running[ids[0] := order], stored, ids[1..], x);
      case None => ClaimHas(running, stored, ids[1..], x);
      assert ids == [ids[0]] + ids[1..];
    }
  }

  lemma {:induction false} ClaimValue(running: map<string, CustomerOrder>, stored: seq<Entry<string, CustomerOrder>>, ids: seq<string>, x: string)
    requires x in Claim(running, stored, ids)
    ensures x in ids && Has(stored, x) ==> Find(stored, x) == Some(Claim(running, stored, ids)[x])
    ensures x !in ids ==> x in running && Claim(running, stored, ids)[x] == running[x]
    decreases |ids|
  {
    if ids != [] {
      assert ids == [ids[0]] + ids[1..];
      match Find(stored, ids[0])
      case Some(order) =>
        ClaimHas(running[ids[0] := order], stored, ids[1..], x);
        ClaimValue(running[ids[0] := order], stored, ids[1..], x);
      case None =>
        ClaimHas(running, stored, ids[1..], x);
        ClaimValue(running, stored, ids[1..], x);
    }
  }

  /** Claiming stored ids that were not running adds exactly those ids, each with its
      stored order, and keeps every running job's order. */
  lemma ClaimFacts(running: map<string, CustomerOrder>, stored: seq<Entry<string, CustomerOrder>>, ids: seq<string>)
    requires forall id :: id in ids ==> id !in running && Has(stored, id)
    ensures forall id :: id in Claim(running, stored, ids) <==> id in running || id in ids
    ensures forall id :: id in running ==> Claim(running, stored, ids)[id] == running[id]
    ensures forall id :: id in ids ==> Find(stored, id) == Some(Claim(running, stored, ids)[id])
  {
    var c := Claim(running, stored, ids);
    forall id ensures id in c <==> id in running || id in ids {
      ClaimHas(running, stored, ids, id);
    }
    forall id | id in c ensures id in running ==> c[id] == running[id]
      ensures id in ids ==> Find(stored, id) == Some(c[id])
    {
      ClaimValue(running, stored, ids, id);
    }
  }

  lemma DistinctPrefix<T>(s: seq<T>, n: nat)
    requires Distinct(s) && n <= |s|
    ensures Distinct(s[..n])
  {
  }

  /** A drain pass from the start of a well-formed store launches the first `room`
      unclaimed ids and claims exactly those. */
  lemma DrainFromStart(stored: seq<Entry<string, CustomerOrder>>, before: map<string, CustomerOrder>, room: int)
    requires UniqueKeys(stored)
    ensures Drain(stored, 0, before, room, []).launched == Take(Unclaimed(stored, 0, before.Keys), room)
    ensures Drain(stored, 0, before, room, []).running == Claim(before, stored, Take(Unclaimed(stored, 0, before.Keys), room))
  {
    DrainIsClaimOfUnclaimed(stored, 0, before, room, [], before.Keys);
    var ids := Take(Unclaimed(stored, 0, before.Keys), room);
    assert [] + ids == ids;
  }

  /** A drain pass over a well-formed store launches no id twice, none that was
      running, only stored ones, and no more than `room`. */
  lemma DrainLaunches(stored: seq<Entry<string, CustomerOrder>>, before: map<string, CustomerOrder>, room: int)
    requires UniqueKeys(stored)
    ensures var launched := Drain(stored, 0, before, room, []).launched;
      && Distinct(launched)
      && |launched| <= (if room <= 0 then 0 else room)
      && (forall id :: id in launched ==> id !in before && Has(stored, id))
  {
    DrainFromStart(stored, before, room);
    var u := Unclaimed(stored, 0, before.Keys);
    UnclaimedDistinct(stored, 0, before.Keys);
    var ids := Take(u, room);
    DistinctPrefix(u, |ids|);
    forall id | id in ids ensures id !in before && Has(stored, id) {
      var i :| 0 <= i < |ids| && ids[i] == id;
      assert u[i] == id;
    }
  }

  /** What a drain pass over a well-formed store does to the running map `before`: the
      jobs that were running keep their orders, and the launched ids join them, each
      with its stored order. */
  lemma DrainClaims(stored: seq<Entry<string, CustomerOrder>>, before: map<string, CustomerOrder>, room: int)
    requires UniqueKeys(stored)
    ensures var r := Drain(stored, 0, before, room, []);
      && (forall id :: id in r.running <==> id in before || id in r.launched)
      && (forall id :: id in before ==> r.running[id] == before[id])
      && (forall id :: id in r.launched ==> Find(stored, id) == Some(r.running[id]))
  {
    DrainFromStart(stored, before, room);
    DrainLaunches(stored, before, room);
    ClaimFacts(before, stored, Drain(stored, 0, before, room, []).launched);
  }

  /** The first completed record of `customer` (`item[1].customer === customer`). */
  function OwnedBy(customer: string): CustomerOrderProcessing -> bool {
    (p: CustomerOrderProcessing) => p.order.customer == customer
  }

  /** `_info[customer]` with the error entries deleted, as `pullInfo` leaves it. */
  function WithoutErrors(m: map<string, MediaProcessingInfo>): (r: map<string, MediaProcessingInfo>)
    ensures forall k :: k in r <==> k in m && m[k].status != Error
    ensures forall k :: k in r ==> r[k] == m[k]
  {
    map k | k in m && m[k].status != Error :: m[k]
  }

  class MediaPostProcessor {
    /** The stored `processing.*` records: orders accepted and not yet done or failed. */
    var processing: seq<Entry<string, CustomerOrder>>
    /** The stored `completed.*` records, waiting for their customer to pull them. */
    var completed: seq<Entry<string, CustomerOrderProcessing>>
    /** `_currentProcessing`: the jobs launched in this process and not yet resolved. */
    var current: map<string, CustomerOrder>
    /** `_info` */
    var info: Info
    /** `_activeRequests`: customers whose pull callback is in flight. */
    var activeRequests: set<string>
    /** For each in-flight pull, the key of the completed record it delivered. */
    var pulling: map<string, string>
    /** `CONFIG.maxTasks` */
    const maxTasks: nat
    /** The SHA-256 digest of a media path, the job id. */
    const hash: string -> string

    ghost predicate Valid()
      reads this
    {
      && UniqueKeys(processing)
      && UniqueKeys(completed)
      && |current| <= maxTasks
      && pulling.Keys == activeRequests
    }

    /** The running map after a drain pass started from `before` launched `launched`. */
    ghost predicate Drained(before: map<string, CustomerOrder>, launched: seq<string>)
      reads this
    {
      Drain(processing, 0, before, maxTasks - |before|, []) == DrainResult(launched, current)
    }

    /** A fresh processor over the records found in the store. */
    constructor (maxTasks: nat, hash: string -> string,
                 processing: seq<Entry<string, CustomerOrder>>,
                 completed: seq<Entry<string, CustomerOrderProcessing>>)
      requires UniqueKeys(processing) && UniqueKeys(completed)
      ensures Valid()
      ensures this.maxTasks == maxTasks && this.hash == hash
      ensures this.processing == processing && this.completed == completed
      ensures current == map[] && info == map[] && activeRequests == {} && pulling == map[]
    {
      this.maxTasks := maxTasks;
      this.hash := hash;
      this.processing := processing;
      this.completed := completed;
      current := map[];
      info := map[];
      activeRequests := {};
      pulling := map[];
    }

    /** `process`: admit an order. An id already stored is refused before the media
        type is looked at; an unknown type is refused; otherwise the order is stored
        under its id and a drain pass runs. */
    method Process(order: CustomerOrder) returns (r: ProcessResult, launched: seq<string>)
      requires Valid()
      modifies this
      ensures Valid()
      ensures r.id == hash(order.pathToMedia)
      ensures old(Has(processing, r.id)) ==>
        r.result == AlreadyProcessing && launched == [] && unchanged(this)
      ensures !old(Has(processing, r.id)) && !Admitted(order.mediaType) ==>
        r.result == BadMediatype && launched == [] && unchanged(this)
      ensures !old(Has(processing, r.id)) && Admitted(order.mediaType) ==>
        && r.result == ProcessOutcome.Success
        && processing == Put(old(processing), r.id, order)
        && Drained(old(current), launched)
        && completed == old(completed) && info == old(info)
        && activeRequests == old(activeRequests) && pulling == old(pulling)
    {
      var id := hash(order.pathToMedia);
      if Has(processing, id) {
        return ProcessResult(AlreadyProcessing, id), [];
      }
      if Admitted(order.mediaType) {
        PutUnique(processing, id, order);
        processing := Put(processing, id, order);
        launched := DrainPass();
      } else {
        return ProcessResult(BadMediatype, id), [];
      }
      r := ProcessResult(ProcessOutcome.Success, id);
    }

    /** One pass of `_processNext`: launch unclaimed stored jobs in store order until the
        launched ones plus those already running reach `maxTasks`. A non-empty result
        means the source awaits the batch and runs another pass; each launched job later
        settles through `Settle`. */
    method DrainPass() returns (launched: seq<string>)
      requires Valid()
      modifies this
      ensures Valid()
      ensures Drained(old(current), launched)
      ensures processing == old(processing) && completed == old(completed) && info == old(info)
      ensures activeRequests == old(activeRequests) && pulling == old(pulling)
    {
      var existsKeys := |current|;
      ghost var target := Drain(processing, 0, current, maxTasks - existsKeys, []);
      ghost var room := maxTasks - existsKeys;
      launched := [];
      var i := 0;
      while i < |processing|
        invariant 0 <= i <= |processing|
        invariant unchanged(this`processing, this`completed, this`info, this`activeRequests, this`pulling)
        invariant room == maxTasks - existsKeys - |launched| >= 0
        invariant |current| == existsKeys + |launched|
        invariant Drain(processing, i, current, room, launched) == target
      {
        var id := processing[i].key;
        if id in current {
          i := i + 1;
          continue;
        }
        if |launched| + existsKeys >= maxTasks {
          break;
        }
        launched := launched + [id];
        room := room - 1;
        current := current[id := processing[i].value];
        i := i + 1;
      }
    }

    /** `_process` once the processor's promise settles: the job leaves the running map
        only when `JobLeaves` says so; a rejected job, or one of an inherited type, keeps
        counting against `maxTasks`. */
    method Settle(id: string, processorResolved: bool)
      requires Valid()
      modifies this
      ensures Valid()
      ensures current ==
        if id in old(current) && !JobLeaves(old(current)[id].mediaType, processorResolved) then old(current)
        else old(current) - {id}
      ensures processing == old(processing) && completed == old(completed) && info == old(info)
      ensures activeRequests == old(activeRequests) && pulling == old(pulling)
    {
      if id !in current || JobLeaves(current[id].mediaType, processorResolved) {
        assert (current - {id}).Keys <= current.Keys;
        current := current - {id};
      }
    }

    /** `_onDone`: the record moves from `processing.<id>` to `completed.<id>`, and its
        customer sees it as completed. */
    method OnDone(p: CustomerOrderProcessing)
      requires Valid()
      modifies this
      ensures Valid()
      ensures completed == Put(old(completed), p.id, p)
      ensures processing == Remove(old(processing), p.id)
      ensures info == SetInfo(old(info), p.order.customer, p.id, DoneInfo)
      ensures current == old(current) && activeRequests == old(activeRequests) && pulling == old(pulling)
    {
      PutUnique(completed, p.id, p);
      RemoveUnique(processing, p.id);
      completed := Put(completed, p.id, p);
      processing := Remove(processing, p.id);
      info := SetInfo(info, p.order.customer, p.id, DoneInfo);
    }

    /** `_onError`: the record leaves `processing.<id>` without reaching `completed`,
        and its customer sees the error. The handler listens for the video processor's
        "error" event, which that processor never emits: a failed ffmpeg run rejects the
        job's promise instead, and ends in `Settle`. */
    method OnError(p: CustomerOrderProcessing)
      requires Valid()
      modifies this
      ensures Valid()
      ensures processing == Remove(old(processing), p.id)
      ensures info == SetInfo(old(info), p.order.customer, p.id, ErrorInfo)
      ensures completed == old(completed) && current == old(current)
      ensures activeRequests == old(activeRequests) && pulling == old(pulling)
    {
      RemoveUnique(processing, p.id);
      info := SetInfo(info, p.order.customer, p.id, ErrorInfo);
      processing := Remove(processing, p.id);
    }

    /** `_onProgress`, given the rounded percentage and the measured speed. */
    method OnProgress(id: string, order: CustomerOrder, percent: real, speed: real)
      requires Valid()
      modifies this
      ensures Valid()
      ensures info == SetInfo(old(info), order.customer, id, MediaProcessingInfo(Processing, speed, percent))
      ensures processing == old(processing) && completed == old(completed) && current == old(current)
      ensures activeRequests == old(activeRequests) && pulling == old(pulling)
    {
      info := SetInfo(info, order.customer, id, MediaProcessingInfo(Processing, speed, percent));
    }

    /** `init`: mark every stored completed record as done, then run a drain pass. */
    method Init() returns (launched: seq<string>)
      requires Valid()
      modifies this
      ensures Valid()
      ensures info == MarkAllDone(old(info), completed)
      ensures Drained(old(current), launched)
      ensures processing == old(processing) && completed == old(completed)
      ensures activeRequests == old(activeRequests) && pulling == old(pulling)
    {
      var i := 0;
      while i < |completed|
        invariant 0 <= i <= |completed|
        invariant MarkAllDone(info, completed[i..]) == MarkAllDone(old(info), completed)
        invariant unchanged(this`processing, this`completed, this`current)
        invariant unchanged(this`activeRequests, this`pulling)
      {
        assert completed[i..][1..] == completed[i + 1..];
        info := SetInfo(info, completed[i].value.order.customer, completed[i].key, DoneInfo);
        i := i + 1;
      }
      launched := DrainPass();
    }

    /** `pullInfo`: hand the customer's progress record to the callback; once the
        callback succeeds, its error entries are deleted. */
    method PullInfo(customer: string, callbackSucceeds: bool) returns (data: map<string, MediaProcessingInfo>)
      requires Valid()
      modifies this
      ensures Valid()
      ensures data == if customer in old(info) then old(info)[customer] else map[]
      ensures callbackSucceeds && customer in old(info) ==>
        info == old(info)[customer := WithoutErrors(old(info)[customer])]
      ensures !callbackSucceeds || customer !in old(info) ==> info == old(info)
      ensures processing == old(processing) && completed == old(completed) && current == old(current)
      ensures activeRequests == old(activeRequests) && pulling == old(pulling)
    {
      data := if customer in info then info[customer] else map[];
      if callbackSucceeds && customer in info {
        info := info[customer := WithoutErrors(info[customer])];
      }
    }

    /** `pullCompleted` up to its callback: the first completed record of the customer
        is handed out unless there is none or the customer already has a pull in
        flight, in which case the callback gets `null` and nothing changes. */
    method PullCompletedBegin(customer: string) returns (delivered: Option<CustomerOrderProcessing>)
      requires Valid()
      modifies this
      ensures Valid()
      ensures var first := FirstWhere(old(completed), OwnedBy(customer));
        first.None? || customer in old(activeRequests) ==> delivered == None && unchanged(this)
      ensures var first := FirstWhere(old(completed), OwnedBy(customer));
        first.Some? && customer !in old(activeRequests) ==>
          && delivered == Some(old(completed)[first.value].value)
          && activeRequests == old(activeRequests) + {customer}
          && pulling == old(pulling)[customer := old(completed)[first.value].key]
          && processing == old(processing) && completed == old(completed)
          && info == old(info) && current == old(current)
    {
      var first := FirstWhere(completed, OwnedBy(customer));
      if first.None? || customer in activeRequests {
        return None;
      }
      var e := completed[first.value];
      activeRequests := activeRequests + {customer};
      pulling := pulling[customer := e.key];
      delivered := Some(e.value);
    }

    /** `pullCompleted` after its callback: on success the delivered record and the
        customer's info entry for it are deleted; on failure both stay. Either way the
        customer's pull is no longer in flight. */
    method PullCompletedFinish(customer: string, callbackSucceeds: bool)
      requires Valid() && customer in activeRequests
      modifies this
      ensures Valid()
      ensures var key := old(pulling)[customer];
        callbackSucceeds ==>
          && completed == Remove(old(completed), key)
          && info == if customer in old(info) then old(info)[customer := old(info)[customer] - {key}] else old(info)
      ensures !callbackSucceeds ==> completed == old(completed) && info == old(info)
      ensures activeRequests == old(activeRequests) - {customer}
      ensures pulling == old(pulling) - {customer}
      ensures processing == old(processing) && current == old(current)
    {
      var key := pulling[customer];
      if callbackSucceeds {
        if customer in info {
          info := info[customer := info[customer] - {key}];
        }
        RemoveUnique(completed, key);
        completed := Remove(completed, key);
      }
      activeRequests := activeRequests - {customer};
      pulling := pulling - {customer};
    }
  }
}
