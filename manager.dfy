/**
 * The queues and workers of ModulesManager (oono_akira/modules/__init__.py:54-107).
 *
 * Each queue name has one queue and one worker.  A worker takes items in
 * FIFO order and stops at the None sentinel.  For a job it awaits the
 * handler, then the callback if there is one; an exception from either is
 * printed and swallowed, so later items are still processed.  Queues run
 * concurrently in the source; here each worker is a sequential consumer that
 * is run explicitly (RunWorker) and that drains what its queue holds.
 */
module Manager {
  import opened Wrappers
  import opened Slack
  import opened Registry
  import Discovery

  /** One queued call: the context, the handler coroutine and the optional callback (named). */
  datatype Job = Job(context: Context, fn: HandlerFn, callback: Option<string>)

  /** A queue item: a job, or the None sentinel put by `__aexit__`. */
  datatype Item = Sentinel | Work(job: Job)

  /** What a worker did: awaited a job's handler, or awaited its callback. */
  datatype Step = Ran(job: Job) | CalledBack(job: Job)

  /** The outcome of running a worker over what its queue holds. */
  datatype Drained = Drained(steps: seq<Step>, rest: seq<Item>, stopped: bool)

  /** The steps one job produces; `succeeds(job)` says whether its handler returned without raising. */
  function JobSteps(job: Job, succeeds: Job -> bool): seq<Step> {
    [Ran(job)] + (if succeeds(job) && job.callback.Some? then [CalledBack(job)] else [])
  }

  /** The loop of `_run` over a queue's items, until the sentinel or until the queue is empty. */
  function Drain(items: seq<Item>, succeeds: Job -> bool): Drained
    decreases |items|
  {
    if items == [] then Drained([], [], false)
    else if items[0].Sentinel? then Drained([], items[1..], true)
    else
      var d := Drain(items[1..], succeeds);
      Drained(JobSteps(items[0].job, succeeds) + d.steps, d.rest, d.stopped)
  }

  /** The jobs ahead of the first sentinel, in queue order. */
  function JobsBefore(items: seq<Item>): seq<Job>
    decreases |items|
  {
    if items == [] || items[0].Sentinel? then [] else [items[0].job] + JobsBefore(items[1..])
  }

  /** The jobs whose handler was awaited, in the order of the steps. */
  function Handled(steps: seq<Step>): seq<Job>
    decreases |steps|
  {
    if steps == [] then []
    else (if steps[0].Ran? then [steps[0].job] else []) + Handled(steps[1..])
  }

  predicate NoSentinel(items: seq<Item>) {
    forall i :: 0 <= i < |items| ==> items[i].Work?
  }

  lemma {:induction false} HandledAppend(a: seq<Step>, b: seq<Step>)
    ensures Handled(a + b) == Handled(a) + Handled(b)
    decreases |a|
  {
    if a != [] {
      var x := if a[0].Ran? then [a[0].job] else [];
      assert (a + b)[0] == a[0];
      assert (a + b)[1..] == a[1..] + b;
      HandledAppend(a[1..], b);
      assert Handled(a + b) == x + (Handled(a[1..]) + Handled(b));
      assert x + (Handled(a[1..]) + Handled(b)) == (x + Handled(a[1..])) + Handled(b);
    } else {
      assert a + b == b;
    }
  }

  /**
   * FIFO: the worker awaits exactly the handlers of the jobs ahead of the
   * first sentinel, once each and in queue order, whether or not earlier
   * handlers raised.
   */
  lemma {:induction false} DrainIsFifo(items: seq<Item>, succeeds: Job -> bool)
    ensures Handled(Drain(items, succeeds).steps) == JobsBefore(items)
    decreases |items|
  {
    if items != [] && items[0].Work? {
      var job := items[0].job;
      var d := Drain(items[1..], succeeds);
      DrainIsFifo(items[1..], succeeds);
      HandledAppend(JobSteps(job, succeeds), d.steps);
      assert Handled(JobSteps(job, succeeds)) == [job] by {
        if succeeds(job) && job.callback.Some? {
          assert JobSteps(job, succeeds)[1..] == [CalledBack(job)];
        }
      }
    }
  }

  /** A job at the front does not change whether a queue holds a sentinel. */
  lemma NoSentinelCons(items: seq<Item>)
    requires items != [] && items[0].Work?
    ensures NoSentinel(items) <==> NoSentinel(items[1..])
  {
    if NoSentinel(items[1..]) {
      forall i | 0 <= i < |items| ensures items[i].Work? {
        if i > 0 {
          assert items[i] == items[1..][i - 1];
        }
      }
    }
    if NoSentinel(items) {
      forall i | 0 <= i < |items[1..]| ensures items[1..][i].Work? {
        assert items[1..][i] == items[i + 1];
      }
    }
  }

  /** The worker stops iff a sentinel is queued, and otherwise leaves nothing behind. */
  lemma {:induction false} StoppedIff(items: seq<Item>, succeeds: Job -> bool)
    ensures Drain(items, succeeds).stopped <==> !NoSentinel(items)
    ensures !Drain(items, succeeds).stopped ==> Drain(items, succeeds).rest == []
    decreases |items|
  {
    if items != [] && items[0].Work? {
      StoppedIff(items[1..], succeeds);
      NoSentinelCons(items);
    }
  }

  /** A stopped worker stopped at the first sentinel and left what follows it. */
  lemma {:induction false} StoppedAt(items: seq<Item>, succeeds: Job -> bool) returns (k: nat)
    requires Drain(items, succeeds).stopped
    ensures k < |items| && items[k].Sentinel? && NoSentinel(items[..k])
    ensures Drain(items, succeeds).rest == items[k + 1..]
    decreases |items|
  {
    if items[0].Sentinel? {
      k := 0;
      assert NoSentinel(items[..0]);
    } else {
      var j := StoppedAt(items[1..], succeeds);
      k := j + 1;
      assert items[k] == items[1..][j];
      forall i | 0 <= i < k ensures items[..k][i].Work? {
        if i > 0 {
          assert items[..k][i] == items[1..][..j][i - 1];
        }
      }
      assert items[k + 1..] == items[1..][j + 1..];
    }
  }

  /** The worker stops exactly when the queue holds a sentinel, and keeps what follows the first one. */
  lemma DrainStops(items: seq<Item>, succeeds: Job -> bool)
    ensures Drain(items, succeeds).stopped <==> !NoSentinel(items)
    ensures !Drain(items, succeeds).stopped ==> Drain(items, succeeds).rest == []
    ensures Drain(items, succeeds).stopped ==>
      exists k :: 0 <= k < |items| && items[k].Sentinel? && NoSentinel(items[..k])
        && Drain(items, succeeds).rest == items[k + 1..]
  {
    StoppedIff(items, succeeds);
    if Drain(items, succeeds).stopped {
      var k := StoppedAt(items, succeeds);
    }
  }

  /** A callback step comes right after its own job's successful handler, and such a handler is always followed by it. */
  predicate CallbacksPaired(s: seq<Step>, succeeds: Job -> bool) {
    && (forall k :: 0 <= k < |s| && s[k].CalledBack? ==>
          k > 0 && s[k - 1] == Ran(s[k].job) && succeeds(s[k].job) && s[k].job.callback.Some?)
    && (forall k :: 0 <= k < |s| && s[k].Ran? && succeeds(s[k].job) && s[k].job.callback.Some? ==>
          k + 1 < |s| && s[k + 1] == CalledBack(s[k].job))
  }

  /**
   * A callback runs only right after its own job's handler, and only when
   * that handler returned normally; such a handler is always followed by its callback.
   */
  lemma {:induction false} CallbackOnlyAfterSuccess(items: seq<Item>, succeeds: Job -> bool)
    ensures CallbacksPaired(Drain(items, succeeds).steps, succeeds)
    decreases |items|
  {
    if items != [] && items[0].Work? {
      CallbackOnlyAfterSuccess(items[1..], succeeds);
      var job := items[0].job;
      var head := JobSteps(job, succeeds);
      var t := Drain(items[1..], succeeds).steps;
      var s := head + t;
      assert s == Drain(items, succeeds).steps;
      var h := |head|;
      assert CallbacksPaired(t, succeeds);
      forall k | 0 <= k < |s| && s[k].Ran? && succeeds(s[k].job) && s[k].job.callback.Some?
        ensures k + 1 < |s| && s[k + 1] == CalledBack(s[k].job)
      {
        if k >= h {
          assert s[k] == t[k - h];
          assert t[k - h].Ran? && succeeds(t[k - h].job) && t[k - h].job.callback.Some?;
          assert s[k + 1] == t[k - h + 1];
        } else {
          assert h == 2 && s[1] == CalledBack(job);
        }
      }
      forall k | 0 <= k < |s| && s[k].CalledBack?
        ensures k > 0 && s[k - 1] == Ran(s[k].job) && succeeds(s[k].job) && s[k].job.callback.Some?
      {
        if k >= h {
          assert s[k] == t[k - h];
          assert t[k - h].CalledBack?;
          assert s[k - 1] == t[k - h - 1];
        } else {
          assert k == 1 && h == 2 && s[0] == Ran(job);
        }
      }
    }
  }

  /**
   * Shutdown drain: a queue without a sentinel that receives one has every
   * job's handler awaited, in order, and ends empty with its worker stopped.
   */
  lemma {:induction false} SentinelDrainsAll(items: seq<Item>, succeeds: Job -> bool)
    requires NoSentinel(items)
    ensures var d := Drain(items + [Sentinel], succeeds);
      d.stopped && d.rest == [] && |Handled(d.steps)| == |items|
      && forall i :: 0 <= i < |items| ==> Handled(d.steps)[i] == items[i].job
    decreases |items|
  {
    var all := items + [Sentinel];
    DrainIsFifo(all, succeeds);
    JobsBeforeAll(items);
    if items != [] {
      assert all[1..] == items[1..] + [Sentinel];
      SentinelDrainsAll(items[1..], succeeds);
    } else {
      assert all == [Sentinel];
    }
  }

  lemma {:induction false} JobsBeforeAll(items: seq<Item>)
    requires NoSentinel(items)
    ensures |JobsBefore(items + [Sentinel])| == |items|
    ensures forall i :: 0 <= i < |items| ==> JobsBefore(items + [Sentinel])[i] == items[i].job
    decreases |items|
  {
    if items != [] {
      assert (items + [Sentinel])[1..] == items[1..] + [Sentinel];
      JobsBeforeAll(items[1..]);
    }
  }

  /** `done` followed by the outcome `d` of the rest of the loop. */
  function After(done: seq<Step>, d: Drained): Drained {
    Drained(done + d.steps, d.rest, d.stopped)
  }

  /** The loop of `_run` over the items a queue holds: it stops at the sentinel, or waits once the queue is empty. */
  method WorkerLoop(items: seq<Item>, succeeds: Job -> bool) returns (steps: seq<Step>, rest: seq<Item>, stopped: bool)
    ensures Drained(steps, rest, stopped) == Drain(items, succeeds)
  {
    rest := items;
    steps := [];
    stopped := false;
    while rest != [] && !stopped
      invariant stopped ==> Drain(items, succeeds) == Drained(steps, rest, true)
      invariant !stopped ==> Drain(items, succeeds) == After(steps, Drain(rest, succeeds))
      decreases |rest|, !stopped
    {
      var item := rest[0];
      ghost var d := Drain(rest, succeeds);
      rest := rest[1..];
      if item.Sentinel? {
        stopped := true;
      } else {
        var job := item.job;
        ghost var done := steps;
        steps := steps + [Ran(job)];
        // The handler's exception, if any, is swallowed and skips the callback.
        if succeeds(job) && job.callback.Some? {
          steps := steps + [CalledBack(job)];
        }
        assert steps == done + JobSteps(job, succeeds);
        ghost var e := Drain(rest, succeeds);
        assert d == After(JobSteps(job, succeeds), e);
        assert done + (JobSteps(job, succeeds) + e.steps) == steps + e.steps;
      }
    }
    assert steps + [] == steps;
  }

  /** `_modules_mapping` after the load loop: import path to short name. */
  function ImportTable(modules: seq<(string, string)>): map<string, string>
    decreases |modules|
  {
    if modules == [] then map[]
    else
      var last := modules[|modules| - 1];
      ImportTable(modules[..|modules| - 1])[last.1 := last.0]
  }

  /** `iterate_modules(capability)`: each constructor registered for it, paired with its module's short name. */
  function IterateModules(caps: map<string, seq<Ctor>>, names: map<string, string>, capability: string): (r: seq<(string, Ctor)>)
    requires forall c :: c in Lookup(caps, capability) ==> c.moduleName in names
    ensures |r| == |Lookup(caps, capability)|
    ensures forall i :: 0 <= i < |r| ==> r[i].1 == Lookup(caps, capability)[i] && r[i].0 == names[r[i].1.moduleName]
    ensures capability !in caps ==> r == []
  {
    var cs := Lookup(caps, capability);
    seq(|cs|, i requires 0 <= i < |cs| => (names[cs[i].moduleName], cs[i]))
  }

  /** The constructors `iterate_modules` yields are those registered for the capability, in registration order. */
  lemma IterateInRegistrationOrder(regs: seq<Registration>, names: map<string, string>, capability: string)
    requires forall c :: c in Lookup(Capabilities(regs), capability) ==> c.moduleName in names
    ensures var r := IterateModules(Capabilities(regs), names, capability);
      |r| == |RegisteredFor(regs, capability)|
      && forall i :: 0 <= i < |r| ==> r[i].1 == RegisteredFor(regs, capability)[i]
  {
    CapabilitiesInOrder(regs, capability);
  }

  /**
   * The second loop of `__aexit__` on the queue and log tables: each worker
   * not yet finished runs until its sentinel.
   */
  method AwaitAll(queues: map<string, seq<Item>>, log: map<string, seq<Step>>, finished: set<string>, succeeds: Job -> bool)
    returns (q: map<string, seq<Item>>, l: map<string, seq<Step>>, done: set<string>)
    requires queues.Keys == log.Keys && finished <= queues.Keys
    requires forall n :: n in queues && n !in finished ==> !NoSentinel(queues[n])
    ensures q.Keys == queues.Keys && l.Keys == queues.Keys && done == queues.Keys
    ensures forall n :: n in queues && n !in finished ==>
      q[n] == Drain(queues[n], succeeds).rest && l[n] == log[n] + Drain(queues[n], succeeds).steps
    ensures forall n :: n in finished ==> q[n] == queues[n] && l[n] == log[n]
  {
    q, l, done := queues, log, finished;
    var toAwait := queues.Keys - finished;
    while toAwait != {}
      invariant toAwait <= q.Keys && q.Keys == queues.Keys && l.Keys == queues.Keys
      invariant done == queues.Keys - toAwait
      invariant forall n :: n in toAwait ==> q[n] == queues[n] && l[n] == log[n]
      invariant forall n :: n in queues && n !in finished && n !in toAwait ==>
        q[n] == Drain(queues[n], succeeds).rest && l[n] == log[n] + Drain(queues[n], succeeds).steps
      invariant forall n :: n in finished ==> q[n] == queues[n] && l[n] == log[n]
      decreases toAwait
    {
      var n :| n in toAwait;
      StoppedIff(q[n], succeeds);
      var steps, rest, stop := WorkerLoop(q[n], succeeds);
      q := q[n := rest];
      l := l[n := l[n] + steps];
      if stop {
        done := done + {n};
      }
      toAwait := toAwait - {n};
    }
  }

  /** Whether every discovered module's import path has an entry in `CAPABILITIES_MAPPING`. */
  predicate AllRegistered(modules: seq<(string, string)>, capabilitiesMapping: map<string, map<string, Ctor>>) {
    forall i :: 0 <= i < |modules| ==> modules[i].1 in capabilitiesMapping
  }

  /**
   * The import loop of `__init__` over the discovered (short name, import
   * path) pairs: each import path is mapped to its short name, and the log
   * line's `CAPABILITIES_MAPPING[mod.__name__]` raises KeyError for the first
   * module that registered nothing.
   */
  method ImportModules(modules: seq<(string, string)>, capabilitiesMapping: map<string, map<string, Ctor>>)
    returns (r: Result<map<string, string>, string>)
    ensures r.Ok? <==> AllRegistered(modules, capabilitiesMapping)
    ensures r.Ok? ==> r.value == ImportTable(modules)
    ensures r.Err? ==>
      exists i :: 0 <= i < |modules| && modules[i].1 !in capabilitiesMapping
        && AllRegistered(modules[..i], capabilitiesMapping) && r.error == "KeyError: " + modules[i].1
  {
    var mapping := map[];
    for i := 0 to |modules|
      invariant mapping == ImportTable(modules[..i])
      invariant AllRegistered(modules[..i], capabilitiesMapping)
    {
      assert modules[..i + 1][..i] == modules[..i];
      mapping := mapping[modules[i].1 := modules[i].0];
      if modules[i].1 !in capabilitiesMapping {
        return Err("KeyError: " + modules[i].1);
      }
    }
    assert modules[..|modules|] == modules;
    return Ok(mapping);
  }

  /**
   * `__init__` followed by `__aenter__`: discovery over the directory
   * listing, then the import loop.  `capabilitiesMapping` is the registry's
   * table once every module is imported.
   */
  method Load(listing: seq<string>, capabilitiesMapping: map<string, map<string, Ctor>>) returns (r: Result<ModulesManager, string>)
    ensures var d := Discovery.DiscoverFrom(Discovery.SortFiles(listing), []);
      && (d.Err? ==> r == Err(d.error))
      && (d.Ok? ==> (r.Ok? <==> AllRegistered(d.value, capabilitiesMapping)))
      && (d.Ok? && !AllRegistered(d.value, capabilitiesMapping) ==>
            exists i :: 0 <= i < |d.value| && d.value[i].1 !in capabilitiesMapping
              && AllRegistered(d.value[..i], capabilitiesMapping) && r == Err("KeyError: " + d.value[i].1))
      && (r.Ok? ==>
            && d.Ok? && fresh(r.value) && r.value.Valid()
            && r.value.modulesMapping == ImportTable(d.value)
            && r.value.queues == map[] && r.value.log == map[] && r.value.finished == {})
  {
    var found := Discovery.Discover(listing);
    if found.Err? {
      return Err(found.error);
    }
    var mapping := ImportModules(found.value, capabilitiesMapping);
    if mapping.Err? {
      return Err(mapping.error);
    }
    var m := new ModulesManager(mapping.value);
    return Ok(m);
  }

  class ModulesManager {
    /** `_modules_mapping`: import path to short name. */
    var modulesMapping: map<string, string>
    /** `_queue`: the items waiting in each named queue. */
    var queues: map<string, seq<Item>>
    /** What each queue's worker has done so far. */
    var log: map<string, seq<Step>>
    /** The queues whose worker has met its sentinel and exited (its future is done). */
    var finished: set<string>

    ghost predicate Valid()
      reads this
    {
      queues.Keys == log.Keys && finished <= queues.Keys
    }

    /** The state `Load` leaves: the import-to-name mapping it built, and no queues yet (`__aenter__`). */
    constructor (modulesMapping: map<string, string>)
      ensures Valid()
      ensures this.modulesMapping == modulesMapping
      ensures queues == map[] && log == map[] && finished == {}
    {
      this.modulesMapping := modulesMapping;
      queues := map[];
      log := map[];
      finished := {};
    }

    /** `_ensure_queue`: a queue and its worker are created only for a new name. */
    method EnsureQueue(name: string)
      requires Valid()
      modifies this
      ensures Valid()
      ensures name in queues
      ensures queues == if name in old(queues) then old(queues) else old(queues)[name := []]
      ensures log == if name in old(log) then old(log) else old(log)[name := []]
      ensures finished == old(finished) && modulesMapping == old(modulesMapping)
    {
      if name !in queues {
        queues := queues[name := []];
        log := log[name := []];
      }
    }

    /** `queue`: appends the job to that name's queue; every other queue is unchanged. */
    method Queue(name: string, context: Context, fn: HandlerFn, callback: Option<string>)
      requires Valid()
      modifies this
      ensures Valid()
      ensures name in queues
      ensures queues[name] == (if name in old(queues) then old(queues)[name] else []) + [Work(Job(context, fn, callback))]
      ensures forall n :: n in queues && n != name ==> n in old(queues) && queues[n] == old(queues)[n]
      ensures queues.Keys == old(queues.Keys) + {name}
      ensures log == if name in old(log) then old(log) else old(log)[name := []]
      ensures finished == old(finished) && modulesMapping == old(modulesMapping)
    {
      EnsureQueue(name);
      queues := queues[name := queues[name] + [Work(Job(context, fn, callback))]];
    }

    /**
     * Lets the worker of `name` take what its queue holds: it stops at the
     * sentinel, or waits once the queue is empty.
     */
    method RunWorker(name: string, succeeds: Job -> bool)
      requires Valid() && name in queues && name !in finished
      modifies this
      ensures Valid()
      ensures var d := Drain(old(queues[name]), succeeds);
        && queues == old(queues)[name := d.rest]
        && log == old(log)[name := old(log[name]) + d.steps]
        && finished == (if d.stopped then old(finished) + {name} else old(finished))
      ensures modulesMapping == old(modulesMapping)
    {
      var steps, rest, stop := WorkerLoop(queues[name], succeeds);
      queues := queues[name := rest];
      log := log[name := log[name] + steps];
      if stop {
        finished := finished + {name};
      }
    }

    /** The first loop of `__aexit__`: a sentinel goes at the tail of every queue. */
    method PutSentinels()
      requires Valid()
      modifies this
      ensures Valid()
      ensures queues.Keys == old(queues.Keys) && log == old(log) && finished == old(finished)
      ensures forall n :: n in queues ==> queues[n] == old(queues[n]) + [Sentinel]
      ensures modulesMapping == old(modulesMapping)
    {
      var toStop := queues.Keys;
      while toStop != {}
        invariant toStop <= queues.Keys
        invariant queues.Keys == old(queues.Keys) && log == old(log) && finished == old(finished)
        invariant forall n :: n in queues ==> queues[n] == if n in toStop then old(queues[n]) else old(queues[n]) + [Sentinel]
        invariant modulesMapping == old(modulesMapping)
        decreases toStop
      {
        var n :| n in toStop;
        queues := queues[n := queues[n] + [Sentinel]];
        toStop := toStop - {n};
      }
    }

    /** Whether the worker of `n` has drained `items` ending in the sentinel, starting from `steps`. */
    ghost predicate DrainedTo(n: string, items: seq<Item>, steps: seq<Step>, succeeds: Job -> bool)
      reads this
      requires n in queues && n in log
    {
      var d := Drain(items, succeeds);
      queues[n] == d.rest && log[n] == steps + d.steps
    }

    /** The second loop of `__aexit__`: every worker that has not exited yet is awaited. */
    method AwaitWorkers(succeeds: Job -> bool)
      requires Valid()
      requires forall n :: n in queues ==> queues[n] != [] && queues[n][|queues[n]| - 1].Sentinel?
      modifies this
      ensures Valid()
      ensures queues.Keys == old(queues.Keys) && finished == old(queues.Keys)
      ensures forall n :: n in queues && n !in old(finished) ==> DrainedTo(n, old(queues[n]), old(log[n]), succeeds)
      ensures forall n :: n in old(finished) ==> queues[n] == old(queues[n]) && log[n] == old(log[n])
      ensures modulesMapping == old(modulesMapping)
    {
      assert forall n :: n in queues && n !in finished ==> !NoSentinel(queues[n]) by {
        forall n | n in queues && n !in finished ensures !NoSentinel(queues[n]) {
          assert queues[n][|queues[n]| - 1].Sentinel?;
        }
      }
      queues, log, finished := AwaitAll(queues, log, finished, succeeds);
    }

    /**
     * `__aexit__`: a sentinel is put on every queue, then every worker is
     * awaited.  A worker that already exited just leaves its sentinel in place.
     */
    method Shutdown(succeeds: Job -> bool)
      requires Valid()
      modifies this
      ensures Valid()
      ensures queues.Keys == old(queues.Keys) && finished == old(queues.Keys)
      ensures forall n :: n in queues && n !in old(finished) ==> DrainedTo(n, old(queues[n]) + [Sentinel], old(log[n]), succeeds)
      ensures forall n :: n in old(finished) ==> queues[n] == old(queues[n]) + [Sentinel] && log[n] == old(log[n])
      ensures modulesMapping == old(modulesMapping)
    {
      PutSentinels();
      AwaitWorkers(succeeds);
    }
  }
}
