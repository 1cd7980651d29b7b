/** The fan-in controller as a sequential abstraction: registration, the
    spawning of one watcher task per (client, namespace), the steps of each
    task's select loop, and the one-shot shutdown. The shared stream is the
    sequence `output`; the completion barrier is the counter `barrier`. */
module Watch {
  import opened WatchTypes
  import opened Registry
  import opened Tasks
  import opened Trace

  const ZeroNamespacesMessage: string := "Trying to start watcher with 0 namespaces"
  const ListFailedPrefix: string := "Unable to list namespaces: "

  /** What a Register call leads to: process termination with a message, or a
      registered client together with the requested names it warned about. */
  datatype RegisterOutcome = Fatal(message: string) | Registered(missing: seq<string>)

  /** The tasks spawned for the first i + 1 clients are those for the first i
      followed by those for client i. */
  lemma SpawnPairsStep(before: seq<Task>, name: string, clients: seq<Client>, i: nat)
    requires i < |clients|
    ensures before + Spawn(Pairs(name, clients[..i])) + Spawn(ClientPairs(name, clients[i]))
         == before + Spawn(Pairs(name, clients[..i + 1]))
  {
    ghost var done := Pairs(name, clients[..i]);
    ghost var more := ClientPairs(name, clients[i]);
    assert Pairs(name, clients[..i + 1]) == done + more by {
      assert clients[..i + 1][..i] == clients[..i];
    }
    SpawnAppend(done, more);
    assert before + Spawn(done) + Spawn(more) == before + (Spawn(done) + Spawn(more));
  }

  lemma TagSnoc(items: seq<ApiEvent>, n: nat, meta: Metadata)
    requires n < |items|
    ensures Tag(items[..n + 1], meta) == Tag(items[..n], meta) + [Envelope(items[n], meta)]
  {
  }

  class Controller {
    var clients: seq<Client>
    var output: seq<Envelope>
    var barrier: nat
    var running: bool
    var cancelled: bool
    /** The watcher tasks spawned so far, in spawn order. */
    var tasks: seq<Task>
    /** Bookkeeping seen only by the proofs: the task each envelope of `output`
        came from (None for the shutdown-complete envelope), the source each
        task opened, and the items each task has forwarded so far. */
    ghost var origin: seq<Option<nat>>
    ghost var sources: seq<seq<ApiEvent>>
    ghost var forwarded: seq<seq<ApiEvent>>

    /** The barrier counts exactly the streaming tasks; the stream holds as
        many sentinels as there are exited tasks and one shutdown-complete
        envelope once shutdown has finished; shutdown is only finished after
        cancellation. However the tasks' steps interleave, each envelope
        carries the metadata of the task that sent it, and the envelopes of
        each task are a tagged prefix of its source followed, once it has
        exited, by its one sentinel (Trace.Traced). */
    ghost predicate Valid()
      reads this
    {
      && barrier == LiveCount(tasks)
      && SentinelCount(output) == ExitedCount(tasks)
      && CloseCount(output) == (if running then 0 else 1)
      && (!running ==> cancelled)
      && Traced(tasks, output, origin, sources, forwarded)
    }

    constructor ()
      ensures Valid()
      ensures clients == [] && output == [] && tasks == []
      ensures barrier == 0 && running && !cancelled
    {
      clients, output, tasks := [], [], [];
      barrier, running, cancelled := 0, true, false;
      origin, sources, forwarded := [], [], [];
    }

    /** Registers a client under `identifier`. `listing` is the result of asking
        the cluster for its namespaces; a fatal outcome means the process ends
        and nothing is registered. */
    method Register(identifier: string, listing: Result<seq<string>>, requested: seq<string>)
      returns (outcome: RegisterOutcome)
      requires Valid()
      modifies this
      ensures Valid()
      ensures output == old(output) && tasks == old(tasks) && barrier == old(barrier)
      ensures running == old(running) && cancelled == old(cancelled)
      ensures NoNamespaces(requested) ==>
        outcome == Fatal(ZeroNamespacesMessage) && clients == old(clients)
      ensures !NoNamespaces(requested) && listing.Failure? ==>
        outcome == Fatal(ListFailedPrefix + listing.error) && clients == old(clients)
      ensures !NoNamespaces(requested) && listing.Success? ==>
        && outcome == Registered(Missing(requested, listing.value))
        && clients == old(clients) + [Client(Matched(requested, listing.value), Metadata("", identifier, ""))]
    {
      if NoNamespaces(requested) {
        return Fatal(ZeroNamespacesMessage);
      }
      if listing.Failure? {
        return Fatal(ListFailedPrefix + listing.error);
      }
      var items := listing.value;
      var stored: seq<string> := [];
      var missing: seq<string> := [];
      label scan:
      for i := 0 to |requested|
        invariant stored == Matched(requested[..i], items)
        invariant missing == Missing(requested[..i], items)
      {
        var ns := requested[i];
        assert requested[..i + 1][..i] == requested[..i];
        for j := 0 to |items|
          invariant ns !in items[..j]
        {
          if ns == items[j] {
            stored := stored + [ns];
            continue scan;
          }
        }
        assert items[..|items|] == items;
        missing := missing + [ns];
      }
      assert requested[..|requested|] == requested;
      clients := clients + [Client(stored, Metadata("", identifier, ""))];
      outcome := Registered(missing);
    }

    /** Spawns one task for resource kind `name` per (client, namespace) pair,
        clients in registration order and namespaces in stored order. */
    method Watchers(name: string)
      requires Valid()
      modifies this
      ensures Valid()
      ensures tasks == old(tasks) + Spawn(Pairs(name, clients))
      ensures clients == old(clients) && output == old(output) && barrier == old(barrier)
      ensures running == old(running) && cancelled == old(cancelled)
    {
      for i := 0 to |clients|
        invariant clients == old(clients) && output == old(output) && barrier == old(barrier)
        invariant running == old(running) && cancelled == old(cancelled)
        invariant Valid()
        invariant tasks == old(tasks) + Spawn(Pairs(name, clients[..i]))
      {
        SpawnClient(name, clients[i]);
        SpawnPairsStep(old(tasks), name, clients, i);
      }
      assert clients[..|clients|] == clients;
    }

    /** The inner loop of Watchers: one task per stored namespace of client c. */
    method SpawnClient(name: string, c: Client)
      requires Valid()
      modifies this
      ensures Valid()
      ensures tasks == old(tasks) + Spawn(ClientPairs(name, c))
      ensures clients == old(clients) && output == old(output) && barrier == old(barrier)
      ensures running == old(running) && cancelled == old(cancelled)
    {
      for j := 0 to |c.namespaces|
        invariant clients == old(clients) && output == old(output) && barrier == old(barrier)
        invariant running == old(running) && cancelled == old(cancelled)
        invariant Valid()
        invariant tasks == old(tasks) + Spawn(ClientPairs(name, c)[..j])
      {
        var m := PairMeta(name, c, c.namespaces[j]);
        assert ClientPairs(name, c)[..j + 1] == ClientPairs(name, c)[..j] + [m];
        ghost var done := Spawn(ClientPairs(name, c)[..j]);
        SpawnSnoc(ClientPairs(name, c)[..j], m);
        SpawnTask(m);
        assert old(tasks) + done + [Task(m, Created)] == old(tasks) + (done + [Task(m, Created)]);
      }
      assert ClientPairs(name, c)[..|c.namespaces|] == ClientPairs(name, c);
    }

    /** The `go` statement: one new task with metadata m, not yet connected. */
    method SpawnTask(m: Metadata)
      requires Valid()
      modifies this
      ensures Valid()
      ensures tasks == old(tasks) + [Task(m, Created)]
      ensures clients == old(clients) && output == old(output) && barrier == old(barrier)
      ensures running == old(running) && cancelled == old(cancelled)
    {
      var t := Task(m, Created);
      TaskCountsSnoc(tasks, t);
      TracedSpawn(tasks, output, origin, sources, forwarded, m);
      tasks := tasks + [t];
      sources, forwarded := sources + [[]], forwarded + [[]];
    }

    /** The start of task i: opening its watch (the construction result is
        given) and, on success, registering with the barrier. */
    method Connect(i: nat, c: Construction)
      requires Valid() && i < |tasks| && tasks[i].phase.Created?
      modifies this
      ensures Valid()
      ensures c.Opened? ==>
        tasks == old(tasks)[i := Task(old(tasks[i].meta), Streaming(c.source))] && barrier == old(barrier) + 1
      ensures c.Refused? ==>
        tasks == old(tasks)[i := Task(old(tasks[i].meta), Failed(c.reason))] && barrier == old(barrier)
      ensures clients == old(clients) && output == old(output)
      ensures running == old(running) && cancelled == old(cancelled)
    {
      var t := Task(tasks[i].meta, if c.Opened? then Streaming(c.source) else Failed(c.reason));
      TaskCountsUpdate(tasks, i, t);
      TracedConnect(tasks, output, origin, sources, forwarded, i, c);
      tasks := tasks[i := t];
      if c.Opened? {
        sources := sources[i := c.source];
        barrier := barrier + 1;
      }
    }

    /** One round of task i's select loop. `closeWins` resolves the select when
        the shutdown signal and the source are both ready; it is ignored until
        cancellation has been requested. On exit (cancellation, or the source
        reporting closed) the remaining items are drained and discarded, the
        sentinel is sent and the barrier released. */
    method Step(i: nat, closeWins: bool)
      requires Valid() && i < |tasks| && tasks[i].phase.Streaming?
      modifies this
      ensures Valid()
      ensures clients == old(clients) && running == old(running) && cancelled == old(cancelled)
      ensures
        var m := old(tasks[i].meta);
        var pending := old(tasks[i].phase.pending);
        if (cancelled && closeWins) || pending == [] then
          && tasks == old(tasks)[i := Task(m, Exited)]
          && output == old(output) + [Sentinel(m)]
          && barrier == old(barrier) - 1
          && forwarded == old(forwarded)
        else
          && tasks == old(tasks)[i := Task(m, Streaming(pending[1..]))]
          && output == old(output) + [Envelope(pending[0], m)]
          && barrier == old(barrier)
          && forwarded == old(forwarded)[i := old(forwarded)[i] + [pending[0]]]
      ensures origin == old(origin) + [Some(i)] && sources == old(sources)
    {
      if (cancelled && closeWins) || tasks[i].phase.pending == [] {
        Exit(i);
      } else {
        Deliver(i);
      }
    }

    /** The leaving of task i's select loop: its sentinel goes out and it
        releases the barrier. */
    method Exit(i: nat)
      requires Valid() && i < |tasks| && tasks[i].phase.Streaming?
      modifies this
      ensures Valid()
      ensures clients == old(clients) && running == old(running) && cancelled == old(cancelled)
      ensures tasks == old(tasks)[i := Task(old(tasks[i].meta), Exited)]
      ensures output == old(output) + [Sentinel(old(tasks[i].meta))]
      ensures barrier == old(barrier) - 1
      ensures forwarded == old(forwarded)
      ensures origin == old(origin) + [Some(i)] && sources == old(sources)
    {
      var m := tasks[i].meta;
      var t := Task(m, Exited);
      TaskCountsUpdate(tasks, i, t);
      LiveCountPositive(tasks, i);
      CountsSnoc(output, Sentinel(m));
      TracedExit(tasks, output, origin, sources, forwarded, i);
      tasks := tasks[i := t];
      output := output + [Sentinel(m)];
      origin := origin + [Some(i)];
      barrier := barrier - 1;
    }

    /** The source branch of task i's select when an item is ready: the item
        goes out tagged with the task's metadata. */
    method Deliver(i: nat)
      requires Valid() && i < |tasks| && tasks[i].phase.Streaming? && tasks[i].phase.pending != []
      modifies this
      ensures Valid()
      ensures clients == old(clients) && running == old(running) && cancelled == old(cancelled)
      ensures
        var m := old(tasks[i].meta);
        var pending := old(tasks[i].phase.pending);
        && tasks == old(tasks)[i := Task(m, Streaming(pending[1..]))]
        && output == old(output) + [Envelope(pending[0], m)]
        && forwarded == old(forwarded)[i := old(forwarded)[i] + [pending[0]]]
      ensures barrier == old(barrier)
      ensures origin == old(origin) + [Some(i)] && sources == old(sources)
    {
      var m := tasks[i].meta;
      var pending := tasks[i].phase.pending;
      var t := Task(m, Streaming(pending[1..]));
      var e := Envelope(pending[0], m);
      TaskCountsUpdate(tasks, i, t);
      CountsSnoc(output, e);
      TracedForward(tasks, output, origin, sources, forwarded, i);
      tasks := tasks[i := t];
      output := output + [e];
      origin := origin + [Some(i)];
      forwarded := forwarded[i := forwarded[i] + [pending[0]]];
    }

    /** Task i's whole life when no other task runs in between: open the watch,
        then run the select loop until the task exits. `cancelAfter` is the
        number of items after which the select takes the close branch, if
        cancellation has been requested. */
    method RunTask(i: nat, c: Construction, cancelAfter: nat)
      requires Valid() && i < |tasks| && tasks[i].phase.Created?
      modifies this
      ensures Valid()
      ensures output == old(output) + TaskOutput(old(tasks[i].meta), c, cancelled, cancelAfter)
      ensures tasks == old(tasks)[i := Task(old(tasks[i].meta), if c.Opened? then Exited else Failed(c.reason))]
      ensures barrier == old(barrier)
      ensures clients == old(clients) && running == old(running) && cancelled == old(cancelled)
    {
      var m := tasks[i].meta;
      Connect(i, c);
      if c.Opened? {
        var src := c.source;
        var k := Forwarded(src, cancelled, cancelAfter);
        Forward(i, k, cancelAfter);
        assert src[k..] == [] || (cancelled && k >= cancelAfter);
        // The round in which the task exits: the source has reported closed,
        // or the close branch wins once cancellation has been requested.
        Step(i, k >= cancelAfter);
        assert TaskOutput(m, c, cancelled, cancelAfter) == Tag(src[..k], m) + [Sentinel(m)];
        assert output == old(output) + (Tag(src[..k], m) + [Sentinel(m)]);
      } else {
        assert TaskOutput(m, c, cancelled, cancelAfter) == [];
      }
    }

    /** The first k rounds of streaming task i's select loop, each of which
        forwards the next pending item, tagged with the task's metadata. */
    method Forward(i: nat, k: nat, cancelAfter: nat)
      requires Valid() && i < |tasks| && tasks[i].phase.Streaming?
      requires k <= |tasks[i].phase.pending| && (cancelled ==> k <= cancelAfter)
      modifies this
      ensures Valid()
      ensures
        var m := old(tasks[i].meta);
        var src := old(tasks[i].phase.pending);
        && tasks == old(tasks)[i := Task(m, Streaming(src[k..]))]
        && output == old(output) + Tag(src[..k], m)
      ensures barrier == old(barrier)
      ensures clients == old(clients) && running == old(running) && cancelled == old(cancelled)
    {
      var m := tasks[i].meta;
      var src := tasks[i].phase.pending;
      var n := 0;
      while n < k
        invariant Valid() && n <= k
        invariant tasks == old(tasks)[i := Task(m, Streaming(src[n..]))]
        invariant output == old(output) + Tag(src[..n], m)
        invariant barrier == old(barrier)
        invariant clients == old(clients) && running == old(running) && cancelled == old(cancelled)
      {
        TagSnoc(src, n, m);
        Step(i, n >= cancelAfter);
        assert src[n..][1..] == src[n + 1..];
        n := n + 1;
      }
    }

    /** The wait for the barrier after cancellation has been broadcast: in this
        sequential model every task still holding the barrier takes the close
        branch of its select, in task order, and exits. */
    method AwaitBarrier()
      requires Valid() && running && cancelled
      modifies this
      ensures Valid()
      ensures tasks == DrainAll(old(tasks)) && barrier == 0
      ensures output == old(output) + DrainSentinels(old(tasks))
      ensures clients == old(clients) && running && cancelled
    {
      ghost var T := tasks;
      var count := |tasks|;
      for k := 0 to count
        invariant Valid()
        invariant |tasks| == |T| == count
        invariant forall j :: 0 <= j < k ==> tasks[j] == Drained(T[j])
        invariant forall j :: k <= j < |T| ==> tasks[j] == T[j]
        invariant output == old(output) + DrainSentinels(T[..k])
        invariant clients == old(clients) && running && cancelled
      {
        assert T[..k + 1][..k] == T[..k];
        if tasks[k].phase.Streaming? {
          Step(k, true);
        }
      }
      assert tasks == DrainAll(T);
      assert T[..|T|] == T;
      DrainAllCounts(T);
    }

    /** Shutdown. The first call broadcasts cancellation, waits until the
        barrier is zero, marks the controller stopped and sends the
        shutdown-complete envelope, last. Every later call changes nothing. */
    method Close()
      requires Valid()
      modifies this
      ensures Valid()
      ensures !running && cancelled && clients == old(clients)
      ensures old(running) ==>
        && tasks == DrainAll(old(tasks))
        && barrier == 0
        && output == old(output) + DrainSentinels(old(tasks)) + [CloseEnvelope()]
      ensures !old(running) ==> unchanged(this)
    {
      if !running {
        return;
      }
      ghost var T, O := tasks, output;
      cancelled := true;
      AwaitBarrier();
      assert tasks == DrainAll(T) && output == O + DrainSentinels(T);
      var e := CloseEnvelope();
      assert !IsSentinel(e) && IsCloseComplete(e);
      CountsSnoc(output, e);
      TracedClose(tasks, output, origin, sources, forwarded);
      running := false;
      output := output + [e];
      origin := origin + [None];
    }
  }

  /** A client of the controller: one cluster client watching three namespaces
      whose sources have sent five, two and no items when Close is called. The
      stream then holds the seven forwarded items, three sentinels and the
      shutdown-complete envelope, last. */
  method ShutdownScenario(a: seq<ApiEvent>, b: seq<ApiEvent>) returns (out: seq<Envelope>)
    requires |a| == 5 && |b| == 2
    ensures |out| == 11 && out[10] == CloseEnvelope()
    ensures SentinelCount(out) == 3 && CloseCount(out) == 1
    ensures out[..7] == Tag(a, PodsIn("default")) + Tag(b, PodsIn("kube-system"))
    ensures out[7..10] == [Sentinel(PodsIn("default")), Sentinel(PodsIn("kube-system")), Sentinel(PodsIn("monitoring"))]
  {
    var w := ScenarioSetup(a, b);
    w.Forward(0, 5, 0);
    assert a[..5] == a && a[5..] == [];
    w.Forward(1, 2, 0);
    assert b[..2] == b && b[2..] == [];
    assert w.output == Tag(a, PodsIn("default")) + Tag(b, PodsIn("kube-system")) by {
      assert [] + Tag(a, PodsIn("default")) == Tag(a, PodsIn("default"));
    }
    assert w.tasks == [Task(PodsIn("default"), Streaming([])), Task(PodsIn("kube-system"), Streaming([])),
                       Task(PodsIn("monitoring"), Streaming([]))];
    ghost var before := w.tasks;
    ghost var forwarded := w.output;
    TagCounts(a, PodsIn("default"));
    TagCounts(b, PodsIn("kube-system"));
    CountsAppend(Tag(a, PodsIn("default")), Tag(b, PodsIn("kube-system")));
    w.Close();
    DrainAllCounts(before);
    DrainSentinelsAllStreaming(before);
    CountsAppend(forwarded, DrainSentinels(before));
    CountsSnoc(forwarded + DrainSentinels(before), CloseEnvelope());
    out := w.output;
  }

  /** The controller of ShutdownScenario once its three tasks are streaming. */
  method ScenarioSetup(a: seq<ApiEvent>, b: seq<ApiEvent>) returns (w: Controller)
    ensures fresh(w) && w.Valid() && w.running && !w.cancelled && w.output == []
    ensures w.tasks == [Task(PodsIn("default"), Streaming(a)), Task(PodsIn("kube-system"), Streaming(b)),
                        Task(PodsIn("monitoring"), Streaming([]))]
  {
    w := ScenarioSpawn();
    w.Connect(0, Opened(a));
    w.Connect(1, Opened(b));
    w.Connect(2, Opened([]));
  }

  /** The controller of ShutdownScenario once its client is registered and
      its three tasks are spawned. */
  method ScenarioSpawn() returns (w: Controller)
    ensures fresh(w) && w.Valid() && w.running && !w.cancelled && w.output == []
    ensures w.tasks == [Task(PodsIn("default"), Created), Task(PodsIn("kube-system"), Created),
                        Task(PodsIn("monitoring"), Created)]
  {
    w := new Controller();
    var names := ScenarioNamespaces();
    var outcome := w.Register("dev", Success(names + ["other"]), names);
    ScenarioMatched();
    ScenarioTasks();
    assert w.clients == [Client(names, Metadata("", "dev", ""))];
    w.Watchers("Pods");
  }

  function ScenarioNamespaces(): seq<string> {
    ["default", "kube-system", "monitoring"]
  }

  /** Registering ScenarioNamespaces against a listing that holds them all
      stores all three. */
  lemma ScenarioMatched()
    ensures Matched(ScenarioNamespaces(), ScenarioNamespaces() + ["other"]) == ScenarioNamespaces()
  {
    var names := ScenarioNamespaces();
    MatchedAllFound(names, names + ["other"]);
  }

  /** Watching the registered client spawns one Pods task per namespace. */
  lemma ScenarioTasks()
    ensures Spawn(Pairs("Pods", [Client(ScenarioNamespaces(), Metadata("", "dev", ""))])) ==
      [Task(PodsIn("default"), Created), Task(PodsIn("kube-system"), Created), Task(PodsIn("monitoring"), Created)]
  {
    var c := Client(ScenarioNamespaces(), Metadata("", "dev", ""));
    PairsSingle("Pods", c);
    assert ClientPairs("Pods", c) == [PodsIn("default"), PodsIn("kube-system"), PodsIn("monitoring")];
  }

  function PodsIn(ns: string): Metadata {
    Metadata("Pods", "dev", ns)
  }
}
