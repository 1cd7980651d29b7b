/** Watcher tasks: their life cycle, what one task sends over its whole life,
    and the counts the completion barrier and the sentinel stream are tied to. */
module Tasks {
  import opened WatchTypes

  /** Result of opening a watch source for one (client, namespace): the items
      the source yields before it reports closed, or the construction error. */
  datatype Construction = Opened(source: seq<ApiEvent>) | Refused(reason: string)

  /** Created: spawned, the watch not yet opened. Streaming: registered with the
      barrier, `pending` still to come from the source. Exited: the sentinel has
      been sent and the barrier released. Failed: the watch could not be opened. */
  datatype Phase = Created | Streaming(pending: seq<ApiEvent>) | Exited | Failed(reason: string)

  datatype Task = Task(meta: Metadata, phase: Phase)

  /** Tasks spawned for the given metadata, not yet connected. */
  function Spawn(metas: seq<Metadata>): seq<Task> {
    seq(|metas|, k requires 0 <= k < |metas| => Task(metas[k], Created))
  }

  /** Number of tasks holding the barrier. */
  function LiveCount(tasks: seq<Task>): nat {
    if tasks == [] then 0
    else
      var n := |tasks| - 1;
      LiveCount(tasks[..n]) + (if tasks[n].phase.Streaming? then 1 else 0)
  }

  /** Number of tasks that have sent their sentinel. */
  function ExitedCount(tasks: seq<Task>): nat {
    if tasks == [] then 0
    else
      var n := |tasks| - 1;
      ExitedCount(tasks[..n]) + (if tasks[n].phase.Exited? then 1 else 0)
  }

  /** Number of stopped-watcher sentinels in a stream. */
  function SentinelCount(out: seq<Envelope>): nat {
    if out == [] then 0
    else
      var n := |out| - 1;
      SentinelCount(out[..n]) + (if IsSentinel(out[n]) then 1 else 0)
  }

  /** Number of shutdown-complete envelopes in a stream. */
  function CloseCount(out: seq<Envelope>): nat {
    if out == [] then 0
    else
      var n := |out| - 1;
      CloseCount(out[..n]) + (if IsCloseComplete(out[n]) then 1 else 0)
  }

  /** A streaming task as it is once the shutdown drain has stopped it. */
  function Drained(t: Task): Task {
    if t.phase.Streaming? then Task(t.meta, Exited) else t
  }

  function DrainAll(tasks: seq<Task>): seq<Task> {
    seq(|tasks|, k requires 0 <= k < |tasks| => Drained(tasks[k]))
  }

  /** The sentinels the shutdown drain sends: one per streaming task, in task order. */
  function DrainSentinels(tasks: seq<Task>): seq<Envelope> {
    if tasks == [] then []
    else
      var n := |tasks| - 1;
      DrainSentinels(tasks[..n]) + (if tasks[n].phase.Streaming? then [Sentinel(tasks[n].meta)] else [])
  }

  /** How many source items a streaming task forwards: all of them, unless
      cancellation has been requested and its select takes the close branch
      once `cancelAfter` items have gone out. */
  function Forwarded(source: seq<ApiEvent>, cancelled: bool, cancelAfter: nat): nat {
    if cancelled && cancelAfter < |source| then cancelAfter else |source|
  }

  /** Everything one task sends over its whole life when it runs without
      interruption from other tasks. */
  function TaskOutput(meta: Metadata, c: Construction, cancelled: bool, cancelAfter: nat): seq<Envelope> {
    match c
    case Refused(_) => []
    case Opened(source) => Tag(source[..Forwarded(source, cancelled, cancelAfter)], meta) + [Sentinel(meta)]
  }

  // ---------------------------------------------------------------------
  // Counting lemmas
  // ---------------------------------------------------------------------

  lemma {:induction false} CountsAppend(a: seq<Envelope>, b: seq<Envelope>)
    ensures SentinelCount(a + b) == SentinelCount(a) + SentinelCount(b)
    ensures CloseCount(a + b) == CloseCount(a) + CloseCount(b)
    decreases |b|
  {
    if b == [] {
      assert a + b == a;
    } else {
      var n := |b| - 1;
      assert (a + b)[..|a + b| - 1] == a + b[..n];
      assert (a + b)[|a + b| - 1] == b[n];
      CountsAppend(a, b[..n]);
    }
  }

  /** Appending one envelope adds its own contribution to each count. */
  lemma CountsSnoc(out: seq<Envelope>, e: Envelope)
    ensures SentinelCount(out + [e]) == SentinelCount(out) + (if IsSentinel(e) then 1 else 0)
    ensures CloseCount(out + [e]) == CloseCount(out) + (if IsCloseComplete(e) then 1 else 0)
  {
    assert (out + [e])[..|out|] == out;
  }

  /** Forwarded source items are never mistaken for sentinels. */
  lemma {:induction false} TagCounts(items: seq<ApiEvent>, meta: Metadata)
    ensures SentinelCount(Tag(items, meta)) == 0
    ensures CloseCount(Tag(items, meta)) == 0
  {
    if items != [] {
      var n := |items| - 1;
      assert Tag(items, meta)[..n] == Tag(items[..n], meta);
      TagCounts(items[..n], meta);
    }
  }

  lemma SpawnAppend(a: seq<Metadata>, b: seq<Metadata>)
    ensures Spawn(a + b) == Spawn(a) + Spawn(b)
  {
  }

  lemma SpawnSnoc(metas: seq<Metadata>, m: Metadata)
    ensures Spawn(metas + [m]) == Spawn(metas) + [Task(m, Created)]
  {
  }

  /** Adding one task adds its own contribution to each count. */
  lemma TaskCountsSnoc(tasks: seq<Task>, t: Task)
    ensures LiveCount(tasks + [t]) == LiveCount(tasks) + (if t.phase.Streaming? then 1 else 0)
    ensures ExitedCount(tasks + [t]) == ExitedCount(tasks) + (if t.phase.Exited? then 1 else 0)
  {
    assert (tasks + [t])[..|tasks|] == tasks;
  }

  /** Replacing one task changes the counts by exactly that task's contribution. */
  lemma {:induction false} TaskCountsUpdate(tasks: seq<Task>, i: nat, t: Task)
    requires i < |tasks|
    ensures LiveCount(tasks[i := t]) + (if tasks[i].phase.Streaming? then 1 else 0)
         == LiveCount(tasks) + (if t.phase.Streaming? then 1 else 0)
    ensures ExitedCount(tasks[i := t]) + (if tasks[i].phase.Exited? then 1 else 0)
         == ExitedCount(tasks) + (if t.phase.Exited? then 1 else 0)
  {
    var n := |tasks| - 1;
    if i == n {
      assert tasks[i := t][..n] == tasks[..n];
    } else {
      assert tasks[i := t][..n] == tasks[..n][i := t];
      TaskCountsUpdate(tasks[..n], i, t);
    }
  }

  /** The barrier is held by every streaming task. */
  lemma {:induction false} LiveCountPositive(tasks: seq<Task>, i: nat)
    requires i < |tasks| && tasks[i].phase.Streaming?
    ensures LiveCount(tasks) >= 1
  {
    var n := |tasks| - 1;
    if i < n {
      LiveCountPositive(tasks[..n], i);
    }
  }

  /** The shutdown drain releases the whole barrier: every task that held it
      has exited and sent exactly one sentinel. */
  lemma {:induction false} DrainAllCounts(tasks: seq<Task>)
    ensures LiveCount(DrainAll(tasks)) == 0
    ensures ExitedCount(DrainAll(tasks)) == ExitedCount(tasks) + LiveCount(tasks)
    ensures |DrainSentinels(tasks)| == LiveCount(tasks)
    ensures SentinelCount(DrainSentinels(tasks)) == LiveCount(tasks)
    ensures CloseCount(DrainSentinels(tasks)) == 0
  {
    if tasks != [] {
      var n := |tasks| - 1;
      assert DrainAll(tasks)[..n] == DrainAll(tasks[..n]);
      DrainAllCounts(tasks[..n]);
      var last := if tasks[n].phase.Streaming? then [Sentinel(tasks[n].meta)] else [];
      CountsAppend(DrainSentinels(tasks[..n]), last);
    }
  }

  /** When every task is streaming, the drain sends one sentinel per task, in task order. */
  lemma {:induction false} DrainSentinelsAllStreaming(tasks: seq<Task>)
    requires forall k :: 0 <= k < |tasks| ==> tasks[k].phase.Streaming?
    ensures DrainSentinels(tasks) == seq(|tasks|, k requires 0 <= k < |tasks| => Sentinel(tasks[k].meta))
  {
    if tasks != [] {
      var n := |tasks| - 1;
      DrainSentinelsAllStreaming(tasks[..n]);
    }
  }

  // ---------------------------------------------------------------------
  // What one task sends
  // ---------------------------------------------------------------------

  /** A task whose watch cannot be opened sends nothing. A task whose watch
      opens sends source items in source order, each tagged with its
      metadata, and then exactly one sentinel, last; it forwards every item
      when nobody cancels, and no item past the point where it observed
      cancellation. */
  lemma TaskOutputShape(meta: Metadata, c: Construction, cancelled: bool, cancelAfter: nat)
    ensures c.Refused? ==> TaskOutput(meta, c, cancelled, cancelAfter) == []
    ensures c.Opened? ==>
      var out := TaskOutput(meta, c, cancelled, cancelAfter);
      var k := Forwarded(c.source, cancelled, cancelAfter);
      && k <= |c.source|
      && (!cancelled ==> k == |c.source|)
      && (cancelled ==> k <= cancelAfter)
      && |out| == k + 1
      && (forall j :: 0 <= j < k ==> out[j] == Envelope(c.source[j], meta))
      && out[k] == Sentinel(meta)
      && SentinelCount(out) == 1
      && CloseCount(out) == 0
  {
    if c.Opened? {
      var k := Forwarded(c.source, cancelled, cancelAfter);
      TagCounts(c.source[..k], meta);
      CountsAppend(Tag(c.source[..k], meta), [Sentinel(meta)]);
      assert SentinelCount([Sentinel(meta)]) == 1 by {
        assert [Sentinel(meta)][..0] == [];
      }
      assert CloseCount([Sentinel(meta)]) == 0 by {
        assert [Sentinel(meta)][..0] == [];
      }
    }
  }
}
