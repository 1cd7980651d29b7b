/** Who sent what on the shared stream. Every envelope is attributed to the
    task that sent it (or to shutdown, for the shutdown-complete envelope), and
    the envelopes of each task, taken on their own and in stream order, are a
    tagged prefix of that task's source followed, once it has exited, by its
    one sentinel. This holds however the tasks' steps are interleaved. */
module Trace {
  import opened WatchTypes
  import opened Tasks

  /** The envelopes of `output` whose origin is task i, in stream order. */
  function Project(output: seq<Envelope>, origin: seq<Option<nat>>, i: nat): seq<Envelope>
    requires |origin| == |output|
  {
    if output == [] then []
    else
      var n := |output| - 1;
      Project(output[..n], origin[..n], i) + (if origin[n] == Some(i) then [output[n]] else [])
  }

  /** An envelope attributed to no task is the shutdown-complete envelope; one
      attributed to task i carries that task's metadata. */
  predicate FromTask(e: Envelope, o: Option<nat>, tasks: seq<Task>) {
    match o
    case None => IsCloseComplete(e)
    case Some(i) => i < |tasks| && e.metadata == tasks[i].meta && !IsCloseComplete(e)
  }

  /** What task t has sent, given the source it opened and the items it has
      forwarded so far: nothing before its watch is open or when it failed;
      its forwarded items, tagged, while streaming, with the unforwarded rest
      still pending; and those followed by its sentinel once it has exited. */
  predicate TaskTrace(t: Task, source: seq<ApiEvent>, forwarded: seq<ApiEvent>, sent: seq<Envelope>) {
    match t.phase
    case Created => forwarded == [] && sent == []
    case Failed(_) => forwarded == [] && sent == []
    case Streaming(pending) => source == forwarded + pending && sent == Tag(forwarded, t.meta)
    case Exited => forwarded <= source && sent == Tag(forwarded, t.meta) + [Sentinel(t.meta)]
  }

  /** Envelope k of the stream is attributed as FromTask says. */
  predicate EnvelopeOK(tasks: seq<Task>, output: seq<Envelope>, origin: seq<Option<nat>>, k: nat) {
    k < |output| && k < |origin| && FromTask(output[k], origin[k], tasks)
  }

  /** Task i's envelopes on the stream are as TaskTrace says. */
  predicate TaskOK(tasks: seq<Task>, output: seq<Envelope>, origin: seq<Option<nat>>,
                   sources: seq<seq<ApiEvent>>, forwarded: seq<seq<ApiEvent>>, i: nat)
  {
    && i < |tasks| && i < |sources| && i < |forwarded| && |origin| == |output|
    && TaskTrace(tasks[i], sources[i], forwarded[i], Project(output, origin, i))
  }

  predicate Traced(tasks: seq<Task>, output: seq<Envelope>, origin: seq<Option<nat>>,
                   sources: seq<seq<ApiEvent>>, forwarded: seq<seq<ApiEvent>>)
  {
    && |origin| == |output| && |sources| == |tasks| && |forwarded| == |tasks|
    && (forall k: nat :: k < |output| ==> EnvelopeOK(tasks, output, origin, k))
    && (forall i: nat :: i < |tasks| ==> TaskOK(tasks, output, origin, sources, forwarded, i))
  }

  lemma ProjectSnoc(output: seq<Envelope>, origin: seq<Option<nat>>, e: Envelope, o: Option<nat>, i: nat)
    requires |origin| == |output|
    ensures Project(output + [e], origin + [o], i) == Project(output, origin, i) + (if o == Some(i) then [e] else [])
  {
    assert (output + [e])[..|output|] == output;
    assert (origin + [o])[..|origin|] == origin;
  }

  /** A task nothing is attributed to has sent nothing. */
  lemma {:induction false} ProjectNone(output: seq<Envelope>, origin: seq<Option<nat>>, i: nat)
    requires |origin| == |output|
    requires forall k :: 0 <= k < |origin| ==> origin[k] != Some(i)
    ensures Project(output, origin, i) == []
  {
    if output != [] {
      var n := |output| - 1;
      ProjectNone(output[..n], origin[..n], i);
    }
  }

  /** Every attributed envelope is among those of its task. */
  lemma {:induction false} ProjectContains(output: seq<Envelope>, origin: seq<Option<nat>>, k: nat)
    requires |origin| == |output| && k < |output| && origin[k].Some?
    ensures output[k] in Project(output, origin, origin[k].value)
  {
    var n := |output| - 1;
    if k < n {
      ProjectContains(output[..n], origin[..n], k);
    }
  }

  /** Spawning a task keeps the trace; the new task has sent nothing. */
  lemma TracedSpawn(tasks: seq<Task>, output: seq<Envelope>, origin: seq<Option<nat>>,
                    sources: seq<seq<ApiEvent>>, forwarded: seq<seq<ApiEvent>>, m: Metadata)
    requires Traced(tasks, output, origin, sources, forwarded)
    ensures Traced(tasks + [Task(m, Created)], output, origin, sources + [[]], forwarded + [[]])
  {
    var n := |tasks|;
    var tasks' := tasks + [Task(m, Created)];
    forall k: nat | k < |output|
      ensures EnvelopeOK(tasks', output, origin, k) && origin[k] != Some(n)
    {
      assert EnvelopeOK(tasks, output, origin, k);
      if origin[k].Some? {
        assert tasks'[origin[k].value] == tasks[origin[k].value];
      }
    }
    ProjectNone(output, origin, n);
    forall i: nat | i < |tasks'|
      ensures TaskOK(tasks', output, origin, sources + [[]], forwarded + [[]], i)
    {
      if i < n {
        assert TaskOK(tasks, output, origin, sources, forwarded, i);
      }
    }
  }

  /** Opening task i's watch keeps the trace: on success the whole source is
      pending and nothing has been forwarded yet. */
  lemma TracedConnect(tasks: seq<Task>, output: seq<Envelope>, origin: seq<Option<nat>>,
                      sources: seq<seq<ApiEvent>>, forwarded: seq<seq<ApiEvent>>, i: nat, c: Construction)
    requires Traced(tasks, output, origin, sources, forwarded)
    requires i < |tasks| && tasks[i].phase.Created?
    ensures Traced(tasks[i := Task(tasks[i].meta, if c.Opened? then Streaming(c.source) else Failed(c.reason))],
                   output, origin, if c.Opened? then sources[i := c.source] else sources, forwarded)
  {
    var t := Task(tasks[i].meta, if c.Opened? then Streaming(c.source) else Failed(c.reason));
    var tasks' := tasks[i := t];
    var sources' := if c.Opened? then sources[i := c.source] else sources;
    forall k: nat | k < |output|
      ensures EnvelopeOK(tasks', output, origin, k)
    {
      assert EnvelopeOK(tasks, output, origin, k);
    }
    forall j: nat | j < |tasks'|
      ensures TaskOK(tasks', output, origin, sources', forwarded, j)
    {
      assert TaskOK(tasks, output, origin, sources, forwarded, j);
      if j == i {
        assert Tag([], t.meta) == [];
        assert forwarded[i] + sources'[i] == sources'[i];
      }
    }
  }

  /** A forwarding round of task i keeps the trace: its next pending item moves
      to its forwarded items and goes out attributed to it, tagged with its
      metadata. */
  lemma TracedForward(tasks: seq<Task>, output: seq<Envelope>, origin: seq<Option<nat>>,
                      sources: seq<seq<ApiEvent>>, forwarded: seq<seq<ApiEvent>>, i: nat)
    requires Traced(tasks, output, origin, sources, forwarded)
    requires i < |tasks| && tasks[i].phase.Streaming? && tasks[i].phase.pending != []
    ensures
      var m := tasks[i].meta;
      var p := tasks[i].phase.pending;
      Traced(tasks[i := Task(m, Streaming(p[1..]))], output + [Envelope(p[0], m)], origin + [Some(i)],
             sources, forwarded[i := forwarded[i] + [p[0]]])
  {
    var m := tasks[i].meta;
    var p := tasks[i].phase.pending;
    var e := Envelope(p[0], m);
    var tasks' := tasks[i := Task(m, Streaming(p[1..]))];
    var output' := output + [e];
    var origin' := origin + [Some(i)];
    var forwarded' := forwarded[i := forwarded[i] + [p[0]]];
    forall k: nat | k < |output'|
      ensures EnvelopeOK(tasks', output', origin', k)
    {
      if k < |output| {
        assert EnvelopeOK(tasks, output, origin, k);
      }
    }
    forall j: nat | j < |tasks'|
      ensures TaskOK(tasks', output', origin', sources, forwarded', j)
    {
      assert TaskOK(tasks, output, origin, sources, forwarded, j);
      ProjectSnoc(output, origin, e, Some(i), j);
      if j == i {
        assert p == [p[0]] + p[1..];
        assert forwarded[i] + p == forwarded[i] + [p[0]] + p[1..];
        assert Tag(forwarded[i] + [p[0]], m) == Tag(forwarded[i], m) + [e];
      }
    }
  }

  /** An exiting round of task i keeps the trace: its sentinel goes out
      attributed to it, and what it forwarded is a prefix of its source. */
  lemma TracedExit(tasks: seq<Task>, output: seq<Envelope>, origin: seq<Option<nat>>,
                   sources: seq<seq<ApiEvent>>, forwarded: seq<seq<ApiEvent>>, i: nat)
    requires Traced(tasks, output, origin, sources, forwarded)
    requires i < |tasks| && tasks[i].phase.Streaming?
    ensures
      var m := tasks[i].meta;
      Traced(tasks[i := Task(m, Exited)], output + [Sentinel(m)], origin + [Some(i)], sources, forwarded)
  {
    var m := tasks[i].meta;
    var e := Sentinel(m);
    var tasks' := tasks[i := Task(m, Exited)];
    var output' := output + [e];
    var origin' := origin + [Some(i)];
    forall k: nat | k < |output'|
      ensures EnvelopeOK(tasks', output', origin', k)
    {
      if k < |output| {
        assert EnvelopeOK(tasks, output, origin, k);
      }
    }
    forall j: nat | j < |tasks'|
      ensures TaskOK(tasks', output', origin', sources, forwarded, j)
    {
      assert TaskOK(tasks, output, origin, sources, forwarded, j);
      ProjectSnoc(output, origin, e, Some(i), j);
      if j == i {
        assert sources[i] == forwarded[i] + tasks[i].phase.pending;
        assert forwarded[i] <= sources[i];
      }
    }
  }

  /** The shutdown-complete envelope is attributed to no task, so it leaves
      every task's trace as it was. */
  lemma TracedClose(tasks: seq<Task>, output: seq<Envelope>, origin: seq<Option<nat>>,
                    sources: seq<seq<ApiEvent>>, forwarded: seq<seq<ApiEvent>>)
    requires Traced(tasks, output, origin, sources, forwarded)
    ensures Traced(tasks, output + [CloseEnvelope()], origin + [None], sources, forwarded)
  {
    var output' := output + [CloseEnvelope()];
    var origin' := origin + [None];
    forall k: nat | k < |output'|
      ensures EnvelopeOK(tasks, output', origin', k)
    {
      if k < |output| {
        assert EnvelopeOK(tasks, output, origin, k);
      }
    }
    forall j: nat | j < |tasks|
      ensures TaskOK(tasks, output', origin', sources, forwarded, j)
    {
      assert TaskOK(tasks, output, origin, sources, forwarded, j);
      ProjectSnoc(output, origin, CloseEnvelope(), None, j);
    }
  }

  /** Every sentinel on the stream was sent by a task that has exited, and
      carries that task's metadata. */
  lemma SentinelOfExited(tasks: seq<Task>, output: seq<Envelope>, origin: seq<Option<nat>>,
                         sources: seq<seq<ApiEvent>>, forwarded: seq<seq<ApiEvent>>, k: nat)
    requires Traced(tasks, output, origin, sources, forwarded)
    requires k < |output| && IsSentinel(output[k])
    ensures origin[k].Some? && origin[k].value < |tasks|
    ensures tasks[origin[k].value].phase.Exited?
    ensures output[k] == Sentinel(tasks[origin[k].value].meta)
  {
    assert EnvelopeOK(tasks, output, origin, k);
    var i := origin[k].value;
    var t := tasks[i];
    ProjectContains(output, origin, k);
    assert TaskOK(tasks, output, origin, sources, forwarded, i);
    var tagged := Tag(forwarded[i], t.meta);
    assert output[k] !in tagged;
  }
}
