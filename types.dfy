/** Values that flow through the watch controller: provenance metadata, the
    objects an event can carry, and the envelopes on the shared stream. */
module WatchTypes {

  datatype Option<T> = None | Some(value: T)

  /** Outcome of a call into the cluster client that may fail with a message. */
  datatype Result<T> = Success(value: T) | Failure(error: string)

  /** Provenance of an envelope: the resource kind being watched (or "Close"),
      the client identifier and the namespace. */
  datatype Metadata = Metadata(functionName: string, identifier: string, namespace: string)

  /** The object carried by an event. API objects are never looked into by the
      controller, so they are represented by an abstract handle. */
  datatype Object =
    | Resource(handle: nat)       // an object decoded by the client library
    | ErrWatcher(meta: Metadata)  // sentinel: the watcher described by meta has stopped
    | CloseComplete               // sentinel: shutdown has finished

  datatype WatchEvent = WatchEvent(eventType: string, obj: Object)

  /** What a watch source yields: events about API objects, never one of the
      controller's own sentinel objects. */
  type ApiEvent = e: WatchEvent | e.obj.Resource? witness WatchEvent("ADDED", Resource(0))

  /** One item of the shared output stream. */
  datatype Envelope = Envelope(event: WatchEvent, metadata: Metadata)

  /** Event type used by both sentinels. */
  const ErrorType: string := "Error"

  const StoppedSuffix: string := ": Watcher stopped"

  /** The envelope a watcher task sends when it stops. */
  function Sentinel(meta: Metadata): Envelope {
    Envelope(WatchEvent(ErrorType, ErrWatcher(meta)), meta)
  }

  /** The envelope the first Close sends after every task has stopped. */
  function CloseEnvelope(): Envelope {
    Envelope(WatchEvent(ErrorType, CloseComplete), Metadata("Close", "", ""))
  }

  predicate IsSentinel(e: Envelope) {
    e.event.obj.ErrWatcher?
  }

  predicate IsCloseComplete(e: Envelope) {
    e.event.obj.CloseComplete?
  }

  /** Source items wrapped with the metadata of the task that forwards them. */
  function Tag(items: seq<ApiEvent>, meta: Metadata): seq<Envelope> {
    seq(|items|, k requires 0 <= k < |items| => Envelope(items[k], meta))
  }

  // ---------------------------------------------------------------------
  // ErrWatcher.Error(): "<Function>/<Identifier>/<Namespace>: Watcher stopped"
  // ---------------------------------------------------------------------

  function ErrorText(err: Metadata): string {
    err.functionName + "/" + err.identifier + "/" + err.namespace + StoppedSuffix
  }

  function IndexOf(s: string, c: char): (r: Option<nat>)
    ensures r.Some? ==> r.value < |s| && s[r.value] == c && c !in s[..r.value]
    ensures r.None? ==> c !in s
  {
    if s == [] then None
    else if s[0] == c then Some(0)
    else match IndexOf(s[1..], c)
      case None => None
      case Some(i) => Some(i + 1)
  }

  /** Reads the metadata back out of a stopped-watcher message. */
  function ParseErrorText(s: string): Option<Metadata> {
    if |s| < |StoppedSuffix| || s[|s| - |StoppedSuffix|..] != StoppedSuffix then None
    else
      var body := s[..|s| - |StoppedSuffix|];
      match IndexOf(body, '/')
      case None => None
      case Some(i) =>
        var rest := body[i + 1..];
        match IndexOf(rest, '/')
        case None => None
        case Some(j) => Some(Metadata(body[..i], rest[..j], rest[j + 1..]))
  }

  lemma {:induction false} IndexOfFirst(a: string, b: string, c: char)
    requires c !in a
    ensures IndexOf(a + [c] + b, c) == Some(|a|)
  {
    if a == [] {
      assert (a + [c] + b)[0] == c;
    } else {
      assert (a + [c] + b)[0] == a[0];
      assert (a + [c] + b)[1..] == a[1..] + [c] + b;
      IndexOfFirst(a[1..], b, c);
    }
  }

  /** The message determines the metadata whenever the resource kind and the
      client identifier are free of '/'. */
  lemma ErrorTextRoundTrip(m: Metadata)
    requires '/' !in m.functionName && '/' !in m.identifier
    ensures ParseErrorText(ErrorText(m)) == Some(m)
  {
    var s := ErrorText(m);
    var body := m.functionName + "/" + m.identifier + "/" + m.namespace;
    assert s == body + StoppedSuffix;
    assert s[|s| - |StoppedSuffix|..] == StoppedSuffix;
    assert s[..|s| - |StoppedSuffix|] == body;
    var tail := m.identifier + "/" + m.namespace;
    assert body == m.functionName + ['/'] + tail;
    IndexOfFirst(m.functionName, tail, '/');
    var i := |m.functionName|;
    assert body[..i] == m.functionName;
    assert body[i + 1..] == tail;
    assert tail == m.identifier + ['/'] + m.namespace;
    IndexOfFirst(m.identifier, m.namespace, '/');
    var j := |m.identifier|;
    assert tail[..j] == m.identifier;
    assert tail[j + 1..] == m.namespace;
  }

  /** Conversely, every message the parser accepts is the text of the
      metadata it returns, and that metadata has '/'-free leading fields. */
  lemma ParsedErrorText(s: string, m: Metadata)
    requires ParseErrorText(s) == Some(m)
    ensures s == ErrorText(m)
    ensures '/' !in m.functionName && '/' !in m.identifier
  {
    var cut := |s| - |StoppedSuffix|;
    var body := s[..cut];
    assert s == body + StoppedSuffix by {
      assert s[cut..] == StoppedSuffix;
    }
    var i := IndexOf(body, '/').value;
    var rest := body[i + 1..];
    var j := IndexOf(rest, '/').value;
    assert m == Metadata(body[..i], rest[..j], rest[j + 1..]);
    assert rest == m.identifier + "/" + m.namespace by {
      SplitAt(rest, j);
    }
    assert body == m.functionName + "/" + rest by {
      SplitAt(body, i);
    }
  }

  lemma SplitAt(s: string, i: nat)
    requires i < |s|
    ensures s == s[..i] + [s[i]] + s[i + 1..]
  {
  }
}
