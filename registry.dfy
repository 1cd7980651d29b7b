/** The registry's values: a registered client and the namespaces it watches,
    the matching of requested namespaces against the cluster's listing, and
    the (client, namespace) pairs a watch spawns a task for. */
module Registry {
  import opened WatchTypes

  /** A registered client. The cluster-client handle itself is not kept: its
      two uses (listing namespaces, opening a watch) are inputs of the model. */
  datatype Client = Client(namespaces: seq<string>, metadata: Metadata)

  /** The registration request that is refused outright: no namespace, or a
      single empty namespace name. */
  predicate NoNamespaces(requested: seq<string>) {
    |requested| == 0 || (|requested| == 1 && |requested[0]| == 0)
  }

  /** The requested names that occur in the listing, in request order
      (duplicates in the request are kept). */
  function Matched(requested: seq<string>, listing: seq<string>): seq<string> {
    if requested == [] then []
    else
      var n := |requested| - 1;
      Matched(requested[..n], listing) + (if requested[n] in listing then [requested[n]] else [])
  }

  /** The requested names that do not occur in the listing, in request order:
      the names registration warns about. */
  function Missing(requested: seq<string>, listing: seq<string>): seq<string> {
    if requested == [] then []
    else
      var n := |requested| - 1;
      Missing(requested[..n], listing) + (if requested[n] in listing then [] else [requested[n]])
  }

  lemma {:induction false} MatchedConcat(a: seq<string>, b: seq<string>, listing: seq<string>)
    ensures Matched(a + b, listing) == Matched(a, listing) + Matched(b, listing)
    ensures Missing(a + b, listing) == Missing(a, listing) + Missing(b, listing)
    decreases |b|
  {
    if b == [] {
      assert a + b == a;
    } else {
      var n := |b| - 1;
      assert (a + b)[..|a + b| - 1] == a + b[..n];
      assert (a + b)[|a + b| - 1] == b[n];
      MatchedConcat(a, b[..n], listing);
    }
  }

  /** Every stored name is a requested name found in the listing, and every
      requested name found in the listing is stored. */
  lemma {:induction false} MatchedMembers(requested: seq<string>, listing: seq<string>, x: string)
    ensures x in Matched(requested, listing) <==> x in requested && x in listing
    ensures x in Missing(requested, listing) <==> x in requested && x !in listing
  {
    if requested != [] {
      var n := |requested| - 1;
      assert requested == requested[..n] + [requested[n]];
      MatchedMembers(requested[..n], listing, x);
    }
  }

  /** Each requested name is either stored or warned about, never both. */
  lemma {:induction false} MatchedMissingPartition(requested: seq<string>, listing: seq<string>)
    ensures |Matched(requested, listing)| + |Missing(requested, listing)| == |requested|
    ensures Matched(requested, listing) == requested <==> Missing(requested, listing) == []
  {
    if requested != [] {
      var n := |requested| - 1;
      assert requested == requested[..n] + [requested[n]];
      MatchedMissingPartition(requested[..n], listing);
      if requested[n] !in listing {
        assert |Matched(requested, listing)| < |requested|;
      }
    }
  }

  /** When every requested name exists, all are stored, in order, and none is warned about. */
  lemma {:induction false} MatchedAllFound(requested: seq<string>, listing: seq<string>)
    requires forall k :: 0 <= k < |requested| ==> requested[k] in listing
    ensures Matched(requested, listing) == requested
    ensures Missing(requested, listing) == []
  {
    if requested != [] {
      var n := |requested| - 1;
      MatchedAllFound(requested[..n], listing);
      assert requested == requested[..n] + [requested[n]];
    }
  }

  /** Matching keeps request order: the stored names are the requested names
      at the strictly increasing positions `idx`. */
  lemma {:induction false} MatchedInOrder(requested: seq<string>, listing: seq<string>) returns (idx: seq<nat>)
    ensures |idx| == |Matched(requested, listing)|
    ensures forall k :: 0 <= k < |idx| ==> idx[k] < |requested| && requested[idx[k]] == Matched(requested, listing)[k]
    ensures forall k, l :: 0 <= k < l < |idx| ==> idx[k] < idx[l]
  {
    if requested == [] {
      idx := [];
    } else {
      var n := |requested| - 1;
      var front := requested[..n];
      var prev := MatchedInOrder(front, listing);
      if requested[n] in listing {
        idx := prev + [n];
        assert Matched(requested, listing) == Matched(front, listing) + [requested[n]];
      } else {
        idx := prev;
        assert Matched(requested, listing) == Matched(front, listing);
      }
      forall k | 0 <= k < |idx|
        ensures idx[k] < |requested| && requested[idx[k]] == Matched(requested, listing)[k]
      {
        if k < |prev| {
          assert idx[k] == prev[k] && requested[prev[k]] == front[prev[k]];
        }
      }
      forall k, l | 0 <= k < l < |idx|
        ensures idx[k] < idx[l]
      {
        if l < |prev| {
          assert idx[k] == prev[k] && idx[l] == prev[l];
        } else {
          assert idx[k] == prev[k] < |front| == n;
        }
      }
    }
  }

  // ---------------------------------------------------------------------
  // Enumeration of (client, namespace) pairs
  // ---------------------------------------------------------------------

  /** The metadata of the task for namespace ns of client c under resource kind name. */
  function PairMeta(name: string, c: Client, ns: string): Metadata {
    Metadata(name, c.metadata.identifier, ns)
  }

  /** The task metadata for each namespace of one client, in namespace order. */
  function ClientPairs(name: string, c: Client): seq<Metadata> {
    seq(|c.namespaces|, k requires 0 <= k < |c.namespaces| => PairMeta(name, c, c.namespaces[k]))
  }

  /** The task metadata for every (client, namespace) pair, clients in
      registration order and namespaces in stored order. */
  function Pairs(name: string, clients: seq<Client>): seq<Metadata> {
    if clients == [] then []
    else
      var n := |clients| - 1;
      Pairs(name, clients[..n]) + ClientPairs(name, clients[n])
  }

  lemma PairsSingle(name: string, c: Client)
    ensures Pairs(name, [c]) == ClientPairs(name, c)
  {
    assert [c][..0] == [];
  }

  /** Total number of stored namespaces over all clients. */
  function NamespaceCount(clients: seq<Client>): nat {
    if clients == [] then 0
    else NamespaceCount(clients[..|clients| - 1]) + |clients[|clients| - 1].namespaces|
  }

  /** One task per stored namespace of each client. */
  lemma {:induction false} PairsCount(name: string, clients: seq<Client>)
    ensures |Pairs(name, clients)| == NamespaceCount(clients)
  {
    if clients != [] {
      PairsCount(name, clients[..|clients| - 1]);
    }
  }

  /** The metadata a task is spawned with are exactly those of the
      (client, namespace) pairs. */
  lemma {:induction false} PairsExactly(name: string, clients: seq<Client>, m: Metadata)
    ensures m in Pairs(name, clients) <==>
      exists i, j :: 0 <= i < |clients| && 0 <= j < |clients[i].namespaces| &&
        m == PairMeta(name, clients[i], clients[i].namespaces[j])
  {
    if clients != [] {
      var n := |clients| - 1;
      var front := clients[..n];
      var c := clients[n];
      PairsExactly(name, front, m);
      assert Pairs(name, clients) == Pairs(name, front) + ClientPairs(name, c);
      if m in ClientPairs(name, c) {
        var j :| 0 <= j < |c.namespaces| && ClientPairs(name, c)[j] == m;
        assert m == PairMeta(name, clients[n], clients[n].namespaces[j]);
      } else if m in Pairs(name, front) {
        var i, j :| 0 <= i < n && 0 <= j < |front[i].namespaces| &&
          m == PairMeta(name, front[i], front[i].namespaces[j]);
        assert front[i] == clients[i];
      } else {
        forall i, j | 0 <= i < |clients| && 0 <= j < |clients[i].namespaces|
          ensures m != PairMeta(name, clients[i], clients[i].namespaces[j])
        {
          if i < n {
            assert front[i] == clients[i];
          } else {
            assert ClientPairs(name, c)[j] == PairMeta(name, clients[i], clients[i].namespaces[j]);
          }
        }
      }
    }
  }
}
