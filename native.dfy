/**
 * The native RTI Connector library and the C heap, as the binding sees them
 * across cgo. The library is an oracle: every entry point is recorded in a log,
 * and what it answers (status code and out-parameters) is an arbitrary but fixed
 * function of everything that happened before, so nothing is presupposed about
 * discovery, QoS, sample queues or timing. The C heap is a map from buffer
 * identities to their text and allocator; releasing a buffer that is not live,
 * or releasing it with the wrong deallocator, is a precondition violation, so a
 * verified caller frees nothing twice.
 */
module Native {
  import opened Decimal

  /** A C pointer: NULL, or the address of some native object or buffer. */
  datatype Ptr = Null | Addr(id: nat)

  /** Who allocated a heap buffer: `C.CString` (freed by `C.free`) or the library (freed by `RTI_Connector_free_string`). */
  datatype Origin = GoHeap | NativeHeap

  datatype Block = Block(text: string, origin: Origin)

  /** One call into the native library, with the arguments the binding passes. */
  datatype Call =
    | ConnectorNew(configName: Ptr, url: Ptr)
    | ConnectorDelete(self: Ptr)
    | GetDatawriter(self: Ptr, name: Ptr)
    | GetDatareader(self: Ptr, name: Ptr)
    | WaitForData(self: Ptr, timeoutMs: int)
    | Write(self: Ptr, entity: Ptr, params: Ptr)
    | Clear(self: Ptr, entity: Ptr)
    | Read(self: Ptr, entity: Ptr)
    | Take(self: Ptr, entity: Ptr)
    | WaitForMatchedSubscription(endpoint: Ptr, timeoutMs: int)
    | WaitForMatchedPublication(endpoint: Ptr, timeoutMs: int)
    | GetMatchedSubscriptions(endpoint: Ptr)
    | GetMatchedPublications(endpoint: Ptr)
    | GetSampleCount(self: Ptr, entity: Ptr)
    | GetNumberFromSample(self: Ptr, entity: Ptr, index: int, field: Ptr)
    | GetBooleanFromSample(self: Ptr, entity: Ptr, index: int, field: Ptr)
    | GetStringFromSample(self: Ptr, entity: Ptr, index: int, field: Ptr)
    | GetJsonSample(self: Ptr, entity: Ptr, index: int)
    | GetBooleanFromInfos(self: Ptr, entity: Ptr, index: int, field: Ptr)
    | GetJsonFromInfos(self: Ptr, entity: Ptr, index: int, field: Ptr)
    | SetNumberIntoSamples(self: Ptr, entity: Ptr, field: Ptr, number: real)
    | SetStringIntoSamples(self: Ptr, entity: Ptr, field: Ptr, text: Ptr)
    | SetBooleanIntoSamples(self: Ptr, entity: Ptr, field: Ptr, flag: int)
    | SetJsonInstance(self: Ptr, entity: Ptr, json: Ptr)

  /**
   * What a native call answers: its status code, and each out-parameter a call
   * may have (a handle, a double, an int flag, a count delta, a string), plus the
   * text the last-error facility would return right after it.
   */
  datatype Reply = Reply(status: Int32, handle: Ptr, number: real, flag: Int32, delta: Int32,
                         text: string, lastError: string)

  /** What the binding does at the boundary, in order. */
  datatype Event =
    | Allocated(p: Ptr, text: string)   // C.CString
    | Freed(p: Ptr)                     // C.free
    | Invoked(call: Call)               // a native entry point
    | Returned(p: Ptr, text: string)    // the library hands back a heap string
    | StringFreed(p: Ptr)               // RTI_Connector_free_string

  /** The events `C.free` of each buffer, in order. */
  function Frees(bufs: seq<Ptr>): (events: seq<Event>)
    ensures |events| == |bufs|
    ensures forall i :: 0 <= i < |bufs| ==> events[i] == Freed(bufs[i])
  {
    seq(|bufs|, i requires 0 <= i < |bufs| => Freed(bufs[i]))
  }

  /** The heap identities of some pointers. */
  function Ids(bufs: seq<Ptr>): set<nat> {
    set p | p in bufs && p.Addr? :: p.id
  }

  /** bufs are distinct live `C.CString` buffers: each can be freed once. */
  ghost predicate Owned(heap: map<nat, Block>, bufs: seq<Ptr>) {
    && (forall i :: 0 <= i < |bufs| ==> bufs[i].Addr? && bufs[i].id in heap && heap[bufs[i].id].origin == GoHeap)
    && (forall i, j :: 0 <= i < j < |bufs| ==> bufs[i] != bufs[j])
  }

  lemma FreesSnoc(bufs: seq<Ptr>, p: Ptr)
    ensures Frees(bufs + [p]) == Frees(bufs) + [Freed(p)]
  {
    assert forall i :: 0 <= i < |bufs| + 1 ==> Frees(bufs + [p])[i] == (Frees(bufs) + [Freed(p)])[i];
  }

  lemma IdsSnoc(bufs: seq<Ptr>, p: Ptr)
    requires p.Addr?
    ensures Ids(bufs + [p]) == Ids(bufs) + {p.id}
  {
    assert forall q :: q in bufs + [p] <==> q in bufs || q == p;
  }

  /** How one event changes the heap, or None when it is an invalid release. */
  function Step(heap: map<nat, Block>, e: Event): Option<map<nat, Block>> {
    match e
    case Allocated(p, text) =>
      if p.Addr? && p.id !in heap then Some(heap[p.id := Block(text, GoHeap)]) else None
    case Returned(p, text) =>
      if p.Addr? && p.id !in heap then Some(heap[p.id := Block(text, NativeHeap)]) else None
    case Freed(p) =>
      if p.Addr? && p.id in heap && heap[p.id].origin == GoHeap then Some(heap - {p.id}) else None
    case StringFreed(p) =>
      if p.Addr? && p.id in heap && heap[p.id].origin == NativeHeap then Some(heap - {p.id}) else None
    case Invoked(_) => Some(heap)
  }

  /** The heap after a sequence of events, or None if some release in it is invalid. */
  function Replay(heap: map<nat, Block>, events: seq<Event>): Option<map<nat, Block>>
    decreases |events|
  {
    if events == [] then Some(heap)
    else match Step(heap, events[0])
      case None => None
      case Some(h) => Replay(h, events[1..])
  }

  datatype Option<T> = None | Some(value: T)

  /** Registering one more fresh buffer, anywhere in the list, keeps every buffer owned once. */
  lemma OwnedInsert(heap: map<nat, Block>, xs: seq<Ptr>, ys: seq<Ptr>, b: Ptr, text: string)
    requires Owned(heap, xs + ys)
    requires b.Addr? && b.id !in heap
    ensures Owned(heap[b.id := Block(text, GoHeap)], xs + [b] + ys)
  {
    var before := xs + ys;
    var after := xs + [b] + ys;
    var h := heap[b.id := Block(text, GoHeap)];
    forall i | 0 <= i < |after|
      ensures after[i] == if i < |xs| then before[i] else if i == |xs| then b else before[i - 1]
    {
    }
    forall i | 0 <= i < |after|
      ensures after[i].Addr? && after[i].id in h && h[after[i].id].origin == GoHeap
    {
      if i != |xs| {
        var k := if i < |xs| then i else i - 1;
        assert after[i] == before[k];
      }
    }
    forall i, j | 0 <= i < j < |after|
      ensures after[i] != after[j]
    {
      if i != |xs| && j != |xs| {
        var ki, kj := if i < |xs| then i else i - 1, if j < |xs| then j else j - 1;
        assert after[i] == before[ki] && after[j] == before[kj] && ki < kj;
      } else if i == |xs| {
        assert before[j - 1].id in heap;
      } else {
        assert before[i].id in heap;
      }
    }
  }

  /** Having freed the first k owned buffers, the next one is still live and freeing it extends the prefix. */
  lemma OwnedNext(heap: map<nat, Block>, bufs: seq<Ptr>, k: nat)
    requires Owned(heap, bufs) && k < |bufs|
    ensures bufs[k].Addr? && bufs[k].id in heap - Ids(bufs[..k])
    ensures (heap - Ids(bufs[..k]))[bufs[k].id].origin == GoHeap
    ensures Frees(bufs[..k + 1]) == Frees(bufs[..k]) + [Freed(bufs[k])]
    ensures heap - Ids(bufs[..k + 1]) == (heap - Ids(bufs[..k])) - {bufs[k].id}
  {
    assert bufs[..k + 1] == bufs[..k] + [bufs[k]];
    assert bufs[k].id !in Ids(bufs[..k]) by {
      forall q | q in bufs[..k] && q.Addr?
        ensures q.id != bufs[k].id
      {
        var m :| 0 <= m < k && bufs[m] == q;
      }
    }
    FreesSnoc(bufs[..k], bufs[k]);
    IdsSnoc(bufs[..k], bufs[k]);
  }

  /** Freeing two lists in turn is freeing their concatenation. */
  lemma FreesConcat(a: seq<Ptr>, b: seq<Ptr>)
    ensures Frees(a + b) == Frees(a) + Frees(b)
    ensures Ids(a + b) == Ids(a) + Ids(b)
  {
    assert forall i :: 0 <= i < |a| + |b| ==> Frees(a + b)[i] == (Frees(a) + Frees(b))[i];
    assert forall q :: q in a + b <==> q in a || q in b;
  }

  /** Owning a concatenation is owning the first part, and the second part once the first is released. */
  lemma OwnedSplit(heap: map<nat, Block>, a: seq<Ptr>, b: seq<Ptr>)
    requires Owned(heap, a + b)
    ensures Owned(heap, a) && Owned(heap - Ids(a), b)
  {
    var ab := a + b;
    forall i | 0 <= i < |a| ensures a[i] == ab[i] { }
    forall i | 0 <= i < |b| ensures b[i] == ab[|a| + i] { }
    forall i | 0 <= i < |b|
      ensures b[i].id !in Ids(a)
    {
      forall q | q in a && q.Addr?
        ensures q.id != b[i].id
      {
        var m :| 0 <= m < |a| && a[m] == q;
        assert ab[m] != ab[|a| + i];
      }
    }
    forall i, j | 0 <= i < j < |b| ensures b[i] != b[j] {
      assert ab[|a| + i] != ab[|a| + j];
    }
  }

  /** Replaying a concatenation replays the second part from where the first left the heap. */
  lemma {:induction false} ReplayConcat(heap: map<nat, Block>, a: seq<Event>, b: seq<Event>)
    ensures Replay(heap, a + b) == match Replay(heap, a) case None => None case Some(h) => Replay(h, b)
    decreases |a|
  {
    if a == [] {
      assert a + b == b;
    } else {
      assert (a + b)[0] == a[0];
      assert (a + b)[1..] == a[1..] + b;
      match Step(heap, a[0])
      case None =>
      case Some(h) => ReplayConcat(h, a[1..], b);
    }
  }

  /**
   * Freeing a list of distinct live `C.CString` buffers is valid and releases
   * exactly those buffers: each is freed once, none twice.
   */
  lemma {:induction false} ReplayFrees(heap: map<nat, Block>, bufs: seq<Ptr>)
    requires Owned(heap, bufs)
    ensures Replay(heap, Frees(bufs)) == Some(heap - Ids(bufs))
    decreases |bufs|
  {
    if bufs == [] {
      assert Ids(bufs) == {} && Frees(bufs) == [];
      assert heap - Ids(bufs) == heap;
    } else {
      var p := bufs[0];
      var rest := bufs[1..];
      var h := heap - {p.id};
      forall i | 0 <= i < |rest|
        ensures rest[i].Addr? && rest[i].id in h && h[rest[i].id].origin == GoHeap
      {
        assert rest[i] == bufs[i + 1] != bufs[0];
      }
      ReplayFrees(h, rest);
      assert Frees(bufs)[0] == Freed(p);
      assert Step(heap, Freed(p)) == Some(h);
      assert Frees(bufs)[1..] == Frees(rest);
      assert Replay(heap, Frees(bufs)) == Replay(h, Frees(rest));
      assert Ids(bufs) == {p.id} + Ids(rest) by {
        assert forall q :: q in bufs <==> q == p || q in rest;
      }
      assert h - Ids(rest) == heap - Ids(bufs);
    }
  }

  /** A second `C.free` of the same buffer is always caught. */
  lemma DoubleFreeRejected(heap: map<nat, Block>, p: Ptr)
    ensures Replay(heap, [Freed(p), Freed(p)]) == None
  {
    assert [Freed(p), Freed(p)][1..] == [Freed(p)];
  }

  /**
   * The process-wide native library and C heap. `oracle` decides every reply;
   * `log` records every boundary event; `heap` holds the live buffers;
   * `participants` the live connector handles; `next` the next fresh identity.
   */
  class Library {
    const oracle: seq<Event> -> Reply
    var log: seq<Event>
    var heap: map<nat, Block>
    var participants: set<nat>
    var next: nat

    ghost predicate Valid()
      reads this
    {
      && (forall id :: id in heap ==> id < next)
      && (forall id :: id in participants ==> id < next)
    }

    /** p is a live buffer allocated by `origin`. */
    ghost predicate Live(p: Ptr, origin: Origin)
      reads this
    {
      p.Addr? && p.id in heap && heap[p.id].origin == origin
    }

    constructor (oracle: seq<Event> -> Reply)
      ensures Valid() && this.oracle == oracle
      ensures log == [] && heap == map[] && participants == {}
    {
      this.oracle := oracle;
      log, heap, participants, next := [], map[], {}, 0;
    }

    /** `C.CString(s)`: a fresh buffer holding s. */
    method CString(s: string) returns (p: Ptr)
      requires Valid()
      modifies this
      ensures Valid() && p == Addr(old(next)) && next == old(next) + 1
      ensures log == old(log) + [Allocated(p, s)]
      ensures Step(old(heap), Allocated(p, s)) == Some(heap)
      ensures heap == old(heap)[p.id := Block(s, GoHeap)] && participants == old(participants)
    {
      p := Addr(next);
      heap := heap[next := Block(s, GoHeap)];
      next := next + 1;
      log := log + [Allocated(p, s)];
    }

    /** `C.free(p)`: only a live `C.CString` buffer may be released. */
    method Free(p: Ptr)
      requires Valid() && Live(p, GoHeap)
      modifies this
      ensures Valid() && next == old(next)
      ensures log == old(log) + [Freed(p)]
      ensures Step(old(heap), Freed(p)) == Some(heap)
      ensures heap == old(heap) - {p.id} && participants == old(participants)
    {
      heap := heap - {p.id};
      log := log + [Freed(p)];
    }

    /** `RTI_Connector_free_string(p)`: only a live string of the library may be released. */
    method FreeString(p: Ptr)
      requires Valid() && Live(p, NativeHeap)
      modifies this
      ensures Valid() && next == old(next)
      ensures log == old(log) + [StringFreed(p)]
      ensures Step(old(heap), StringFreed(p)) == Some(heap)
      ensures heap == old(heap) - {p.id} && participants == old(participants)
    {
      heap := heap - {p.id};
      log := log + [StringFreed(p)];
    }

    /** A native call whose out-parameters are not heap strings. */
    method Invoke(c: Call) returns (r: Reply)
      modifies this
      ensures log == old(log) + [Invoked(c)] && r == oracle(log)
      ensures heap == old(heap) && participants == old(participants) && next == old(next)
    {
      log := log + [Invoked(c)];
      r := oracle(log);
    }

    /**
     * A native call with a `char**` out-parameter: on status 0 the library hands
     * back a fresh heap string holding the reply text; otherwise it hands back
     * nothing.
     */
    method InvokeForString(c: Call) returns (r: Reply, s: Ptr)
      requires Valid()
      modifies this
      ensures Valid() && r == oracle(old(log) + [Invoked(c)]) && participants == old(participants)
      ensures r.status == 0 ==>
        && s == Addr(old(next)) && next == old(next) + 1
        && log == old(log) + [Invoked(c), Returned(s, r.text)]
        && heap == old(heap)[s.id := Block(r.text, NativeHeap)]
      ensures r.status != 0 ==>
        s == Null && next == old(next) && log == old(log) + [Invoked(c)] && heap == old(heap)
    {
      log := log + [Invoked(c)];
      r := oracle(log);
      if r.status == 0 {
        s := Addr(next);
        heap := heap[next := Block(r.text, NativeHeap)];
        next := next + 1;
        log := log + [Returned(s, r.text)];
      } else {
        s := Null;
      }
    }

    /** `RTI_Connector_new`: NULL, or a new live participant handle. */
    method NewParticipant(configName: Ptr, url: Ptr) returns (h: Ptr)
      requires Valid()
      modifies this
      ensures Valid() && log == old(log) + [Invoked(ConnectorNew(configName, url))] && heap == old(heap)
      ensures oracle(log).handle == Null ==> h == Null && participants == old(participants) && next == old(next)
      ensures oracle(log).handle != Null ==>
        h == Addr(old(next)) && participants == old(participants) + {old(next)} && next == old(next) + 1
    {
      log := log + [Invoked(ConnectorNew(configName, url))];
      var r := oracle(log);
      if r.handle == Null {
        h := Null;
      } else {
        h := Addr(next);
        participants := participants + {next};
        next := next + 1;
      }
    }

    /** `RTI_Connector_delete`: only a live participant may be destroyed. */
    method DeleteParticipant(h: Ptr)
      requires Valid() && h.Addr? && h.id in participants
      modifies this
      ensures Valid() && log == old(log) + [Invoked(ConnectorDelete(h))]
      ensures participants == old(participants) - {h.id} && heap == old(heap) && next == old(next)
    {
      log := log + [Invoked(ConnectorDelete(h))];
      participants := participants - {h.id};
    }
  }
}
