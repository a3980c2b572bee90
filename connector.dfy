/**
 * The Connector's life cycle: `NewConnector`, `Delete`, `isValid`,
 * `GetOutput`/`GetInput` with `newOutput`/`newInput`, and `Wait`.
 * A connector owns the name buffer of every Input and Output it has
 * registered; `Delete` releases each of them once, destroys the participant,
 * and leaves a connector on which a second `Delete` does nothing.
 */
module ConnectorOps {
  import opened Decimal
  import opened Status
  import opened Native
  import opened Boundary
  import opened Handles

  /** `isValid`: a nil connector, then a deleted one (NULL participant), is rejected. */
  function ConnectorCheck(connector: Connector?): (e: Error)
    reads connector
    ensures e == Ok <==> connector != null && connector.native != Null
    ensures e == ConnectorNull <==> connector == null
    ensures e == ConnectorDeleted <==> connector != null && connector.native == Null
  {
    if connector == null then ConnectorNull
    else if connector.native == Null then ConnectorDeleted
    else Ok
  }

  /** The events of the first `Delete`: every name buffer freed in registration order, then the participant destroyed. */
  function Teardown(native: Ptr, bufs: seq<Ptr>): seq<Event> {
    Frees(bufs) + [Invoked(ConnectorDelete(native))]
  }

  /**
   * Tearing down a connector that owns its buffers releases exactly those
   * buffers, each once, and no other.
   */
  lemma TeardownReleasesAll(heap: map<nat, Block>, native: Ptr, bufs: seq<Ptr>)
    requires Owned(heap, bufs)
    ensures Replay(heap, Teardown(native, bufs)) == Some(heap - Ids(bufs))
    ensures forall i :: 0 <= i < |bufs| ==> bufs[i].id in heap && bufs[i].id !in heap - Ids(bufs)
  {
    ReplayFrees(heap, bufs);
    ReplayConcat(heap, Frees(bufs), [Invoked(ConnectorDelete(native))]);
    assert [Invoked(ConnectorDelete(native))][1..] == [];
  }

  /** The use-after-delete rejection names the deletion. */
  lemma DeletedConnectorRejected(connector: Connector)
    requires connector.native == Null
    ensures ConnectorCheck(connector) == ConnectorDeleted
    ensures Contains(Message(ConnectorCheck(connector)), "deleted")
  {
    DeletedMessageSaysDeleted();
  }

  /**
   * `NewConnector`: the configuration name and URL are copied into C buffers,
   * the native constructor is called, and both buffers are released (URL first)
   * whatever it answered. A NULL participant is an invalid profile and no
   * Connector is returned.
   */
  method NewConnector(configName: string, url: string, lib: Library) returns (connector: Connector?, err: Error)
    requires lib.Valid()
    modifies lib
    ensures lib.Valid() && lib.heap == old(lib.heap)
    ensures var c, u := Addr(old(lib.next)), Addr(old(lib.next) + 1);
      var call := ConnectorNew(c, u);
      && lib.log == old(lib.log) + Scoped(c, configName, Scoped(u, url, [Invoked(call)]))
      && Balanced(old(lib.heap), Scoped(c, configName, Scoped(u, url, [Invoked(call)])))
      && (connector == null <==>
          lib.oracle(old(lib.log) + [Allocated(c, configName), Allocated(u, url), Invoked(call)]).handle == Null)
    ensures connector == null ==> err == InvalidProfile && lib.participants == old(lib.participants)
    ensures connector != null ==>
      && err == Ok && fresh(connector)
      && connector.native.Addr? && connector.native.id !in old(lib.participants)
      && lib.participants == old(lib.participants) + {connector.native.id}
      && connector.inputs == [] && connector.outputs == []
      && connector.Valid(lib)
  {
    var c := lib.CString(configName);
    var u := lib.CString(url);
    ghost var h1, h2 := old(lib.heap)[c.id := Block(configName, GoHeap)], lib.heap;
    var h := lib.NewParticipant(c, u);
    assert lib.log == old(lib.log) + [Allocated(c, configName), Allocated(u, url), Invoked(ConnectorNew(c, u))];
    lib.Free(u);
    lib.Free(c);
    InvokedBalanced(h2, ConnectorNew(c, u));
    ScopedBalanced(h1, u, url, [Invoked(ConnectorNew(c, u))]);
    ScopedBalanced(old(lib.heap), c, configName, Scoped(u, url, [Invoked(ConnectorNew(c, u))]));
    if h == Null {
      connector, err := null, InvalidProfile;
    } else {
      connector := new Connector(h);
      err := Ok;
    }
  }

  /**
   * `Delete`: a nil connector is an error; a deleted one is left alone and the
   * call succeeds; otherwise every registered name buffer is freed (readers,
   * then writers), the participant is destroyed, the handle becomes NULL and
   * both registries are emptied, so that deleting again frees nothing.
   */
  method Delete(connector: Connector?, lib: Library) returns (err: Error)
    requires connector != null ==> connector.Valid(lib)
    modifies lib, connector
    ensures connector == null ==> err == ConnectorNull && unchanged(lib)
    ensures connector != null && old(connector.native) == Null ==>
      err == Ok && unchanged(lib) && unchanged(connector)
    ensures connector != null && old(connector.native) != Null ==>
      && err == Ok
      && lib.log == old(lib.log) + Teardown(old(connector.native), old(connector.NameBuffers()))
      && lib.heap == old(lib.heap) - Ids(old(connector.NameBuffers()))
      && lib.participants == old(lib.participants) - {old(connector.native).id}
      && Replay(old(lib.heap), Teardown(old(connector.native), old(connector.NameBuffers()))) == Some(lib.heap)
      && connector.native == Null && connector.inputs == [] && connector.outputs == []
    ensures connector != null ==> connector.Valid(lib)
  {
    if connector == null {
      return ConnectorNull;
    }
    if connector.native == Null {
      return Ok;
    }
    TeardownReleasesAll(lib.heap, connector.native, connector.NameBuffers());
    FreeRegistered(connector, lib);
    lib.DeleteParticipant(connector.native);
    connector.native := Null;
    connector.inputs := [];
    connector.outputs := [];
    err := Ok;
  }

  /** Delete's two loops: the readers' name buffers, then the writers'. */
  method FreeRegistered(connector: Connector, lib: Library)
    requires connector.Valid(lib)
    modifies lib
    ensures lib.Valid() && lib.participants == old(lib.participants)
    ensures lib.log == old(lib.log) + Frees(connector.NameBuffers())
    ensures lib.heap == old(lib.heap) - Ids(connector.NameBuffers())
  {
    ghost var ins, outs := NameBufs(connector.inputs), NameBufs(connector.outputs);
    OwnedSplit(lib.heap, ins, outs);
    FreeNames(connector.inputs, lib);
    FreeNames(connector.outputs, lib);
    FreesConcat(ins, outs);
    assert old(lib.heap) - Ids(ins) - Ids(outs) == old(lib.heap) - Ids(ins + outs);
  }

  /** One of Delete's two loops: `C.free` of each entry's name buffer, in order. */
  method FreeNames(entries: seq<Entry>, lib: Library)
    requires lib.Valid() && Owned(lib.heap, NameBufs(entries))
    modifies lib
    ensures lib.Valid() && lib.participants == old(lib.participants)
    ensures lib.log == old(lib.log) + Frees(NameBufs(entries))
    ensures lib.heap == old(lib.heap) - Ids(NameBufs(entries))
  {
    ghost var bufs := NameBufs(entries);
    var i := 0;
    while i < |entries|
      invariant 0 <= i <= |entries|
      invariant lib.Valid() && lib.participants == old(lib.participants)
      invariant lib.log == old(lib.log) + Frees(bufs[..i])
      invariant lib.heap == old(lib.heap) - Ids(bufs[..i])
    {
      OwnedNext(old(lib.heap), bufs, i);
      lib.Free(entries[i].nameBuf);
      i := i + 1;
    }
    assert bufs[..i] == bufs;
  }

  /**
   * `newOutput`: the name is copied into a C buffer and looked up. A NULL
   * DataWriter releases the buffer and registers nothing; otherwise the buffer
   * stays owned by the connector, which registers exactly one new entry.
   */
  method NewOutput(connector: Connector, name: string, lib: Library) returns (output: Output?, err: Error)
    requires connector.Valid(lib) && connector.native != Null
    modifies lib, connector
    ensures connector.Valid(lib) && connector.native == old(connector.native) && connector.inputs == old(connector.inputs)
    ensures lib.participants == old(lib.participants)
    ensures var b := Addr(old(lib.next));
      var call := GetDatawriter(connector.native, b);
      var h := lib.oracle(old(lib.log) + [Allocated(b, name), Invoked(call)]).handle;
      && (h == Null ==>
        && output == null && err == InvalidWriterName
        && lib.log == old(lib.log) + Scoped(b, name, [Invoked(call)])
        && Balanced(old(lib.heap), Scoped(b, name, [Invoked(call)]))
        && lib.heap == old(lib.heap) && connector.outputs == old(connector.outputs))
      && (h != Null ==>
        && output != null && fresh(output) && err == Ok
        && output.native == h && output.connector == connector
        && output.name == name && output.nameBuf == b
        && output.instance != null && fresh(output.instance) && output.instance.output == output
        && lib.log == old(lib.log) + [Allocated(b, name), Invoked(call)]
        && lib.heap == old(lib.heap)[b.id := Block(name, GoHeap)]
        && connector.outputs == old(connector.outputs) + [Entry(h, name, b)])
  {
    var b := lib.CString(name);
    var r := lib.Invoke(GetDatawriter(connector.native, b));
    assert lib.log == old(lib.log) + [Allocated(b, name), Invoked(GetDatawriter(connector.native, b))];
    if r.handle == Null {
      lib.Free(b);
      InvokedBalanced(old(lib.heap)[b.id := Block(name, GoHeap)], GetDatawriter(connector.native, b));
      ScopedBalanced(old(lib.heap), b, name, [Invoked(GetDatawriter(connector.native, b))]);
      return null, InvalidWriterName;
    }
    output := new Output(r.handle, connector, name, b);
    OwnedInsert(old(lib.heap), NameBufs(connector.inputs) + NameBufs(connector.outputs), [], b, name);
    connector.outputs := connector.outputs + [Entry(r.handle, name, b)];
    assert NameBufs(connector.outputs) == NameBufs(old(connector.outputs)) + [b];
    assert connector.NameBuffers() == NameBufs(connector.inputs) + NameBufs(old(connector.outputs)) + [b] + [];
    err := Ok;
  }

  /**
   * `newInput`: as `newOutput`, for a DataReader; the new Input comes with
   * its Samples and Infos.
   */
  method NewInput(connector: Connector, name: string, lib: Library) returns (input: Input?, err: Error)
    requires connector.Valid(lib) && connector.native != Null
    modifies lib, connector
    ensures connector.Valid(lib) && connector.native == old(connector.native) && connector.outputs == old(connector.outputs)
    ensures lib.participants == old(lib.participants)
    ensures var b := Addr(old(lib.next));
      var call := GetDatareader(connector.native, b);
      var h := lib.oracle(old(lib.log) + [Allocated(b, name), Invoked(call)]).handle;
      && (h == Null ==>
        && input == null && err == InvalidReaderName
        && lib.log == old(lib.log) + Scoped(b, name, [Invoked(call)])
        && Balanced(old(lib.heap), Scoped(b, name, [Invoked(call)]))
        && lib.heap == old(lib.heap) && connector.inputs == old(connector.inputs))
      && (h != Null ==>
        && input != null && fresh(input) && err == Ok
        && input.native == h && input.connector == connector
        && input.name == name && input.nameBuf == b
        && input.samples != null && fresh(input.samples) && input.samples.input == input
        && input.infos != null && fresh(input.infos) && input.infos.input == input
        && lib.log == old(lib.log) + [Allocated(b, name), Invoked(call)]
        && lib.heap == old(lib.heap)[b.id := Block(name, GoHeap)]
        && connector.inputs == old(connector.inputs) + [Entry(h, name, b)])
  {
    var b := lib.CString(name);
    var r := lib.Invoke(GetDatareader(connector.native, b));
    assert lib.log == old(lib.log) + [Allocated(b, name), Invoked(GetDatareader(connector.native, b))];
    if r.handle == Null {
      lib.Free(b);
      InvokedBalanced(old(lib.heap)[b.id := Block(name, GoHeap)], GetDatareader(connector.native, b));
      ScopedBalanced(old(lib.heap), b, name, [Invoked(GetDatareader(connector.native, b))]);
      return null, InvalidReaderName;
    }
    input := new Input(r.handle, connector, name, b);
    OwnedInsert(old(lib.heap), NameBufs(connector.inputs), NameBufs(connector.outputs), b, name);
    connector.inputs := connector.inputs + [Entry(r.handle, name, b)];
    assert NameBufs(connector.inputs) == NameBufs(old(connector.inputs)) + [b];
    err := Ok;
  }

  /** `GetOutput`: `isValid`, then `newOutput`; a rejected connector is not touched and nothing is called. */
  method GetOutput(connector: Connector?, name: string, lib: Library) returns (output: Output?, err: Error)
    requires connector != null ==> connector.Valid(lib)
    modifies lib, connector
    ensures old(ConnectorCheck(connector)) != Ok ==>
      output == null && err == old(ConnectorCheck(connector)) && unchanged(lib) && (connector != null ==> unchanged(connector))
    ensures old(ConnectorCheck(connector)) == Ok ==>
      var b := Addr(old(lib.next));
      var call := GetDatawriter(connector.native, b);
      var h := lib.oracle(old(lib.log) + [Allocated(b, name), Invoked(call)]).handle;
      && connector.Valid(lib) && connector.native == old(connector.native) && connector.inputs == old(connector.inputs)
      && (h == Null ==>
        && output == null && err == InvalidWriterName
        && lib.log == old(lib.log) + Scoped(b, name, [Invoked(call)])
        && lib.heap == old(lib.heap) && connector.outputs == old(connector.outputs))
      && (h != Null ==>
        && output != null && fresh(output) && err == Ok
        && output.native == h && output.connector == connector && output.nameBuf == b
        && lib.log == old(lib.log) + [Allocated(b, name), Invoked(call)]
        && lib.heap == old(lib.heap)[b.id := Block(name, GoHeap)]
        && connector.outputs == old(connector.outputs) + [Entry(h, name, b)])
  {
    err := ConnectorCheck(connector);
    if err != Ok {
      return null, err;
    }
    output, err := NewOutput(connector, name, lib);
  }

  /** `GetInput`: `isValid`, then `newInput`. */
  method GetInput(connector: Connector?, name: string, lib: Library) returns (input: Input?, err: Error)
    requires connector != null ==> connector.Valid(lib)
    modifies lib, connector
    ensures old(ConnectorCheck(connector)) != Ok ==>
      input == null && err == old(ConnectorCheck(connector)) && unchanged(lib) && (connector != null ==> unchanged(connector))
    ensures old(ConnectorCheck(connector)) == Ok ==>
      var b := Addr(old(lib.next));
      var call := GetDatareader(connector.native, b);
      var h := lib.oracle(old(lib.log) + [Allocated(b, name), Invoked(call)]).handle;
      && connector.Valid(lib) && connector.native == old(connector.native) && connector.outputs == old(connector.outputs)
      && (h == Null ==>
        && input == null && err == InvalidReaderName
        && lib.log == old(lib.log) + Scoped(b, name, [Invoked(call)])
        && lib.heap == old(lib.heap) && connector.inputs == old(connector.inputs))
      && (h != Null ==>
        && input != null && fresh(input) && err == Ok
        && input.native == h && input.connector == connector && input.nameBuf == b
        && input.samples != null && input.samples.input == input
        && input.infos != null && input.infos.input == input
        && lib.log == old(lib.log) + [Allocated(b, name), Invoked(call)]
        && lib.heap == old(lib.heap)[b.id := Block(name, GoHeap)]
        && connector.inputs == old(connector.inputs) + [Entry(h, name, b)])
  {
    err := ConnectorCheck(connector);
    if err != Ok {
      return null, err;
    }
    input, err := NewInput(connector, name, lib);
  }

  /** `Wait`: `isValid`, then one wait on the participant with the timeout narrowed to a C int. */
  method Wait(connector: Connector?, timeoutMs: Int64, lib: Library) returns (err: Error)
    modifies lib
    ensures ConnectorCheck(connector) != Ok ==> err == ConnectorCheck(connector) && unchanged(lib)
    ensures ConnectorCheck(connector) == Ok ==>
      var call := WaitForData(connector.native, ToInt32(timeoutMs));
      var r := lib.oracle(old(lib.log) + [Invoked(call)]);
      && lib.log == old(lib.log) + [Invoked(call)]
      && err == CheckRetcode(r.status, r.lastError)
      && lib.heap == old(lib.heap) && lib.participants == old(lib.participants) && lib.next == old(lib.next)
  {
    err := ConnectorCheck(connector);
    if err != Ok {
      return;
    }
    var r := lib.Invoke(WaitForData(connector.native, ToInt32(timeoutMs)));
    err := CheckRetcode(r.status, r.lastError);
  }
}
