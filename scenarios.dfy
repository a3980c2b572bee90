/**
 * Sequences of calls from the connector's reliability tests, stated over the
 * model: `Delete` is idempotent, and after it the connector and its writers
 * reject every operation as deleted, while the reader's `Read` still reaches
 * the native library with the released name buffer.
 */
module Scenarios {
  import opened Decimal
  import opened Status
  import opened Native
  import opened Boundary
  import opened Handles
  import ConnectorOps
  import OutputOps
  import InputOps
  import SampleOps
  import InfoOps
  import InstanceOps

  /**
   * As written, a reader's `Read` or `Take` after `Delete` passes a name
   * buffer that the teardown has already released: the buffer was live before
   * and is gone afterwards.
   */
  lemma ReadAfterDeleteUsesReleasedBuffer(heap: map<nat, Block>, native: Ptr, inputs: seq<Entry>, outputs: seq<Entry>, k: nat)
    requires Owned(heap, NameBufs(inputs) + NameBufs(outputs))
    requires k < |inputs|
    ensures
      var after := Replay(heap, ConnectorOps.Teardown(native, NameBufs(inputs) + NameBufs(outputs)));
      && after.Some?
      && inputs[k].nameBuf.Addr? && inputs[k].nameBuf.id in heap && heap[inputs[k].nameBuf.id].origin == GoHeap
      && inputs[k].nameBuf.id !in after.value
  {
    var bufs := NameBufs(inputs) + NameBufs(outputs);
    ConnectorOps.TeardownReleasesAll(heap, native, bufs);
    assert bufs[k] == inputs[k].nameBuf;
  }

  /** `TestDoubleDelete`: both calls succeed, and the second one changes nothing. */
  method DoubleDelete(connector: Connector, lib: Library) returns (first: Error, second: Error)
    requires connector.Valid(lib)
    modifies lib, connector
    ensures first == Ok && second == Ok
    ensures old(connector.native) != Null ==>
      lib.log == old(lib.log) + ConnectorOps.Teardown(old(connector.native), old(connector.NameBuffers()))
    ensures old(connector.native) == Null ==> unchanged(lib)
    ensures connector.native == Null && connector.Valid(lib)
  {
    first := ConnectorOps.Delete(connector, lib);
    ghost var log1 := lib.log;
    second := ConnectorOps.Delete(connector, lib);
    assert lib.log == log1;
  }

  /**
   * `TestUseAfterDelete`, for an output and an input obtained from the
   * connector: both lookups, `Wait` and the three writer operations report the
   * deletion without a native call; the checked `Read` and `Take` do as well;
   * the as-written `Read` dispatches with the NULL participant and the
   * released buffer.
   */
  method UseAfterDelete(connector: Connector, output: Output, input: Input, k: nat, lib: Library)
    returns (outputLookup: Error, inputLookup: Error, wait: Error, writes: seq<Error>, checkedReads: seq<Error>, read: Error)
    requires connector.Valid(lib) && connector.native != Null
    requires output.connector == connector && input.connector == connector
    requires k < |connector.inputs| && connector.inputs[k].nameBuf == input.nameBuf
    modifies lib, connector
    ensures outputLookup == ConnectorDeleted && inputLookup == ConnectorDeleted && wait == ConnectorDeleted
    ensures writes == [ConnectorDeleted, ConnectorDeleted, ConnectorDeleted]
    ensures checkedReads == [ConnectorDeleted, ConnectorDeleted] && Contains(Message(ConnectorDeleted), "deleted")
    ensures lib.log == old(lib.log) + ConnectorOps.Teardown(old(connector.native), old(connector.NameBuffers()))
                                    + [Invoked(Call.Read(Null, input.nameBuf))]
    ensures input.nameBuf.Addr? && input.nameBuf.id in old(lib.heap) && input.nameBuf.id !in lib.heap
  {
    ReadAfterDeleteUsesReleasedBuffer(lib.heap, connector.native, connector.inputs, connector.outputs, k);
    var _ := ConnectorOps.Delete(connector, lib);
    ghost var log1 := lib.log;
    var _, e1 := ConnectorOps.GetOutput(connector, "MyPublisher::MyWriter", lib);
    var _, e2 := ConnectorOps.GetInput(connector, "MySubscriber::MyReader", lib);
    outputLookup, inputLookup := e1, e2;
    wait := ConnectorOps.Wait(connector, 100, lib);
    var w1 := OutputOps.Write(output, lib);
    var w2 := OutputOps.WriteWithParams(output, "{}", lib);
    var w3 := OutputOps.ClearMembers(output, lib);
    writes := [w1, w2, w3];
    var r1 := InputOps.ReadChecked(input, lib);
    var r2 := InputOps.TakeChecked(input, lib);
    checkedReads := [r1, r2];
    InputOps.DeletedReaderRejected(input);
    assert lib.log == log1;
    read := InputOps.Read(input, lib);
  }

  /**
   * As written, an Instance setter after `Delete` passes its writer's name
   * buffer, which the teardown has already released.
   */
  lemma WriterAfterDeleteUsesReleasedBuffer(heap: map<nat, Block>, native: Ptr, inputs: seq<Entry>, outputs: seq<Entry>, k: nat)
    requires Owned(heap, NameBufs(inputs) + NameBufs(outputs))
    requires k < |outputs|
    ensures
      var after := Replay(heap, ConnectorOps.Teardown(native, NameBufs(inputs) + NameBufs(outputs)));
      && after.Some?
      && outputs[k].nameBuf.Addr? && outputs[k].nameBuf.id in heap && heap[outputs[k].nameBuf.id].origin == GoHeap
      && outputs[k].nameBuf.id !in after.value
  {
    var bufs := NameBufs(inputs) + NameBufs(outputs);
    ConnectorOps.TeardownReleasesAll(heap, native, bufs);
    assert bufs[|inputs| + k] == outputs[k].nameBuf;
  }

  /**
   * With the checks they evidently need, the Samples, Infos and Instance
   * views of a deleted connector report the deletion, whatever the index or
   * field name.
   */
  lemma DeletedViewsRejected(samples: Samples, infos: Infos, instance: Instance, index: Int64, field: string)
    requires samples.input != null && samples.input.connector != null && samples.input.connector.native == Null
    requires infos.input != null && infos.input.connector != null && infos.input.connector.native == Null
    requires instance.output != null && instance.output.connector != null && instance.output.connector.native == Null
    ensures SampleOps.SamplesCheck(samples) == ConnectorDeleted
    ensures InfoOps.InfosCheckLive(infos, index) == ConnectorDeleted
    ensures InstanceOps.InstanceCheckLive(instance, field) == ConnectorDeleted
    ensures Contains(Message(ConnectorDeleted), "deleted")
  {
    DeletedMessageSaysDeleted();
  }
}
