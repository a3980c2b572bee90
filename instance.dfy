/**
 * The setters of an Instance, the sample an Output stages before `Write`.
 * Only `SetString` checks the chain instance -> output -> connector and the
 * field name; the numeric, boolean and JSON setters dereference the chain
 * directly, so a nil link there is a Go panic and appears here as a
 * precondition. None of them checks that the connector was deleted: after
 * `Delete` they dispatch with a NULL participant.
 */
module InstanceOps {
  import opened Decimal
  import opened Status
  import opened Native
  import opened Boundary
  import opened Handles
  import opened ConnectorOps

  /** What `json.Marshal` makes of a value: its JSON text, or the reason it cannot encode it. */
  datatype Marshalled = Marshalled(json: string) | MarshalFailed(reason: string)

  /** The local checks of `SetString`: the whole chain first, then a non-empty field name. */
  function InstanceCheck(instance: Instance?, field: string): (e: Error)
    reads instance, if instance != null && instance.output != null then {instance.output} else {}
    ensures e == Ok <==> instance != null && instance.output != null && instance.output.connector != null && field != ""
    ensures e != Ok ==> e in {InstanceChainNull, EmptyFieldName}
    ensures e == EmptyFieldName ==> field == ""
  {
    if instance == null || instance.output == null || instance.output.connector == null then InstanceChainNull
    else if field == "" then EmptyFieldName
    else Ok
  }

  /** A broken chain is reported before the field name is looked at, whatever the name. */
  lemma ChainCheckedFirst(instance: Instance?, f1: string, f2: string)
    requires instance == null || instance.output == null || instance.output.connector == null
    ensures InstanceCheck(instance, f1) == InstanceCheck(instance, f2) == InstanceChainNull
    ensures Message(InstanceCheck(instance, f1)) == "instance, output, or connector is null"
  {
  }

  /**
   * The check the setters evidently need once the connector may have been
   * deleted, in the writer side's order: the nil chain, then the connector's
   * own check, then the field name.
   */
  function InstanceCheckLive(instance: Instance?, field: string): (e: Error)
    reads instance, if instance != null && instance.output != null then {instance.output, instance.output.connector} else {}
    ensures e == Ok <==> InstanceCheck(instance, field) == Ok && instance.output.connector.native != Null
    ensures InstanceCheck(instance, field) == InstanceChainNull ==> e == InstanceChainNull
    ensures InstanceCheck(instance, field) != InstanceChainNull && instance.output.connector.native == Null ==> e == ConnectorDeleted
  {
    if InstanceCheck(instance, field) == InstanceChainNull then InstanceChainNull
    else if ConnectorCheck(instance.output.connector) != Ok then ConnectorCheck(instance.output.connector)
    else InstanceCheck(instance, field)
  }

  /**
   * The numeric setters (`SetUint8` … `SetFloat64`, `SetByte`, `SetRune`): the
   * field name lives in a C buffer for the duration of one native call that
   * stores the value, already converted to a C double.
   */
  method SetNumber(instance: Instance, field: string, value: real, lib: Library) returns (err: Error)
    requires instance.output != null && instance.output.connector != null
    requires lib.Valid()
    modifies lib
    ensures
      var f := Addr(old(lib.next));
      var call := SetNumberIntoSamples(instance.output.connector.native, instance.output.nameBuf, f, value);
      var r := lib.oracle(old(lib.log) + [Allocated(f, field), Invoked(call)]);
      && lib.log == old(lib.log) + Scoped(f, field, [Invoked(call)])
      && Balanced(old(lib.heap), Scoped(f, field, [Invoked(call)]))
      && err == CheckRetcode(r.status, r.lastError)
    ensures lib.Valid() && lib.heap == old(lib.heap) && lib.participants == old(lib.participants)
  {
    var native, entity := instance.output.connector.native, instance.output.nameBuf;
    var r := ScopedInvoke(lib, field, f => SetNumberIntoSamples(native, entity, f, value));
    err := CheckRetcode(r.status, r.lastError);
  }

  /**
   * `SetString`: after the local checks, the field name and the value each live
   * in a C buffer; the deferred frees release the value first, then the name.
   */
  method SetString(instance: Instance?, field: string, value: string, lib: Library) returns (err: Error)
    requires lib.Valid()
    modifies lib
    ensures InstanceCheck(instance, field) != Ok ==> err == InstanceCheck(instance, field) && unchanged(lib)
    ensures InstanceCheck(instance, field) == Ok ==>
      var f, v := Addr(old(lib.next)), Addr(old(lib.next) + 1);
      var call := SetStringIntoSamples(instance.output.connector.native, instance.output.nameBuf, f, v);
      var r := lib.oracle(old(lib.log) + [Allocated(f, field), Allocated(v, value), Invoked(call)]);
      && lib.log == old(lib.log) + Scoped(f, field, Scoped(v, value, [Invoked(call)]))
      && Balanced(old(lib.heap), Scoped(f, field, Scoped(v, value, [Invoked(call)])))
      && err == CheckRetcode(r.status, r.lastError)
    ensures lib.Valid() && lib.heap == old(lib.heap) && lib.participants == old(lib.participants)
  {
    err := InstanceCheck(instance, field);
    if err != Ok {
      return;
    }
    var native, entity := instance.output.connector.native, instance.output.nameBuf;
    var f := lib.CString(field);
    ghost var h1, log1 := lib.heap, lib.log;
    var r := ScopedInvoke(lib, value, v => SetStringIntoSamples(native, entity, f, v));
    ghost var v, call := Addr(old(lib.next) + 1), SetStringIntoSamples(native, entity, f, Addr(old(lib.next) + 1));
    assert log1 + [Allocated(v, value), Invoked(call)] == old(lib.log) + [Allocated(f, field), Allocated(v, value), Invoked(call)];
    ghost var inner := lib.log[|log1|..];
    assert lib.log == log1 + inner;
    lib.Free(f);
    assert lib.log == old(lib.log) + Scoped(f, field, inner);
    ScopedBalanced(old(lib.heap), f, field, inner);
    err := CheckRetcode(r.status, r.lastError);
  }

  /** `SetString` with `InstanceCheckLive` in front: after `Delete` it reports the deletion and makes no native call. */
  method SetStringChecked(instance: Instance?, field: string, value: string, lib: Library) returns (err: Error)
    requires lib.Valid()
    modifies lib
    ensures InstanceCheckLive(instance, field) != Ok ==> err == InstanceCheckLive(instance, field) && unchanged(lib)
    ensures InstanceCheckLive(instance, field) == Ok ==>
      var f, v := Addr(old(lib.next)), Addr(old(lib.next) + 1);
      var call := SetStringIntoSamples(instance.output.connector.native, instance.output.nameBuf, f, v);
      var r := lib.oracle(old(lib.log) + [Allocated(f, field), Allocated(v, value), Invoked(call)]);
      && lib.log == old(lib.log) + Scoped(f, field, Scoped(v, value, [Invoked(call)]))
      && Balanced(old(lib.heap), Scoped(f, field, Scoped(v, value, [Invoked(call)])))
      && err == CheckRetcode(r.status, r.lastError)
    ensures lib.Valid() && lib.heap == old(lib.heap) && lib.participants == old(lib.participants)
  {
    err := InstanceCheckLive(instance, field);
    if err != Ok {
      return;
    }
    err := SetString(instance, field, value, lib);
  }

  /** `SetBoolean`: the flag travels as the C int 1 for true and 0 for false. */
  method SetBoolean(instance: Instance, field: string, value: bool, lib: Library) returns (err: Error)
    requires instance.output != null && instance.output.connector != null
    requires lib.Valid()
    modifies lib
    ensures
      var f := Addr(old(lib.next));
      var call := SetBooleanIntoSamples(instance.output.connector.native, instance.output.nameBuf, f, BoolToCInt(value));
      var r := lib.oracle(old(lib.log) + [Allocated(f, field), Invoked(call)]);
      && lib.log == old(lib.log) + Scoped(f, field, [Invoked(call)])
      && Balanced(old(lib.heap), Scoped(f, field, [Invoked(call)]))
      && call.flag in {0, 1} && (call.flag == 1 <==> value)
      && err == CheckRetcode(r.status, r.lastError)
    ensures lib.Valid() && lib.heap == old(lib.heap) && lib.participants == old(lib.participants)
  {
    var native, entity := instance.output.connector.native, instance.output.nameBuf;
    var r := ScopedInvoke(lib, field, f => SetBooleanIntoSamples(native, entity, f, BoolToCInt(value)));
    err := CheckRetcode(r.status, r.lastError);
  }

  /** `SetJSON`: the whole sample from JSON text, held in a C buffer for the duration of the call. */
  method SetJson(instance: Instance, json: string, lib: Library) returns (err: Error)
    requires instance.output != null && instance.output.connector != null
    requires lib.Valid()
    modifies lib
    ensures
      var j := Addr(old(lib.next));
      var call := SetJsonInstance(instance.output.connector.native, instance.output.nameBuf, j);
      var r := lib.oracle(old(lib.log) + [Allocated(j, json), Invoked(call)]);
      && lib.log == old(lib.log) + Scoped(j, json, [Invoked(call)])
      && Balanced(old(lib.heap), Scoped(j, json, [Invoked(call)]))
      && err == CheckRetcode(r.status, r.lastError)
    ensures lib.Valid() && lib.heap == old(lib.heap) && lib.participants == old(lib.participants)
  {
    var native, entity := instance.output.connector.native, instance.output.nameBuf;
    var r := ScopedInvoke(lib, json, j => SetJsonInstance(native, entity, j));
    err := CheckRetcode(r.status, r.lastError);
  }

  /**
   * `Set`: `json.Marshal` of the value; its error is returned unchanged before
   * the instance is touched, otherwise the text goes through `SetJSON`.
   */
  method Set<V>(instance: Instance?, v: V, marshal: V -> Marshalled, lib: Library) returns (err: Error)
    requires marshal(v).Marshalled? ==> instance != null && instance.output != null && instance.output.connector != null
    requires lib.Valid()
    modifies lib
    ensures marshal(v).MarshalFailed? ==> err == JsonError(marshal(v).reason) && unchanged(lib)
    ensures marshal(v).Marshalled? ==>
      var j := Addr(old(lib.next));
      var call := SetJsonInstance(instance.output.connector.native, instance.output.nameBuf, j);
      var r := lib.oracle(old(lib.log) + [Allocated(j, marshal(v).json), Invoked(call)]);
      && lib.log == old(lib.log) + Scoped(j, marshal(v).json, [Invoked(call)])
      && Balanced(old(lib.heap), Scoped(j, marshal(v).json, [Invoked(call)]))
      && err == CheckRetcode(r.status, r.lastError)
    ensures lib.Valid() && lib.heap == old(lib.heap) && lib.participants == old(lib.participants)
  {
    match marshal(v)
    case MarshalFailed(reason) =>
      err := JsonError(reason);
    case Marshalled(json) =>
      err := SetJson(instance, json, lib);
  }
}
