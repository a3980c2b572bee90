/**
 * The writer operations of an Output. Each checks first that the output, its
 * connector and the participant are still there (`isValid`), and when they are
 * not it returns that error without any native call, so no writer operation
 * reaches the name buffer that `Delete` released.
 */
module OutputOps {
  import opened Decimal
  import opened Status
  import opened Native
  import opened Boundary
  import opened Handles
  import opened ConnectorOps

  /** `Output.isValid`: a nil output, then a nil connector, then a deleted connector. */
  function OutputCheck(output: Output?): (e: Error)
    reads if output != null then {output.connector} else {}
    ensures e == Ok <==> output != null && output.connector != null && output.connector.native != Null
    ensures output == null ==> e == OutputNull
    ensures output != null && output.connector == null ==> e == OutputConnectorNull
    ensures output != null && output.connector != null ==> e == ConnectorCheck(output.connector)
  {
    if output == null then OutputNull
    else if output.connector == null then OutputConnectorNull
    else if output.connector.native == Null then ConnectorDeleted
    else Ok
  }

  /** Every writer operation on an output of a deleted connector is rejected as deleted, before any native call. */
  lemma DeletedWriterRejected(output: Output)
    requires output.connector != null && output.connector.native == Null
    ensures OutputCheck(output) == ConnectorDeleted
    ensures Contains(Message(OutputCheck(output)), "deleted")
  {
    DeletedConnectorRejected(output.connector);
  }

  /** `Write`: one native write of the staged instance, with no parameters. */
  method Write(output: Output?, lib: Library) returns (err: Error)
    modifies lib
    ensures OutputCheck(output) != Ok ==> err == OutputCheck(output) && unchanged(lib)
    ensures OutputCheck(output) == Ok ==>
      var call := Call.Write(output.connector.native, output.nameBuf, Null);
      var r := lib.oracle(old(lib.log) + [Invoked(call)]);
      && lib.log == old(lib.log) + [Invoked(call)]
      && err == CheckRetcode(r.status, r.lastError)
    ensures lib.heap == old(lib.heap) && lib.participants == old(lib.participants) && lib.next == old(lib.next)
  {
    err := OutputCheck(output);
    if err != Ok {
      return;
    }
    var r := lib.Invoke(Call.Write(output.connector.native, output.nameBuf, Null));
    err := CheckRetcode(r.status, r.lastError);
  }

  /** `WriteWithParams`: the parameters travel in a C buffer that is released after the write. */
  method WriteWithParams(output: Output?, json: string, lib: Library) returns (err: Error)
    requires lib.Valid()
    modifies lib
    ensures OutputCheck(output) != Ok ==> err == OutputCheck(output) && unchanged(lib)
    ensures OutputCheck(output) == Ok ==>
      var p := Addr(old(lib.next));
      var call := Call.Write(output.connector.native, output.nameBuf, p);
      var r := lib.oracle(old(lib.log) + [Allocated(p, json), Invoked(call)]);
      && lib.log == old(lib.log) + Scoped(p, json, [Invoked(call)])
      && Balanced(old(lib.heap), Scoped(p, json, [Invoked(call)]))
      && err == CheckRetcode(r.status, r.lastError)
    ensures lib.Valid() && lib.heap == old(lib.heap) && lib.participants == old(lib.participants)
  {
    err := OutputCheck(output);
    if err != Ok {
      return;
    }
    var native, entity := output.connector.native, output.nameBuf;
    var r := ScopedInvoke(lib, json, p => Call.Write(native, entity, p));
    err := CheckRetcode(r.status, r.lastError);
  }

  /** `ClearMembers`: one native reset of the staged instance. */
  method ClearMembers(output: Output?, lib: Library) returns (err: Error)
    modifies lib
    ensures OutputCheck(output) != Ok ==> err == OutputCheck(output) && unchanged(lib)
    ensures OutputCheck(output) == Ok ==>
      var call := Clear(output.connector.native, output.nameBuf);
      var r := lib.oracle(old(lib.log) + [Invoked(call)]);
      && lib.log == old(lib.log) + [Invoked(call)]
      && err == CheckRetcode(r.status, r.lastError)
    ensures lib.heap == old(lib.heap) && lib.participants == old(lib.participants) && lib.next == old(lib.next)
  {
    err := OutputCheck(output);
    if err != Ok {
      return;
    }
    var r := lib.Invoke(Clear(output.connector.native, output.nameBuf));
    err := CheckRetcode(r.status, r.lastError);
  }

  /**
   * `WaitForSubscriptions`: -1 with the validity error, or the change in
   * matched subscriptions the writer reports, whatever the status.
   */
  method WaitForSubscriptions(output: Output?, timeoutMs: Int64, lib: Library) returns (change: int, err: Error)
    modifies lib
    ensures OutputCheck(output) != Ok ==> change == -1 && err == OutputCheck(output) && unchanged(lib)
    ensures OutputCheck(output) == Ok ==>
      var call := WaitForMatchedSubscription(output.native, ToInt32(timeoutMs));
      var r := lib.oracle(old(lib.log) + [Invoked(call)]);
      && lib.log == old(lib.log) + [Invoked(call)]
      && change == r.delta && err == CheckRetcode(r.status, r.lastError)
    ensures lib.heap == old(lib.heap) && lib.participants == old(lib.participants) && lib.next == old(lib.next)
  {
    err := OutputCheck(output);
    if err != Ok {
      return -1, err;
    }
    var r := lib.Invoke(WaitForMatchedSubscription(output.native, ToInt32(timeoutMs)));
    change, err := r.delta, CheckRetcode(r.status, r.lastError);
  }

  /**
   * `GetMatchedSubscriptions`: "" with the error, or the JSON text the writer
   * hands back, copied and then released exactly once.
   */
  method GetMatchedSubscriptions(output: Output?, lib: Library) returns (json: string, err: Error)
    requires lib.Valid()
    modifies lib
    ensures OutputCheck(output) != Ok ==> json == "" && err == OutputCheck(output) && unchanged(lib)
    ensures OutputCheck(output) == Ok ==>
      var call := Call.GetMatchedSubscriptions(output.native);
      var r := lib.oracle(old(lib.log) + [Invoked(call)]);
      && lib.log == old(lib.log) + Fetched(call, r, Addr(old(lib.next)))
      && Balanced(old(lib.heap), Fetched(call, r, Addr(old(lib.next))))
      && (json, err) == FetchResult(r)
    ensures lib.Valid() && lib.heap == old(lib.heap) && lib.participants == old(lib.participants)
  {
    err := OutputCheck(output);
    if err != Ok {
      return "", err;
    }
    json, err := Fetch(lib, Call.GetMatchedSubscriptions(output.native));
  }
}
