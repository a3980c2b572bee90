/**
 * The reader operations of an Input. Unlike the writer operations they check
 * only for a nil Input: `Read` and `Take` go on to dispatch with the
 * connector's participant handle even after `Delete` has made it NULL (and
 * released the name buffer they pass), so any "deleted" error a caller sees
 * then comes from the native library.
 */
module InputOps {
  import opened Decimal
  import opened Status
  import opened Native
  import opened Boundary
  import opened Handles
  import opened ConnectorOps

  /** `Read`: the connector's participant reads the named reader's samples into its cache, leaving them in the queue. */
  method Read(input: Input?, lib: Library) returns (err: Error)
    requires input != null ==> input.connector != null
    modifies lib
    ensures input == null ==> err == InputNull && unchanged(lib)
    ensures input != null ==>
      var call := Call.Read(input.connector.native, input.nameBuf);
      var r := lib.oracle(old(lib.log) + [Invoked(call)]);
      && lib.log == old(lib.log) + [Invoked(call)]
      && err == CheckRetcode(r.status, r.lastError)
    ensures lib.heap == old(lib.heap) && lib.participants == old(lib.participants) && lib.next == old(lib.next)
  {
    if input == null {
      return InputNull;
    }
    var r := lib.Invoke(Call.Read(input.connector.native, input.nameBuf));
    err := CheckRetcode(r.status, r.lastError);
  }

  /** `Take`: as `Read`, but the samples are removed from the reader's queue. */
  method Take(input: Input?, lib: Library) returns (err: Error)
    requires input != null ==> input.connector != null
    modifies lib
    ensures input == null ==> err == InputNull && unchanged(lib)
    ensures input != null ==>
      var call := Call.Take(input.connector.native, input.nameBuf);
      var r := lib.oracle(old(lib.log) + [Invoked(call)]);
      && lib.log == old(lib.log) + [Invoked(call)]
      && err == CheckRetcode(r.status, r.lastError)
    ensures lib.heap == old(lib.heap) && lib.participants == old(lib.participants) && lib.next == old(lib.next)
  {
    if input == null {
      return InputNull;
    }
    var r := lib.Invoke(Call.Take(input.connector.native, input.nameBuf));
    err := CheckRetcode(r.status, r.lastError);
  }

  /**
   * `WaitForPublications`: -1 with an error for a nil Input; otherwise the
   * reader's change in matched publications, whatever the status.
   */
  method WaitForPublications(input: Input?, timeoutMs: Int64, lib: Library) returns (change: int, err: Error)
    modifies lib
    ensures input == null ==> change == -1 && err == InputNull && unchanged(lib)
    ensures input != null ==>
      var call := WaitForMatchedPublication(input.native, ToInt32(timeoutMs));
      var r := lib.oracle(old(lib.log) + [Invoked(call)]);
      && lib.log == old(lib.log) + [Invoked(call)]
      && change == r.delta && err == CheckRetcode(r.status, r.lastError)
    ensures lib.heap == old(lib.heap) && lib.participants == old(lib.participants) && lib.next == old(lib.next)
  {
    if input == null {
      return -1, InputNull;
    }
    var r := lib.Invoke(WaitForMatchedPublication(input.native, ToInt32(timeoutMs)));
    change, err := r.delta, CheckRetcode(r.status, r.lastError);
  }

  /**
   * `GetMatchedPublications`: "" with the error, or the JSON text the reader
   * hands back, copied and then released exactly once.
   */
  method GetMatchedPublications(input: Input?, lib: Library) returns (json: string, err: Error)
    requires lib.Valid()
    modifies lib
    ensures input == null ==> json == "" && err == InputNull && unchanged(lib)
    ensures input != null ==>
      var call := Call.GetMatchedPublications(input.native);
      var r := lib.oracle(old(lib.log) + [Invoked(call)]);
      && lib.log == old(lib.log) + Fetched(call, r, Addr(old(lib.next)))
      && Balanced(old(lib.heap), Fetched(call, r, Addr(old(lib.next))))
      && (json, err) == FetchResult(r)
    ensures lib.Valid() && lib.heap == old(lib.heap) && lib.participants == old(lib.participants)
  {
    if input == null {
      return "", InputNull;
    }
    json, err := Fetch(lib, Call.GetMatchedPublications(input.native));
  }

  /**
   * The check `Read` and `Take` evidently need, as the writer side has it: a
   * nil input, then the connector's own check (nil, or deleted).
   */
  function InputCheck(input: Input?): (e: Error)
    reads if input != null then {input.connector} else {}
    ensures e == Ok <==> input != null && input.connector != null && input.connector.native != Null
    ensures input == null ==> e == InputNull
    ensures input != null ==> e == ConnectorCheck(input.connector)
  {
    if input == null then InputNull else ConnectorCheck(input.connector)
  }

  /** With the check in place, a reader of a deleted connector is rejected as deleted. */
  lemma DeletedReaderRejected(input: Input)
    requires input.connector != null && input.connector.native == Null
    ensures InputCheck(input) == ConnectorDeleted
    ensures Contains(Message(InputCheck(input)), "deleted")
  {
    DeletedConnectorRejected(input.connector);
  }

  /** `Read` with `InputCheck` in front: a rejected reader makes no native call. */
  method ReadChecked(input: Input?, lib: Library) returns (err: Error)
    modifies lib
    ensures InputCheck(input) != Ok ==> err == InputCheck(input) && unchanged(lib)
    ensures InputCheck(input) == Ok ==>
      var call := Call.Read(input.connector.native, input.nameBuf);
      var r := lib.oracle(old(lib.log) + [Invoked(call)]);
      && lib.log == old(lib.log) + [Invoked(call)]
      && err == CheckRetcode(r.status, r.lastError)
    ensures lib.heap == old(lib.heap) && lib.participants == old(lib.participants) && lib.next == old(lib.next)
  {
    err := InputCheck(input);
    if err != Ok {
      return;
    }
    err := Read(input, lib);
  }

  /** `Take` with `InputCheck` in front: a rejected reader makes no native call. */
  method TakeChecked(input: Input?, lib: Library) returns (err: Error)
    modifies lib
    ensures InputCheck(input) != Ok ==> err == InputCheck(input) && unchanged(lib)
    ensures InputCheck(input) == Ok ==>
      var call := Call.Take(input.connector.native, input.nameBuf);
      var r := lib.oracle(old(lib.log) + [Invoked(call)]);
      && lib.log == old(lib.log) + [Invoked(call)]
      && err == CheckRetcode(r.status, r.lastError)
    ensures lib.heap == old(lib.heap) && lib.participants == old(lib.participants) && lib.next == old(lib.next)
  {
    err := InputCheck(input);
    if err != Ok {
      return;
    }
    err := Take(input, lib);
  }
}
