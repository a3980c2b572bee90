/**
 * The data getters of Samples. Each rejects a nil Samples before allocating
 * anything; otherwise it addresses the connector's participant, the reader's
 * name buffer and the 1-based index of the sample, with no range check of its
 * own (an index past the end is reported by the native status).
 */
module SampleOps {
  import opened Decimal
  import opened Status
  import opened Native
  import opened Boundary
  import opened Handles
  import opened ConnectorOps

  /** `Get` after `GetJSON`: the fetch error unchanged, or the error `json.Unmarshal` returns for the text. */
  function DecodeResult(json: string, fetchErr: Error, unmarshal: string -> Option<string>): (err: Error)
    ensures fetchErr != Ok ==> err == fetchErr
    ensures fetchErr == Ok ==> (err == Ok <==> unmarshal(json).None?)
    ensures fetchErr == Ok && err != Ok ==> err == JsonError(unmarshal(json).value)
  {
    if fetchErr != Ok then fetchErr
    else match unmarshal(json)
      case None => Ok
      case Some(reason) => JsonError(reason)
  }

  /** A failed fetch is reported as it came: no decoding happens and the decoder cannot change the error. */
  lemma GetPropagatesFetchError(json: string, fetchErr: Error, u1: string -> Option<string>, u2: string -> Option<string>)
    requires fetchErr != Ok
    ensures DecodeResult(json, fetchErr, u1) == DecodeResult(json, fetchErr, u2) == fetchErr
  {
  }

  /** `Samples.GetLength`: the sample count, a C double truncated to an int. */
  method GetLength(samples: Samples?, lib: Library) returns (count: int, err: Error)
    requires samples != null ==> samples.input != null && samples.input.connector != null
    modifies lib
    ensures samples == null ==> count == 0 && err == SamplesNull && unchanged(lib)
    ensures samples != null ==>
      var call := GetSampleCount(samples.input.connector.native, samples.input.nameBuf);
      var r := lib.oracle(old(lib.log) + [Invoked(call)]);
      && lib.log == old(lib.log) + [Invoked(call)]
      && count == Trunc(r.number) && err == CheckRetcode(r.status, r.lastError)
    ensures lib.heap == old(lib.heap) && lib.participants == old(lib.participants) && lib.next == old(lib.next)
  {
    if samples == null {
      return 0, SamplesNull;
    }
    var r := lib.Invoke(GetSampleCount(samples.input.connector.native, samples.input.nameBuf));
    count, err := Trunc(r.number), CheckRetcode(r.status, r.lastError);
  }

  /**
   * `getNumber`: the field name lives in a C buffer for the duration of the
   * call; the result is the C double the native layer writes.
   */
  method GetNumber(samples: Samples?, index: Int64, field: string, lib: Library) returns (value: real, err: Error)
    requires samples != null ==> samples.input != null && samples.input.connector != null
    requires lib.Valid()
    modifies lib
    ensures samples == null ==> value == 0.0 && err == SamplesNull && unchanged(lib)
    ensures samples != null ==>
      var f := Addr(old(lib.next));
      var call := GetNumberFromSample(samples.input.connector.native, samples.input.nameBuf, NativeIndex(index), f);
      var r := lib.oracle(old(lib.log) + [Allocated(f, field), Invoked(call)]);
      && lib.log == old(lib.log) + Scoped(f, field, [Invoked(call)])
      && Balanced(old(lib.heap), Scoped(f, field, [Invoked(call)]))
      && value == r.number && err == CheckRetcode(r.status, r.lastError)
    ensures lib.Valid() && lib.heap == old(lib.heap) && lib.participants == old(lib.participants)
  {
    if samples == null {
      return 0.0, SamplesNull;
    }
    var native, entity := samples.input.connector.native, samples.input.nameBuf;
    var r := ScopedInvoke(lib, field, f => GetNumberFromSample(native, entity, NativeIndex(index), f));
    value, err := r.number, CheckRetcode(r.status, r.lastError);
  }

  /** `GetInt`, standing for the integer getters: `getNumber`'s double converted to `int`, towards zero. */
  method GetInt(samples: Samples?, index: Int64, field: string, lib: Library) returns (n: int, err: Error)
    requires samples != null ==> samples.input != null && samples.input.connector != null
    requires lib.Valid()
    modifies lib
    ensures samples == null ==> n == 0 && err == SamplesNull && unchanged(lib)
    ensures samples != null ==>
      var f := Addr(old(lib.next));
      var call := GetNumberFromSample(samples.input.connector.native, samples.input.nameBuf, NativeIndex(index), f);
      var r := lib.oracle(old(lib.log) + [Allocated(f, field), Invoked(call)]);
      && lib.log == old(lib.log) + Scoped(f, field, [Invoked(call)])
      && Balanced(old(lib.heap), Scoped(f, field, [Invoked(call)]))
      && n == Trunc(r.number) && err == CheckRetcode(r.status, r.lastError)
    ensures lib.Valid() && lib.heap == old(lib.heap) && lib.participants == old(lib.participants)
  {
    var value;
    value, err := GetNumber(samples, index, field, lib);
    n := Trunc(value);
  }

  /** `GetBoolean`: true exactly when the native int is non-zero, with `checkRetcode` of the status. */
  method GetBoolean(samples: Samples?, index: Int64, field: string, lib: Library) returns (b: bool, err: Error)
    requires samples != null ==> samples.input != null && samples.input.connector != null
    requires lib.Valid()
    modifies lib
    ensures samples == null ==> !b && err == SamplesNull && unchanged(lib)
    ensures samples != null ==>
      var f := Addr(old(lib.next));
      var call := GetBooleanFromSample(samples.input.connector.native, samples.input.nameBuf, NativeIndex(index), f);
      var r := lib.oracle(old(lib.log) + [Allocated(f, field), Invoked(call)]);
      && lib.log == old(lib.log) + Scoped(f, field, [Invoked(call)])
      && Balanced(old(lib.heap), Scoped(f, field, [Invoked(call)]))
      && (b <==> r.flag != 0) && err == CheckRetcode(r.status, r.lastError)
    ensures lib.Valid() && lib.heap == old(lib.heap) && lib.participants == old(lib.participants)
  {
    if samples == null {
      return false, SamplesNull;
    }
    var native, entity := samples.input.connector.native, samples.input.nameBuf;
    var r := ScopedInvoke(lib, field, f => GetBooleanFromSample(native, entity, NativeIndex(index), f));
    b, err := CIntToBool(r.flag), CheckRetcode(r.status, r.lastError);
  }

  /**
   * `GetString`: "" with the error, or the text handed back, copied and released
   * once; the field-name buffer is released on both paths.
   */
  method GetString(samples: Samples?, index: Int64, field: string, lib: Library) returns (text: string, err: Error)
    requires samples != null ==> samples.input != null && samples.input.connector != null
    requires lib.Valid()
    modifies lib
    ensures samples == null ==> text == "" && err == SamplesNull && unchanged(lib)
    ensures samples != null ==>
      var f, s := Addr(old(lib.next)), Addr(old(lib.next) + 1);
      var call := GetStringFromSample(samples.input.connector.native, samples.input.nameBuf, NativeIndex(index), f);
      var r := lib.oracle(old(lib.log) + [Allocated(f, field), Invoked(call)]);
      && lib.log == old(lib.log) + Scoped(f, field, Fetched(call, r, s))
      && Balanced(old(lib.heap), Scoped(f, field, Fetched(call, r, s)))
      && (text, err) == FetchResult(r)
    ensures lib.Valid() && lib.heap == old(lib.heap) && lib.participants == old(lib.participants)
  {
    if samples == null {
      return "", SamplesNull;
    }
    var native, entity := samples.input.connector.native, samples.input.nameBuf;
    text, err := ScopedFetch(lib, field, f => GetStringFromSample(native, entity, NativeIndex(index), f));
  }

  /**
   * The check the Samples getters evidently need once the connector may have
   * been deleted: a nil Samples, then the connector's own check.
   */
  function SamplesCheck(samples: Samples?): (e: Error)
    requires samples != null ==> samples.input != null && samples.input.connector != null
    reads if samples != null then {samples.input.connector} else {}
    ensures e == Ok <==> samples != null && samples.input.connector.native != Null
    ensures samples == null ==> e == SamplesNull
    ensures samples != null && samples.input.connector.native == Null ==> e == ConnectorDeleted
  {
    if samples == null then SamplesNull else ConnectorCheck(samples.input.connector)
  }

  /** `GetString` with `SamplesCheck` in front: after `Delete` it reports the deletion and makes no native call. */
  method GetStringChecked(samples: Samples?, index: Int64, field: string, lib: Library) returns (text: string, err: Error)
    requires samples != null ==> samples.input != null && samples.input.connector != null
    requires lib.Valid()
    modifies lib
    ensures SamplesCheck(samples) != Ok ==> text == "" && err == SamplesCheck(samples) && unchanged(lib)
    ensures SamplesCheck(samples) == Ok ==>
      var f, s := Addr(old(lib.next)), Addr(old(lib.next) + 1);
      var call := GetStringFromSample(samples.input.connector.native, samples.input.nameBuf, NativeIndex(index), f);
      var r := lib.oracle(old(lib.log) + [Allocated(f, field), Invoked(call)]);
      && lib.log == old(lib.log) + Scoped(f, field, Fetched(call, r, s))
      && Balanced(old(lib.heap), Scoped(f, field, Fetched(call, r, s)))
      && (text, err) == FetchResult(r)
    ensures lib.Valid() && lib.heap == old(lib.heap) && lib.participants == old(lib.participants)
  {
    err := SamplesCheck(samples);
    if err != Ok {
      return "", err;
    }
    text, err := GetString(samples, index, field, lib);
  }

  /** `GetJSON`: the whole sample as JSON text, "" with the error on failure; the text is released once. */
  method GetJson(samples: Samples?, index: Int64, lib: Library) returns (json: string, err: Error)
    requires samples != null ==> samples.input != null && samples.input.connector != null
    requires lib.Valid()
    modifies lib
    ensures samples == null ==> json == "" && err == SamplesNull && unchanged(lib)
    ensures samples != null ==>
      var call := GetJsonSample(samples.input.connector.native, samples.input.nameBuf, NativeIndex(index));
      var r := lib.oracle(old(lib.log) + [Invoked(call)]);
      && lib.log == old(lib.log) + Fetched(call, r, Addr(old(lib.next)))
      && Balanced(old(lib.heap), Fetched(call, r, Addr(old(lib.next))))
      && (json, err) == FetchResult(r)
    ensures lib.Valid() && lib.heap == old(lib.heap) && lib.participants == old(lib.participants)
  {
    if samples == null {
      return "", SamplesNull;
    }
    json, err := Fetch(lib, GetJsonSample(samples.input.connector.native, samples.input.nameBuf, NativeIndex(index)));
  }

  /** `Get`: `GetJSON`, then `json.Unmarshal` of the text only when the fetch succeeded. */
  method Get(samples: Samples?, index: Int64, unmarshal: string -> Option<string>, lib: Library) returns (err: Error)
    requires samples != null ==> samples.input != null && samples.input.connector != null
    requires lib.Valid()
    modifies lib
    ensures samples == null ==> err == SamplesNull && unchanged(lib)
    ensures samples != null ==>
      var call := GetJsonSample(samples.input.connector.native, samples.input.nameBuf, NativeIndex(index));
      var r := lib.oracle(old(lib.log) + [Invoked(call)]);
      && lib.log == old(lib.log) + Fetched(call, r, Addr(old(lib.next)))
      && Balanced(old(lib.heap), Fetched(call, r, Addr(old(lib.next))))
      && err == DecodeResult(FetchResult(r).0, FetchResult(r).1, unmarshal)
    ensures lib.Valid() && lib.heap == old(lib.heap) && lib.participants == old(lib.participants)
  {
    var json, e := GetJson(samples, index, lib);
    err := DecodeResult(json, e, unmarshal);
  }
}
