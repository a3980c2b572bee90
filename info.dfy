/**
 * The sample metadata getters of Infos. `IsValid` checks the nil chain and the
 * index itself; every other getter goes straight to `getJSONMember`, which
 * fetches one member of the sample info as text, and layers a parse on top:
 * base-10 int64 for the timestamps, a JSON decode for the identities, nothing
 * for the states.
 */
module InfoOps {
  import opened Decimal
  import opened Status
  import opened Native
  import opened Boundary
  import opened Handles
  import opened ConnectorOps

  /** A 16-byte writer GUID. */
  type Guid = s: seq<bv8> | |s| == 16 witness [0, 0, 0, 0, 0, 0, 0, 0, 0, 0, 0, 0, 0, 0, 0, 0]

  /** `Identity`: the writer GUID and sequence number that identify a sample. */
  datatype Identity = Identity(writerGuid: Guid, sequenceNumber: Int64)

  /** Go's zero `Identity`, which the getters start from. */
  const ZeroIdentity: Identity := Identity([0, 0, 0, 0, 0, 0, 0, 0, 0, 0, 0, 0, 0, 0, 0, 0], 0)

  /** What `json.Unmarshal` leaves in its target (it may fill part of it before failing) and the error it returns, if any. */
  datatype Unmarshalled<T> = Unmarshalled(value: T, failure: Option<string>)

  /** `IsValid`'s local checks: a nil infos/input/connector chain first, then a negative index. */
  function InfosCheck(infos: Infos?, index: Int64): (e: Error)
    ensures e == Ok <==> infos != null && infos.input != null && infos.input.connector != null && index >= 0
    ensures (infos == null || infos.input == null || infos.input.connector == null) ==> e == InfosChainNull
    ensures e == NegativeIndex <==>
      infos != null && infos.input != null && infos.input.connector != null && index < 0
  {
    if infos == null || infos.input == null || infos.input.connector == null then InfosChainNull
    else if index < 0 then NegativeIndex
    else Ok
  }

  /** A negative index is reported with an error that says so. */
  lemma NegativeIndexRejected(infos: Infos, index: Int64)
    requires infos.input != null && infos.input.connector != null && index < 0
    ensures InfosCheck(infos, index) == NegativeIndex
    ensures Contains(Message(InfosCheck(infos, index)), "negative")
  {
    NegativeIndexMessageSaysNegative();
  }

  /**
   * The guard rejects only negative Go indices: from 2^31 - 1 on, an index
   * passes the check and still reaches the library as a negative native index.
   */
  lemma WrappedIndexPassesCheck(infos: Infos, index: Int64)
    requires infos.input != null && infos.input.connector != null
    requires 0x7fff_ffff <= index <= 0xffff_fffe
    ensures InfosCheck(infos, index) == Ok
    ensures NativeIndex(index) < 0
  {
    NativeIndexWraps(index);
  }

  /**
   * The check the Infos getters evidently need once the connector may have been
   * deleted, in the writer side's order: the nil chain, then the connector's own
   * check, then the negative index.
   */
  function InfosCheckLive(infos: Infos?, index: Int64): (e: Error)
    reads if infos != null && infos.input != null then {infos.input.connector} else {}
    ensures e == Ok <==> InfosCheck(infos, index) == Ok && infos.input.connector.native != Null
    ensures InfosCheck(infos, index) == InfosChainNull ==> e == InfosChainNull
    ensures InfosCheck(infos, index) != InfosChainNull && infos.input.connector.native == Null ==> e == ConnectorDeleted
  {
    if InfosCheck(infos, index) == InfosChainNull then InfosChainNull
    else if ConnectorCheck(infos.input.connector) != Ok then ConnectorCheck(infos.input.connector)
    else InfosCheck(infos, index)
  }

  /** `GetSourceTimestamp`/`GetReceptionTimestamp` after the fetch: the fetch error, or `strconv.ParseInt(text, 10, 64)`. */
  function TimestampOf(text: string, fetchErr: Error): (result: (Int64, Error))
    ensures fetchErr != Ok ==> result == (0, fetchErr)
    ensures result.1 != Ok ==> result.0 == 0
    ensures fetchErr == Ok ==> (result.1 == Ok <==> ParseInt64(text).Value?)
    ensures result.1 == Ok ==> result.0 == ParseInt64(text).n
    ensures fetchErr == Ok && result.1 != Ok ==> result.1 == BadNumber(ParseInt64(text).kind, text)
  {
    if fetchErr != Ok then (0, fetchErr)
    else match ParseInt64(text)
      case Value(n) => (n, Ok)
      case Failed(kind) => (0, BadNumber(kind, text))
  }

  /** A timestamp the native layer formats in decimal is read back exactly. */
  lemma TimestampRoundTrip(ns: Int64)
    ensures TimestampOf(FormatInt(ns), Ok) == (ns, Ok)
  {
    ParseFormatInt(ns);
  }

  /** Text with a character that is neither a digit nor a leading sign is never a timestamp. */
  lemma TimestampRejectsNonDigits(text: string, i: nat)
    requires i < |text| && !IsDigit(text[i])
    requires i == 0 ==> text[0] != '+' && text[0] != '-'
    ensures ParseInt64(text).Failed?
    ensures TimestampOf(text, Ok) == (0, BadNumber(ParseInt64(text).kind, text))
  {
    var signed := text[0] == '+' || text[0] == '-';
    var digits := if signed then text[1..] else text;
    var k := if signed then i - 1 else i;
    assert 0 <= k < |digits| && digits[k] == text[i];
  }

  /**
   * `GetIdentity`/`GetRelatedIdentity` after the fetch: the zero identity with
   * the fetch error unchanged, or whatever `json.Unmarshal` left in a zero
   * identity, with its error prefixed.
   */
  function IdentityOf(text: string, fetchErr: Error, unmarshal: (string, Identity) -> Unmarshalled<Identity>): (result: (Identity, Error))
    ensures fetchErr != Ok ==> result == (ZeroIdentity, fetchErr)
    ensures fetchErr == Ok ==> result.0 == unmarshal(text, ZeroIdentity).value
    ensures fetchErr == Ok ==> (result.1 == Ok <==> unmarshal(text, ZeroIdentity).failure.None?)
    ensures fetchErr == Ok && result.1 != Ok ==>
      Message(result.1) == "JSON Unmarshal failed: " + unmarshal(text, ZeroIdentity).failure.value
  {
    if fetchErr != Ok then (ZeroIdentity, fetchErr)
    else
      var u := unmarshal(text, ZeroIdentity);
      match u.failure
      case None => (u.value, Ok)
      case Some(reason) => (u.value, UnmarshalFailed(reason))
  }

  /** The two ways an identity getter fails can be told apart: only a decode failure carries the prefix. */
  lemma IdentityErrorsDistinct(text: string, fetchErr: Error, unmarshal: (string, Identity) -> Unmarshalled<Identity>)
    requires FromRetcode(fetchErr) && fetchErr != Ok
    ensures IdentityOf(text, fetchErr, unmarshal).1 == fetchErr
    ensures forall reason :: IdentityOf(text, fetchErr, unmarshal).1 != UnmarshalFailed(reason)
  {
  }

  /** The native call behind `getJSONMember`, with the member name in buffer m. */
  function MemberCall(infos: Infos, index: Int64, m: Ptr): Call
    requires infos.input != null && infos.input.connector != null
    reads infos.input.connector
  {
    GetJsonFromInfos(infos.input.connector.native, infos.input.nameBuf, NativeIndex(index), m)
  }

  /** The reply to `getJSONMember`'s call, made after `log` with `next` the next fresh buffer. */
  function MemberReply(lib: Library, log: seq<Event>, next: nat, infos: Infos, index: Int64, member: string): Reply
    requires infos.input != null && infos.input.connector != null
    reads infos.input.connector
  {
    lib.oracle(log + [Allocated(Addr(next), member), Invoked(MemberCall(infos, index, Addr(next)))])
  }

  /** The events of `getJSONMember`: the member name scoped around one string fetch. */
  function MemberEvents(lib: Library, log: seq<Event>, next: nat, infos: Infos, index: Int64, member: string): seq<Event>
    requires infos.input != null && infos.input.connector != null
    reads infos.input.connector
  {
    Scoped(Addr(next), member,
      Fetched(MemberCall(infos, index, Addr(next)), MemberReply(lib, log, next, infos, index, member), Addr(next + 1)))
  }

  /**
   * `IsValid`: after the local checks, asks for the "valid_data" member of the
   * sample at index+1 and reports true exactly when the native int is non-zero.
   */
  method IsValid(infos: Infos?, index: Int64, lib: Library) returns (valid: bool, err: Error)
    requires lib.Valid()
    modifies lib
    ensures InfosCheck(infos, index) != Ok ==> !valid && err == InfosCheck(infos, index) && unchanged(lib)
    ensures InfosCheck(infos, index) == Ok ==>
      var m := Addr(old(lib.next));
      var call := GetBooleanFromInfos(infos.input.connector.native, infos.input.nameBuf, NativeIndex(index), m);
      var r := lib.oracle(old(lib.log) + [Allocated(m, "valid_data"), Invoked(call)]);
      && lib.log == old(lib.log) + Scoped(m, "valid_data", [Invoked(call)])
      && Balanced(old(lib.heap), Scoped(m, "valid_data", [Invoked(call)]))
      && (valid <==> r.flag != 0) && err == CheckRetcode(r.status, r.lastError)
    ensures lib.Valid() && lib.heap == old(lib.heap) && lib.participants == old(lib.participants)
  {
    err := InfosCheck(infos, index);
    if err != Ok {
      return false, err;
    }
    var native, entity := infos.input.connector.native, infos.input.nameBuf;
    var r := ScopedInvoke(lib, "valid_data", m => GetBooleanFromInfos(native, entity, NativeIndex(index), m));
    valid, err := CIntToBool(r.flag), CheckRetcode(r.status, r.lastError);
  }

  /** `IsValid` with `InfosCheckLive` in front: after `Delete` it reports the deletion and makes no native call. */
  method IsValidChecked(infos: Infos?, index: Int64, lib: Library) returns (valid: bool, err: Error)
    requires lib.Valid()
    modifies lib
    ensures InfosCheckLive(infos, index) != Ok ==> !valid && err == InfosCheckLive(infos, index) && unchanged(lib)
    ensures InfosCheckLive(infos, index) == Ok ==>
      var m := Addr(old(lib.next));
      var call := GetBooleanFromInfos(infos.input.connector.native, infos.input.nameBuf, NativeIndex(index), m);
      var r := lib.oracle(old(lib.log) + [Allocated(m, "valid_data"), Invoked(call)]);
      && lib.log == old(lib.log) + Scoped(m, "valid_data", [Invoked(call)])
      && Balanced(old(lib.heap), Scoped(m, "valid_data", [Invoked(call)]))
      && (valid <==> r.flag != 0) && err == CheckRetcode(r.status, r.lastError)
    ensures lib.Valid() && lib.heap == old(lib.heap) && lib.participants == old(lib.participants)
  {
    err := InfosCheckLive(infos, index);
    if err != Ok {
      return false, err;
    }
    valid, err := IsValid(infos, index, lib);
  }

  /**
   * `getJSONMember`: the member name lives in a C buffer for the duration of the
   * call; the text handed back is copied and released on success only.
   */
  method GetJsonMember(infos: Infos, index: Int64, member: string, lib: Library) returns (text: string, err: Error)
    requires infos.input != null && infos.input.connector != null
    requires lib.Valid()
    modifies lib
    ensures
      var m, s := Addr(old(lib.next)), Addr(old(lib.next) + 1);
      var call := MemberCall(infos, index, m);
      var r := lib.oracle(old(lib.log) + [Allocated(m, member), Invoked(call)]);
      && lib.log == old(lib.log) + Scoped(m, member, Fetched(call, r, s))
      && Balanced(old(lib.heap), Scoped(m, member, Fetched(call, r, s)))
      && (text, err) == FetchResult(r)
    ensures lib.Valid() && lib.heap == old(lib.heap) && lib.participants == old(lib.participants)
  {
    var native, entity := infos.input.connector.native, infos.input.nameBuf;
    text, err := ScopedFetch(lib, member, m => GetJsonFromInfos(native, entity, NativeIndex(index), m));
  }

  /** `GetSourceTimestamp`: the "source_timestamp" member as an int64 of nanoseconds. */
  method GetSourceTimestamp(infos: Infos, index: Int64, lib: Library) returns (ts: Int64, err: Error)
    requires infos.input != null && infos.input.connector != null
    requires lib.Valid()
    modifies lib
    ensures lib.log == old(lib.log) + MemberEvents(lib, old(lib.log), old(lib.next), infos, index, "source_timestamp")
    ensures Balanced(old(lib.heap), MemberEvents(lib, old(lib.log), old(lib.next), infos, index, "source_timestamp"))
    ensures (ts, err) == TimestampOf(FetchResult(MemberReply(lib, old(lib.log), old(lib.next), infos, index, "source_timestamp")).0,
                                     FetchResult(MemberReply(lib, old(lib.log), old(lib.next), infos, index, "source_timestamp")).1)
    ensures lib.Valid() && lib.heap == old(lib.heap) && lib.participants == old(lib.participants)
  {
    var text, e := GetJsonMember(infos, index, "source_timestamp", lib);
    ts, err := TimestampOf(text, e).0, TimestampOf(text, e).1;
  }

  /** `GetReceptionTimestamp`: the "reception_timestamp" member as an int64 of nanoseconds. */
  method GetReceptionTimestamp(infos: Infos, index: Int64, lib: Library) returns (ts: Int64, err: Error)
    requires infos.input != null && infos.input.connector != null
    requires lib.Valid()
    modifies lib
    ensures lib.log == old(lib.log) + MemberEvents(lib, old(lib.log), old(lib.next), infos, index, "reception_timestamp")
    ensures Balanced(old(lib.heap), MemberEvents(lib, old(lib.log), old(lib.next), infos, index, "reception_timestamp"))
    ensures (ts, err) == TimestampOf(FetchResult(MemberReply(lib, old(lib.log), old(lib.next), infos, index, "reception_timestamp")).0,
                                     FetchResult(MemberReply(lib, old(lib.log), old(lib.next), infos, index, "reception_timestamp")).1)
    ensures lib.Valid() && lib.heap == old(lib.heap) && lib.participants == old(lib.participants)
  {
    var text, e := GetJsonMember(infos, index, "reception_timestamp", lib);
    ts, err := TimestampOf(text, e).0, TimestampOf(text, e).1;
  }

  /** `GetIdentity`: the "sample_identity" member decoded into an Identity. */
  method GetIdentity(infos: Infos, index: Int64, unmarshal: (string, Identity) -> Unmarshalled<Identity>, lib: Library)
    returns (id: Identity, err: Error)
    requires infos.input != null && infos.input.connector != null
    requires lib.Valid()
    modifies lib
    ensures lib.log == old(lib.log) + MemberEvents(lib, old(lib.log), old(lib.next), infos, index, "sample_identity")
    ensures Balanced(old(lib.heap), MemberEvents(lib, old(lib.log), old(lib.next), infos, index, "sample_identity"))
    ensures (id, err) == IdentityOf(FetchResult(MemberReply(lib, old(lib.log), old(lib.next), infos, index, "sample_identity")).0,
                                    FetchResult(MemberReply(lib, old(lib.log), old(lib.next), infos, index, "sample_identity")).1,
                                    unmarshal)
    ensures lib.Valid() && lib.heap == old(lib.heap) && lib.participants == old(lib.participants)
  {
    var text, e := GetJsonMember(infos, index, "sample_identity", lib);
    id, err := IdentityOf(text, e, unmarshal).0, IdentityOf(text, e, unmarshal).1;
  }

  /** `GetRelatedIdentity`: the "related_sample_identity" member decoded into an Identity. */
  method GetRelatedIdentity(infos: Infos, index: Int64, unmarshal: (string, Identity) -> Unmarshalled<Identity>, lib: Library)
    returns (id: Identity, err: Error)
    requires infos.input != null && infos.input.connector != null
    requires lib.Valid()
    modifies lib
    ensures lib.log == old(lib.log) + MemberEvents(lib, old(lib.log), old(lib.next), infos, index, "related_sample_identity")
    ensures Balanced(old(lib.heap), MemberEvents(lib, old(lib.log), old(lib.next), infos, index, "related_sample_identity"))
    ensures (id, err) == IdentityOf(FetchResult(MemberReply(lib, old(lib.log), old(lib.next), infos, index, "related_sample_identity")).0,
                                    FetchResult(MemberReply(lib, old(lib.log), old(lib.next), infos, index, "related_sample_identity")).1,
                                    unmarshal)
    ensures lib.Valid() && lib.heap == old(lib.heap) && lib.participants == old(lib.participants)
  {
    var text, e := GetJsonMember(infos, index, "related_sample_identity", lib);
    id, err := IdentityOf(text, e, unmarshal).0, IdentityOf(text, e, unmarshal).1;
  }

  /**
   * The text getters `GetIdentityJSON`, `GetRelatedIdentityJSON`,
   * `GetViewState`, `GetInstanceState` and `GetSampleState`: the member they
   * name, returned unchanged ("" with the error on failure).
   */
  function TextMember(getter: TextGetter): (member: string)
    ensures member != ""
  {
    match getter
    case IdentityJson => "sample_identity"
    case RelatedIdentityJson => "related_sample_identity"
    case ViewState => "view_state"
    case InstanceState => "instance_state"
    case SampleState => "sample_state"
  }

  datatype TextGetter = IdentityJson | RelatedIdentityJson | ViewState | InstanceState | SampleState

  /** Each text getter reads its own member: no two share one. */
  lemma TextMembersDistinct(g: TextGetter, h: TextGetter)
    ensures TextMember(g) == TextMember(h) <==> g == h
  {
  }

  /** One of the five text getters: exactly `getJSONMember` of its member. */
  method GetText(infos: Infos, index: Int64, getter: TextGetter, lib: Library) returns (text: string, err: Error)
    requires infos.input != null && infos.input.connector != null
    requires lib.Valid()
    modifies lib
    ensures lib.log == old(lib.log) + MemberEvents(lib, old(lib.log), old(lib.next), infos, index, TextMember(getter))
    ensures Balanced(old(lib.heap), MemberEvents(lib, old(lib.log), old(lib.next), infos, index, TextMember(getter)))
    ensures (text, err) == FetchResult(MemberReply(lib, old(lib.log), old(lib.next), infos, index, TextMember(getter)))
    ensures lib.Valid() && lib.heap == old(lib.heap) && lib.participants == old(lib.participants)
  {
    text, err := GetJsonMember(infos, index, TextMember(getter), lib);
  }

  /**
   * `Infos.GetLength`: the number of samples in the reader's cache, a C double
   * truncated to an int, with `checkRetcode` of the status.
   */
  method GetLength(infos: Infos, lib: Library) returns (count: int, err: Error)
    requires infos.input != null && infos.input.connector != null
    modifies lib
    ensures var call := GetSampleCount(infos.input.connector.native, infos.input.nameBuf);
      var r := lib.oracle(old(lib.log) + [Invoked(call)]);
      && lib.log == old(lib.log) + [Invoked(call)]
      && count == Trunc(r.number) && err == CheckRetcode(r.status, r.lastError)
    ensures lib.heap == old(lib.heap) && lib.participants == old(lib.participants) && lib.next == old(lib.next)
  {
    var r := lib.Invoke(GetSampleCount(infos.input.connector.native, infos.input.nameBuf));
    count, err := Trunc(r.number), CheckRetcode(r.status, r.lastError);
  }
}
