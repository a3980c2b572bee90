/**
 * The errors the binding returns, their `Error()` text, and `checkRetcode`,
 * the single place where a native status code becomes a Go error.
 */
module Status {
  import opened Decimal

  /** DDS `ReturnCode_t` values the binding names (OMG DDS 1.4, section 2.2.1.1). */
  const RetcodeOk: int := 0
  const RetcodeTimeout: int := 10
  const RetcodeNoData: int := 11

  /** A Go `error` value; `Ok` is the nil error. */
  datatype Error =
    | Ok
    | NoData                                    // ErrNoData
    | Timeout                                   // ErrTimeout
    | Other(code: int, detail: string)          // any other status, with the native last-error text
    | ConnectorNull                             // "connector is null"
    | ConnectorDeleted                          // "connector has been deleted"
    | InvalidProfile                            // the native constructor returned NULL
    | InvalidWriterName                         // the writer lookup returned NULL
    | InvalidReaderName                         // the reader lookup returned NULL
    | OutputNull                                // "output is null"
    | OutputConnectorNull                       // "output connector is null"
    | InputNull                                 // "input is null"
    | SamplesNull                               // "samples is null"
    | InfosChainNull                            // "infos, input, or connector is null"
    | NegativeIndex                             // "index cannot be negative"
    | InstanceChainNull                         // "instance, output, or connector is null"
    | EmptyFieldName                            // "fieldName cannot be empty"
    | BadNumber(kind: NumErrorKind, input: string)  // a *strconv.NumError from ParseInt
    | UnmarshalFailed(reason: string)           // an identity that json.Unmarshal rejected
    | JsonError(reason: string)                 // an encoding/json error returned unchanged

  /**
   * The text `err.Error()` returns. Every error the binding makes itself has a
   * non-empty text; only an encoder's or decoder's error is passed on as it came.
   */
  function Message(e: Error): (m: string)
    ensures e == Ok ==> m == ""
    ensures e != Ok && !e.JsonError? ==> m != ""
    ensures e.JsonError? ==> m == e.reason
  {
    match e
    case Ok => ""
    case NoData => "DDS Exception: No Data"
    case Timeout => "DDS Exception: Timeout"
    case Other(code, detail) =>
      if detail == "" then
        "DDS Exception: error code " + FormatInt(code) + " (no detailed message available from RTI Connector)"
      else
        "DDS Exception: " + detail + " (error code " + FormatInt(code) + ")"
    case ConnectorNull => "connector is null"
    case ConnectorDeleted => "connector has been deleted"
    case InvalidProfile => "invalid participant profile, xml path or xml profile"
    case InvalidWriterName => "invalid Publication::DataWriter name"
    case InvalidReaderName => "invalid Subscription::DataReader name"
    case OutputNull => "output is null"
    case OutputConnectorNull => "output connector is null"
    case InputNull => "input is null"
    case SamplesNull => "samples is null"
    case InfosChainNull => "infos, input, or connector is null"
    case NegativeIndex => "index cannot be negative"
    case InstanceChainNull => "instance, output, or connector is null"
    case EmptyFieldName => "fieldName cannot be empty"
    case BadNumber(kind, input) =>
      "strconv.ParseInt: parsing \"" + input + "\": "
        + (if kind == Syntax then "invalid syntax" else "value out of range")
    case UnmarshalFailed(reason) => "JSON Unmarshal failed: " + reason
    case JsonError(reason) => reason
  }

  /** part occurs in s starting at position i. */
  predicate OccursAt(s: string, part: string, i: int) {
    0 <= i && i + |part| <= |s| && s[i..i + |part|] == part
  }

  /** `strings.Contains(s, part)`. */
  ghost predicate Contains(s: string, part: string) {
    exists i :: OccursAt(s, part, i)
  }

  /**
   * `checkRetcode`: 0 is success, 11 is ErrNoData, 10 is ErrTimeout, and any
   * other code is an error carrying that code and whatever text the native
   * last-error facility holds.
   */
  function CheckRetcode(retcode: int, lastError: string): (e: Error)
    ensures e == Ok <==> retcode == RetcodeOk
    ensures e == NoData <==> retcode == RetcodeNoData
    ensures e == Timeout <==> retcode == RetcodeTimeout
    ensures e.Other? <==> retcode != RetcodeOk && retcode != RetcodeNoData && retcode != RetcodeTimeout
    ensures e.Other? ==> e.code == retcode && e.detail == lastError
  {
    if retcode == RetcodeOk then Ok
    else if retcode == RetcodeNoData then NoData
    else if retcode == RetcodeTimeout then Timeout
    else Other(retcode, lastError)
  }

  /** The errors checkRetcode can produce. */
  predicate FromRetcode(e: Error) {
    || e == Ok || e == NoData || e == Timeout
    || (e.Other? && e.code != RetcodeOk && e.code != RetcodeNoData && e.code != RetcodeTimeout)
  }

  /** The status code an error of checkRetcode stands for. */
  function Retcode(e: Error): int
    requires FromRetcode(e)
  {
    match e
    case Ok => RetcodeOk
    case NoData => RetcodeNoData
    case Timeout => RetcodeTimeout
    case Other(code, _) => code
  }

  /** checkRetcode loses no status code: the code can be read back from its error. */
  lemma RetcodeRoundTrip(retcode: int, lastError: string)
    ensures FromRetcode(CheckRetcode(retcode, lastError))
    ensures Retcode(CheckRetcode(retcode, lastError)) == retcode
  {
  }

  /** ... and every error of checkRetcode's kind is produced by it, from its own code. */
  lemma CheckRetcodeOnto(e: Error)
    requires FromRetcode(e)
    ensures CheckRetcode(Retcode(e), if e.Other? then e.detail else "") == e
  {
  }

  lemma ContainsAt(s: string, part: string, i: nat)
    requires i + |part| <= |s| && s[i..i + |part|] == part
    ensures Contains(s, part)
  {
    assert OccursAt(s, part, i);
  }

  /** Every error of a non-zero status says that it comes from DDS. */
  lemma StatusMessagesAreDdsExceptions(retcode: int, lastError: string)
    requires retcode != RetcodeOk
    ensures Message(CheckRetcode(retcode, lastError))[..15] == "DDS Exception: "
  {
  }

  /** The text of an unexplained status names the status code in decimal. */
  lemma OtherMessageNamesCode(code: int, detail: string)
    ensures Contains(Message(Other(code, detail)), FormatInt(code))
  {
    var m := Message(Other(code, detail));
    var c := FormatInt(code);
    if detail == "" {
      var pre := "DDS Exception: error code ";
      assert m == pre + c + " (no detailed message available from RTI Connector)";
      assert m[|pre|..|pre| + |c|] == c;
      ContainsAt(m, c, |pre|);
    } else {
      var pre := "DDS Exception: " + detail + " (error code ";
      assert m == pre + c + ")";
      assert m[|pre|..|pre| + |c|] == c;
      ContainsAt(m, c, |pre|);
    }
  }

  /** The use-after-delete error carries the marker "deleted". */
  lemma DeletedMessageSaysDeleted()
    ensures Contains(Message(ConnectorDeleted), "deleted")
  {
    var m := Message(ConnectorDeleted);
    assert m == "connector has been deleted";
    assert m[19..26] == "deleted";
    ContainsAt(m, "deleted", 19);
  }

  /** The negative-index error carries the marker "negative". */
  lemma NegativeIndexMessageSaysNegative()
    ensures Contains(Message(NegativeIndex), "negative")
  {
    var m := Message(NegativeIndex);
    assert m == "index cannot be negative";
    assert m[16..24] == "negative";
    ContainsAt(m, "negative", 16);
  }
}
