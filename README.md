# RTI Connector for Go — the binding core in Dafny

This project models the Go binding of the RTI Connector (package `rti`). The binding is a
thin cgo layer over the native RTI Connector library. A `Connector` owns a DDS
participant. Its `Output`s (data writers) and `Input`s (data readers) carry
C copies of their names. `Instance`, `Samples` and `Infos` are views onto the
sample a writer stages and the samples a reader last read. Every operation does
some local checks in Go, converts its arguments to C, makes one native call, and
translates the status code with `checkRetcode`.

What the model captures:

- **The native library as an oracle** (`Native.Library`). Every call is appended to a
  log of events. Its reply is an arbitrary, fixed function of the log so far, so
  nothing is presupposed about DDS itself. The C heap is a map from buffer identities
  to their text and allocator. `C.free` of a buffer that is not live, or that the
  library allocated, is a precondition violation. `RTI_Connector_free_string` of a
  buffer that Go allocated is one too.
- **Buffer ownership.** Each operation's contract states its exact event sequence.
  Every operation that allocates a `C.CString` or receives a native string also
  proves that sequence *balanced*: replaying it from the heap before the call
  gives back the same heap, so nothing leaks and nothing is freed twice. A plain
  native call touches no buffer (`Boundary.InvokedBalanced`). The exceptions are `NewOutput`/`NewInput`, which register exactly one name buffer
  on success, and `Delete`, which releases exactly the registered buffers. The
  patterns are `Boundary.Scoped` (a `C.CString` with a deferred `C.free`) and
  `Boundary.Fetched` (a string out-parameter copied and released only on success).
- **The handle lifecycle.** `Handles.Connector.Valid` ties the connector to the
  library: a live participant, empty registries once deleted, and distinct live
  name buffers. Every connector operation preserves it. `Delete` is idempotent.
  After `Delete`, `GetOutput`, `GetInput`, `Wait` and every writer operation fail
  with "connector has been deleted" without reaching the library. The reader
  operations and the Samples, Infos and Instance accessors do not check, and
  still reach the library (see "## Findings").
- **The value translations.** These are `checkRetcode` and the error texts, the
  0-based to 1-based `C.int` index with its 32-bit wrap-around, `bool` to and from
  C `int`, the truncation of a C `double` to a Go `int`, and `strconv.ParseInt` for
  the timestamps. The last is proved to read back every `int64` that `%d` writes.

Go methods whose receiver may be nil are module-level methods with a nullable
parameter. Where the Go code dereferences a nil pointer (a panic), the model has a
precondition. Types that Go decodes from JSON (`json.Unmarshal`, `json.Marshal`) are
handled by a function parameter that stands for the encoder or decoder.

## Model

| member | source | states |
|---|---|---|
| Decimal.ToInt32 | rticonnextdds_connector.go:213 | `C.int(x)` keeps x modulo 2^32 and is the identity on the 32-bit range |
| Decimal.FormatNat | rticonnextdds_connector.go:300-302 | `%d` of a non-negative value is a non-empty string of decimal digits |
| Decimal.ScanDigits | info.go:124 | the digit loop of ParseUint succeeds only on all-digit text, with a value at least the one it started from and at most 2^64-1 |
| Decimal.ParseUint64 | info.go:124 | `strconv.ParseUint(s, 10, 64)` yields a value only for non-empty text, and only up to 2^64-1 |
| Decimal.FormatInt | rticonnextdds_connector.go:300-302 | `%d` writes a leading '-' exactly for negative values, followed by the decimal digits of the magnitude |
| Decimal.ParseInt64 | info.go:124 | `strconv.ParseInt(s, 10, 64)` yields only int64 values, from non-empty text, negative only after a '-' |
| Decimal.ScanConcat | info.go:124 | parsing a concatenation of digits continues from the value the first part left |
| Decimal.ScanFormatNat | info.go:124 | the digit loop of ParseUint reads back every value up to 2^64-1 that is written in decimal |
| Decimal.ParseFormatInt | info.go:124 | round trip: ParseInt of `%d` of any int64 is that int64 |
| Status.Message | rticonnextdds_connector.go:288-305 | `Error()` of every error the binding makes is a non-empty text; an encoder's or decoder's error is passed on as it came |
| Status.CheckRetcode | rticonnextdds_connector.go:288-305 | 0 is success, 11 is ErrNoData, 10 is ErrTimeout, each as an if-and-only-if; any other code is an error that carries the code and the last-error text |
| Status.RetcodeRoundTrip | rticonnextdds_connector.go:288-305 | the status code can always be recovered from the error checkRetcode returns |
| Status.CheckRetcodeOnto | rticonnextdds_connector.go:288-305 | every error of checkRetcode's kind comes from its own code |
| Status.StatusMessagesAreDdsExceptions | rticonnextdds_connector.go:288-305 | the text of every non-zero status starts with "DDS Exception: " |
| Status.OtherMessageNamesCode | rticonnextdds_connector.go:297-302 | the text of an unexplained status contains the decimal status code, with or without a last-error message |
| Status.DeletedMessageSaysDeleted | rticonnextdds_connector.go:183-185 | the use-after-delete error text contains "deleted" |
| Status.NegativeIndexMessageSaysNegative | info.go:85-87 | the negative-index error text contains "negative" |
| Native.Frees | rticonnextdds_connector.go:161-166 | the frees of a list of buffers are one `C.free` per buffer, in list order |
| Native.ReplayConcat | rticonnextdds_connector.go:150-176 | replaying two event sequences one after the other is replaying their concatenation |
| Native.ReplayFrees | rticonnextdds_connector.go:161-166 | freeing distinct live `C.CString` buffers in order is valid and removes exactly those buffers |
| Native.OwnedInsert | rticonnextdds_connector.go:227-238 | registering a fresh buffer keeps every registered buffer distinct and live |
| Native.OwnedSplit | rticonnextdds_connector.go:161-166 | once the readers' buffers are freed, the writers' buffers are still owned |
| Native.OwnedNext | rticonnextdds_connector.go:161-166 | in a loop over owned buffers, the next buffer is still live and freeing it extends the history by one free |
| Native.FreesConcat | rticonnextdds_connector.go:161-166 | freeing two lists is freeing their concatenation, and the released ids add up |
| Native.DoubleFreeRejected | rticonnextdds_connector.go:162 | freeing a buffer twice is never a valid history |
| Native.Library.constructor | rticonnextdds_connector.go:43-45 | the library starts with no calls made, no buffers allocated and no participants |
| Native.Library.Invoke | rticonnextdds_connector.go:213 | a native call without a string out-parameter appends one call to the log, returns the reply for the history so far, and touches no buffer and no participant |
| Native.Library.CString | rticonnextdds_connector.go:136 | `C.CString` allocates a fresh Go-heap buffer holding the text, at the next free address |
| Native.Library.Free | rticonnextdds_connector.go:137 | `C.free` needs a live Go-heap buffer and removes just that buffer |
| Native.Library.FreeString | output.go:164 | `RTI_Connector_free_string` needs a live library-allocated string and removes just that string |
| Native.Library.InvokeForString | output.go:155-164 | a call with a string out-parameter hands back a fresh library string only when its status is 0 |
| Native.Library.NewParticipant | rticonnextdds_connector.go:141 | `RTI_Connector_new` gives NULL, and no new participant, exactly when the library's reply is NULL; otherwise it gives a fresh live participant |
| Native.Library.DeleteParticipant | rticonnextdds_connector.go:168 | `RTI_Connector_delete` removes that participant and leaves every buffer as it was; its readers and writers are not tracked |
| Boundary.Scoped | rticonnextdds_connector.go:136-139 | a deferred free brackets the inner events, with the allocation first and the free last |
| Boundary.Fetched | output.go:155-164 | a string fetch starts with the call |
| Boundary.FetchedReleasesOnce | output.go:155-164 | a returned string is released exactly once on success, and nothing is returned or released on failure |
| Boundary.FetchResult | output.go:155-166 | a fetch yields the copied text with no error, or "" with checkRetcode's error |
| Boundary.InvokedBalanced | rticonnextdds_connector.go:213 | a plain native call leaves the heap as it was |
| Boundary.ScopedBalanced | rticonnextdds_connector.go:136-139 | a fresh buffer around balanced work, freed afterwards, leaves the heap as it was |
| Boundary.FetchedBalanced | output.go:155-164 | a string fetch leaves the heap as it was, on both paths |
| Boundary.Fetch | output.go:155-166 | one fetch appends `Fetched` to the log, is balanced, and returns `FetchResult` of the reply |
| Boundary.ScopedFetch | sample.go:236-256 | a field-name buffer around a fetch logs `Scoped(Fetched)`, is balanced, and returns `FetchResult` |
| Boundary.ScopedInvoke | sample.go:40-50 | a field-name buffer around one plain call logs `Scoped`, is balanced, and returns that call's reply |
| Boundary.NativeIndex | sample.go:48 | `C.int(index+1)` is index+1 for every index below 2^31-1, and equals index+1 modulo 2^32 otherwise |
| Boundary.NativeIndexInjective | sample.go:48 | in-range indices reach distinct native samples, and index 0 reaches sample 1 |
| Boundary.NativeIndexWraps | sample.go:48 | every Go index from 2^31-1 to 2^32-2 reaches the library as the negative native index index+1-2^32 |
| Boundary.BoolToCInt | instance.go:236-239 | true is 1 and false is 0 |
| Boundary.BoolRoundTrip | instance.go:236-240 | a flag written by SetBoolean as 1 or 0 is read back unchanged by GetBoolean's non-zero test (sample.go:217) |
| Boundary.Trunc | sample.go:72 | `int(x)` of a double truncates toward zero, and a whole count comes back exactly |
| Handles.NameBufs | rticonnextdds_connector.go:161-166 | the name buffers of the registered entries, one per entry, in order |
| Handles.Connector.constructor | rticonnextdds_connector.go:133-134 | a new connector holds the participant handle, with no readers or writers registered |
| Handles.Output.constructor | rticonnextdds_connector.go:224-236 | a writer points back to its connector and has its own Instance, which points back to it |
| Handles.Input.constructor | rticonnextdds_connector.go:246-259 | a reader points back to its connector and has its own Samples and Infos, which point back to it |
| Handles.Instance.constructor | rticonnextdds_connector.go:266-271 | `newInstance` points the view at the given writer |
| Handles.Samples.constructor | rticonnextdds_connector.go:273-278 | `newSamples` points the view at the given reader |
| Handles.Infos.constructor | rticonnextdds_connector.go:280-285 | `newInfos` points the view at the given reader |
| ConnectorOps.ConnectorCheck | rticonnextdds_connector.go:179-187 | Ok exactly for a live connector; "connector is null" exactly for nil; "deleted" exactly for a deleted connector |
| ConnectorOps.TeardownReleasesAll | rticonnextdds_connector.go:161-168 | the first Delete's events are a valid history that releases exactly the registered name buffers |
| ConnectorOps.DeletedConnectorRejected | rticonnextdds_connector.go:183-185 | a deleted connector is rejected with a message containing "deleted" |
| ConnectorOps.NewConnector | rticonnextdds_connector.go:133-147 | both name buffers are freed on both paths, LIFO; the result is nil with the profile error exactly when the library returns NULL |
| ConnectorOps.Delete | rticonnextdds_connector.go:150-176 | nil gives an error; a second Delete is a no-op that returns nil; the first frees every registered name buffer, then deletes the participant and empties the registries |
| ConnectorOps.FreeRegistered | rticonnextdds_connector.go:161-166 | the readers' name buffers, then the writers', are each freed once |
| ConnectorOps.FreeNames | rticonnextdds_connector.go:161-163 | one loop frees each entry's name buffer, in order |
| ConnectorOps.NewOutput | rticonnextdds_connector.go:221-241 | an unknown writer name frees the name buffer and fails; a known one keeps it, registers exactly one entry and returns a writer wired to its connector |
| ConnectorOps.NewInput | rticonnextdds_connector.go:243-264 | as NewOutput, for readers, with the Samples and Infos views |
| ConnectorOps.GetOutput | rticonnextdds_connector.go:190-196 | the connector check comes first, with no native call; otherwise it is NewOutput |
| ConnectorOps.GetInput | rticonnextdds_connector.go:199-205 | the connector check comes first, with no native call; otherwise it is NewInput |
| ConnectorOps.Wait | rticonnextdds_connector.go:208-215 | the connector check comes first; otherwise one wait with the timeout converted to C int, and checkRetcode of its status |
| OutputOps.OutputCheck | output.go:47-58 | Ok exactly for a writer of a live connector; a nil writer, a nil connector and a deleted connector each have their own error |
| OutputOps.DeletedWriterRejected | output.go:53-55 | a writer of a deleted connector is rejected with a message containing "deleted" |
| OutputOps.Write | output.go:78-85 | no native call on a failed check; otherwise one write with no parameters, and checkRetcode of its status |
| OutputOps.WriteWithParams | output.go:98-108 | as Write, with the parameters in a scoped C buffer that is freed afterwards |
| OutputOps.ClearMembers | output.go:111-118 | no native call on a failed check; otherwise one clear, and checkRetcode of its status |
| OutputOps.WaitForSubscriptions | output.go:128-137 | -1 with the check error, or the writer's change in matches whatever the status |
| OutputOps.GetMatchedSubscriptions | output.go:150-167 | "" with the check error, or a balanced fetch of the matched-subscriptions text |
| InputOps.Read | input.go:75-82 | only a nil input is rejected; otherwise one read on the connector's participant handle, as it is now, and checkRetcode of its status |
| InputOps.Take | input.go:87-94 | as Read, with take |
| InputOps.WaitForPublications | input.go:103-112 | -1 with an error for a nil input; otherwise the reader's change in matches, whatever the status |
| InputOps.GetMatchedPublications | input.go:124-141 | "" with an error for a nil input; otherwise a balanced fetch of the matched-publications text |
| InputOps.InputCheck | input.go:75-82 | the check Read and Take evidently need: "input is null" for a nil input, otherwise the connector's own check; Ok exactly for a reader of a live connector |
| InputOps.DeletedReaderRejected | input.go:75-94 | with that check, a reader of a deleted connector is rejected with "deleted" |
| InputOps.ReadChecked | input.go:75-82 | Read with the check first: no native call when the check fails |
| InputOps.TakeChecked | input.go:87-94 | Take with the check first: no native call when the check fails |
| InfoOps.InfosCheck | info.go:82-87 | Ok exactly for a complete chain and a non-negative index; a broken chain is reported first |
| InfoOps.NegativeIndexRejected | info.go:85-87 | a negative index is rejected with a message containing "negative" |
| InfoOps.WrappedIndexPassesCheck | info.go:85-92 | an index from 2^31-1 to 2^32-2 passes the negative-index guard and still reaches the library as a negative native index |
| InfoOps.TimestampOf | info.go:118-130 | the fetch error with 0; or ParseInt's value; or 0 with ParseInt's error on the fetched text |
| InfoOps.TimestampRoundTrip | info.go:118-130 | a timestamp written in decimal is read back exactly |
| InfoOps.TimestampRejectsNonDigits | info.go:124-127 | text with a non-digit character, other than a leading sign, gives 0 and a ParseInt error |
| InfoOps.IdentityOf | info.go:184-200 | the zero identity with the fetch error; or what Unmarshal left, with its error prefixed by "JSON Unmarshal failed: " |
| InfoOps.IdentityErrorsDistinct | info.go:188-197 | a fetch failure is never reported as a decode failure |
| InfoOps.IsValid | info.go:81-97 | no native call on a failed check; otherwise a scoped "valid_data" query that is true exactly for a non-zero C int |
| InfoOps.InfosCheckLive | info.go:82-87 | the check the Infos getters evidently need: the nil chain, then the connector's own check, then the negative index; Ok exactly when IsValid's check passes on a live connector |
| InfoOps.IsValidChecked | info.go:81-97 | IsValid with that check first: after Delete, "deleted" and no native call |
| InfoOps.GetJsonMember | info.go:297-313 | the member name in a scoped buffer around a balanced fetch, with the fetch's text or error |
| InfoOps.GetSourceTimestamp | info.go:118-130 | TimestampOf of the "source_timestamp" member |
| InfoOps.GetReceptionTimestamp | info.go:151-163 | TimestampOf of the "reception_timestamp" member |
| InfoOps.GetIdentity | info.go:184-200 | IdentityOf of the "sample_identity" member |
| InfoOps.GetRelatedIdentity | info.go:231-247 | IdentityOf of the "related_sample_identity" member |
| InfoOps.TextMember | info.go:221-287 | each text getter names a non-empty member |
| InfoOps.TextMembersDistinct | info.go:221-287 | the five text getters read five different members |
| InfoOps.GetText | info.go:221-287 | a text getter is exactly getJSONMember of its member |
| InfoOps.GetLength | info.go:290-295 | the sample count truncated to int, and checkRetcode of the status |
| SampleOps.DecodeResult | sample.go:324-331 | Get's error: the fetch error unchanged, or else Unmarshal's error, Ok exactly when Unmarshal succeeds |
| SampleOps.GetPropagatesFetchError | sample.go:325-328 | a failed fetch is reported as is, whatever the decoder |
| SampleOps.GetLength | sample.go:64-73 | 0 with an error for nil samples; otherwise the count truncated to int, and checkRetcode |
| SampleOps.GetNumber | sample.go:40-50 | 0 with an error for nil samples; otherwise a scoped field-name query of the double at index+1 |
| SampleOps.GetInt | sample.go:161-165 | getNumber's double truncated toward zero |
| SampleOps.GetBoolean | sample.go:204-218 | false with an error for nil samples; otherwise true exactly for a non-zero C int |
| SampleOps.GetString | sample.go:236-256 | "" with an error for nil samples; otherwise a balanced scoped fetch of the field's text |
| SampleOps.SamplesCheck | sample.go:237-239 | the check the Samples getters evidently need: "samples is null", then the connector's own check; Ok exactly for samples of a live connector |
| SampleOps.GetStringChecked | sample.go:236-256 | GetString with that check first: after Delete, "" with "deleted" and no native call |
| SampleOps.GetJson | sample.go:279-296 | "" with an error for nil samples; otherwise a balanced fetch of the sample's JSON |
| SampleOps.Get | sample.go:324-331 | GetJSON, then Unmarshal only of a successfully fetched text |
| InstanceOps.InstanceCheck | instance.go:183-188 | Ok exactly for a complete chain and a non-empty field name; the chain is checked first |
| InstanceOps.ChainCheckedFirst | instance.go:183-185 | a broken chain gives the same error whatever the field name |
| InstanceOps.SetNumber | instance.go:60-165 | a scoped field-name buffer around one store of the value as a double, and checkRetcode |
| InstanceOps.SetString | instance.go:182-198 | no native call on a failed check; otherwise the name and value buffers, freed value first, around one store |
| InstanceOps.InstanceCheckLive | instance.go:183-188 | the check the setters evidently need: the nil chain, then the connector's own check, then the field name; Ok exactly when SetString's check passes on a live connector |
| InstanceOps.SetStringChecked | instance.go:182-198 | SetString with that check first: after Delete, "deleted" and no native call |
| InstanceOps.SetBoolean | instance.go:232-242 | one store of 1 for true and 0 for false, in a scoped field-name buffer |
| InstanceOps.SetJson | instance.go:261-267 | the JSON text in a scoped buffer around one store of the whole sample |
| InstanceOps.Set | instance.go:293-299 | a Marshal error is returned unchanged with no native call; otherwise SetJSON of the marshalled text |
| Scenarios.ReadAfterDeleteUsesReleasedBuffer | input.go:75-82 | after the teardown, the reader's name buffer that Read passes is no longer live |
| Scenarios.DoubleDelete | reliability_test.go:12-27 | both Deletes return nil, and the second changes nothing |
| Scenarios.UseAfterDelete | reliability_test.go:30-84 | after Delete, GetOutput, GetInput, Wait, Write, WriteWithParams, ClearMembers and the checked Read and Take are rejected with "deleted" and make no native call; the as-written Read dispatches a NULL handle with a released buffer |
| Scenarios.WriterAfterDeleteUsesReleasedBuffer | instance.go:196 | after the teardown, the writer's name buffer that the Instance setters pass is no longer live |
| Scenarios.DeletedViewsRejected | reliability_test.go:30-84 | with the checks they evidently need, the Samples, Infos and Instance views of a deleted connector report "deleted", whatever the index or field name |

## Left out

- The native library's behaviour (discovery, QoS, sample queues, XML parsing, blocking waits). Each reply is an arbitrary function of the call history.
- The last-error fetch is folded into the reply (`Reply.lastError`) and is not a separate native call.
- The native side is trusted to hand back a string only on status 0. When the status is non-zero, a string it might still return is not modelled.
- Status.Message: the `BadNumber` text wraps the input in plain double quotes, whereas Go's `NumError.Error` uses `strconv.Quote`. The two differ for input containing `"`, `\` or non-printable characters.
- DataReader and DataWriter handles are not tracked: `RTI_Connector_delete` also destroys the participant's readers and writers, but the model keeps only the participant set. So it does not show that `WaitForPublications`, `GetMatchedPublications` (input.go:103-141), `WaitForSubscriptions` and `GetMatchedSubscriptions` dispatch on a destroyed `native` handle after `Delete`. The writer ones are rejected by their own check; the reader ones are not.
- Concurrency: the binding adds no locking, and the model is sequential.
- `cmd/download-libs`, the examples and the test helpers are not part of this model.
- C strings with embedded NUL bytes: `C.CString` and `C.GoString` are modelled as preserving the text.
- `json.Marshal` and `json.Unmarshal` are not modelled. They are function parameters (`Set`, `Get`, `GetIdentity`).
- InstanceOps.SetNumber: does not model the conversion of each Go numeric type to a C double (rounding of int64 and uint64 above 2^53). It takes the value already as a `real` and stands for all twelve numeric setters, plus `SetByte` and `SetRune`.
- SampleOps.GetNumber: does not model float32 narrowing or Go's out-of-range float-to-integer conversions. It stands for `GetFloat64` and, with `GetInt` (truncation toward zero), for the other numeric getters.
- InfoOps.GetText: stands for `GetIdentityJSON`, `GetRelatedIdentityJSON`, `GetViewState`, `GetInstanceState` and `GetSampleState`, which differ only in the member name.
- InfoOps.TimestampOf: on a range error, `strconv.ParseInt` also returns a clamped value, which the source discards. The model returns 0, as the source does.
- Nil links that the source dereferences without a check are Go panics, and each is a precondition. These are the Infos chain in `GetSourceTimestamp`, `GetReceptionTimestamp`, `GetIdentity`, `GetRelatedIdentity`, the text getters and `GetLength`; the Instance chain in the numeric, boolean and JSON setters and in `Set`; and a nil connector behind a non-nil Samples or Input. advanced_test.go:539-548 and 566-581 expect errors from some of these calls on nil receivers, but the source as written panics there.
- Scenarios.DoubleDelete, Scenarios.UseAfterDelete and the state-changing methods: their contracts speak of `old` state and are stated over the log and heap, not as separate lemmas.

## Findings

| source | as written | input that shows it | evidently intended | confidence | as-written member | corrected member |
|---|---|---|---|---|---|---|
| input.go:75-94 | `Read` and `Take` reject only a nil Input. They then pass the connector's participant handle and the reader's name buffer to the library. | A connector with one reader. Call `Delete()`, then `input.Read()`. The handle is NULL and the name buffer was freed by `Delete` (rticonnextdds_connector.go:161-163). | Check as `Output.isValid` does (output.go:47-58) and return "connector has been deleted", which reliability_test.go:77-83 expects. | medium; not executed | InputOps.Read, Scenarios.ReadAfterDeleteUsesReleasedBuffer | InputOps.ReadChecked, InputOps.TakeChecked |
| sample.go:236-256 | The Samples getters check only for nil Samples, `IsValid` (info.go:81-97) only the nil chain and the index, and `SetString` (instance.go:182-198) only the nil chain and the field name. None checks for a deleted connector. Each then passes the NULL participant handle and the reader's or writer's name buffer. The other Infos getters and Instance setters do the same with no check at all. | A connector with a reader and a writer. Call `Delete()`, then `input.Samples.GetString(0, "x")` or `output.Instance.SetString("x", "y")`. The name buffer was freed by `Delete` (rticonnextdds_connector.go:161-166). | Check the connector as `Output.isValid` does (output.go:47-58) and return "connector has been deleted". | medium; not executed | SampleOps.GetString, InstanceOps.SetString, Scenarios.ReadAfterDeleteUsesReleasedBuffer, Scenarios.WriterAfterDeleteUsesReleasedBuffer | SampleOps.GetStringChecked, InfoOps.IsValidChecked, InstanceOps.SetStringChecked, Scenarios.DeletedViewsRejected |
