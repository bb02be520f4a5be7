# ClickHouse client tracing helper, modelled in Dafny

The ClickHouse .NET client traces each database operation as a client span.
The helper at `ClickHouse.Client/Diagnostic/ActivitySourceHelper.cs` does four things:

- it starts the span and tags it with the calling thread and the database system;
- it tags the span with the connection (raw connection string, database, user, service URI) and the statement, truncated to 300 UTF-16 code units;
- it finishes the span with a success;
- or it finishes the span with an error, recording the exception as an event.

Each of these does nothing when the span is null or is not collecting all data.

The model has three modules:

- `Span` (`span.dfy`) models the span (`System.Diagnostics.Activity`) as the class `Activity`. The class has a constant `active` flag, which stands for `IsAllDataRequested`. Its fields are a tag map, a status, an event list and a `stopped` flag. `SpanState` is the same data as one value. `TagSet` gives the library's tag semantics: a value adds or replaces the key, and a null value removes it. Event tags are kept as a map to optional values, because an event's tag collection keeps null values.
- `InvariantText` (`invariant_text.dfy`) models .NET text. A .NET string is a sequence of UTF-16 code units (`NetString`, a `seq<CodeUnit>`): `Length` and `Substring` count code units, so a character outside the Basic Multilingual Plane takes two positions. `Utf16Encode` turns a Dafny string into one; the model uses it for the fixed tag values and the thread-id text. The module also gives the text of a 32-bit thread identifier under the invariant culture. Its parser and the round-trip lemmas `IntTextRoundTrip` and `IntTextInjective` only document the format of the `thread.id` text; the helper itself never reads that text back.
- `ActivitySourceHelper` (`activity_source_helper.dfy`) holds the helper's constants. It has one specification function per operation on `SpanState` (`Started`, `ConnectionTagged`, `Succeeded`, `Failed`). It has the four operations as methods on a nullable `Activity?`, each proved equal to its specification function. It also has lemmas about sequences of calls.

The model uses three things from outside the helper. They are passed in as the function-valued fields of `Collaborators`:

- the connection-string builder (`ClickHouseConnectionStringBuilder`);
- `UriBuilder(...).Uri.ToString()`;
- `char.IsWhiteSpace`, applied to each code unit as `string.IsNullOrWhiteSpace` does.

The builder and the URI builder return `None` where the library throws. The sampling decision of the span source is an input of `StartActivity`: `None` means no span was created, and `Some(b)` means a span was created with `IsAllDataRequested == b`. The thread identifier is also a parameter.

Behaviour of the code worth knowing:

- **`SetConnectionTags` is not exception-safe.** It lets the exceptions of the connection-string builder (line 49) and of `UriBuilder` (line 53) escape to the caller. If the builder throws, no tag is written (`ParseFailureTagsNothing`). If the URI builder throws, `db.connection_string`, `db.name` and `db.user` are already written, and `peer.service` and `db.statement` are not (`UriFailureKeepsFirstThreeTags`). `ConnectionTagged` and `SetConnectionTags` model both cases with a `threw` result.
- **Nothing guards a second finish.** Finishing twice records two exception events, and a failure after a success overrides the status (`FinishingIsNotIdempotent`). Tags can still be set on a stopped span.
- **Truncation counts code units.** A statement of 300 code units or fewer is kept whole; a longer one is cut to its first 300 code units, which can split a surrogate pair and leave a lone high surrogate at the end (`TruncationCanSplitSurrogatePair`).
- **Null values remove tags.** A null database, user, statement or error description does not store an empty value. It removes that tag, as `Activity.SetTag` does for a null value.

## Model

| member | source | states |
|---|---|---|
| Span.TagSet | ClickHouse.Client/Diagnostic/ActivitySourceHelper.cs:50-55 | setting a tag binds the key exactly when the value is non-null, to that value, and leaves every other key as it was |
| Span.Created | ClickHouse.Client/Diagnostic/ActivitySourceHelper.cs:31 | a newly created span has no tags, no events, status Unset, is not stopped, and has the requested activity flag |
| Span.Activity.constructor | ClickHouse.Client/Diagnostic/ActivitySourceHelper.cs:31 | a new span object has the given name and the state `Created(active)` |
| Span.Activity.SetTag | ClickHouse.Client/Diagnostic/ActivitySourceHelper.cs:36-37 | the span's state after `SetTag` is the old state with only the tag map updated by `TagSet` |
| Span.Activity.SetStatus | ClickHouse.Client/Diagnostic/ActivitySourceHelper.cs:64-66 | only the status changes |
| Span.Activity.AddEvent | ClickHouse.Client/Diagnostic/ActivitySourceHelper.cs:83-87 | the event is appended and nothing else changes |
| Span.Activity.Stop | ClickHouse.Client/Diagnostic/ActivitySourceHelper.cs:68 | the span is stopped and nothing else changes |
| InvariantText.Utf16 | ClickHouse.Client/Diagnostic/ActivitySourceHelper.cs:55 | a character inside the Basic Multilingual Plane is the one code unit holding its value; any other is two, a high then a low surrogate, that decode back to the character |
| InvariantText.Utf16Encode | ClickHouse.Client/Diagnostic/ActivitySourceHelper.cs:24-26 | a text takes at least as many code units as it has characters |
| InvariantText.Utf16EncodeInBmp | ClickHouse.Client/Diagnostic/ActivitySourceHelper.cs:24-26 | text inside the Basic Multilingual Plane is stored as one code unit per character, holding that character's value |
| InvariantText.NatText | ClickHouse.Client/Diagnostic/ActivitySourceHelper.cs:36 | the decimal text of a natural number is non-empty, all digits, with no leading zero |
| InvariantText.IntText | ClickHouse.Client/Diagnostic/ActivitySourceHelper.cs:36 | the invariant-culture text of an int is digits, or '-' then digits for a negative value, with no leading zero and never "-0" |
| InvariantText.NatTextRoundTrip | ClickHouse.Client/Diagnostic/ActivitySourceHelper.cs:36 | reading the decimal text back gives the number |
| InvariantText.IntTextRoundTrip | ClickHouse.Client/Diagnostic/ActivitySourceHelper.cs:36 | reading the thread-id text back gives the thread id |
| InvariantText.IntTextInjective | ClickHouse.Client/Diagnostic/ActivitySourceHelper.cs:36 | distinct thread ids get distinct `thread.id` texts |
| ActivitySourceHelper.TagValueTexts | ClickHouse.Client/Diagnostic/ActivitySourceHelper.cs:24-26 | the `db.system`, OK and ERROR values hold exactly the code units of "clickhouse", "OK" and "ERROR" |
| ActivitySourceHelper.TruncateStatement | ClickHouse.Client/Diagnostic/ActivitySourceHelper.cs:55 | a null statement stays null; otherwise the result is a prefix of the statement whose length is the smaller of the statement's length and 300, so it is the whole statement up to 300 code units and exactly its first 300 code units beyond |
| ActivitySourceHelper.AllWhiteSpace | ClickHouse.Client/Diagnostic/ActivitySourceHelper.cs:47 | true exactly when every code unit is white space, so the empty string counts as blank |
| ActivitySourceHelper.IsNullOrWhiteSpace | ClickHouse.Client/Diagnostic/ActivitySourceHelper.cs:47 | true exactly when the connection string is null or every one of its code units is white space |
| ActivitySourceHelper.Description | ClickHouse.Client/Diagnostic/ActivitySourceHelper.cs:77 | the description is null exactly when the exception is null, and otherwise is its message |
| ActivitySourceHelper.TypeName | ClickHouse.Client/Diagnostic/ActivitySourceHelper.cs:85 | the type name is null for a null exception, and otherwise is the exception type's full name (itself possibly null) |
| ActivitySourceHelper.ExceptionEvent | ClickHouse.Client/Diagnostic/ActivitySourceHelper.cs:83-87 | the event is named "exception" and has exactly the tags `exception.type` and `exception.message`, holding the type's full name and the message, both null for a null exception |
| ActivitySourceHelper.Started | ClickHouse.Client/Diagnostic/ActivitySourceHelper.cs:32-37 | an inactive span is unchanged; an active one gets `thread.id` = the thread id's text and `db.system` = "clickhouse"; only tags change, and no other tag |
| ActivitySourceHelper.StartActivity | ClickHouse.Client/Diagnostic/ActivitySourceHelper.cs:29-39 | returns null exactly when the source creates no span; otherwise a fresh span with the given name whose state is `Started` of a new span |
| ActivitySourceHelper.ConnectionTagged | ClickHouse.Client/Diagnostic/ActivitySourceHelper.cs:41-56 | an inactive span is unchanged and nothing throws; only tags change; tags outside the four connection keys and `db.statement` are kept; a call that does not throw writes `db.statement` = the truncated statement (absent for null); it throws exactly when the string is not blank and the builder or the URI builder throws, and then only connection keys may have changed |
| ActivitySourceHelper.SetConnectionTags | ClickHouse.Client/Diagnostic/ActivitySourceHelper.cs:41-56 | a null span gives no throw; otherwise the new state and the throw flag are those of `ConnectionTagged` |
| ActivitySourceHelper.BlankConnectionStringSkipsConnectionTags | ClickHouse.Client/Diagnostic/ActivitySourceHelper.cs:47-55 | for a null or all-white-space connection string, none of the four connection tags changes and only `db.statement` is written |
| ActivitySourceHelper.ConnectionTagsFromSettings | ClickHouse.Client/Diagnostic/ActivitySourceHelper.cs:49-55 | for an accepted non-blank string: `db.connection_string` is the raw string, `db.name`/`db.user` are the builder's database and user (absent when null), `peer.service` is the composed URI, and `db.statement` is the truncated statement |
| ActivitySourceHelper.ParseFailureTagsNothing | ClickHouse.Client/Diagnostic/ActivitySourceHelper.cs:47-50 | a non-blank connection string the builder rejects throws and leaves the span exactly as it was |
| ActivitySourceHelper.UriFailureKeepsFirstThreeTags | ClickHouse.Client/Diagnostic/ActivitySourceHelper.cs:49-53 | when the URI builder throws, the span's tags are the old ones with `db.connection_string`, `db.name` and `db.user` set, and `peer.service` and `db.statement` as they were |
| ActivitySourceHelper.TruncationCanSplitSurrogatePair | ClickHouse.Client/Diagnostic/ActivitySourceHelper.cs:55 | "a" followed by 200 copies of U+1F600 is cut to 300 code units, ending in a lone high surrogate |
| ActivitySourceHelper.Succeeded | ClickHouse.Client/Diagnostic/ActivitySourceHelper.cs:58-69 | an inactive span is unchanged; an active one gets status Ok, `otel.status_code` = "OK", and is stopped; events and every other tag, `otel.status_description` included, are kept |
| ActivitySourceHelper.SetSuccess | ClickHouse.Client/Diagnostic/ActivitySourceHelper.cs:58-69 | the new state of a non-null span is `Succeeded` of the old one |
| ActivitySourceHelper.Failed | ClickHouse.Client/Diagnostic/ActivitySourceHelper.cs:71-89 | an inactive span is unchanged; an active one gets status Error with the message (null for a null exception), `otel.status_code` = "ERROR", `otel.status_description` = the message (removed when null), exactly one appended "exception" event whose only tags are the type's full name and the message (both null for a null exception), and is stopped; other tags are kept |
| ActivitySourceHelper.SetException | ClickHouse.Client/Diagnostic/ActivitySourceHelper.cs:71-89 | the new state of a non-null span is `Failed` of the old one |
| ActivitySourceHelper.InactiveSpanIgnoresCalls | ClickHouse.Client/Diagnostic/ActivitySourceHelper.cs:41-89 | on an inactive span, any sequence of tagging, success and failure calls leaves the tags, status, events and stopped flag unchanged |
| ActivitySourceHelper.StatementStaysBounded | ClickHouse.Client/Diagnostic/ActivitySourceHelper.cs:55 | if `db.statement` is at most 300 code units, it stays so after any sequence of calls |
| ActivitySourceHelper.SuccessfulOperation | ClickHouse.Client/Diagnostic/ActivitySourceHelper.cs:29-69 | start, tagging with no connection string, then success gives exactly the tags `thread.id`, `db.system`, `db.statement` and `otel.status_code` = "OK", status Ok, no events, stopped |
| ActivitySourceHelper.FinishingIsNotIdempotent | ClickHouse.Client/Diagnostic/ActivitySourceHelper.cs:58-89 | failing twice appends two events; failing after success leaves status Error and `otel.status_code` = "ERROR" |

## Left out

- The process-wide `ActivitySource` (lines 91-98) is left out. This covers its lazily initialised static instance, its thread-safe initialisation and the version read from the assembly's file-version attribute. It is process state built by reflection, and its only concern is concurrency. The `ActivitySourceName` constant is kept.
- The span source's sampling and listener decision (line 31) is library behaviour. It is an input of `StartActivity`. The span kind (client) and the default parent context are not recorded on the modelled span; with the default context the ambient `Activity.Current` becomes the parent.
- ActivitySourceHelper.StartActivity: assumes the span source hands back a blank span. The library does not promise that: a sampler can add its own tags when the span is created, and listeners' `ActivityStarted` callbacks can tag the span and change `IsAllDataRequested`, which is settable. With such tags present, `Started` still writes only `thread.id` and `db.system` and keeps the rest, but `StartActivity`'s result and `SuccessfulOperation` no longer hold as exact states. The model also leaves out that starting a span makes it the ambient `Activity.Current`, that `Stop()` restores the previous one, and that `Stop()` notifies listeners.
- The connection-string builder's parsing (line 49) and `UriBuilder`/`Uri.ToString` formatting (line 53) are library code. They stay abstract function parameters that may fail; no URI layout is assumed. The builder is not part of this model.
- The Unicode white-space set of `string.IsNullOrWhiteSpace` (line 47) is an abstract `isWhiteSpace` predicate.
- `Environment.CurrentManagedThreadId` (line 36) reads the runtime's thread identity, so the thread id is a parameter.
- The start and stop timestamps and the duration set by `Stop()` are not modelled. Neither are the span's identifiers.
- The `#if NET6_0_OR_GREATER` split (lines 64-66, 78-80) is collapsed: the status is always set. On older targets the code sets no status.
- Concurrency is left out. Each span belongs to one operation, and `StartActivity` returns a fresh object, so spans never alias.
