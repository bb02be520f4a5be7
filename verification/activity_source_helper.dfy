/** The ClickHouse client's tracing helper: it starts a client span for each
    database operation, tags it with the connection and the statement, and
    finishes it with a success or an error outcome. Every operation does
    nothing on a span that is absent (null) or not collecting all data. */
module ActivitySourceHelper {
  import opened Span
  import opened InvariantText

  const ActivitySourceName: string := "ClickHouse.Client"

  const TagDbConnectionString: string := "db.connection_string"
  const TagDbName: string := "db.name"
  const TagDbStatement: string := "db.statement"
  const TagDbSystem: string := "db.system"
  const TagStatusCode: string := "otel.status_code"
  const TagStatusDescription: string := "otel.status_description"
  const TagUser: string := "db.user"
  const TagService: string := "peer.service"
  const TagThreadId: string := "thread.id"

  const ValueDbSystem: NetString := Utf16Encode("clickhouse")
  const ValueStatusOk: NetString := Utf16Encode("OK")
  const ValueStatusError: NetString := Utf16Encode("ERROR")
  const StatementMaxLen: nat := 300

  const EventNameException: string := "exception"
  const EventTagExceptionType: string := "exception.type"
  const EventTagExceptionMessage: string := "exception.message"

  /** The tags derived from the connection string. */
  const ConnectionTagKeys: set<string> := {TagDbConnectionString, TagDbName, TagUser, TagService}

  /** What the connection-string builder reads out of a connection string. */
  datatype ConnectionSettings = ConnectionSettings(
    database: Option<NetString>,
    username: Option<NetString>,
    protocol: NetString,
    host: NetString,
    port: int)

  /** Library code this component calls but does not define. A `None` result
      stands for the call throwing: the connection-string builder on a string
      it cannot parse, the URI builder on a scheme, host or port it refuses. */
  datatype Collaborators = Collaborators(
    parseConnectionString: NetString -> Option<ConnectionSettings>,
    composeUri: (NetString, NetString, int) -> Option<NetString>,
    isWhiteSpace: CodeUnit -> bool)

  /** The parts of a caught exception that end up on the span. */
  datatype Exception = Exception(typeFullName: Option<NetString>, message: NetString)

  /** The state a call leaves the span in, and whether the call threw. */
  datatype Outcome = Outcome(state: SpanState, threw: bool)

  // ---------------------------------------------------------------------
  // Pure pieces

  function Min(a: int, b: int): int {
    if a <= b then a else b
  }

  /** The value of the statement tag: short statements are kept whole, long
      ones are cut to their first StatementMaxLen characters, and a null
      statement stays null. */
  function TruncateStatement(sql: Option<NetString>): (r: Option<NetString>)
    ensures r.None? <==> sql.None?
    ensures r.Some? ==> r.value <= sql.value && |r.value| == Min(|sql.value|, StatementMaxLen)
  {
    if sql.Some? && |sql.value| > StatementMaxLen then Some(sql.value[..StatementMaxLen]) else sql
  }

  function AllWhiteSpace(s: NetString, isWhiteSpace: CodeUnit -> bool): (r: bool)
    ensures r <==> forall i :: 0 <= i < |s| ==> isWhiteSpace(s[i])
  {
    if s == [] then true else isWhiteSpace(s[0]) && AllWhiteSpace(s[1..], isWhiteSpace)
  }

  /** Blank: null, empty, or made only of white-space code units. */
  function IsNullOrWhiteSpace(s: Option<NetString>, isWhiteSpace: CodeUnit -> bool): (r: bool)
    ensures r <==> s.None? || forall i :: 0 <= i < |s.value| ==> isWhiteSpace(s.value[i])
  {
    s.None? || AllWhiteSpace(s.value, isWhiteSpace)
  }

  /** The message of a possibly null exception. */
  function Description(exception: Option<Exception>): (r: Option<NetString>)
    ensures r.Some? <==> exception.Some?
    ensures exception.Some? ==> r.value == exception.value.message
  {
    if exception.Some? then Some(exception.value.message) else None
  }

  /** The full type name of a possibly null exception. */
  function TypeName(exception: Option<Exception>): (r: Option<NetString>)
    ensures exception.None? ==> r.None?
    ensures exception.Some? ==> r == exception.value.typeFullName
  {
    if exception.Some? then exception.value.typeFullName else None
  }

  /** The event recording an exception: named "exception", with exactly the
      type-name and message tags, both kept even when null. */
  function ExceptionEvent(exception: Option<Exception>): (e: Event)
    ensures e.name == EventNameException
    ensures e.tags.Keys == {EventTagExceptionType, EventTagExceptionMessage}
    ensures e.tags[EventTagExceptionType] == (if exception.Some? then exception.value.typeFullName else None)
    ensures e.tags[EventTagExceptionMessage] == (if exception.Some? then Some(exception.value.message) else None)
  {
    Event(EventNameException, map[EventTagExceptionType := TypeName(exception),
                                  EventTagExceptionMessage := Description(exception)])
  }

  // ---------------------------------------------------------------------
  // What each operation does to a span

  /** Starting: an active span gets the calling thread's identifier and the
      database system; an inactive one is left alone. */
  function Started(s: SpanState, threadId: int32): (r: SpanState)
    ensures r == s.(tags := r.tags)
    ensures !s.active ==> r == s
    ensures s.active ==> TagThreadId in r.tags && r.tags[TagThreadId] == Utf16Encode(IntText(threadId))
    ensures s.active ==> TagDbSystem in r.tags && r.tags[TagDbSystem] == ValueDbSystem
    ensures r.tags - {TagThreadId, TagDbSystem} == s.tags - {TagThreadId, TagDbSystem}
  {
    if !s.active then s
    else WithTag(WithTag(s, TagThreadId, Some(Utf16Encode(IntText(threadId)))), TagDbSystem, Some(ValueDbSystem))
  }

  /** Connection tagging: the four connection tags when the connection string
      is not blank, then the truncated statement. The builder throwing leaves
      the span as it was; the URI builder throwing leaves the first three
      connection tags set and the statement tag untouched. */
  function ConnectionTagged(s: SpanState, connectionString: Option<NetString>, sql: Option<NetString>,
                            env: Collaborators): (r: Outcome)
    ensures r.state == s.(tags := r.state.tags)
    ensures !s.active ==> r == Outcome(s, false)
    ensures r.threw ==> r.state.tags - ConnectionTagKeys == s.tags - ConnectionTagKeys
    ensures r.state.tags - ConnectionTagKeys - {TagDbStatement} == s.tags - ConnectionTagKeys - {TagDbStatement}
    ensures s.active && !r.threw ==> (TagDbStatement in r.state.tags <==> sql.Some?)
    ensures s.active && !r.threw && sql.Some? ==> r.state.tags[TagDbStatement] == TruncateStatement(sql).value
    ensures r.threw <==> s.active && !IsNullOrWhiteSpace(connectionString, env.isWhiteSpace)
                         && (env.parseConnectionString(connectionString.value).None?
                             || (var b := env.parseConnectionString(connectionString.value).value;
                                 env.composeUri(b.protocol, b.host, b.port).None?))
  {
    if !s.active then Outcome(s, false)
    else if IsNullOrWhiteSpace(connectionString, env.isWhiteSpace) then
      Outcome(WithTag(s, TagDbStatement, TruncateStatement(sql)), false)
    else match env.parseConnectionString(connectionString.value)
      case None => Outcome(s, true)
      case Some(b) =>
        var s1 := WithTag(WithTag(WithTag(s, TagDbConnectionString, connectionString),
                                  TagDbName, b.database), TagUser, b.username);
        match env.composeUri(b.protocol, b.host, b.port)
        case None => Outcome(s1, true)
        case Some(uri) =>
          Outcome(WithTag(WithTag(s1, TagService, Some(uri)), TagDbStatement, TruncateStatement(sql)), false)
  }

  /** Success: status Ok, status code tag "OK", stopped; events untouched. */
  function Succeeded(s: SpanState): (r: SpanState)
    ensures r.active == s.active && r.events == s.events
    ensures !s.active ==> r == s
    ensures s.active ==> r.status == Ok && r.stopped
    ensures s.active ==> TagStatusCode in r.tags && r.tags[TagStatusCode] == ValueStatusOk
    ensures r.tags - {TagStatusCode} == s.tags - {TagStatusCode}
  {
    if !s.active then s
    else WithTag(s.(status := Ok), TagStatusCode, Some(ValueStatusOk)).(stopped := true)
  }

  /** Failure: status Error with the exception's message, the status tags, one
      "exception" event carrying the type name and message, stopped. A null
      exception gives null description, type and message. */
  function Failed(s: SpanState, exception: Option<Exception>): (r: SpanState)
    ensures r.active == s.active
    ensures !s.active ==> r == s
    ensures s.active ==> r.stopped
    ensures s.active ==> r.status == Error(if exception.Some? then Some(exception.value.message) else None)
    ensures s.active ==> TagStatusCode in r.tags && r.tags[TagStatusCode] == ValueStatusError
    ensures s.active ==> (TagStatusDescription in r.tags <==> exception.Some?)
    ensures s.active && exception.Some? ==> r.tags[TagStatusDescription] == exception.value.message
    ensures r.tags - {TagStatusCode, TagStatusDescription} == s.tags - {TagStatusCode, TagStatusDescription}
    ensures s.active ==> |r.events| == |s.events| + 1 && r.events[..|s.events|] == s.events
    ensures s.active ==> r.events[|s.events|].name == EventNameException
    ensures s.active ==> r.events[|s.events|].tags.Keys == {EventTagExceptionType, EventTagExceptionMessage}
    ensures s.active ==> r.events[|s.events|].tags[EventTagExceptionType]
                           == (if exception.Some? then exception.value.typeFullName else None)
    ensures s.active ==> r.events[|s.events|].tags[EventTagExceptionMessage]
                           == (if exception.Some? then Some(exception.value.message) else None)
  {
    if !s.active then s
    else
      var description := Description(exception);
      var s1 := WithTag(WithTag(s.(status := Error(description)), TagStatusCode, Some(ValueStatusError)),
                        TagStatusDescription, description);
      s1.(events := s1.events + [ExceptionEvent(exception)], stopped := true)
  }

  // ---------------------------------------------------------------------
  // The operations, on a span that may be null

  /** `sampled` is the span source's decision: None when no listener wants the
      span (no span is created), otherwise whether all data is requested. */
  method StartActivity(name: NetString, sampled: Option<bool>, threadId: int32) returns (activity: Activity?)
    ensures activity == null <==> sampled.None?
    ensures activity != null ==> fresh(activity) && activity.name == name
    ensures activity != null ==> activity.State() == Started(Created(sampled.value), threadId)
  {
    if sampled.None? {
      return null;
    }
    activity := new Activity(name, sampled.value);
    if !activity.active {
      return;
    }
    activity.SetTag(TagThreadId, Some(Utf16Encode(IntText(threadId))));
    activity.SetTag(TagDbSystem, Some(ValueDbSystem));
  }

  method SetConnectionTags(activity: Activity?, connectionString: Option<NetString>, sql: Option<NetString>,
                           env: Collaborators) returns (threw: bool)
    modifies activity
    ensures activity == null ==> !threw
    ensures activity != null ==>
      Outcome(activity.State(), threw) == ConnectionTagged(old(activity.State()), connectionString, sql, env)
  {
    threw := false;
    if activity == null || !activity.active {
      return;
    }
    if !IsNullOrWhiteSpace(connectionString, env.isWhiteSpace) {
      var settings := env.parseConnectionString(connectionString.value);
      if settings.None? {
        threw := true;
        return;
      }
      var builder := settings.value;
      activity.SetTag(TagDbConnectionString, connectionString);
      activity.SetTag(TagDbName, builder.database);
      activity.SetTag(TagUser, builder.username);
      var uri := env.composeUri(builder.protocol, builder.host, builder.port);
      if uri.None? {
        threw := true;
        return;
      }
      activity.SetTag(TagService, uri);
    }
    activity.SetTag(TagDbStatement, TruncateStatement(sql));
  }

  method SetSuccess(activity: Activity?)
    modifies activity
    ensures activity != null ==> activity.State() == Succeeded(old(activity.State()))
  {
    if activity == null || !activity.active {
      return;
    }
    activity.SetStatus(Ok);
    activity.SetTag(TagStatusCode, Some(ValueStatusOk));
    activity.Stop();
  }

  method SetException(activity: Activity?, exception: Option<Exception>)
    modifies activity
    ensures activity != null ==> activity.State() == Failed(old(activity.State()), exception)
  {
    if activity == null || !activity.active {
      return;
    }
    var description := Description(exception);
    activity.SetStatus(Error(description));
    activity.SetTag(TagStatusCode, Some(ValueStatusError));
    activity.SetTag(TagStatusDescription, description);
    activity.AddEvent(ExceptionEvent(exception));
    activity.Stop();
  }

  // ---------------------------------------------------------------------
  // Properties of connection tagging

  /** The fixed tag values hold the code units of their ASCII texts. */
  lemma TagValueTexts()
    ensures ValueDbSystem == [0x63, 0x6C, 0x69, 0x63, 0x6B, 0x68, 0x6F, 0x75, 0x73, 0x65]
    ensures ValueStatusOk == [0x4F, 0x4B]
    ensures ValueStatusError == [0x45, 0x52, 0x52, 0x4F, 0x52]
  {
  }

  /** A null, empty or all-white-space connection string writes none of the
      connection tags, but the statement tag is still written. */
  lemma BlankConnectionStringSkipsConnectionTags(s: SpanState, connectionString: Option<NetString>,
                                                 sql: Option<NetString>, env: Collaborators)
    requires s.active
    requires connectionString.None? || forall i :: 0 <= i < |connectionString.value| ==> env.isWhiteSpace(connectionString.value[i])
    ensures var r := ConnectionTagged(s, connectionString, sql, env);
      && !r.threw
      && (forall k :: k in ConnectionTagKeys ==> SameTag(r.state.tags, s.tags, k))
      && r.state.tags == TagSet(s.tags, TagDbStatement, TruncateStatement(sql))
  {
  }

  /** A connection string the builder and the URI builder accept yields the raw
      string, the builder's database and user, the composed service URI and
      the truncated statement. */
  lemma ConnectionTagsFromSettings(s: SpanState, connectionString: NetString, sql: Option<NetString>,
                                   env: Collaborators, settings: ConnectionSettings, uri: NetString)
    requires s.active
    requires exists i :: 0 <= i < |connectionString| && !env.isWhiteSpace(connectionString[i])
    requires env.parseConnectionString(connectionString) == Some(settings)
    requires env.composeUri(settings.protocol, settings.host, settings.port) == Some(uri)
    ensures var r := ConnectionTagged(s, Some(connectionString), sql, env);
      && !r.threw
      && TagDbConnectionString in r.state.tags && r.state.tags[TagDbConnectionString] == connectionString
      && (TagDbName in r.state.tags <==> settings.database.Some?)
      && (settings.database.Some? ==> r.state.tags[TagDbName] == settings.database.value)
      && (TagUser in r.state.tags <==> settings.username.Some?)
      && (settings.username.Some? ==> r.state.tags[TagUser] == settings.username.value)
      && TagService in r.state.tags && r.state.tags[TagService] == uri
      && (TagDbStatement in r.state.tags <==> sql.Some?)
      && (sql.Some? ==> r.state.tags[TagDbStatement] == TruncateStatement(sql).value)
  {
  }

  /** A connection string the builder rejects throws before any tag is written. */
  lemma ParseFailureTagsNothing(s: SpanState, connectionString: NetString, sql: Option<NetString>,
                                env: Collaborators)
    requires s.active
    requires exists i :: 0 <= i < |connectionString| && !env.isWhiteSpace(connectionString[i])
    requires env.parseConnectionString(connectionString).None?
    ensures ConnectionTagged(s, Some(connectionString), sql, env) == Outcome(s, true)
  {
  }

  /** A service URI the URI builder rejects throws after the raw string, the
      database and the user are written, before `peer.service` and the
      statement. */
  lemma UriFailureKeepsFirstThreeTags(s: SpanState, connectionString: NetString, sql: Option<NetString>,
                                      env: Collaborators, settings: ConnectionSettings)
    requires s.active
    requires exists i :: 0 <= i < |connectionString| && !env.isWhiteSpace(connectionString[i])
    requires env.parseConnectionString(connectionString) == Some(settings)
    requires env.composeUri(settings.protocol, settings.host, settings.port).None?
    ensures var r := ConnectionTagged(s, Some(connectionString), sql, env);
      && r.threw
      && r.state.tags == TagSet(TagSet(TagSet(s.tags, TagDbConnectionString, Some(connectionString)),
                                       TagDbName, settings.database), TagUser, settings.username)
      && SameTag(r.state.tags, s.tags, TagService)
      && SameTag(r.state.tags, s.tags, TagDbStatement)
  {
  }

  /** "a" followed by U+1F600 two hundred times: 201 characters, 401 code units. */
  function EmojiStatement(): (sql: NetString)
    ensures |sql| == 401 && sql[..1] == Utf16Encode("a")
    ensures forall k :: 0 <= k < 200 ==> sql[1 + 2 * k .. 3 + 2 * k] == Utf16('\U{1F600}')
  {
    [0x61] + seq(400, i requires 0 <= i < 400 => if i % 2 == 0 then 0xD83D else 0xDE00)
  }

  /** Lengths count code units, so the statement above is cut to "a", 149
      whole emoji and the first half of the 150th pair: the tag ends in a lone
      high surrogate. */
  lemma TruncationCanSplitSurrogatePair()
    ensures var r := TruncateStatement(Some(EmojiStatement())).value;
      |r| == StatementMaxLen && IsHighSurrogate(r[|r| - 1])
  {
  }

  /** The statement tag never exceeds the truncation limit. */
  predicate StatementBounded(tags: map<string, NetString>) {
    TagDbStatement in tags ==> |tags[TagDbStatement]| <= StatementMaxLen
  }

  // ---------------------------------------------------------------------
  // Sequences of calls on one span

  /** A call made on a span after it was started. */
  datatype Call =
    | TagConnection(connectionString: Option<NetString>, sql: Option<NetString>)
    | Success
    | Failure(exception: Option<Exception>)

  function Apply(s: SpanState, call: Call, env: Collaborators): SpanState {
    match call
    case TagConnection(cs, sql) => ConnectionTagged(s, cs, sql, env).state
    case Success => Succeeded(s)
    case Failure(e) => Failed(s, e)
  }

  function Run(s: SpanState, calls: seq<Call>, env: Collaborators): SpanState
    decreases |calls|
  {
    if calls == [] then s else Run(Apply(s, calls[0], env), calls[1..], env)
  }

  /** On an inactive span no tag, status, event or stop is ever observable,
      whatever calls are made on it. */
  lemma {:induction false} InactiveSpanIgnoresCalls(s: SpanState, calls: seq<Call>, env: Collaborators)
    requires !s.active
    ensures Run(s, calls, env) == s
    decreases |calls|
  {
    if calls != [] {
      InactiveSpanIgnoresCalls(Apply(s, calls[0], env), calls[1..], env);
    }
  }

  /** Calls keep the statement tag within the truncation limit. */
  lemma {:induction false} StatementStaysBounded(s: SpanState, calls: seq<Call>, env: Collaborators)
    requires StatementBounded(s.tags)
    ensures StatementBounded(Run(s, calls, env).tags)
    decreases |calls|
  {
    if calls != [] {
      var t := Apply(s, calls[0], env);
      match calls[0] {
      case TagConnection(cs, sql) =>
        var r := ConnectionTagged(s, cs, sql, env);
        assert t == r.state;
        if s.active && !r.threw && sql.Some? {
          assert t.tags[TagDbStatement] == TruncateStatement(sql).value;
        }
      case Success =>
      case Failure(e) =>
      }
      assert StatementBounded(t.tags);
      StatementStaysBounded(t, calls[1..], env);
    }
  }

  /** The usual life of a sampled span: start, tag with a blank connection
      string and a statement, succeed. */
  lemma SuccessfulOperation(threadId: int32, sql: NetString, env: Collaborators)
    ensures var r := Succeeded(ConnectionTagged(Started(Created(true), threadId), None, Some(sql), env).state);
      && r.status == Ok && r.stopped && r.events == []
      && r.tags == map[TagThreadId := Utf16Encode(IntText(threadId)), TagDbSystem := ValueDbSystem,
                       TagDbStatement := TruncateStatement(Some(sql)).value, TagStatusCode := ValueStatusOk]
  {
  }

  /** Nothing guards a second finish: failing twice records two exception
      events, and a failure after a success overrides its status. */
  lemma FinishingIsNotIdempotent(s: SpanState, exception: Option<Exception>)
    requires s.active
    ensures |Failed(Failed(s, exception), exception).events| == |s.events| + 2
    ensures Failed(Succeeded(s), exception).status.Error?
    ensures Failed(Succeeded(s), exception).tags[TagStatusCode] == ValueStatusError
  {
  }
}
