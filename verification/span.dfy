/** The part of a tracing span (a System.Diagnostics.Activity) that the
    ClickHouse client's tracing helper touches: whether the span collects data,
    its tags, its status, its events and whether it has been stopped. Tag keys
    are fixed ASCII names; tag values are .NET strings. */
module Span {
  import opened InvariantText

  datatype Option<+T> = None | Some(value: T)

  /** Terminal outcome of a span; only an error carries a description. */
  datatype Status = Unset | Ok | Error(description: Option<NetString>)

  /** A structured event; unlike span tags, event tags keep null values. */
  datatype Event = Event(name: string, tags: map<string, Option<NetString>>)

  /** Everything observable about a span, as one value. */
  datatype SpanState = SpanState(
    active: bool,
    tags: map<string, NetString>,
    status: Status,
    events: seq<Event>,
    stopped: bool)

  /** The state of a span just created by the span source. */
  function Created(active: bool): (s: SpanState)
    ensures s.active == active && s.tags == map[] && s.events == []
    ensures s.status == Unset && !s.stopped
  {
    SpanState(active, map[], Unset, [], false)
  }

  /** Setting a tag: a value adds or replaces the key, a null value removes it;
      every other key keeps its value. */
  function TagSet(tags: map<string, NetString>, key: string, value: Option<NetString>): (r: map<string, NetString>)
    ensures key in r <==> value.Some?
    ensures value.Some? ==> r[key] == value.value
    ensures r - {key} == tags - {key}
  {
    match value
    case Some(v) => tags[key := v]
    case None => tags - {key}
  }

  /** Whether `key` is bound to the same value (or absent) in both maps. */
  predicate SameTag(a: map<string, NetString>, b: map<string, NetString>, key: string) {
    (key in a <==> key in b) && (key in a ==> a[key] == b[key])
  }

  function WithTag(s: SpanState, key: string, value: Option<NetString>): SpanState {
    s.(tags := TagSet(s.tags, key, value))
  }

  /** A span owned by one traced operation; the fields are updated in place. */
  class Activity {
    const name: NetString
    /** Whether every piece of data is requested for this span. */
    const active: bool
    var tags: map<string, NetString>
    var status: Status
    var events: seq<Event>
    var stopped: bool

    function State(): SpanState
      reads this
    {
      SpanState(active, tags, status, events, stopped)
    }

    constructor (name: NetString, active: bool)
      ensures this.name == name && State() == Created(active)
    {
      this.name := name;
      this.active := active;
      tags := map[];
      status := Unset;
      events := [];
      stopped := false;
    }

    method SetTag(key: string, value: Option<NetString>)
      modifies this`tags
      ensures State() == WithTag(old(State()), key, value)
    {
      tags := TagSet(tags, key, value);
    }

    method SetStatus(status: Status)
      modifies this`status
      ensures State() == old(State()).(status := status)
    {
      this.status := status;
    }

    method AddEvent(e: Event)
      modifies this`events
      ensures State() == old(State()).(events := old(events) + [e])
    {
      events := events + [e];
    }

    /** Stopping an already stopped span changes nothing. */
    method Stop()
      modifies this`stopped
      ensures State() == old(State()).(stopped := true)
    {
      stopped := true;
    }
  }
}
