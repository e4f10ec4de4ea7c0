/**
 * Package cwlog (cwlog/log.go): a handle that ensures a log group exists, sets
 * its retention, and writes events to a log stream whose name it derives from
 * the clock on every write, creating that stream when the name differs from
 * the last one it created (a cache of one name).
 */
module Cwlog {
  import opened Wrappers
  import opened StreamNames
  import opened LogService
  import opened Mock

  /** The settings of `Options` that the handle uses; the client is passed to
    * `New` on its own. An empty string or a zero means "not set". */
  datatype Options = Options(
    logGroup: string,
    logStream: string,
    logStreamTemplate: StreamTemplate,
    retentionInDays: int)

  /** The retention `New` applies when none is set. */
  const DefaultRetentionInDays := 30

  /** Why `New` failed. */
  datatype NewError = GroupRequired | TemplateError | CreateGroupError | RetentionError

  /** Why a write failed. */
  datatype PutError = CreateStreamError | PutEventsError

  /** The options of a handle that `New` returned. */
  predicate Ready(opts: Options) {
    opts.logGroup != "" && opts.logStream != "" && Parsed(opts.logStreamTemplate)
  }

  /** `generateStreamName`: the stream a write at `now` goes to. */
  function StreamNameAt(opts: Options, now: Instant): (name: string)
    requires Parsed(opts.logStreamTemplate) && ValidCalendar(now)
    ensures opts.logStreamTemplate.DefaultTemplate? ==>
              |name| == |opts.logStream| + SuffixLength && name[..|opts.logStream|] == opts.logStream
  {
    GenStream(opts.logStreamTemplate, opts.logGroup, opts.logStream, now)
  }

  /** The cached name, the client's state and the error after a write. */
  datatype WriteResult = WriteResult(cache: string, after: Service, err: Option<PutError>)

  /**
   * What `PutLogEvents` does, given the cached name and the client's state
   * before the call: create the stream when its name is not the cached one,
   * then send the events to it.
   */
  function Write(opts: Options, cache: string, svc: Service, events: seq<Event>, now: Instant): (w: WriteResult)
    requires Parsed(opts.logStreamTemplate) && ValidCalendar(now)
    ensures |svc.received| < |w.after.received| <= |svc.received| + 2
    ensures w.after.received[..|svc.received|] == svc.received
    ensures w.cache == cache || w.cache == StreamNameAt(opts, now) || w.cache == ""
  {
    var name := StreamNameAt(opts, now);
    if name != cache then
      var c := LogService.CreateLogStream(svc, opts.logGroup, name);
      if c.err == Some(Other) then WriteResult("", c.after, Some(CreateStreamError))
      else Send(opts.logGroup, name, if c.err.None? then name else cache, c.after, events)
    else Send(opts.logGroup, name, cache, svc, events)
  }

  /** The final `PutLogEvents` call of a write; it never touches the cache. */
  function Send(group: string, name: string, cache: string, svc: Service, events: seq<Event>): (w: WriteResult) {
    var p := LogService.PutLogEvents(svc, group, name, events);
    WriteResult(cache, p.after, if p.err.Some? then Some(PutEventsError) else None)
  }

  /** The calls a write makes: `CreateLogStream` exactly when the derived name
    * differs from the cached one, then `PutLogEvents` with the events as given,
    * unless the creation failed with an error other than already-exists. */
  lemma WriteCalls(opts: Options, cache: string, svc: Service, events: seq<Event>, now: Instant)
    requires Parsed(opts.logStreamTemplate) && ValidCalendar(now)
    ensures var name := StreamNameAt(opts, now);
            var w := Write(opts, cache, svc, events, now);
            var create := if name != cache then [CreateStreamCall(opts.logGroup, name)] else [];
            var failed := name != cache && LogService.CreateLogStream(svc, opts.logGroup, name).err == Some(Other);
            w.after.received == svc.received + create + (if failed then [] else [PutEventsCall(opts.logGroup, name, events)])
  {
  }

  /** The cached name after a write: unchanged on a hit; on a miss, the derived
    * name when creation succeeded, unchanged on already-exists, and "" on any
    * other creation error. A failed put does not alter it. */
  lemma WriteCache(opts: Options, cache: string, svc: Service, events: seq<Event>, now: Instant)
    requires Parsed(opts.logStreamTemplate) && ValidCalendar(now)
    ensures var name := StreamNameAt(opts, now);
            var w := Write(opts, cache, svc, events, now);
            var created := LogService.CreateLogStream(svc, opts.logGroup, name).err;
            w.cache == if name == cache then cache
                       else if created.None? then name
                       else if created == Some(AlreadyExists) then cache
                       else ""
  {
  }

  /** When a write reports an error, and which. */
  lemma WriteErrors(opts: Options, cache: string, svc: Service, events: seq<Event>, now: Instant)
    requires Parsed(opts.logStreamTemplate) && ValidCalendar(now)
    ensures var name := StreamNameAt(opts, now);
            var w := Write(opts, cache, svc, events, now);
            var created := LogService.CreateLogStream(svc, opts.logGroup, name).err;
            && (w.err == Some(CreateStreamError) <==> name != cache && created == Some(Other))
            && (w.err.None? <==>
                  && (name == cache || created != Some(Other))
                  && !svc.denyPutLog
                  && (Lookup(svc.groups, opts.logGroup, name).Some? || (name != cache && created.None?)))
  {
  }

  /** Where the events go: a successful write appends them, in order, to the
    * stream (`LogGroup`, derived name); a failed creation sends nothing; no
    * other stream and no group set changes, whatever the outcome. */
  lemma WriteDelivers(opts: Options, cache: string, svc: Service, events: seq<Event>, now: Instant)
    requires Parsed(opts.logStreamTemplate) && ValidCalendar(now)
    ensures var name := StreamNameAt(opts, now);
            var w := Write(opts, cache, svc, events, now);
            && (w.err.None? ==>
                  Lookup(w.after.groups, opts.logGroup, name)
                  == Some(Lookup(svc.groups, opts.logGroup, name).GetOr([]) + events))
            && (w.err == Some(CreateStreamError) ==> w.after.groups == svc.groups)
            && w.after.groups.Keys == svc.groups.Keys
            && (forall g, s :: (g, s) != (opts.logGroup, name) ==> Lookup(w.after.groups, g, s) == Lookup(svc.groups, g, s))
            && w.after == svc.(groups := w.after.groups, received := w.after.received)
  {
    var name := StreamNameAt(opts, now);
    if name != cache {
      var c := LogService.CreateLogStream(svc, opts.logGroup, name);
      if c.err != Some(Other) {
        var p := LogService.PutLogEvents(c.after, opts.logGroup, name, events);
      }
    } else {
      var p := LogService.PutLogEvents(svc, opts.logGroup, name, events);
    }
  }

  /** A write whose stream is not cached and does not exist yet, to a group
    * that exists, with nothing denied: the stream is created holding exactly
    * the events, and its name is cached. */
  lemma WriteToNewStream(opts: Options, cache: string, svc: Service, events: seq<Event>, now: Instant)
    requires Parsed(opts.logStreamTemplate) && ValidCalendar(now)
    requires StreamNameAt(opts, now) != cache
    requires !svc.denyCreateStream && !svc.denyPutLog
    requires opts.logGroup in svc.groups && StreamNameAt(opts, now) !in svc.groups[opts.logGroup]
    ensures var name := StreamNameAt(opts, now);
            var w := Write(opts, cache, svc, events, now);
            && w.err.None? && w.cache == name
            && w.after.groups == svc.groups[opts.logGroup := svc.groups[opts.logGroup][name := events]]
            && w.after == svc.(groups := w.after.groups, received := w.after.received)
  {
    var name := StreamNameAt(opts, now);
    var g := svc.groups[opts.logGroup];
    var created := LogService.CreateLogStream(svc, opts.logGroup, name).after;
    assert created.groups == svc.groups[opts.logGroup := g[name := []]];
    assert [] + events == events;
    var w := Write(opts, cache, svc, events, now);
    assert w == Send(opts.logGroup, name, name, created, events);
    assert created.groups[opts.logGroup][name] == [];
    assert g[name := []][name := events] == g[name := events];
    assert w.after.groups == created.groups[opts.logGroup := g[name := []][name := [] + events]];
  }

  /** A write whose stream already exists, with nothing denied: the events are
    * appended to it and the cache is `name` when it was cached before and
    * left as it was otherwise. */
  lemma WriteToExistingStream(opts: Options, cache: string, svc: Service, events: seq<Event>, now: Instant)
    requires Parsed(opts.logStreamTemplate) && ValidCalendar(now)
    requires !svc.denyCreateStream && !svc.denyPutLog
    requires Lookup(svc.groups, opts.logGroup, StreamNameAt(opts, now)).Some?
    ensures var name := StreamNameAt(opts, now);
            var w := Write(opts, cache, svc, events, now);
            var g := svc.groups[opts.logGroup];
            && w.err.None? && w.cache == cache
            && w.after.groups == svc.groups[opts.logGroup := g[name := g[name] + events]]
            && w.after == svc.(groups := w.after.groups, received := w.after.received)
  {
    var name := StreamNameAt(opts, now);
    var before := if name != cache then LogService.CreateLogStream(svc, opts.logGroup, name).after else svc;
    assert before.groups == svc.groups && !before.denyPutLog;
    assert Write(opts, cache, svc, events, now) == Send(opts.logGroup, name, cache, before, events);
    var w := Write(opts, cache, svc, events, now);
    var g := svc.groups[opts.logGroup];
    assert w.err.None?;
    assert w.cache == cache;
    assert w.after.groups == svc.groups[opts.logGroup := g[name := g[name] + events]];
    assert w.after == svc.(groups := w.after.groups, received := w.after.received);
  }

  /** Two writes in the same calendar hour, with any template that parses
    * (a template sees the time only down to the hour), the first of which
    * left its stream cached: the second sends its events straight to the same stream, after
    * the first's, without calling `CreateLogStream`. */
  lemma SameHourReusesStream(opts: Options, cache: string, svc: Service,
                                               e1: seq<Event>, e2: seq<Event>, t1: Instant, t2: Instant)
    requires Parsed(opts.logStreamTemplate) && ValidCalendar(t1) && ValidCalendar(t2)
    requires SameCalendarHour(t1, t2)
    requires Write(opts, cache, svc, e1, t1).err.None?
    requires Write(opts, cache, svc, e1, t1).cache == StreamNameAt(opts, t1)
    ensures var name := StreamNameAt(opts, t1);
            var w1 := Write(opts, cache, svc, e1, t1);
            var w2 := Write(opts, w1.cache, w1.after, e2, t2);
            && StreamNameAt(opts, t2) == name
            && w2.err.None? && w2.cache == name
            && w2.after.received == w1.after.received + [PutEventsCall(opts.logGroup, name, e2)]
            && Lookup(w2.after.groups, opts.logGroup, name)
               == Some(Lookup(svc.groups, opts.logGroup, name).GetOr([]) + e1 + e2)
  {
    var name := StreamNameAt(opts, t1);
    assert Fields(opts.logGroup, opts.logStream, t1) == Fields(opts.logGroup, opts.logStream, t2);
    WriteDelivers(opts, cache, svc, e1, t1);
    var w1 := Write(opts, cache, svc, e1, t1);
    assert Lookup(w1.after.groups, opts.logGroup, name).Some?;
    assert !w1.after.denyPutLog;
  }

  /** With the default template, once the calendar hour differs from the one
    * the cached name was made for, the next write's first call creates a new
    * stream. */
  lemma NewHourCreatesStream(opts: Options, svc: Service, events: seq<Event>, t1: Instant, t2: Instant)
    requires opts.logStreamTemplate.DefaultTemplate? && ValidCalendar(t1) && ValidCalendar(t2)
    requires !SameCalendarHour(t1, t2)
    ensures var w := Write(opts, StreamNameAt(opts, t1), svc, events, t2);
            && StreamNameAt(opts, t2) != StreamNameAt(opts, t1)
            && |w.after.received| > |svc.received|
            && w.after.received[|svc.received|] == CreateStreamCall(opts.logGroup, StreamNameAt(opts, t2))
  {
    StreamNameChangesWithHour(opts.logGroup, opts.logGroup, opts.logStream, opts.logStream, t1, t2);
    WriteCalls(opts, StreamNameAt(opts, t1), svc, events, t2);
  }

  /** A stream that already exists is never cached, so every later write that
    * derives the same name calls `CreateLogStream` again. */
  lemma ExistingStreamIsRecreatedEachWrite(opts: Options, cache: string, svc: Service,
                                                             e1: seq<Event>, e2: seq<Event>, t1: Instant, t2: Instant)
    requires Parsed(opts.logStreamTemplate) && ValidCalendar(t1) && ValidCalendar(t2)
    requires StreamNameAt(opts, t1) != cache && StreamNameAt(opts, t2) == StreamNameAt(opts, t1)
    requires LogService.CreateLogStream(svc, opts.logGroup, StreamNameAt(opts, t1)).err == Some(AlreadyExists)
    ensures var w1 := Write(opts, cache, svc, e1, t1);
            var w2 := Write(opts, w1.cache, w1.after, e2, t2);
            && w1.cache == cache
            && |w2.after.received| > |w1.after.received|
            && w2.after.received[|w1.after.received|] == CreateStreamCall(opts.logGroup, StreamNameAt(opts, t1))
  {
    var w1 := Write(opts, cache, svc, e1, t1);
    WriteCache(opts, cache, svc, e1, t1);
    WriteCalls(opts, w1.cache, w1.after, e2, t2);
  }

  /** The state `New` returns (`Log`): its settings, its client, and the name
    * of the last stream it created (`logStreamName`). */
  class Log {
    const options: Options
    const client: CloudWatchLogsMock
    var logStreamName: string

    ghost predicate Valid() {
      Ready(options)
    }

    constructor (options: Options, client: CloudWatchLogsMock)
      requires Ready(options)
      ensures Valid() && this.options == options && this.client == client && logStreamName == ""
    {
      this.options := options;
      this.client := client;
      logStreamName := "";
    }

    /** `PutLogEvents`, for the clock reading `now`. */
    method PutLogEvents(events: seq<Event>, now: Instant) returns (err: Option<PutError>)
      requires Valid() && ValidCalendar(now)
      modifies this, client
      ensures var w := Write(options, old(logStreamName), old(client.State()), events, now);
              logStreamName == w.cache && client.State() == w.after && err == w.err
    {
      var logStream := StreamNameAt(options, now);
      if logStream != logStreamName {
        var errCreate := client.CreateLogStream(options.logGroup, logStream);
        if errCreate.Some? {
          if errCreate.value != AlreadyExists {
            logStreamName := "";
            return Some(CreateStreamError);
          }
        } else {
          logStreamName := logStream;
        }
      }
      var errPut := client.PutLogEvents(options.logGroup, logStream, events);
      if errPut.Some? {
        return Some(PutEventsError);
      }
      return None;
    }

    /** `PutSimple`: one event stamped with the clock's reading `stampedAt` in
      * milliseconds; the stream name comes from the later reading `namedAt`. */
    method PutSimple(message: string, stampedAt: Instant, namedAt: Instant) returns (err: Option<PutError>)
      requires Valid() && ValidCalendar(namedAt)
      modifies this, client
      ensures var w := Write(options, old(logStreamName), old(client.State()),
                             [Event(message, stampedAt.unixMilli)], namedAt);
              logStreamName == w.cache && client.State() == w.after && err == w.err
    {
      err := PutLogEvents([Event(message, stampedAt.unixMilli)], namedAt);
    }
  }

  /**
   * `New`: fills in the defaults, then creates the group (already-exists is
   * not an error) and sets its retention. Fails without calling the client
   * when the group is missing or the template does not parse.
   */
  method New(options: Options, client: CloudWatchLogsMock) returns (log: Log?, err: Option<NewError>)
    modifies client
    ensures log == null <==> err.Some?
    ensures options.logGroup == "" ==> err == Some(GroupRequired) && unchanged(client)
    ensures options.logGroup != "" && options.logStreamTemplate.MalformedTemplate? ==>
              err == Some(TemplateError) && unchanged(client)
    ensures options.logGroup != "" && !options.logStreamTemplate.MalformedTemplate? ==>
              var days := if options.retentionInDays == 0 then DefaultRetentionInDays else options.retentionInDays;
              var g := LogService.CreateLogGroup(old(client.State()), options.logGroup);
              var r := LogService.PutRetentionPolicy(g.after, options.logGroup, days);
              if g.err == Some(Other) then
                err == Some(CreateGroupError) && client.State() == g.after
              else if r.err.Some? then
                err == Some(RetentionError) && client.State() == r.after
              else
                && err.None? && fresh(log) && log.Valid()
                && log.client == client && log.logStreamName == ""
                && client.State() == r.after
                && log.options.logGroup == options.logGroup
                && log.options.logStream == (if options.logStream == "" then options.logGroup else options.logStream)
                && (options.logStreamTemplate.NoTemplate? ==> log.options.logStreamTemplate.DefaultTemplate?)
                && (!options.logStreamTemplate.NoTemplate? ==> log.options.logStreamTemplate == options.logStreamTemplate)
                && log.options.retentionInDays == days
  {
    var opts := options;
    if opts.logGroup == "" {
      return null, Some(GroupRequired);
    }
    if opts.logStream == "" {
      opts := opts.(logStream := opts.logGroup);
    }
    if opts.logStreamTemplate.NoTemplate? {
      opts := opts.(logStreamTemplate := DefaultTemplate);
    }
    if opts.logStreamTemplate.MalformedTemplate? {
      return null, Some(TemplateError);
    }
    if opts.retentionInDays == 0 {
      opts := opts.(retentionInDays := DefaultRetentionInDays);
    }
    var errGroup := client.CreateLogGroup(opts.logGroup);
    if errGroup.Some? && errGroup.value != AlreadyExists {
      return null, Some(CreateGroupError);
    }
    var errRetention := client.PutRetentionPolicy(opts.logGroup, opts.retentionInDays);
    if errRetention.Some? {
      return null, Some(RetentionError);
    }
    log := new Log(opts, client);
    err := None;
  }
}
