/**
 * `cloudWatchLogMock` of cwlog/log_test.go: the client that a `Log` handle
 * talks to, updated in place by its four operations. Each method is proved to
 * do what the matching function of `LogService` describes.
 */
module Mock {
  import opened Wrappers
  import opened LogService

  class CloudWatchLogsMock {
    var denyCreateGroup: bool
    var denyRetention: bool
    var denyCreateStream: bool
    var denyPutLog: bool
    var groups: Groups
    var retentionInDays: int
    /** The calls this client has been sent, in order. */
    ghost var received: seq<Call>

    /** The client's state as a value. */
    ghost function State(): Service
      reads this
    {
      Service(denyCreateGroup, denyRetention, denyCreateStream, denyPutLog, groups, retentionInDays, received)
    }

    /** `newCloudWatchLogMock`. */
    constructor ()
      ensures State() == EmptyService
    {
      denyCreateGroup, denyRetention, denyCreateStream, denyPutLog := false, false, false, false;
      groups := map[];
      retentionInDays := 0;
      received := [];
    }

    method CreateLogGroup(group: string) returns (err: Option<ApiError>)
      modifies this
      ensures Reply(State(), err) == LogService.CreateLogGroup(old(State()), group)
    {
      received := received + [CreateGroupCall(group)];
      if denyCreateGroup {
        return Some(Other);
      }
      if group in groups {
        return Some(AlreadyExists);
      }
      groups := groups[group := map[]];
      return None;
    }

    method PutRetentionPolicy(group: string, days: int) returns (err: Option<ApiError>)
      modifies this
      ensures Reply(State(), err) == LogService.PutRetentionPolicy(old(State()), group, days)
    {
      received := received + [PutRetentionCall(group, days)];
      if denyRetention {
        return Some(Other);
      }
      retentionInDays := days;
      return None;
    }

    method CreateLogStream(group: string, stream: string) returns (err: Option<ApiError>)
      modifies this
      ensures Reply(State(), err) == LogService.CreateLogStream(old(State()), group, stream)
    {
      received := received + [CreateStreamCall(group, stream)];
      if denyCreateStream {
        return Some(Other);
      }
      if group !in groups {
        return Some(Other);
      }
      var g := groups[group];
      if stream in g {
        return Some(AlreadyExists);
      }
      groups := groups[group := g[stream := []]];
      return None;
    }

    /** Appends the events one at a time, as the Go mock's append loop does. */
    method PutLogEvents(group: string, stream: string, events: seq<Event>) returns (err: Option<ApiError>)
      modifies this
      ensures Reply(State(), err) == LogService.PutLogEvents(old(State()), group, stream, events)
    {
      received := received + [PutEventsCall(group, stream, events)];
      if denyPutLog {
        return Some(Other);
      }
      if group !in groups {
        return Some(Other);
      }
      var g := groups[group];
      if stream !in g {
        return Some(Other);
      }
      var s := g[stream];
      var i := 0;
      while i < |events|
        invariant 0 <= i <= |events|
        invariant s == g[stream] + events[..i]
      {
        s := s + [events[i]];
        i := i + 1;
      }
      assert events[..|events|] == events;
      groups := groups[group := g[stream := s]];
      return None;
    }
  }
}
