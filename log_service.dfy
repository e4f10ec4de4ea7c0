/**
 * The log service as the in-memory mock in cwlog/log_test.go behaves: a map
 * from group name to a map from stream name to the events stored in that
 * stream, a recorded retention setting, and one `deny` flag per operation.
 *
 * Each operation is a function from the service state before the call to the
 * state after it and the error it returns. The state also keeps `received`,
 * the calls the service has been sent, in order: it lets a client's contract
 * say which calls it made, including those that changed nothing.
 */
module LogService {
  import opened Wrappers

  /** The one error class the client distinguishes (`ResourceAlreadyExistsException`) and all the others. */
  datatype ApiError = AlreadyExists | Other

  /** `types.InputLogEvent`: a message and its timestamp in milliseconds. */
  datatype Event = Event(message: string, timestamp: int)

  type Groups = map<string, map<string, seq<Event>>>

  /** A call the service received, with its arguments. */
  datatype Call =
    | CreateGroupCall(group: string)
    | PutRetentionCall(group: string, days: int)
    | CreateStreamCall(group: string, stream: string)
    | PutEventsCall(group: string, stream: string, events: seq<Event>)

  datatype Service = Service(
    denyCreateGroup: bool,
    denyRetention: bool,
    denyCreateStream: bool,
    denyPutLog: bool,
    groups: Groups,
    retentionInDays: int,
    received: seq<Call>)

  /** The state after a call and the error the call returned (None: success). */
  datatype Reply = Reply(after: Service, err: Option<ApiError>)

  /** `newCloudWatchLogMock`: no groups, nothing denied. */
  const EmptyService := Service(false, false, false, false, map[], 0, [])

  /** The events of stream `s` of group `g`, if that stream exists. */
  function Lookup(groups: Groups, g: string, s: string): (r: Option<seq<Event>>)
    ensures r.Some? <==> g in groups && s in groups[g]
  {
    if g in groups && s in groups[g] then Some(groups[g][s]) else None
  }

  /** The service after recording `call` and nothing else. */
  function Record(svc: Service, call: Call): (after: Service) {
    svc.(received := svc.received + [call])
  }

  /** `CreateLogGroup`: adds an empty group when the name is new. */
  function CreateLogGroup(svc: Service, group: string): (r: Reply)
    ensures r.err.None? <==> !svc.denyCreateGroup && group !in svc.groups
    ensures r.err == Some(AlreadyExists) <==> !svc.denyCreateGroup && group in svc.groups
    ensures r.err.None? ==> r.after.groups == svc.groups[group := map[]]
    ensures r.err.Some? ==> r.after.groups == svc.groups
    ensures r.after == Record(svc, CreateGroupCall(group)).(groups := r.after.groups)
  {
    var s := Record(svc, CreateGroupCall(group));
    if svc.denyCreateGroup then Reply(s, Some(Other))
    else if group in svc.groups then Reply(s, Some(AlreadyExists))
    else Reply(s.(groups := svc.groups[group := map[]]), None)
  }

  /** `PutRetentionPolicy`: records the retention; the group is not looked up. */
  function PutRetentionPolicy(svc: Service, group: string, days: int): (r: Reply)
    ensures r.err.None? <==> !svc.denyRetention
    ensures r.err.Some? ==> r.err == Some(Other) && r.after == Record(svc, PutRetentionCall(group, days))
    ensures r.err.None? ==> r.after == Record(svc, PutRetentionCall(group, days)).(retentionInDays := days)
  {
    var s := Record(svc, PutRetentionCall(group, days));
    if svc.denyRetention then Reply(s, Some(Other))
    else Reply(s.(retentionInDays := days), None)
  }

  /** `CreateLogStream`: adds one empty stream to an existing group. */
  function CreateLogStream(svc: Service, group: string, stream: string): (r: Reply)
    ensures r.err.None? <==> !svc.denyCreateStream && Lookup(svc.groups, group, stream).None? && group in svc.groups
    ensures r.err == Some(AlreadyExists) <==> !svc.denyCreateStream && Lookup(svc.groups, group, stream).Some?
    ensures r.err.Some? ==> r.after.groups == svc.groups
    ensures r.err.None? ==> Lookup(r.after.groups, group, stream) == Some([])
    ensures r.after.groups.Keys == svc.groups.Keys
    ensures forall g, s :: (g, s) != (group, stream) ==> Lookup(r.after.groups, g, s) == Lookup(svc.groups, g, s)
    ensures r.after == Record(svc, CreateStreamCall(group, stream)).(groups := r.after.groups)
  {
    var s := Record(svc, CreateStreamCall(group, stream));
    if svc.denyCreateStream then Reply(s, Some(Other))
    else if group !in svc.groups then Reply(s, Some(Other))
    else if stream in svc.groups[group] then Reply(s, Some(AlreadyExists))
    else Reply(s.(groups := svc.groups[group := svc.groups[group][stream := []]]), None)
  }

  /** `PutLogEvents`: appends the events, in order, to one existing stream. */
  function PutLogEvents(svc: Service, group: string, stream: string, events: seq<Event>): (r: Reply)
    ensures r.err.None? <==> !svc.denyPutLog && Lookup(svc.groups, group, stream).Some?
    ensures r.err.Some? ==> r.err == Some(Other) && r.after.groups == svc.groups
    ensures r.err.None? ==> Lookup(r.after.groups, group, stream) == Some(Lookup(svc.groups, group, stream).value + events)
    ensures r.after.groups.Keys == svc.groups.Keys
    ensures forall g, s :: (g, s) != (group, stream) ==> Lookup(r.after.groups, g, s) == Lookup(svc.groups, g, s)
    ensures r.after == Record(svc, PutEventsCall(group, stream, events)).(groups := r.after.groups)
  {
    var s := Record(svc, PutEventsCall(group, stream, events));
    if svc.denyPutLog then Reply(s, Some(Other))
    else if group !in svc.groups then Reply(s, Some(Other))
    else if stream !in svc.groups[group] then Reply(s, Some(Other))
    else Reply(s.(groups := svc.groups[group := svc.groups[group][stream := svc.groups[group][stream] + events]]), None)
  }

  /** A successful put makes its stream longer by exactly the number of events. */
  lemma PutLogEventsGrowsStream(svc: Service, group: string, stream: string, events: seq<Event>)
    requires PutLogEvents(svc, group, stream, events).err.None?
    ensures |Lookup(PutLogEvents(svc, group, stream, events).after.groups, group, stream).value|
            == |Lookup(svc.groups, group, stream).value| + |events|
  {
  }
}
