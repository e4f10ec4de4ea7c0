# cwlog in Dafny

A model of the `cwlog` package, a small Go client that ships log lines to a
managed log service (AWS CloudWatch Logs). A `Log` handle is made by `New`,
which fills in default settings, creates the log group (a group that already
exists is fine) and sets the group's retention. Every write then derives a
log stream name from the clock through a template, by default
`{{.LogStream}}-{{.YYYY}}-{{.MM}}-{{.DD}}-{{.HH}}`. The handle remembers the
last stream name it created, a cache of one name. When the derived name
differs from the cached one, it calls `CreateLogStream` first. Then it calls
`PutLogEvents`.

The service side is modelled as the in-memory client of the package's tests
(`cloudWatchLogMock`). It holds a map from group to (map from stream to
events), the last retention set, and one `deny` flag per operation that makes
that operation fail.

Modules:

- `StreamNames` (`stream_names.dfy`): the fields a template sees, the default
  template, `genStream`, and the zero-padded calendar fields. `ParseStreamName`
  inverts the default template. It is used to prove that the derived name
  changes exactly when the calendar hour or the configured stream changes.
- `LogService` (`log_service.dfy`): the four service operations as functions
  from the service state before a call to the state after it and the error
  returned. Errors are classified as `AlreadyExists` or `Other`. The state
  also records `received`, the calls made so far, in order. This record lets
  contracts say which calls a client operation made.
- `Mock` (`mock.dfy`): the class `CloudWatchLogsMock`. It has the Go fields,
  and its four methods update them in place. Each method is proved equal to
  its `LogService` function. `PutLogEvents` keeps the Go mock's append loop.
- `Cwlog` (`cwlog.dfy`): `Options`, the `Log` class with `PutLogEvents` and
  `PutSimple`, and `New`. `Write` is the pure specification of one write. The
  lemmas about `Write` state when a stream is created, what the cache holds
  afterwards, where the events go, and what happens across two writes.
- `Scenarios` (`scenarios.dfy`): the package's tests TestSendSimple,
  TestChangeStream and TestGroupExists as methods on the class model.
  `Scenarios.TestStreamNames` proves the "/cloudwatchlogs/stream" names those
  tests use, at the zero time and one day later. The package's
  TestStreamName ("stream1" at the zero time) is the lemma
  `StreamNames.StreamNameAtZeroTime`.

Time enters as parameters. Each reading of the clock is an `Instant`: the
calendar year, month, day and hour, and the milliseconds since the Unix
epoch. `PutSimple` reads the clock twice in the Go code. The first reading
gives the event's timestamp (cwlog/log.go:153). The second gives the stream
name (cwlog/log.go:144). So the model takes two instants.

One behaviour is worth knowing, and `ExistingStreamIsRecreatedEachWrite`
proves it. When `CreateLogStream` answers already-exists, the cache is left as
it was. Every later write that derives the same name therefore calls
`CreateLogStream` again.

## Model

| member | source | states |
|---|---|---|
| `StreamNames.Digits` | cwlog/log.go:133-136 | each calendar field is printed as exactly `width` decimal digits (4 for "2006", 2 for "01", "02", "15") |
| `StreamNames.DigitsRoundTrip` | cwlog/log.go:133-136 | zero padding loses nothing: reading the digits back gives the number whenever it fits in the width |
| `StreamNames.StreamNameRoundTrip` | cwlog/log.go:129-141 | the default template's name is the stream, then "-", then year, month, day and hour zero-padded and joined by "-"; stream and hour can be read back from the name |
| `StreamNames.StreamNameChangesWithHour` | cwlog/log.go:129-141 | with the default template, two names are equal if and only if they have the same stream and the same calendar hour; the group plays no part |
| `StreamNames.GenStream` | cwlog/log.go:129-141 | `genStream`: the template (`Execute`) run on the fields of the group, the stream and the clock (`Fields`); with the default template the name is the stream followed by a 14-character suffix, and `StreamNameRoundTrip` and `StreamNameChangesWithHour` fix the rest of it |
| `StreamNames.StreamNameAtZeroTime` | cwlog/log_test.go:25-33 | stream "stream1" at the zero time gives "stream1-0001-01-01-00" |
| `LogService.CreateLogGroup` | cwlog/log_test.go:212-228 | deny gives a non-already-exists error; an existing name gives already-exists and no change; a new name adds an empty group; nothing else changes |
| `LogService.PutRetentionPolicy` | cwlog/log_test.go:230-238 | deny gives an error and no change; otherwise the retention days are recorded and nothing else changes |
| `LogService.CreateLogStream` | cwlog/log_test.go:240-261 | deny or a missing group gives an error; an existing stream gives already-exists; otherwise exactly one empty stream is added to that group, and no other stream and no group set changes |
| `LogService.PutLogEvents` | cwlog/log_test.go:263-285 | deny, a missing group or a missing stream gives an error and no change; otherwise the events are appended in order to that one stream, and every other stream is unchanged |
| `LogService.PutLogEventsGrowsStream` | cwlog/log_test.go:280-283 | a successful put makes its stream longer by exactly the number of events |
| `Mock.CloudWatchLogsMock.constructor` | cwlog/log_test.go:199-201 | a new client has no groups and denies nothing |
| `Mock.CloudWatchLogsMock.CreateLogGroup` | cwlog/log_test.go:212-228 | the in-place update and the error are those of `LogService.CreateLogGroup` |
| `Mock.CloudWatchLogsMock.PutRetentionPolicy` | cwlog/log_test.go:230-238 | the in-place update and the error are those of `LogService.PutRetentionPolicy` |
| `Mock.CloudWatchLogsMock.CreateLogStream` | cwlog/log_test.go:240-261 | the in-place update and the error are those of `LogService.CreateLogStream` |
| `Mock.CloudWatchLogsMock.PutLogEvents` | cwlog/log_test.go:263-285 | the append loop leaves the stream equal to its old events followed by the given events, as `LogService.PutLogEvents` says |
| `Cwlog.New` | cwlog/log.go:58-117 | an empty group fails with no client call; a template that does not parse fails with no client call; otherwise the stream defaults to the group, the template to the default, and a zero retention to 30, with other values kept; already-exists on the group is success, and any other group error fails before the retention call; a retention error fails; on success the handle is fresh and its cached name is empty |
| `Cwlog.StreamNameAt` | cwlog/log.go:143-149 | `generateStreamName`: `GenStream` of the handle's template, group and stream at the clock reading; with the default template it begins with the handle's stream |
| `Cwlog.Write` | cwlog/log.go:163-207 | one write makes one or two calls, appended after the calls made before it, and leaves the cache unchanged, set to the derived name or emptied; unless creation fails, it ends with `Send`, the `PutLogEvents` step of cwlog/log.go:194-206; `WriteCalls`, `WriteCache`, `WriteErrors` and `WriteDelivers` state which calls, which cache, which error and which stream contents |
| `Cwlog.Log.constructor` | cwlog/log.go:112-115 | the handle keeps its options and client, and its cached stream name starts empty |
| `Cwlog.Log.PutLogEvents` | cwlog/log.go:163-207 | the new cached name, the client's new state and the error are exactly those of `Write` |
| `Cwlog.Log.PutSimple` | cwlog/log.go:152-160 | sends exactly one event, whose message is the line and whose timestamp is the clock reading in milliseconds, as one `Write` |
| `Cwlog.WriteCalls` | cwlog/log.go:165-200 | `CreateLogStream` is called if and only if the derived name differs from the cached one; `PutLogEvents` is then called with the events unchanged, unless creation failed with an error other than already-exists |
| `Cwlog.WriteCache` | cwlog/log.go:165-191 | the cache is unchanged on a hit; on a miss it becomes the derived name when creation succeeds, stays unchanged on already-exists, and becomes "" on any other error; a failed put does not alter it |
| `Cwlog.WriteErrors` | cwlog/log.go:171-206 | a write reports a creation error if and only if creation was attempted and failed with a non-already-exists error; it succeeds if and only if the put reaches an existing or just-created stream and is not denied |
| `Cwlog.WriteDelivers` | cwlog/log.go:194-206 | a successful write appends the events in order to (group, derived name); a failed creation sends nothing; no other stream, no group set and no other setting changes |
| `Cwlog.WriteToNewStream` | cwlog/log.go:165-206 | a write to a stream that is neither cached nor present creates it holding exactly the events and caches its name |
| `Cwlog.WriteToExistingStream` | cwlog/log.go:171-206 | a write to a stream that exists appends the events to it and leaves the cache as it was |
| `Cwlog.SameHourReusesStream` | cwlog/log.go:165-167 | for any template that parses, after a write that cached its stream, a second write in the same hour sends only `PutLogEvents`, to the same stream, and its events follow the first write's |
| `Cwlog.NewHourCreatesStream` | cwlog/log.go:165-173 | with the default template, a write in a different calendar hour from the cached name's first calls `CreateLogStream` for a new name |
| `Cwlog.ExistingStreamIsRecreatedEachWrite` | cwlog/log.go:175-186 | already-exists leaves the cache unchanged, so the next write with the same name calls `CreateLogStream` again |
| `Scenarios.TestStreamNames` | cwlog/log_test.go:107-129 | the test group and stream give "/cloudwatchlogs/stream-0001-01-01-00" at the zero time and "...-0001-01-02-00" one day later |
| `Scenarios.OpenAndWriteTwice` | cwlog/log_test.go:138-165 | the step the tests repeat: `New` on the test group and two `PutSimple` calls at the zero time succeed, whether the group is new or already holds the stream; both lines are appended, in order, to the zero-time stream, and no other stream of the group changes |
| `Scenarios.SendSimple` | cwlog/log_test.go:55-83 | two `PutSimple` calls at the zero time succeed and leave 2 events in one stream |
| `Scenarios.ChangeStream` | cwlog/log_test.go:85-130 | after a one-day advance the next write goes to a new stream holding 1 event, and the old stream keeps its 2 |
| `Scenarios.GroupExists` | cwlog/log_test.go:132-197 | a second `New` on an existing group succeeds, and its writes append to the same stream, giving 4 events |

## Left out

- The AWS SDK: `AwsConfig`, `cloudwatchlogs.NewFromConfig`, `context.TODO()` and the network calls. The `CloudWatchLogClient` interface is modelled only by the in-memory client's behaviour. `New` takes that client as a parameter instead of as an option.
- `LogGroupClass`: it is passed through to `CreateLogGroup` without being read, and it has no effect on the in-memory client.
- General `html/template` parsing and execution. A custom template is modelled as the function its execution computes (`CustomTemplate`). A template that fails to parse is `MalformedTemplate`.
- StreamNames.Execute: the default template's output is modelled without html/template's escaping of `<`, `>`, `&`, `'`, `"`, `+` and NUL in the stream value. The names agree with the Go code only for streams without those characters, which includes every name the tests use.
- The `panic` when template execution fails (cwlog/log.go:146).
- Conversion of a `time.Time` to calendar fields and milliseconds, and `time.Add`. They are inputs, with the year in 0..9999 so that "2006" prints exactly four digits. The default `Now` of `time.Now` is left out, because every clock reading is a parameter.
- Error message texts and `fmt.Errorf` wrapping. Errors keep only which step failed and the already-exists / other distinction.
- `RetentionInDays` and timestamps are Go `int32` and `int64`. They are modelled as `int`, because no arithmetic is done on them.
- In the Go tests, the group map `g` is fetched once and later updates show through it by aliasing. The scenarios read the client's groups again instead.
- The example program `cloudwatchlog-example/main.go` is not part of this model: it only demonstrates I/O.
