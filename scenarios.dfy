/**
 * The scenarios of cwlog/log_test.go, run against the in-memory client. Where
 * a Go test keeps the group map `g` it fetched early and sees later updates
 * through it, these read the client's groups again at the end. Each scenario
 * returns whether every call succeeded and the event counts the test checks.
 */
module Scenarios {
  import opened Wrappers
  import opened StreamNames
  import opened LogService
  import opened Mock
  import opened Cwlog

  const Group := "/cloudwatchlogs/group"
  const Stream := "/cloudwatchlogs/stream"
  const FirstDayStream := Stream + "-0001-01-01-00"
  const SecondDayStream := Stream + "-0001-01-02-00"

  /** `time.Time{}` advanced by 24 hours. */
  const NextDay := Instant(1, 1, 2, 0, -62135510400000)

  const TestOptions := Options(Group, Stream, NoTemplate, 0)

  /** The options `New` makes of `TestOptions`. */
  const Defaulted := TestOptions.(logStreamTemplate := DefaultTemplate, retentionInDays := DefaultRetentionInDays)

  /** Regrouping the default template's output as the stream and a suffix. */
  lemma JoinSuffix(stream: string, y: string, m: string, d: string, h: string)
    ensures stream + "-" + y + "-" + m + "-" + d + "-" + h == stream + ("-" + y + "-" + m + "-" + d + "-" + h)
  {
  }

  lemma FirstDaySuffix()
    ensures "-" + "0001" + "-" + "01" + "-" + "01" + "-" + "00" == "-0001-01-01-00"
  {
  }

  lemma SecondDaySuffix()
    ensures "-" + "0001" + "-" + "01" + "-" + "02" + "-" + "00" == "-0001-01-02-00"
  {
  }

  /** The stream the test handle writes to at the zero time. */
  lemma FirstDayName()
    ensures StreamNameAt(Defaulted, ZeroTime) == FirstDayStream
  {
    ZeroTimeDigits();
    JoinSuffix(Stream, "0001", "01", "01", "00");
    FirstDaySuffix();
  }

  /** The stream the test handle writes to one day later. */
  lemma SecondDayName()
    ensures StreamNameAt(Defaulted, NextDay) == SecondDayStream
  {
    ZeroTimeDigits();
    assert Digits(2, 2) == "02";
    JoinSuffix(Stream, "0001", "01", "02", "00");
    SecondDaySuffix();
  }

  /** The stream names the default template gives the tests' clock readings. */
  lemma TestStreamNames()
    ensures StreamNameAt(Defaulted, ZeroTime) == FirstDayStream
    ensures StreamNameAt(Defaulted, NextDay) == SecondDayStream
    ensures FirstDayStream != SecondDayStream
  {
    FirstDayName();
    SecondDayName();
    assert FirstDayStream[|Stream| + 10] != SecondDayStream[|Stream| + 10];
  }

  /** The events `PutSimple` sends for `message` at the time `t`. */
  function Simple(message: string, t: Instant): (events: seq<Event>) {
    [Event(message, t.unixMilli)]
  }

  /** Nothing is denied. */
  predicate Permissive(svc: Service) {
    !svc.denyCreateGroup && !svc.denyRetention && !svc.denyCreateStream && !svc.denyPutLog
  }

  /**
   * The step the tests repeat: open a handle on the test group and stream at
   * the zero time and write two lines. The group is either new, or already
   * holds the zero-time stream; either way both lines end up there, in order.
   */
  method OpenAndWriteTwice(client: CloudWatchLogsMock, m1: string, m2: string) returns (log: Log?, ok: bool)
    requires Permissive(client.State())
    requires Group !in client.groups || Lookup(client.groups, Group, FirstDayStream).Some?
    modifies client
    ensures ok && log != null && fresh(log) && log.client == client
    ensures log.options == Defaulted
    ensures Permissive(client.State()) && client.groups.Keys == old(client.groups).Keys + {Group}
    ensures Lookup(client.groups, Group, FirstDayStream)
            == Some(old(Lookup(client.groups, Group, FirstDayStream)).GetOr([]) + Simple(m1, ZeroTime) + Simple(m2, ZeroTime))
    ensures forall s :: s != FirstDayStream ==> Lookup(client.groups, Group, s) == old(Lookup(client.groups, Group, s))
    ensures log.logStreamName == if old(Lookup(client.groups, Group, FirstDayStream)).None? then FirstDayStream else ""
  {
    TestStreamNames();
    ghost var prior := Lookup(client.groups, Group, FirstDayStream).GetOr([]);
    var err;
    log, err := New(TestOptions, client);
    ghost var opts := log.options;
    if Lookup(client.groups, Group, FirstDayStream).None? {
      assert client.groups[Group] == map[];
      WriteToNewStream(opts, "", client.State(), Simple(m1, ZeroTime), ZeroTime);
    } else {
      WriteToExistingStream(opts, "", client.State(), Simple(m1, ZeroTime), ZeroTime);
    }
    var e1 := log.PutSimple(m1, ZeroTime, ZeroTime);
    assert Lookup(client.groups, Group, FirstDayStream) == Some(prior + Simple(m1, ZeroTime));
    WriteToExistingStream(opts, log.logStreamName, client.State(), Simple(m2, ZeroTime), ZeroTime);
    var e2 := log.PutSimple(m2, ZeroTime, ZeroTime);
    ok := err.None? && e1.None? && e2.None?;
  }

  /** TestSendSimple: two writes at the zero time land in one stream. */
  method SendSimple() returns (ok: bool, count: nat)
    ensures ok && count == 2
  {
    var client := new CloudWatchLogsMock();
    var log;
    log, ok := OpenAndWriteTwice(client, "test 1", "test 2");
    count := |client.groups[Group][FirstDayStream]|;
  }

  /** TestChangeStream: a day later the next write opens a new stream; the
    * first keeps its two events. */
  method ChangeStream() returns (ok: bool, firstDay: nat, secondDay: nat)
    ensures ok && firstDay == 2 && secondDay == 1
  {
    var client := new CloudWatchLogsMock();
    var log, wrote := OpenAndWriteTwice(client, "test 1", "test 2");
    var before := |client.groups[Group][FirstDayStream]|;

    // increase one day
    TestStreamNames();
    assert Lookup(client.groups, Group, SecondDayStream).None?;
    WriteToNewStream(log.options, log.logStreamName, client.State(), Simple("test 1", NextDay), NextDay);
    var e3 := log.PutSimple("test 1", NextDay, NextDay);

    ok := wrote && before == 2 && e3.None?;
    firstDay := |client.groups[Group][FirstDayStream]|;
    secondDay := |client.groups[Group][SecondDayStream]|;
  }

  /** TestGroupExists: a second handle on the same, existing group appends to
    * the same stream. */
  method GroupExists() returns (ok: bool, count: nat)
    ensures ok && count == 4
  {
    var client := new CloudWatchLogsMock();
    var first, ok1 := OpenAndWriteTwice(client, "test 1", "test 2");
    var before := |client.groups[Group][FirstDayStream]|;

    // repeat, but now the group exists
    var second, ok2 := OpenAndWriteTwice(client, "test 3", "test 4");

    ok := ok1 && before == 2 && ok2;
    count := |client.groups[Group][FirstDayStream]|;
  }
}
