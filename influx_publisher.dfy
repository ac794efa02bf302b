/**
 * The database-side subscriber: a builder that validates the two batching
 * thresholds, a publisher that turns each payload it is handed into one point
 * write, a periodic liveness ping, and a bounded reconnect loop. Calls into
 * the database client and the process are recorded, in order, in `effects`;
 * the outcome of each reconnect attempt is supplied from outside.
 */
module Influx {
  import opened Common
  import Payloads
  import StatsLog

  const DefaultPointsToFlush: int := 1000
  const DefaultMillisToFlush: int := 5000
  const MaxAttempts: nat := 4
  const ReconnectDelayMillis: int := 15000
  const RetentionPolicy: string := "autogen"
  const NotAPayload: string := "InfluxDBPublisher must be updated with payload"

  /** The point built from a payload's content; the conversion itself is not modelled. */
  datatype Point = PointOf(payload: Payloads.PayloadView)

  /**
   * A call on the database client or the process. Calls other than Connect go
   * to the connection made by the most recent Connect that succeeded.
   */
  datatype Effect =
    | Connect(url: Option<string>, username: Option<string>, password: Option<string>)
    | EnableBatch(points: int, millis: int)
    | Ping
    | Write(db: Option<string>, retention: string, point: Point)
    | Sleep(millis: int)
    | Exit(status: int)

  /** The publisher's settings; None stands for a null string. */
  datatype Config = Config(
    url: Option<string>,
    username: Option<string>,
    password: Option<string>,
    dbName: Option<string>,
    pointsToFlush: int,
    millisToFlush: int,
    ping: int)

  /** The settings of a new builder. */
  const Defaults := Config(Some(""), Some(""), Some(""), Some(""), DefaultPointsToFlush, DefaultMillisToFlush, 0)

  /**
   * The value a threshold has after a series of setter calls starting from
   * `initial`: a call with a non-positive argument is ignored.
   */
  function LastPositiveOr(initial: int, args: seq<int>): int {
    if args == [] then initial
    else if args[|args| - 1] > 0 then args[|args| - 1]
    else LastPositiveOr(initial, args[..|args| - 1])
  }

  lemma LastPositiveOrSnoc(initial: int, args: seq<int>, n: int)
    ensures LastPositiveOr(initial, args + [n]) == if n > 0 then n else LastPositiveOr(initial, args)
  {
    assert (args + [n])[..|args|] == args;
  }

  /** Call `i` is the last threshold setter call whose argument is positive. */
  ghost predicate IsLastPositive(args: seq<int>, i: int) {
    0 <= i < |args| && args[i] > 0 && forall j :: i < j < |args| ==> args[j] <= 0
  }

  lemma IsLastPositiveSnoc(args: seq<int>, n: int, i: int)
    requires IsLastPositive(args + [n], i)
    ensures n > 0 ==> i == |args|
    ensures n <= 0 ==> IsLastPositive(args, i)
  {
    var s := args + [n];
    assert s[|args|] == n;
    if n <= 0 {
      assert s[i] == args[i];
      forall j | i < j < |args| ensures args[j] <= 0 {
        assert s[j] == args[j];
      }
    }
  }

  /**
   * A threshold is the argument of the last setter call whose argument was
   * positive, or its initial value when there was none.
   */
  lemma {:induction false} ThresholdIsLastPositive(initial: int, args: seq<int>)
    ensures (forall i :: 0 <= i < |args| ==> args[i] <= 0) ==> LastPositiveOr(initial, args) == initial
    ensures forall i :: IsLastPositive(args, i) ==> LastPositiveOr(initial, args) == args[i]
  {
    if args != [] {
      var k := |args| - 1;
      var prefix, n := args[..k], args[k];
      assert args == prefix + [n];
      ThresholdIsLastPositive(initial, prefix);
      LastPositiveOrSnoc(initial, prefix, n);
      if forall i :: 0 <= i < |args| ==> args[i] <= 0 {
        forall i | 0 <= i < k ensures prefix[i] <= 0 {
          assert prefix[i] == args[i];
        }
      }
      forall i | IsLastPositive(args, i) ensures LastPositiveOr(initial, args) == args[i] {
        IsLastPositiveSnoc(prefix, n, i);
      }
    }
  }

  /** So a threshold that starts positive stays positive. */
  lemma {:induction false} ThresholdStaysPositive(initial: int, args: seq<int>)
    requires initial > 0
    ensures LastPositiveOr(initial, args) > 0
  {
    if args != [] {
      ThresholdStaysPositive(initial, args[..|args| - 1]);
    }
  }

  /** What the environment does with one reconnect attempt. */
  datatype AttemptOutcome =
    | ConnectFails(exception: string)
    | PingFails(exception: string)
    | Reachable

  /** How `reconnect()` ends: back in service after attempt `attempt`, process exit, or a NullPointerException when there is no log. */
  datatype ReconnectResult = Reconnected(attempt: nat) | Exited(status: int) | NullLog

  /** The index of the first attempt that reaches the database. */
  function FirstReachable(outcomes: seq<AttemptOutcome>): (r: Option<nat>)
    ensures r.Some? ==> r.value < |outcomes| && outcomes[r.value].Reachable?
    ensures r.Some? ==> forall j :: 0 <= j < r.value ==> !outcomes[j].Reachable?
    ensures r.None? <==> forall j :: 0 <= j < |outcomes| ==> !outcomes[j].Reachable?
  {
    if outcomes == [] then None
    else if outcomes[0].Reachable? then Some(0)
    else match FirstReachable(outcomes[1..])
      case Some(i) => Some(i + 1)
      case None => None
  }

  lemma FirstReachableAt(outcomes: seq<AttemptOutcome>, i: nat)
    requires i < |outcomes| && outcomes[i].Reachable?
    requires forall j :: 0 <= j < i ==> !outcomes[j].Reachable?
    ensures FirstReachable(outcomes) == Some(i)
  {
    var r := FirstReachable(outcomes);
    assert r.Some?;
    assert !(r.value < i);
    assert !(i < r.value);
  }

  /**
   * The result `reconnect()` must have: with a log, success at the first
   * reachable attempt among the first four, otherwise exit status 1; without a
   * log, the first attempt already throws.
   */
  function ExpectedReconnect(outcomes: seq<AttemptOutcome>, hasLog: bool): ReconnectResult
    requires |outcomes| == MaxAttempts
  {
    if !hasLog then NullLog
    else match FirstReachable(outcomes)
      case Some(i) => Reconnected(i + 1)
      case None => Exited(1)
  }

  /** The client calls of one attempt: sleep, connect, then batching and ping if the connection was made. */
  function AttemptEffects(c: Config, o: AttemptOutcome): seq<Effect> {
    [Sleep(ReconnectDelayMillis), Connect(c.url, c.username, c.password)] +
    (if o.ConnectFails? then [] else [EnableBatch(c.pointsToFlush, c.millisToFlush), Ping])
  }

  /** The client calls of a series of attempts. */
  function Attempts(c: Config, outcomes: seq<AttemptOutcome>): seq<Effect> {
    if outcomes == [] then []
    else Attempts(c, outcomes[..|outcomes| - 1]) + AttemptEffects(c, outcomes[|outcomes| - 1])
  }

  /** The log entries of a series of attempts: one error for each failed one, with its exception. */
  function Failures(outcomes: seq<AttemptOutcome>): seq<StatsLog.Record> {
    if outcomes == [] then []
    else
      var o := outcomes[|outcomes| - 1];
      Failures(outcomes[..|outcomes| - 1]) + (if o.Reachable? then [] else [StatsLog.InfluxReconnectError(o.exception)])
  }

  lemma AttemptsSnoc(c: Config, outcomes: seq<AttemptOutcome>, o: AttemptOutcome)
    ensures Attempts(c, outcomes + [o]) == Attempts(c, outcomes) + AttemptEffects(c, o)
  {
    assert (outcomes + [o])[..|outcomes|] == outcomes;
  }

  lemma FailuresSnoc(outcomes: seq<AttemptOutcome>, o: AttemptOutcome)
    requires !o.Reachable?
    ensures Failures(outcomes + [o]) == Failures(outcomes) + [StatsLog.InfluxReconnectError(o.exception)]
  {
    assert (outcomes + [o])[..|outcomes|] == outcomes;
  }

  /** The calls of attempts `0..i`, appended after `before`, are those of attempts `0..i-1` and then attempt `i`. */
  lemma AttemptsStep(c: Config, outcomes: seq<AttemptOutcome>, i: nat, before: seq<Effect>)
    requires i < |outcomes|
    ensures before + Attempts(c, outcomes[..i]) + AttemptEffects(c, outcomes[i]) == before + Attempts(c, outcomes[..i + 1])
  {
    assert outcomes[..i + 1] == outcomes[..i] + [outcomes[i]];
    AttemptsSnoc(c, outcomes[..i], outcomes[i]);
  }

  /** Likewise for the error reports of failed attempts. */
  lemma FailuresStep(outcomes: seq<AttemptOutcome>, i: nat, before: seq<StatsLog.Record>)
    requires i < |outcomes| && !outcomes[i].Reachable?
    ensures before + Failures(outcomes[..i]) + [StatsLog.InfluxReconnectError(outcomes[i].exception)] == before + Failures(outcomes[..i + 1])
  {
    assert outcomes[..i + 1] == outcomes[..i] + [outcomes[i]];
    FailuresSnoc(outcomes[..i], outcomes[i]);
  }

  /**
   * A series of attempts opens exactly one connection and sleeps exactly
   * once per attempt, and it pings exactly once per attempt that connected.
   */
  lemma {:induction false} AttemptsCount(c: Config, outcomes: seq<AttemptOutcome>)
    ensures multiset(Attempts(c, outcomes))[Connect(c.url, c.username, c.password)] == |outcomes|
    ensures multiset(Attempts(c, outcomes))[Sleep(ReconnectDelayMillis)] == |outcomes|
    ensures multiset(Attempts(c, outcomes))[Ping] + CountConnectFailures(outcomes) == |outcomes|
  {
    if outcomes != [] {
      var n := |outcomes| - 1;
      var o := outcomes[n];
      AttemptsCount(c, outcomes[..n]);
      assert multiset(Attempts(c, outcomes)) == multiset(Attempts(c, outcomes[..n])) + multiset(AttemptEffects(c, o));
      AttemptEffectsCount(c, o);
    }
  }

  /** One attempt: one sleep, one connect, and one ping unless the connection failed. */
  lemma AttemptEffectsCount(c: Config, o: AttemptOutcome)
    ensures multiset(AttemptEffects(c, o))[Connect(c.url, c.username, c.password)] == 1
    ensures multiset(AttemptEffects(c, o))[Sleep(ReconnectDelayMillis)] == 1
    ensures multiset(AttemptEffects(c, o))[Ping] == if o.ConnectFails? then 0 else 1
  {
    var connect := Connect(c.url, c.username, c.password);
    var sleep := Sleep(ReconnectDelayMillis);
    if o.ConnectFails? {
      assert multiset(AttemptEffects(c, o)) == multiset{sleep, connect};
    } else {
      assert multiset(AttemptEffects(c, o)) == multiset{sleep, connect, EnableBatch(c.pointsToFlush, c.millisToFlush), Ping};
    }
  }

  /** The number of attempts that could not even connect. */
  function CountConnectFailures(outcomes: seq<AttemptOutcome>): nat {
    if outcomes == [] then 0
    else CountConnectFailures(outcomes[..|outcomes| - 1]) + (if outcomes[|outcomes| - 1].ConnectFails? then 1 else 0)
  }

  /** Every reconnect attempt re-applies the publisher's own thresholds. */
  lemma {:induction false} AttemptsReapplyThresholds(c: Config, outcomes: seq<AttemptOutcome>)
    ensures forall e :: e in Attempts(c, outcomes) && e.EnableBatch? ==>
      e.points == c.pointsToFlush && e.millis == c.millisToFlush
  {
    if outcomes != [] {
      AttemptsReapplyThresholds(c, outcomes[..|outcomes| - 1]);
    }
  }

  /** The argument handed to `update` by the observable: a payload, or anything else (null included). */
  datatype Arg = PayloadArg(payload: Payloads.Payload) | OtherArg

  /** How `update` ends: the point was handed to the client, the argument was refused, or the client's write threw. */
  datatype UpdateResult = Published | IllegalArgument(message: string) | WriteFailed

  class Publisher {
    const config: Config
    const log: StatsLog.Log?
    /** Ping timers currently scheduled. */
    var timers: nat
    var effects: seq<Effect>

    ghost predicate Valid()
      reads this, log
    {
      config.pointsToFlush > 0 && config.millisToFlush > 0 &&
      (log != null ==> log.Valid())
    }

    /** Java's private constructor: connect, then enable batching with the thresholds. */
    constructor (c: Config, l: StatsLog.Log?)
      requires c.pointsToFlush > 0 && c.millisToFlush > 0
      requires l != null ==> l.Valid()
      ensures Valid() && config == c && log == l && timers == 0
      ensures effects == [Connect(c.url, c.username, c.password), EnableBatch(c.pointsToFlush, c.millisToFlush)]
    {
      config := c;
      log := l;
      timers := 0;
      effects := [Connect(c.url, c.username, c.password), EnableBatch(c.pointsToFlush, c.millisToFlush)];
    }

    /** `ping()`: schedules a ping timer only when the interval is positive. */
    method StartPing()
      modifies this
      ensures timers == old(timers) + (if config.ping > 0 then 1 else 0)
      ensures effects == old(effects)
    {
      if config.ping > 0 {
        timers := timers + 1;
      }
    }

    /**
     * `reconnect()`: at most four attempts, each after a 15 s sleep; returns
     * right after the first attempt that connects and pings, and exits with
     * status 1 after four failures. Each failure logs one error and a success
     * logs one success. There is no null check on the log, so without a log
     * the first attempt ends in a NullPointerException.
     */
    method Reconnect(outcomes: seq<AttemptOutcome>) returns (r: ReconnectResult)
      requires Valid() && |outcomes| == MaxAttempts
      modifies this, log
      ensures Valid() && timers == old(timers)
      ensures r == ExpectedReconnect(outcomes, log != null)
      ensures r.Reconnected? ==>
        && 1 <= r.attempt <= MaxAttempts
        && effects == old(effects) + Attempts(config, outcomes[..r.attempt])
        && log != null
        && log.records == old(log.records) + Failures(outcomes[..r.attempt - 1]) + [StatsLog.InfluxReconnectSuccess]
      ensures r.Exited? ==>
        && r.status == 1
        && effects == old(effects) + Attempts(config, outcomes) + [Exit(1)]
        && log != null
        && log.records == old(log.records) + Failures(outcomes)
      ensures r.NullLog? ==> effects == old(effects) + Attempts(config, outcomes[..1])
      ensures log != null ==> log.Counts() == old(log.Counts()) && log.window == old(log.window) && log.scheduled == old(log.scheduled)
      ensures log != null ==> old(log.records) <= log.records
    {
      if log == null {
        // The first attempt runs, then both its success and its error
        // report dereference the missing log.
        effects := effects + AttemptEffects(config, outcomes[0]);
        assert outcomes[..1] == [] + [outcomes[0]];
        AttemptsSnoc(config, [], outcomes[0]);
        return NullLog;
      }
      r := Retry(outcomes);
    }

    /** The loop of `reconnect()` once the log is known to be present. */
    method Retry(outcomes: seq<AttemptOutcome>) returns (r: ReconnectResult)
      requires Valid() && log != null && |outcomes| == MaxAttempts
      modifies this, log
      ensures Valid() && timers == old(timers)
      ensures r == ExpectedReconnect(outcomes, true)
      ensures r.Reconnected? ==>
        && 1 <= r.attempt <= MaxAttempts
        && effects == old(effects) + Attempts(config, outcomes[..r.attempt])
        && log.records == old(log.records) + Failures(outcomes[..r.attempt - 1]) + [StatsLog.InfluxReconnectSuccess]
      ensures r.Exited? ==>
        && r.status == 1
        && effects == old(effects) + Attempts(config, outcomes) + [Exit(1)]
        && log.records == old(log.records) + Failures(outcomes)
      ensures log.Counts() == old(log.Counts()) && log.window == old(log.window) && log.scheduled == old(log.scheduled)
    {
      // The failed attempts before the first one that succeeds.
      var i := 0;
      while i < MaxAttempts && !outcomes[i].Reachable?
        invariant 0 <= i <= MaxAttempts
        invariant forall j :: 0 <= j < i ==> !outcomes[j].Reachable?
        invariant Valid() && timers == old(timers)
        invariant effects == old(effects) + Attempts(config, outcomes[..i])
        invariant log.records == old(log.records) + Failures(outcomes[..i])
        invariant log.Counts() == old(log.Counts()) && log.window == old(log.window) && log.scheduled == old(log.scheduled)
      {
        var o := outcomes[i];
        Attempt(o);
        AttemptsStep(config, outcomes, i, old(effects));
        FailuresStep(outcomes, i, old(log.records));
        i := i + 1;
      }
      if i < MaxAttempts {
        FirstReachableAt(outcomes, i);
        Attempt(outcomes[i]);
        AttemptsStep(config, outcomes, i, old(effects));
        r := Reconnected(i + 1);
      } else {
        assert outcomes[..i] == outcomes;
        assert FirstReachable(outcomes).None?;
        effects := effects + [Exit(1)];
        r := Exited(1);
      }
    }

    /**
     * One pass of the reconnect loop with a log present: sleep, connect, and
     * when connected re-enable batching and ping; then report success, or
     * the failure with its exception.
     */
    method Attempt(o: AttemptOutcome)
      requires Valid() && log != null
      modifies this, log
      ensures Valid() && timers == old(timers)
      ensures effects == old(effects) + AttemptEffects(config, o)
      ensures o.Reachable? ==> log.records == old(log.records) + [StatsLog.InfluxReconnectSuccess]
      ensures !o.Reachable? ==> log.records == old(log.records) + [StatsLog.InfluxReconnectError(o.exception)]
      ensures log.Counts() == old(log.Counts()) && log.window == old(log.window) && log.scheduled == old(log.scheduled)
    {
      effects := effects + [Sleep(ReconnectDelayMillis), Connect(config.url, config.username, config.password)];
      if !o.ConnectFails? {
        effects := effects + [EnableBatch(config.pointsToFlush, config.millisToFlush), Ping];
      }
      if o.Reachable? {
        log.Emit(StatsLog.InfluxReconnectSuccess);
      } else {
        log.Emit(StatsLog.InfluxReconnectError(o.exception));
      }
    }

    /**
     * One firing of a ping timer: ping the current connection; on failure,
     * cancel this timer, log the ping error when there is a log, reconnect, and
     * start pinging again once reconnected.
     */
    method PingTick(live: bool, failure: string, outcomes: seq<AttemptOutcome>) returns (r: Option<ReconnectResult>)
      requires Valid() && timers > 0 && |outcomes| == MaxAttempts
      modifies this, log
      ensures Valid()
      ensures live ==> r == None && effects == old(effects) + [Ping] && timers == old(timers)
      ensures live && log != null ==> log.records == old(log.records)
      ensures !live ==> r == Some(ExpectedReconnect(outcomes, log != null))
      ensures !live && r.value.Reconnected? ==> timers == old(timers) - 1 + (if config.ping > 0 then 1 else 0)
      ensures !live && !r.value.Reconnected? ==> timers == old(timers) - 1
      ensures !live && r.value.Reconnected? ==>
        && 1 <= r.value.attempt <= MaxAttempts
        && effects == old(effects) + [Ping] + Attempts(config, outcomes[..r.value.attempt])
        && log != null
        && log.records == old(log.records) + [StatsLog.InfluxPingError(failure)]
                          + Failures(outcomes[..r.value.attempt - 1]) + [StatsLog.InfluxReconnectSuccess]
      ensures !live && r.value.Exited? ==>
        && r.value.status == 1
        && effects == old(effects) + [Ping] + Attempts(config, outcomes) + [Exit(1)]
        && log != null
        && log.records == old(log.records) + [StatsLog.InfluxPingError(failure)] + Failures(outcomes)
      ensures !live && r.value.NullLog? ==> effects == old(effects) + [Ping] + Attempts(config, outcomes[..1])
      ensures log != null ==>
        log.Counts() == old(log.Counts()) && log.window == old(log.window) && log.scheduled == old(log.scheduled)
    {
      effects := effects + [Ping];
      if live {
        return None;
      }
      timers := timers - 1;
      if log != null {
        log.Emit(StatsLog.InfluxPingError(failure));
      }
      var result := Reconnect(outcomes);
      if result.Reconnected? {
        StartPing();
      }
      r := Some(result);
    }

    /**
     * `update`: anything but a payload is refused with IllegalArgumentException
     * and nothing is written or counted; a payload becomes exactly one point
     * written to the database with retention policy "autogen", after which
     * the written counter is bumped once when there is a log. When the
     * client's write throws (`writeOk` false), the exception leaves `update`
     * before the counter is bumped.
     */
    method Update(arg: Arg, writeOk: bool) returns (r: UpdateResult)
      requires Valid()
      modifies this, log
      ensures Valid() && timers == old(timers)
      ensures arg.OtherArg? ==> r == IllegalArgument(NotAPayload) && effects == old(effects)
      ensures arg.PayloadArg? ==>
        && r == (if writeOk then Published else WriteFailed)
        && effects == old(effects) + [Write(config.dbName, RetentionPolicy, PointOf(arg.payload.View()))]
      ensures r != Published && log != null ==> log.Counts() == old(log.Counts()) && log.window == old(log.window)
      ensures r == Published && log != null ==>
        && log.window == old(log.window) + [StatsLog.Wrote]
        && log.influxWrote == old(log.influxWrote) + 1
        && log.rabbitRead == old(log.rabbitRead)
        && log.rabbitBacked == old(log.rabbitBacked)
        && log.rabbitErrors == old(log.rabbitErrors)
      ensures log != null ==> log.records == old(log.records) && log.scheduled == old(log.scheduled)
    {
      if !arg.PayloadArg? {
        return IllegalArgument(NotAPayload);
      }
      effects := effects + [Write(config.dbName, RetentionPolicy, PointOf(arg.payload.View()))];
      if !writeOk {
        return WriteFailed;
      }
      if log != null {
        log.InfluxWrote();
      }
      r := Published;
    }
  }

  /** The publisher builder: plain setters, except that the thresholds only accept positive values. */
  class PublisherBuilder {
    var url: Option<string>
    var username: Option<string>
    var password: Option<string>
    var dbName: Option<string>
    var pointsToFlush: int
    var millisToFlush: int
    var ping: int
    var log: StatsLog.Log?
    /** The arguments passed to the two threshold setters so far. */
    ghost var pointsArgs: seq<int>
    ghost var millisArgs: seq<int>

    ghost predicate Valid()
      reads this
    {
      pointsToFlush == LastPositiveOr(DefaultPointsToFlush, pointsArgs) &&
      millisToFlush == LastPositiveOr(DefaultMillisToFlush, millisArgs)
    }

    function Current(): Config
      reads this
    {
      Config(url, username, password, dbName, pointsToFlush, millisToFlush, ping)
    }

    constructor ()
      ensures Valid() && Current() == Defaults && log == null
      ensures pointsArgs == [] && millisArgs == []
    {
      url, username, password, dbName := Some(""), Some(""), Some(""), Some("");
      pointsToFlush, millisToFlush, ping := 1000, 5000, 0;
      log := null;
      pointsArgs, millisArgs := [], [];
    }

    method SetUrl(s: Option<string>) returns (b: PublisherBuilder)
      requires Valid()
      modifies this
      ensures Valid() && b == this && Current() == old(Current()).(url := s)
      ensures log == old(log) && pointsArgs == old(pointsArgs) && millisArgs == old(millisArgs)
    {
      url := s;
      b := this;
    }

    method SetUsername(s: Option<string>) returns (b: PublisherBuilder)
      requires Valid()
      modifies this
      ensures Valid() && b == this && Current() == old(Current()).(username := s)
      ensures log == old(log) && pointsArgs == old(pointsArgs) && millisArgs == old(millisArgs)
    {
      username := s;
      b := this;
    }

    method SetPassword(s: Option<string>) returns (b: PublisherBuilder)
      requires Valid()
      modifies this
      ensures Valid() && b == this && Current() == old(Current()).(password := s)
      ensures log == old(log) && pointsArgs == old(pointsArgs) && millisArgs == old(millisArgs)
    {
      password := s;
      b := this;
    }

    method SetDbName(s: Option<string>) returns (b: PublisherBuilder)
      requires Valid()
      modifies this
      ensures Valid() && b == this && Current() == old(Current()).(dbName := s)
      ensures log == old(log) && pointsArgs == old(pointsArgs) && millisArgs == old(millisArgs)
    {
      dbName := s;
      b := this;
    }

    method SetPointsToFlush(n: int) returns (b: PublisherBuilder)
      requires Valid()
      modifies this
      ensures Valid() && b == this
      ensures Current() == old(Current()).(pointsToFlush := if n > 0 then n else old(pointsToFlush))
      ensures pointsArgs == old(pointsArgs) + [n]
      ensures log == old(log) && millisArgs == old(millisArgs)
    {
      LastPositiveOrSnoc(DefaultPointsToFlush, pointsArgs, n);
      if n > 0 {
        pointsToFlush := n;
      }
      pointsArgs := pointsArgs + [n];
      assert pointsToFlush == LastPositiveOr(DefaultPointsToFlush, pointsArgs);
      b := this;
    }

    method SetMillisToFlush(n: int) returns (b: PublisherBuilder)
      requires Valid()
      modifies this
      ensures Valid() && b == this
      ensures Current() == old(Current()).(millisToFlush := if n > 0 then n else old(millisToFlush))
      ensures millisArgs == old(millisArgs) + [n]
      ensures log == old(log) && pointsArgs == old(pointsArgs)
    {
      LastPositiveOrSnoc(DefaultMillisToFlush, millisArgs, n);
      if n > 0 {
        millisToFlush := n;
      }
      millisArgs := millisArgs + [n];
      assert millisToFlush == LastPositiveOr(DefaultMillisToFlush, millisArgs);
      b := this;
    }

    /** Any interval is stored; one that is not positive disables pinging. */
    method SetPing(n: int) returns (b: PublisherBuilder)
      requires Valid()
      modifies this
      ensures Valid() && b == this && Current() == old(Current()).(ping := n)
      ensures log == old(log) && pointsArgs == old(pointsArgs) && millisArgs == old(millisArgs)
    {
      ping := n;
      b := this;
    }

    method SetLog(l: StatsLog.Log?) returns (b: PublisherBuilder)
      requires Valid()
      modifies this
      ensures Valid() && b == this && Current() == old(Current()) && log == l
      ensures pointsArgs == old(pointsArgs) && millisArgs == old(millisArgs)
    {
      log := l;
      b := this;
    }

    /** Builds a new publisher with the current settings and reports it to the log, if any. */
    method Build() returns (p: Publisher)
      requires Valid()
      requires log != null ==> log.Valid()
      modifies log
      ensures fresh(p) && p.Valid() && p.config == Current() && p.log == log && p.timers == 0
      ensures p.config.pointsToFlush > 0 && p.config.millisToFlush > 0
      ensures p.effects == [Connect(url, username, password), EnableBatch(pointsToFlush, millisToFlush)]
      ensures log != null ==> log.records == old(log.records) + [StatsLog.InfluxCreated]
      ensures log != null ==>
        log.Counts() == old(log.Counts()) && log.window == old(log.window) && log.scheduled == old(log.scheduled)
    {
      ThresholdStaysPositive(DefaultPointsToFlush, pointsArgs);
      ThresholdStaysPositive(DefaultMillisToFlush, millisArgs);
      p := new Publisher(Current(), log);
      if log != null {
        log.Emit(StatsLog.InfluxCreated);
      }
    }
  }
}
