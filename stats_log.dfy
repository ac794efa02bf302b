/**
 * The statistics log shared by the consumer and the publisher: four windowed
 * event counters that a periodic task drains into a summary record, a builder
 * that replaces non-positive settings by defaults, and the discrete records
 * handed to the logger. The JDK logger itself is not modelled: `records` is
 * the sequence of entries handed to it, in order.
 */
module StatsLog {
  import opened Common

  const DefaultLogNum: int := 1
  const DefaultLogSize: int := 1_000_000
  const DefaultLogInterval: int := 5_000

  /** The builder's settings; None stands for a null file name (logging of that kind is off). */
  datatype Settings = Settings(
    normalLog: Option<string>,
    normalLogNum: int,
    normalLogSize: int,
    normalLogInterval: int,
    errorLog: Option<string>,
    errorLogNum: int,
    errorLogSize: int)

  /** The settings of a new builder: Java's default field values. */
  const Unset := Settings(None, 0, 0, 0, None, 0, 0)

  ghost predicate AllPositive(s: Settings) {
    s.normalLogNum > 0 && s.normalLogSize > 0 && s.normalLogInterval > 0 &&
    s.errorLogNum > 0 && s.errorLogSize > 0
  }

  /**
   * The settings `build()` leaves in the builder: each numeric setting that is
   * not positive becomes its documented default, every other setting is kept.
   */
  function Normalised(s: Settings): (r: Settings)
    ensures AllPositive(r)
    ensures r.normalLog == s.normalLog && r.errorLog == s.errorLog
    ensures r.normalLogNum == (if s.normalLogNum > 0 then s.normalLogNum else DefaultLogNum)
    ensures r.normalLogSize == (if s.normalLogSize > 0 then s.normalLogSize else DefaultLogSize)
    ensures r.normalLogInterval == (if s.normalLogInterval > 0 then s.normalLogInterval else DefaultLogInterval)
    ensures r.errorLogNum == (if s.errorLogNum > 0 then s.errorLogNum else DefaultLogNum)
    ensures r.errorLogSize == (if s.errorLogSize > 0 then s.errorLogSize else DefaultLogSize)
    ensures AllPositive(s) ==> r == s
  {
    s.(normalLogNum := if s.normalLogNum <= 0 then 1 else s.normalLogNum)
     .(normalLogSize := if s.normalLogSize <= 0 then 1_000_000 else s.normalLogSize)
     .(normalLogInterval := if s.normalLogInterval <= 0 then 5_000 else s.normalLogInterval)
     .(errorLogNum := if s.errorLogNum <= 0 then 1 else s.errorLogNum)
     .(errorLogSize := if s.errorLogSize <= 0 then 1_000_000 else s.errorLogSize)
  }

  /** The events that move a counter. */
  datatype Event = Read | Backed | Errored | Wrote

  datatype Counters = Counters(read: nat, backed: nat, errors: nat, wrote: nat)

  const Zero := Counters(0, 0, 0, 0)

  /** One event increments its own counter and no other. */
  function Step(c: Counters, e: Event): Counters {
    match e
    case Read => c.(read := c.read + 1)
    case Backed => c.(backed := c.backed + 1)
    case Errored => c.(errors := c.errors + 1)
    case Wrote => c.(wrote := c.wrote + 1)
  }

  /** The counters after the given events, starting from zero. */
  function Tally(events: seq<Event>): Counters {
    if events == [] then Zero else Step(Tally(events[..|events| - 1]), events[|events| - 1])
  }

  lemma TallySnoc(events: seq<Event>, e: Event)
    ensures Tally(events + [e]) == Step(Tally(events), e)
  {
    assert (events + [e])[..|events|] == events;
  }

  /** Each counter holds exactly the number of its events in the window. */
  lemma {:induction false} TallyCounts(events: seq<Event>)
    ensures Tally(events) == Counters(
      multiset(events)[Read], multiset(events)[Backed],
      multiset(events)[Errored], multiset(events)[Wrote])
  {
    if events != [] {
      var n := |events| - 1;
      TallyCounts(events[..n]);
      assert events == events[..n] + [events[n]];
      assert multiset(events) == multiset(events[..n]) + multiset{events[n]};
    }
  }

  /** The label of the error count in a summary: upper case exactly when there were errors. */
  function ErrorsLabel(errors: nat): (word: string)
    ensures word == "ERRORS" <==> errors != 0
    ensures word == "errors" <==> errors == 0
  {
    if errors == 0 then "errors" else "ERRORS"
  }

  /** The text appended to an erroneous-payload entry: non-empty exactly when the payload was backed up. */
  function MovedNote(backed: bool): (note: string)
    ensures note != "" <==> backed
  {
    if backed then "\npayload moved to error queue" else ""
  }

  /** One periodic summary: `read: %d, backed: %d, written: %d, <label>: %d`. */
  datatype Summary = Summary(read: nat, backed: nat, written: nat, errorsWord: string, errors: nat)

  function SummaryOf(c: Counters): (s: Summary)
    ensures s.errorsWord == ErrorsLabel(s.errors)
    ensures s.read == c.read && s.backed == c.backed && s.written == c.wrote && s.errors == c.errors
  {
    Summary(c.read, c.backed, c.wrote, ErrorsLabel(c.errors), c.errors)
  }

  /** An entry handed to the logger; message formatting and levels are not modelled. */
  datatype Record =
    | ErroneousPayload(payload: string, exception: string, note: string)
    | Drained(summary: Summary)
    | RabbitCreated
    | RabbitPingError
    | RabbitReconnectSuccess
    | RabbitReconnectError(exception: string)
    | InfluxCreated
    | InfluxPingError(exception: string)
    | InfluxReconnectSuccess
    | InfluxReconnectError(exception: string)

  class Log {
    const settings: Settings
    var rabbitRead: nat
    var rabbitBacked: nat
    var rabbitErrors: nat
    var influxWrote: nat
    /** Whether `normalLog()` scheduled the periodic drain. */
    var scheduled: bool
    var records: seq<Record>
    /** The events since the last drain. */
    ghost var window: seq<Event>

    ghost predicate Valid()
      reads this
    {
      AllPositive(settings) && Counts() == Tally(window)
    }

    function Counts(): Counters
      reads this
    {
      Counters(rabbitRead, rabbitBacked, rabbitErrors, influxWrote)
    }

    /** Java's private constructor; the file handlers are opened by the caller's check. */
    constructor (s: Settings)
      requires AllPositive(s)
      ensures Valid() && settings == s
      ensures Counts() == Zero && window == [] && records == [] && !scheduled
    {
      settings := s;
      rabbitRead, rabbitBacked, rabbitErrors, influxWrote := 0, 0, 0, 0;
      scheduled := false;
      records := [];
      window := [];
    }

    /** `normalLog()`: the periodic drain is scheduled only when a normal log file is set. */
    method StartNormalLog()
      modifies this
      ensures scheduled == (old(scheduled) || settings.normalLog.Some?)
      ensures Counts() == old(Counts()) && window == old(window) && records == old(records)
    {
      if settings.normalLog.Some? {
        scheduled := true;
      }
    }

    method RabbitRead()
      requires Valid()
      modifies this
      ensures Valid() && window == old(window) + [Read]
      ensures rabbitRead == old(rabbitRead) + 1
      ensures rabbitBacked == old(rabbitBacked) && rabbitErrors == old(rabbitErrors) && influxWrote == old(influxWrote)
      ensures records == old(records) && scheduled == old(scheduled)
    {
      TallySnoc(window, Read);
      rabbitRead := rabbitRead + 1;
      window := window + [Read];
    }

    method RabbitBacked()
      requires Valid()
      modifies this
      ensures Valid() && window == old(window) + [Backed]
      ensures rabbitBacked == old(rabbitBacked) + 1
      ensures rabbitRead == old(rabbitRead) && rabbitErrors == old(rabbitErrors) && influxWrote == old(influxWrote)
      ensures records == old(records) && scheduled == old(scheduled)
    {
      TallySnoc(window, Backed);
      rabbitBacked := rabbitBacked + 1;
      window := window + [Backed];
    }

    /** Counts the error whatever `backed` is; only the logged note depends on it. */
    method RabbitError(payload: string, exception: string, backed: bool)
      requires Valid()
      modifies this
      ensures Valid() && window == old(window) + [Errored]
      ensures rabbitErrors == old(rabbitErrors) + 1
      ensures rabbitRead == old(rabbitRead) && rabbitBacked == old(rabbitBacked) && influxWrote == old(influxWrote)
      ensures records == old(records) + [ErroneousPayload(payload, exception, MovedNote(backed))]
      ensures scheduled == old(scheduled)
    {
      TallySnoc(window, Errored);
      rabbitErrors := rabbitErrors + 1;
      window := window + [Errored];
      records := records + [ErroneousPayload(payload, exception, MovedNote(backed))];
    }

    method InfluxWrote()
      requires Valid()
      modifies this
      ensures Valid() && window == old(window) + [Wrote]
      ensures influxWrote == old(influxWrote) + 1
      ensures rabbitRead == old(rabbitRead) && rabbitBacked == old(rabbitBacked) && rabbitErrors == old(rabbitErrors)
      ensures records == old(records) && scheduled == old(scheduled)
    {
      TallySnoc(window, Wrote);
      influxWrote := influxWrote + 1;
      window := window + [Wrote];
    }

    /**
     * The reports that only write to the logger (creation, lost connection,
     * reconnect success or failure): one entry each, no counter moves.
     */
    method Emit(r: Record)
      requires Valid()
      requires !r.ErroneousPayload? && !r.Drained?
      modifies this
      ensures Valid() && records == old(records) + [r]
      ensures Counts() == old(Counts()) && window == old(window) && scheduled == old(scheduled)
    {
      records := records + [r];
    }

    /**
     * One firing of the periodic task. When it is scheduled, it reads and
     * zeroes all four counters and logs their values, so each summary covers
     * exactly the events since the previous one; without a normal log there
     * is no task and nothing is drained.
     */
    method Tick() returns (s: Option<Summary>)
      requires Valid()
      modifies this
      ensures Valid() && scheduled == old(scheduled)
      ensures old(scheduled) ==>
        && s == Some(SummaryOf(Tally(old(window))))
        && Counts() == Zero && window == []
        && records == old(records) + [Drained(s.value)]
      ensures !old(scheduled) ==>
        && s == None && Counts() == old(Counts()) && window == old(window)
        && records == old(records)
    {
      if scheduled {
        var errors := rabbitErrors;
        rabbitErrors := 0;
        var read := rabbitRead;
        rabbitRead := 0;
        var backed := rabbitBacked;
        rabbitBacked := 0;
        var wrote := influxWrote;
        influxWrote := 0;
        var summary := Summary(read, backed, wrote, if errors == 0 then "errors" else "ERRORS", errors);
        records := records + [Drained(summary)];
        window := [];
        s := Some(summary);
      } else {
        s := None;
      }
    }
  }

  datatype BuildResult = Built(log: Log) | CannotOpen(file: string)

  /** The log builder: plain setters, and `build()` normalising the settings in place. */
  class LogBuilder {
    var normalLog: Option<string>
    var normalLogNum: int
    var normalLogSize: int
    var normalLogInterval: int
    var errorLog: Option<string>
    var errorLogNum: int
    var errorLogSize: int

    function Current(): Settings
      reads this
    {
      Settings(normalLog, normalLogNum, normalLogSize, normalLogInterval, errorLog, errorLogNum, errorLogSize)
    }

    constructor ()
      ensures Current() == Unset
    {
      normalLog, normalLogNum, normalLogSize, normalLogInterval := None, 0, 0, 0;
      errorLog, errorLogNum, errorLogSize := None, 0, 0;
    }

    method SetNormalLog(file: Option<string>) returns (b: LogBuilder)
      modifies this
      ensures b == this && Current() == old(Current()).(normalLog := file)
    {
      normalLog := file;
      b := this;
    }

    method SetNormalLogNum(n: int) returns (b: LogBuilder)
      modifies this
      ensures b == this && Current() == old(Current()).(normalLogNum := n)
    {
      normalLogNum := n;
      b := this;
    }

    method SetNormalLogSize(n: int) returns (b: LogBuilder)
      modifies this
      ensures b == this && Current() == old(Current()).(normalLogSize := n)
    {
      normalLogSize := n;
      b := this;
    }

    method SetNormalLogInterval(n: int) returns (b: LogBuilder)
      modifies this
      ensures b == this && Current() == old(Current()).(normalLogInterval := n)
    {
      normalLogInterval := n;
      b := this;
    }

    method SetErrorLog(file: Option<string>) returns (b: LogBuilder)
      modifies this
      ensures b == this && Current() == old(Current()).(errorLog := file)
    {
      errorLog := file;
      b := this;
    }

    method SetErrorLogNum(n: int) returns (b: LogBuilder)
      modifies this
      ensures b == this && Current() == old(Current()).(errorLogNum := n)
    {
      errorLogNum := n;
      b := this;
    }

    method SetErrorLogSize(n: int) returns (b: LogBuilder)
      modifies this
      ensures b == this && Current() == old(Current()).(errorLogSize := n)
    {
      errorLogSize := n;
      b := this;
    }

    /** The first half of `build()`: non-positive settings become the defaults, in place. */
    method Normalise()
      modifies this
      ensures Current() == Normalised(old(Current()))
    {
      if normalLogNum <= 0 {
        normalLogNum := 1;
      }
      if normalLogSize <= 0 {
        normalLogSize := 1_000_000;
      }
      if normalLogInterval <= 0 {
        normalLogInterval := 5_000;
      }
      if errorLogNum <= 0 {
        errorLogNum := 1;
      }
      if errorLogSize <= 0 {
        errorLogSize := 1_000_000;
      }
    }

    /**
     * `build()`: replaces non-positive settings by the defaults (in the builder
     * itself, so even a failed build leaves them replaced), opens the log files
     * (`unopenable` holds the files the file system refuses), and on success
     * returns a new log with zero counters whose drain is scheduled iff a
     * normal log is set.
     */
    method Build(unopenable: set<string>) returns (r: BuildResult)
      modifies this
      ensures Current() == Normalised(old(Current()))
      ensures r.CannotOpen? <==>
        (normalLog.Some? && normalLog.value in unopenable) || (errorLog.Some? && errorLog.value in unopenable)
      ensures r.CannotOpen? && normalLog.Some? && normalLog.value in unopenable ==> r.file == normalLog.value
      ensures r.CannotOpen? && !(normalLog.Some? && normalLog.value in unopenable) ==>
        errorLog.Some? && r.file == errorLog.value
      ensures r.Built? ==>
        && fresh(r.log) && r.log.Valid() && r.log.settings == Current()
        && r.log.Counts() == Zero && r.log.records == []
        && r.log.scheduled == normalLog.Some?
    {
      Normalise();
      if normalLog.Some? && normalLog.value in unopenable {
        return CannotOpen(normalLog.value);
      }
      if errorLog.Some? && errorLog.value in unopenable {
        return CannotOpen(errorLog.value);
      }
      var log := new Log(Current());
      log.StartNormalLog();
      r := Built(log);
    }
  }

  /**
   * Windowed, not cumulative: after a drain, the next summary reports exactly
   * the events that happened since that drain.
   */
  lemma DrainWindow(events: seq<Event>)
    ensures SummaryOf(Tally(events)) == Summary(
      multiset(events)[Read], multiset(events)[Backed], multiset(events)[Wrote],
      ErrorsLabel(multiset(events)[Errored]), multiset(events)[Errored])
  {
    TallyCounts(events);
  }
}
