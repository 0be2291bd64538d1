/**
 * The log export Lambda (index.js): a batch of CloudWatch Logs records from a Kinesis
 * subscription is rendered record by record according to the configured log format, the
 * per-record texts are joined in input order, and a non-empty result is gzip-compressed
 * and stored in S3 under a time-stamped, randomly suffixed object key.
 *
 * Decoding a record (base64, gunzip, JSON.parse) is outside the model: a record arrives
 * as `Option<Envelope>`, `None` standing for any failure while decoding it. Compression is
 * symbolic (`Gzip(text)`); the clock and `Math.random()` are parameters.
 */
module LogExport {
  import opened Wrappers
  import opened JsText
  import opened IsoTime
  import opened S3Endpoint

  // ---------------------------------------------------------------- entities

  /** The four cases of the format switch; every other format string is `Custom`. */
  datatype LogFormat = VpcFlowLogs | Lambda | IoT | Custom

  function FormatOf(logFormat: string): (f: LogFormat)
    ensures f == VpcFlowLogs <==> logFormat == "AWS VPC Flow Logs"
    ensures f == Lambda <==> logFormat == "AWS Lambda"
    ensures f == IoT <==> logFormat == "AWS IoT"
  {
    if logFormat == "AWS VPC Flow Logs" then VpcFlowLogs
    else if logFormat == "AWS Lambda" then Lambda
    else if logFormat == "AWS IoT" then IoT
    else Custom
  }

  /** One CloudWatch log event: epoch milliseconds and the message text. */
  datatype LogEvent = LogEvent(timestamp: int, message: string)

  /**
   * A decoded CloudWatch Logs payload. `messageType` is `None` when the property is absent;
   * `logEvents` is `None` when it is absent or not an array.
   */
  datatype Envelope = Envelope(messageType: Option<string>, logEvents: Option<seq<LogEvent>>)

  const DataMessage := "DATA_MESSAGE"

  // ---------------------------------------------------------------- rendering

  /** `message.split(' ')[10]`, which is `undefined` (and prints so) for short messages. */
  function FlowTimestamp(message: string): string {
    var tokens := Split(message, ' ');
    if |tokens| > 10 then tokens[10] else "undefined"
  }

  /** The line block the format switch appends for one event; `None` when it throws. */
  function RenderEvent(format: LogFormat, e: LogEvent): (r: Option<string>)
    ensures r.None? <==> (format == Lambda || format == Custom) && ToIsoString(e.timestamp).None?
  {
    match format
    case VpcFlowLogs =>
      Some("VPC Flow Log Record: " + FlowTimestamp(e.message) + " " + e.message + "\n")
    case IoT =>
      Some("IoT Log Record: " + e.message + "\n")
    case Lambda =>
      (match ToIsoString(e.timestamp)
       case None => None
       case Some(iso) => Some("Lambda Log Record: [" + iso + "] - " + e.message + "\n\n"))
    case Custom =>
      (match ToIsoString(e.timestamp)
       case None => None
       case Some(iso) => Some("Custom CloudWatch Log Record: [" + iso + "] - " + e.message + "\n\n"))
  }

  /** Appending a block to a text that has not thrown; once either throws, the result has. */
  function Then(before: Option<string>, block: Option<string>): Option<string> {
    if before.None? || block.None? then None else Some(before.value + block.value)
  }

  lemma ThenAssociative(x: Option<string>, y: Option<string>, z: Option<string>)
    ensures Then(Then(x, y), z) == Then(x, Then(y, z))
  {
    if x.Some? && y.Some? && z.Some? {
      assert x.value + y.value + z.value == x.value + (y.value + z.value);
    }
  }

  /** `xs.map(f)`: `f` of every element, in order. */
  function Mapped<A, B>(f: A -> B, xs: seq<A>): (ys: seq<B>)
    ensures |ys| == |xs|
    ensures forall i :: 0 <= i < |xs| ==> ys[i] == f(xs[i])
  {
    seq(|xs|, i requires 0 <= i < |xs| => f(xs[i]))
  }

  /** Mapping a concatenation maps each part. */
  lemma MappedAppend<A, B>(f: A -> B, a: seq<A>, b: seq<A>)
    ensures Mapped(f, a + b) == Mapped(f, a) + Mapped(f, b)
  {
    var ma, mb, mab := Mapped(f, a), Mapped(f, b), Mapped(f, a + b);
    forall i | 0 <= i < |a + b|
      ensures mab[i] == (ma + mb)[i]
    {
      if i < |a| {
        assert (a + b)[i] == a[i];
      } else {
        assert (a + b)[i] == b[i - |a|];
      }
    }
  }

  /** Mapping one more element appends its image. */
  lemma MappedSnoc<A, B>(f: A -> B, xs: seq<A>, i: int)
    requires 0 <= i < |xs|
    ensures Mapped(f, xs[..i + 1]) == Mapped(f, xs[..i]) + [f(xs[i])]
  {
    assert xs[..i + 1] == xs[..i] + [xs[i]];
    MappedAppend(f, xs[..i], [xs[i]]);
  }

  function Renderer(format: LogFormat): LogEvent -> Option<string> {
    e => RenderEvent(format, e)
  }

  /** The block each event renders to, or the throw it raises, in event order. */
  function Blocks(format: LogFormat, events: seq<LogEvent>): (bs: seq<Option<string>>)
    ensures |bs| == |events|
    ensures forall i :: 0 <= i < |events| ==> bs[i] == RenderEvent(format, events[i])
  {
    Mapped(Renderer(format), events)
  }

  /** What `forEach` accumulates from the blocks, left to right; `None` once one has thrown. */
  function Accumulate(blocks: seq<Option<string>>): Option<string> {
    if blocks == [] then Some("")
    else Then(Accumulate(blocks[..|blocks| - 1]), blocks[|blocks| - 1])
  }

  /** The `logs` text of `getMessages` for a record's events. */
  function RenderAll(format: LogFormat, events: seq<LogEvent>): Option<string> {
    Accumulate(Blocks(format, events))
  }

  /** The text one record contributes to the batch. */
  function Contribution(format: LogFormat, rec: Option<Envelope>): (s: string)
    ensures rec.None? || rec.value.messageType != Some(DataMessage) ==> s == ""
  {
    match rec
    case None => ""
    case Some(env) =>
      if env.messageType != Some(DataMessage) then ""
      else match env.logEvents
        case None => ""
        case Some(events) => RenderAll(format, events).GetOr("")
  }

  /** The `forEach` loop of `getMessages`: appends each event's block to `logs`. */
  method RenderEvents(format: LogFormat, events: seq<LogEvent>) returns (logs: Option<string>)
    ensures logs == RenderAll(format, events)
  {
    ghost var blocks := Blocks(format, events);
    var text := "";
    var i := 0;
    while i < |events|
      invariant 0 <= i <= |events|
      invariant Accumulate(blocks[..i]) == Some(text)
    {
      var line := RenderEvent(format, events[i]);
      assert line == blocks[i];
      AccumulateStep(blocks, i);
      if line.None? {
        AccumulateFails(blocks);
        return None;
      }
      text := text + line.value;
      i := i + 1;
    }
    assert blocks[..i] == blocks;
    logs := Some(text);
  }

  /** `getMessages`: the envelope filter, the format switch and the catch that yields `""`. */
  method GetMessages(format: LogFormat, rec: Option<Envelope>) returns (s: string)
    ensures s == Contribution(format, rec)
  {
    if rec.None? {
      return "";
    }
    var env := rec.value;
    if env.messageType.None? || env.messageType.value != DataMessage {
      return "";
    }
    if env.logEvents.None? {
      return "";
    }
    var logs := RenderEvents(format, env.logEvents.value);
    s := if logs.None? then "" else logs.value;
  }

  lemma AccumulateStep(blocks: seq<Option<string>>, i: int)
    requires 0 <= i < |blocks|
    ensures Accumulate(blocks[..i + 1]) == Then(Accumulate(blocks[..i]), blocks[i])
  {
    assert blocks[..i + 1][..i] == blocks[..i];
  }

  /** Accumulating a concatenation accumulates each part in order and joins the texts. */
  lemma {:induction false} AccumulateAppend(a: seq<Option<string>>, b: seq<Option<string>>)
    ensures Accumulate(a + b) == Then(Accumulate(a), Accumulate(b))
    decreases |b|
  {
    if b == [] {
      assert a + b == a;
      var x := Accumulate(a);
      assert x.Some? ==> x.value + "" == x.value;
    } else {
      var b', last := b[..|b| - 1], b[|b| - 1];
      AccumulateAppend(a, b');
      assert (a + b)[..|a + b| - 1] == a + b';
      assert (a + b)[|a + b| - 1] == last;
      ThenAssociative(Accumulate(a), Accumulate(b'), last);
    }
  }

  /** The accumulated text is missing exactly when one of the blocks has thrown. */
  lemma {:induction false} AccumulateFails(blocks: seq<Option<string>>)
    ensures Accumulate(blocks).None? <==> exists i :: 0 <= i < |blocks| && blocks[i].None?
  {
    if blocks != [] {
      var init := blocks[..|blocks| - 1];
      AccumulateFails(init);
      assert forall i :: 0 <= i < |init| ==> init[i] == blocks[i];
    }
  }

  /** Rendering a concatenation renders each part in order and joins the texts. */
  lemma RenderAllAppend(format: LogFormat, a: seq<LogEvent>, b: seq<LogEvent>)
    ensures RenderAll(format, a + b) == Then(RenderAll(format, a), RenderAll(format, b))
  {
    MappedAppend(Renderer(format), a, b);
    AccumulateAppend(Blocks(format, a), Blocks(format, b));
  }

  /** One event renders to exactly its own block. */
  lemma RenderAllSingle(format: LogFormat, e: LogEvent)
    ensures RenderAll(format, [e]) == RenderEvent(format, e)
  {
    var bs := Blocks(format, [e]);
    assert bs[..0] == [];
    assert Accumulate(bs) == Then(Some(""), bs[0]);
    assert bs[0] == RenderEvent(format, e);
    assert bs[0].Some? ==> "" + bs[0].value == bs[0].value;
  }

  /** A record's events fail to render exactly when one of them throws. */
  lemma RenderAllFails(format: LogFormat, events: seq<LogEvent>)
    ensures RenderAll(format, events).None? <==>
      exists i :: 0 <= i < |events| && RenderEvent(format, events[i]).None?
  {
    AccumulateFails(Blocks(format, events));
  }

  /**
   * Record isolation: one event that throws (an invalid date) makes the whole record
   * contribute nothing, whatever the events before it rendered.
   */
  lemma RecordIsolation(format: LogFormat, events: seq<LogEvent>, i: int)
    requires 0 <= i < |events| && RenderEvent(format, events[i]).None?
    ensures Contribution(format, Some(Envelope(Some(DataMessage), Some(events)))) == ""
  {
    RenderAllFails(format, events);
  }

  /** VPC Flow Logs and IoT never throw, so a data message of theirs always renders. */
  lemma NonTimestampFormatsRender(format: LogFormat, events: seq<LogEvent>)
    requires format == VpcFlowLogs || format == IoT
    ensures RenderAll(format, events).Some?
  {
    RenderAllFails(format, events);
  }

  /**
   * A VPC flow log line carries the 11th space-separated field of the message (the flow's
   * start time), or the text `undefined` when the message has fewer fields, then the
   * message itself. A 14-field flow-log message whose 11th field is `1620000000` thus renders
   * as `VPC Flow Log Record: 1620000000 <message>` and a newline.
   */
  lemma VpcFlowLogLine(fields: seq<string>, timestamp: int)
    requires 1 <= |fields|
    requires forall k :: 0 <= k < |fields| ==> ' ' !in fields[k]
    ensures var m := Join(fields, " ");
      RenderEvent(VpcFlowLogs, LogEvent(timestamp, m)) ==
        Some("VPC Flow Log Record: " + (if |fields| > 10 then fields[10] else "undefined")
             + " " + m + "\n")
  {
    SplitJoin(fields, ' ');
  }

  /** An IoT line carries no time stamp: the prefix, the message and one newline, for every event. */
  lemma IoTLine(e: LogEvent)
    ensures RenderEvent(IoT, e) == Some("IoT Log Record: " + e.message + "\n")
  {
  }

  /** A Lambda or custom line carries the event's ISO-8601 time between brackets. */
  lemma TimestampedLine(format: LogFormat, e: LogEvent, iso: string)
    requires format == Lambda || format == Custom
    requires ToIsoString(e.timestamp) == Some(iso)
    ensures RenderEvent(format, e) == Some(
      (if format == Lambda then "Lambda Log Record: [" else "Custom CloudWatch Log Record: [")
      + iso + "] - " + e.message + "\n\n")
  {
  }

  /** An event at time 0 with message `boot` under an unlisted format falls back to the custom rendering. */
  lemma CustomExample(e: LogEvent)
    requires e == LogEvent(0, "boot")
    ensures RenderEvent(FormatOf("unlisted-format"), e) ==
      Some("Custom CloudWatch Log Record: [" + ("1970-01-01" + "T00:00:00" + ".000Z") + "] - " + "boot" + "\n\n")
  {
    assert FormatOf("unlisted-format") == Custom;
    IsoStringOfEpoch();
    TimestampedLine(Custom, e, "1970-01-01" + "T00:00:00" + ".000Z");
  }

  // ---------------------------------------------------------------- batch

  /** The string the `for` loop of `processLogs` builds from the per-record results. */
  function Concat(parts: seq<string>): string {
    if parts == [] then "" else Concat(parts[..|parts| - 1]) + parts[|parts| - 1]
  }

  /** `for (i = 0; i < results.length; i++) data += results[i]`. */
  method JoinResults(results: seq<string>) returns (data: string)
    ensures data == Concat(results)
  {
    data := "";
    for i := 0 to |results|
      invariant data == Concat(results[..i])
    {
      assert results[..i + 1][..i] == results[..i];
      data := data + results[i];
    }
    assert results[..|results|] == results;
  }

  /** Joining is order-stable: the parts of a prefix come before the parts of the rest. */
  lemma {:induction false} ConcatAppend(a: seq<string>, b: seq<string>)
    ensures Concat(a + b) == Concat(a) + Concat(b)
    decreases |b|
  {
    if b == [] {
      assert a + b == a;
    } else {
      var b', last := b[..|b| - 1], b[|b| - 1];
      ConcatAppend(a, b');
      assert (a + b)[..|a + b| - 1] == a + b';
      assert (a + b)[|a + b| - 1] == last;
      assert Concat(a + b) == Concat(a + b') + last;
      assert Concat(b) == Concat(b') + last;
      assert Concat(a) + Concat(b') + last == Concat(a) + (Concat(b') + last);
    }
  }

  /** The joined text is empty exactly when every part is. */
  lemma {:induction false} ConcatEmpty(parts: seq<string>)
    ensures Concat(parts) == "" <==> forall i :: 0 <= i < |parts| ==> parts[i] == ""
  {
    if parts != [] {
      var init := parts[..|parts| - 1];
      ConcatEmpty(init);
      if Concat(parts) == "" {
        forall i | 0 <= i < |parts| ensures parts[i] == "" {
          if i < |init| { assert init[i] == parts[i]; }
        }
      }
      if forall i :: 0 <= i < |parts| ==> parts[i] == "" {
        forall i | 0 <= i < |init| ensures init[i] == "" {
          assert init[i] == parts[i];
        }
      }
    }
  }

  function Contributor(format: LogFormat): Option<Envelope> -> string {
    rec => Contribution(format, rec)
  }

  /** The per-record results the `Promise.all` of `processLogs` resolves to, in input order. */
  function Contributions(format: LogFormat, records: seq<Option<Envelope>>): (rs: seq<string>)
    ensures |rs| == |records|
    ensures forall i :: 0 <= i < |records| ==> rs[i] == Contribution(format, records[i])
  {
    Mapped(Contributor(format), records)
  }

  /** The batch payload: every record's contribution, in record order. */
  function BatchPayload(format: LogFormat, records: seq<Option<Envelope>>): string {
    Concat(Contributions(format, records))
  }

  /** The payload of a split batch is the payload of its first part followed by that of the rest. */
  lemma BatchPayloadOrder(format: LogFormat, a: seq<Option<Envelope>>, b: seq<Option<Envelope>>)
    ensures BatchPayload(format, a + b) == BatchPayload(format, a) + BatchPayload(format, b)
  {
    MappedAppend(Contributor(format), a, b);
    ConcatAppend(Contributions(format, a), Contributions(format, b));
  }

  /** The payload is empty exactly when every record contributes nothing. */
  lemma BatchPayloadEmpty(format: LogFormat, records: seq<Option<Envelope>>)
    ensures BatchPayload(format, records) == "" <==>
      forall i :: 0 <= i < |records| ==> Contribution(format, records[i]) == ""
  {
    ConcatEmpty(Contributions(format, records));
  }

  /** `processLogs` maps every record through `getMessages`, then joins. */
  method BuildPayload(format: LogFormat, records: seq<Option<Envelope>>) returns (data: string)
    ensures data == BatchPayload(format, records)
  {
    var results: seq<string> := [];
    for i := 0 to |records|
      invariant results == Contributions(format, records[..i])
    {
      var s := GetMessages(format, records[i]);
      MappedSnoc(Contributor(format), records, i);
      results := results + [s];
    }
    assert records[..|records|] == records;
    data := JoinResults(results);
  }

  // ---------------------------------------------------------------- object key

  /** The local-time readings of `new Date()` that the key uses (`getMonth()` counts from 0). */
  datatype LocalClock = LocalClock(fullYear: int, month: nat, date: nat,
                                   hours: nat, minutes: nat, seconds: nat)

  predicate ValidClock(c: LocalClock) {
    c.month < 12 && 1 <= c.date <= 31 && c.hours < 24 && c.minutes < 60 && c.seconds < 60
  }

  /** `YYYY-MM-DD` of the key, with the source's `+1` on the day. */
  function DateField(c: LocalClock): string {
    IntToString(c.fullYear) + "-" + TwoDigitField(c.month + 1) + "-" + TwoDigitField(c.date + 1)
  }

  /** `hh-mm-ss` of the key, with the source's `+1` on hour, minute and second. */
  function ClockField(c: LocalClock): string {
    TwoDigitField(c.hours + 1) + "-" + TwoDigitField(c.minutes + 1) + "-" + TwoDigitField(c.seconds + 1)
  }

  /** The date-time part of the key. */
  function TimeString(c: LocalClock): string {
    DateField(c) + "-" + ClockField(c)
  }

  /**
   * `(Math.random().toString(36) + '0000000000000000').slice(2, 18)`, where `randomText` is
   * the base-36 rendering of the random number (`"0.4fzyo82mvyr"` and the like).
   */
  function RandomSuffix(randomText: string): (r: string)
    ensures 2 <= |randomText| ==> |r| == 16
    ensures 2 <= |randomText| ==> r == (randomText + "0000000000000000")[2..18]
  {
    Slice(randomText + "0000000000000000", 2, 18)
  }

  /** `getObjectName`: `prefix + YYYY-MM-DD-hh-mm-ss + "-" + suffix + ".json.gz"`. */
  function GetObjectName(prefix: string, clock: LocalClock, randomText: string): string {
    prefix + TimeString(clock) + "-" + RandomSuffix(randomText) + ".json.gz"
  }

  lemma FourDigitYear(y: int)
    requires 1000 <= y <= 9999
    ensures IntToString(y) == PadDigits(y, 4)
  {
    assert Pow10(3) == 1000 && Pow10(4) == 10000;
    NatToStringPads(y, 4);
  }

  /** For a valid clock with a four-digit year every field of the time string has fixed width. */
  lemma TimeStringFields(c: LocalClock)
    requires ValidClock(c) && 1000 <= c.fullYear <= 9999
    ensures DateField(c) == PadDigits(c.fullYear, 4) + "-" + PadDigits(c.month + 1, 2) + "-" + PadDigits(c.date + 1, 2)
    ensures ClockField(c) == PadDigits(c.hours + 1, 2) + "-" + PadDigits(c.minutes + 1, 2) + "-" + PadDigits(c.seconds + 1, 2)
  {
    DateFieldPads(c);
    ClockFieldPads(c);
  }

  lemma DateFieldPads(c: LocalClock)
    requires ValidClock(c) && 1000 <= c.fullYear <= 9999
    ensures DateField(c) == PadDigits(c.fullYear, 4) + "-" + PadDigits(c.month + 1, 2) + "-" + PadDigits(c.date + 1, 2)
  {
    FourDigitYear(c.fullYear);
    TwoDigitFieldPads(c.month + 1);
    TwoDigitFieldPads(c.date + 1);
  }

  lemma ClockFieldPads(c: LocalClock)
    requires ValidClock(c)
    ensures ClockField(c) == PadDigits(c.hours + 1, 2) + "-" + PadDigits(c.minutes + 1, 2) + "-" + PadDigits(c.seconds + 1, 2)
  {
    TwoDigitFieldPads(c.hours + 1);
    TwoDigitFieldPads(c.minutes + 1);
    TwoDigitFieldPads(c.seconds + 1);
  }

  /**
   * For a four-digit year the key is read back field by field: the prefix, the year, the
   * month (1-based), day, hour, minute and second each one more than the clock reading and
   * zero-padded to two digits (so `PadDigitsValue` reads each back as that number), the
   * 16-character suffix and the `.json.gz` extension.
   */
  lemma ObjectNameFields(prefix: string, c: LocalClock, randomText: string)
    requires ValidClock(c) && 1000 <= c.fullYear <= 9999 && 2 <= |randomText|
    ensures var key := GetObjectName(prefix, c, randomText);
      var k := key[|prefix|..];
      && |key| == |prefix| + 44 && key[..|prefix|] == prefix
      && k[4] == '-' && k[7] == '-' && k[10] == '-' && k[13] == '-' && k[16] == '-' && k[19] == '-'
      && k[0..4] == PadDigits(c.fullYear, 4)
      && k[5..7] == PadDigits(c.month + 1, 2)
      && k[8..10] == PadDigits(c.date + 1, 2)
      && k[11..13] == PadDigits(c.hours + 1, 2)
      && k[14..16] == PadDigits(c.minutes + 1, 2)
      && k[17..19] == PadDigits(c.seconds + 1, 2)
      && k[20..36] == RandomSuffix(randomText)
      && k[36..] == ".json.gz"
  {
    TimeStringFields(c);
    var date, time, suffix := DateField(c), ClockField(c), RandomSuffix(randomText);
    TripleLayout(PadDigits(c.fullYear, 4), '-', PadDigits(c.month + 1, 2), PadDigits(c.date + 1, 2));
    TripleLayout(PadDigits(c.hours + 1, 2), '-', PadDigits(c.minutes + 1, 2), PadDigits(c.seconds + 1, 2));
    var key := GetObjectName(prefix, c, randomText);
    KeyAfterPrefix(prefix, date + "-" + time, suffix);
    var k := key[|prefix|..];
    KeyLayout(date, time, suffix);
    SliceOfSlice(k, 0, 10, 0, 4);
    SliceOfSlice(k, 0, 10, 5, 7);
    SliceOfSlice(k, 0, 10, 8, 10);
    SliceOfSlice(k, 11, 19, 0, 2);
    SliceOfSlice(k, 11, 19, 3, 5);
    SliceOfSlice(k, 11, 19, 6, 8);
    assert k[4] == date[4] && k[7] == date[7] && k[13] == time[2] && k[16] == time[5];
  }

  /** What follows the prefix of a key. */
  lemma KeyAfterPrefix(prefix: string, t: string, suffix: string)
    ensures var key := prefix + t + "-" + suffix + ".json.gz";
      key[..|prefix|] == prefix && key[|prefix|..] == t + "-" + suffix + ".json.gz"
  {
    var key := prefix + t + "-" + suffix + ".json.gz";
    assert key == prefix + (t + "-" + suffix + ".json.gz");
  }

  /** Where the date, the time, the suffix and the extension sit after the prefix. */
  lemma KeyLayout(date: string, time: string, suffix: string)
    requires |date| == 10 && |time| == 8 && |suffix| == 16
    ensures var k := date + "-" + time + "-" + suffix + ".json.gz";
      && |k| == 44 && k[10] == '-' && k[19] == '-'
      && k[0..10] == date && k[11..19] == time && k[20..36] == suffix && k[36..] == ".json.gz"
  {
  }

  /**
   * The `+1` shows in the key: the local reading 2024-12-31 23:59:59 (`getMonth()` is 11)
   * is written with day 32, hour 24, minute 60 and second 60.
   */
  lemma ObjectNameOffByOne(c: LocalClock)
    requires c == LocalClock(2024, 11, 31, 23, 59, 59)
    ensures TimeString(c) == "2024-12-32" + "-" + "24-60-60"
  {
    TimeStringFields(c);
    LastSecondDate();
    LastSecondTime();
  }

  lemma LastSecondDate()
    ensures PadDigits(2024, 4) + "-" + PadDigits(12, 2) + "-" + PadDigits(32, 2) == "2024-12-32"
  {
    assert PadDigits(2024, 4) == "2024";
    assert PadDigits(12, 2) == "12" && PadDigits(32, 2) == "32";
  }

  lemma LastSecondTime()
    ensures PadDigits(24, 2) + "-" + PadDigits(60, 2) + "-" + PadDigits(60, 2) == "24-60-60"
  {
    assert PadDigits(24, 2) == "24" && PadDigits(60, 2) == "60";
  }

  // ---------------------------------------------------------------- upload

  /** The stored body: the gzip of a text, kept symbolically. */
  datatype Body = Gzip(text: string)

  function Gunzip(b: Body): string {
    b.text
  }

  datatype PutObjectRequest = PutObjectRequest(bucket: string, key: string, body: Body,
                                               contentType: string, contentEncoding: string)

  /** The `PutObject` parameters `uploadData` builds from a payload. */
  function PutRequestFor(data: string, bucket: string, key: string): (req: PutObjectRequest)
    ensures Gunzip(req.body) == data && req.bucket == bucket && req.key == key
    ensures req.contentType == "application/json" && req.contentEncoding == "gzip"
  {
    PutObjectRequest(bucket, key, Gzip(data), "application/json", "gzip")
  }

  /** The S3 client of one invocation: its configured region, endpoint and the objects it has stored. */
  class S3Client {
    const region: Option<string>
    var endpoint: Option<string>
    var sent: seq<PutObjectRequest>

    constructor (region: Option<string>)
      ensures this.region == region && endpoint == None && sent == []
    {
      this.region := region;
      endpoint := None;
      sent := [];
    }

    /** `s3Client.config.endpoint = ...`. */
    method SetEndpoint(url: string)
      modifies this
      ensures endpoint == Some(url) && sent == old(sent)
    {
      endpoint := Some(url);
    }

    /** `send(new PutObjectCommand(req))`; `observed` is what S3 answered. */
    method Send(req: PutObjectRequest, observed: Option<S3Error>) returns (err: Option<S3Error>)
      modifies this
      ensures sent == old(sent) + [req] && endpoint == old(endpoint)
      ensures err == observed
    {
      sent := sent + [req];
      err := observed;
    }
  }

  /** `uploadData`: nothing is sent for an empty payload; a store error is rethrown. */
  method UploadData(data: string, bucket: string, key: string, client: S3Client,
                    observed: Option<S3Error>) returns (err: Option<S3Error>)
    modifies client
    ensures client.endpoint == old(client.endpoint)
    ensures client.sent == old(client.sent) + (if data == "" then [] else [PutRequestFor(data, bucket, key)])
    ensures err == if data == "" then None else observed
  {
    if data == "" {
      return None;
    }
    err := client.Send(PutRequestFor(data, bucket, key), observed);
  }

  /** The invocation's arguments for `processLogs`. */
  datatype ProcessArgs = ProcessArgs(awsRegion: Option<string>, s3BucketName: string,
                                     logFormat: string, s3LogFilePrefix: string,
                                     records: seq<Option<Envelope>>)

  /** What the Lambda reports: `context.succeed` or `context.fail`. */
  datatype InvocationResult = Succeeded | Failed(error: S3Error)

  /** `processLogs`: build the payload, name the object, upload; a store error fails the invocation. */
  method ProcessLogs(args: ProcessArgs, client: S3Client, clock: LocalClock, randomText: string,
                     observed: Option<S3Error>) returns (result: InvocationResult)
    modifies client
    ensures var data := BatchPayload(FormatOf(args.logFormat), args.records);
      var key := GetObjectName(args.s3LogFilePrefix, clock, randomText);
      && client.endpoint == old(client.endpoint)
      && client.sent == old(client.sent) + (if data == "" then [] else [PutRequestFor(data, args.s3BucketName, key)])
      && result == if data != "" && observed.Some? then Failed(observed.value) else Succeeded
  {
    var data := BuildPayload(FormatOf(args.logFormat), args.records);
    var objectName := GetObjectName(args.s3LogFilePrefix, clock, randomText);
    var err := UploadData(data, args.s3BucketName, objectName, client, observed);
    result := if err.Some? then Failed(err.value) else Succeeded;
  }

  /** `data.LocationConstraint || args.awsRegion`: an empty constraint falls back to the configured region. */
  function EndpointRegion(locationConstraint: Option<string>, awsRegion: Option<string>): (r: Option<string>)
    ensures locationConstraint.None? || locationConstraint.value == "" ==> r == awsRegion
    ensures locationConstraint.Some? && locationConstraint.value != "" ==> r == locationConstraint
  {
    if locationConstraint.None? || locationConstraint.value == "" then awsRegion else locationConstraint
  }

  /**
   * `handleProcessLogs`: look up the bucket's region (`location` is what `GetBucketLocation`
   * answered), point the client at that region's endpoint, then process the batch.
   */
  method HandleProcessLogs(args: ProcessArgs, location: Result<Option<string>, S3Error>,
                           clock: LocalClock, randomText: string, observed: Option<S3Error>)
    returns (client: S3Client, result: InvocationResult)
    ensures client.region == args.awsRegion
    ensures location.Failure? ==> client.sent == [] && result == Failed(location.error)
    ensures location.Success? ==>
      var data := BatchPayload(FormatOf(args.logFormat), args.records);
      && client.endpoint == Some("https://" + GetS3Endpoint(EndpointRegion(location.value, args.awsRegion)))
      && client.sent == (if data == "" then []
                         else [PutRequestFor(data, args.s3BucketName,
                                             GetObjectName(args.s3LogFilePrefix, clock, randomText))])
      && result == if data != "" && observed.Some? then Failed(observed.value) else Succeeded
  {
    client := new S3Client(args.awsRegion);
    if location.Failure? {
      return client, Failed(location.error);
    }
    var endpoint := GetS3Endpoint(EndpointRegion(location.value, args.awsRegion));
    client.SetEndpoint("https://" + endpoint);
    result := ProcessLogs(args, client, clock, randomText, observed);
  }

  // ---------------------------------------------------------------- dispatch

  /** The operations the handler's switch accepts. */
  datatype Operation = ProcessLogsOp | CreateSourceOp | DeleteSourceOp

  function OperationName(op: Operation): string {
    match op
    case ProcessLogsOp => "processLogs"
    case CreateSourceOp => "createSource"
    case DeleteSourceOp => "deleteSource"
  }

  /** The handler's switch on `args.operation`; an unknown name fails with its message. */
  function Dispatch(operation: string): (r: Result<Operation, string>)
    ensures r.Success? ==> OperationName(r.value) == operation
    ensures r.Failure? ==> r.error == "Unsupported operation: '" + operation + "'."
  {
    if operation == "processLogs" then Success(ProcessLogsOp)
    else if operation == "createSource" then Success(CreateSourceOp)
    else if operation == "deleteSource" then Success(DeleteSourceOp)
    else Failure("Unsupported operation: '" + operation + "'.")
  }

  /** Every operation is dispatched by its own name, so only the three names succeed. */
  lemma DispatchByName(op: Operation)
    ensures Dispatch(OperationName(op)) == Success(op)
  {
  }
}
