/** The full logger (src/sumoLogger.ts): a pending queue of encoded lines,
    a sending flag, an interval timer and a configuration that can be
    partially updated. A send is split at its one `await` into BeginSend
    (guard, flag, headers, captured count, body) and CompleteSend (success
    or failure of the transport); any other call may happen in between. */
module SumoLoggerFull {
  import opened JsValues
  import opened JsonText
  import opened Codec

  const DefaultInterval := 0
  const DefaultBatch := 0

  /** Construction and update options; `None` is an absent field. The
      success and error callbacks are not data here: the calls made to them
      are recorded in SumoLogger.notifications. */
  datatype Options = Options(
    endpoint: Option<string>,
    returnPromise: Option<bool>,
    interval: Option<int>,
    useIntervalOnly: Option<bool>,
    batchSize: Option<int>,
    raw: Option<bool>,
    clientUrl: Option<string>,
    sessionKey: Option<string>,
    hostName: Option<string>,
    sourceCategory: Option<string>,
    sourceName: Option<string>,
    graphite: Option<bool>)

  datatype Config = Config(
    endpoint: string,
    returnPromise: bool,
    clientUrl: string,
    useIntervalOnly: bool,
    interval: int,
    batchSize: int,
    sourceName: string,
    hostName: string,
    sourceCategory: string,
    sessionKey: string,
    graphite: bool,
    raw: bool)

  /** `o || false` */
  predicate IsTrue(o: Option<bool>) {
    o == Some(true)
  }

  /** `o || d` for an optional number. */
  function NumOr(o: Option<int>, d: int): int {
    if o.Some? && o.value != 0 then o.value else d
  }

  /** The constructor's check: the endpoint is a non-empty string. */
  predicate Accepts(options: Options) {
    options.endpoint.Some? && options.endpoint.value != ""
  }

  /** `setConfig`: every option, or its default when absent or falsy; the
      session key defaults to a generated identifier, given here as uuid. */
  function ConfigFrom(o: Options, uuid: string): (c: Config)
    requires o.endpoint.Some?
    ensures c.endpoint == o.endpoint.value
    ensures c.interval == (if o.interval.Some? && o.interval.value != 0 then o.interval.value else 0)
    ensures c.batchSize == (if o.batchSize.Some? && o.batchSize.value != 0 then o.batchSize.value else 0)
    ensures c.returnPromise == (o.returnPromise != Some(false))
    ensures c.useIntervalOnly == IsTrue(o.useIntervalOnly) && c.graphite == IsTrue(o.graphite) && c.raw == IsTrue(o.raw)
    ensures c.sessionKey == OrElse(o.sessionKey, uuid) && c.clientUrl == OrElse(o.clientUrl, "")
    ensures c.sourceName == OrElse(o.sourceName, "") && c.hostName == OrElse(o.hostName, "")
    ensures c.sourceCategory == OrElse(o.sourceCategory, "")
  {
    Config(
      endpoint := o.endpoint.value,
      returnPromise := o.returnPromise.GetOr(true),
      clientUrl := OrElse(o.clientUrl, ""),
      useIntervalOnly := IsTrue(o.useIntervalOnly),
      interval := NumOr(o.interval, DefaultInterval),
      batchSize := NumOr(o.batchSize, DefaultBatch),
      sourceName := OrElse(o.sourceName, ""),
      hostName := OrElse(o.hostName, ""),
      sourceCategory := OrElse(o.sourceCategory, ""),
      sessionKey := OrElse(o.sessionKey, uuid),
      graphite := IsTrue(o.graphite),
      raw := IsTrue(o.raw))
  }

  /** `updateConfig`: batchSize, endpoint, returnPromise, sourceCategory,
      useIntervalOnly and interval take the update's value when it is
      truthy; every other field, and every field whose update is falsy,
      keeps its value. */
  function Updated(c: Config, u: Options): (r: Config)
    ensures r.(batchSize := 0, endpoint := "", returnPromise := false, sourceCategory := "",
               useIntervalOnly := false, interval := 0)
         == c.(batchSize := 0, endpoint := "", returnPromise := false, sourceCategory := "",
               useIntervalOnly := false, interval := 0)
    ensures r.batchSize == NumOr(u.batchSize, c.batchSize)
    ensures r.interval == NumOr(u.interval, c.interval)
    ensures r.endpoint == OrElse(u.endpoint, c.endpoint)
    ensures r.sourceCategory == OrElse(u.sourceCategory, c.sourceCategory)
    ensures r.returnPromise == (IsTrue(u.returnPromise) || c.returnPromise)
    ensures r.useIntervalOnly == (IsTrue(u.useIntervalOnly) || c.useIntervalOnly)
  {
    c.(batchSize := NumOr(u.batchSize, c.batchSize),
       endpoint := OrElse(u.endpoint, c.endpoint),
       returnPromise := if IsTrue(u.returnPromise) then true else c.returnPromise,
       sourceCategory := OrElse(u.sourceCategory, c.sourceCategory),
       useIntervalOnly := if IsTrue(u.useIntervalOnly) then true else c.useIntervalOnly,
       interval := NumOr(u.interval, c.interval))
  }

  /** Applying the same update twice changes nothing the first did not. */
  lemma UpdateIdempotent(c: Config, u: Options)
    ensures Updated(Updated(c, u), u) == Updated(c, u)
  {
  }

  // ---------------------------------------------------------------------
  // Validation and encoding in `log`
  // ---------------------------------------------------------------------

  /** The checks `log` makes before encoding, in the source's order: a falsy
      message; an undefined first element; in Graphite mode a falsy first
      element or one without a defined `path` and `value`; a first element
      of object type when `isEmpty(message)` (only a single keyless object,
      since an array reaching this point has an element). */
  function Check(m: Message, graphite: bool): (r: Option<Rejection>)
    ensures !MessageTruthy(m) ==> r == Some(NoMessage)
    ensures MessageTruthy(m) && First(m).Undefined? ==> r == Some(NoValue)
    ensures r.None? ==> |Items(m)| >= 1 && !First(m).Undefined?
    ensures r.None? && graphite ==>
              DefinedNotNull(First(m)) && DefinedNotNull(Property(First(m), "path"))
              && DefinedNotNull(Property(First(m), "value"))
    ensures m.One? && m.item.Obj? && Keys(m.item.props) == {} ==>
              r == Some(if graphite then GraphiteFields else EmptyObject)
    ensures m.Many? && |m.items| >= 1 && !m.items[0].Undefined? && !graphite ==> r.None?
    ensures !graphite ==>
              (r.None? <==> MessageTruthy(m) && !First(m).Undefined?
                            && !(m.One? && m.item.Obj? && Keys(m.item.props) == {}))
    ensures graphite ==>
              (r.None? <==> First(m).Obj? && DefinedNotNull(Property(First(m), "path"))
                            && DefinedNotNull(Property(First(m), "value")))
  {
    if !MessageTruthy(m) then Some(NoMessage)
    else
      var testEl := First(m);
      if testEl.Undefined? then Some(NoValue)
      else if graphite && (!Truthy(testEl) || !DefinedNotNull(Property(testEl, "path"))
                           || !DefinedNotNull(Property(testEl, "value"))) then Some(GraphiteFields)
      else if IsObjectType(testEl) && IsEmpty(m) then Some(EmptyObject)
      else None
  }

  /** One element of the message as a queue line: Graphite is checked
      before raw; reading `path` of a null or undefined element throws
      (None). */
  function EncodeItem(item: JsValue, ctx: Context, ms: int, graphite: bool, raw: bool): (r: Option<Line>)
    ensures r.None? <==> graphite && !DefinedNotNull(item)
  {
    if graphite then
      if DefinedNotNull(item) then Some(Text(GraphiteLine(item, ms))) else None
    else if raw then Some(Raw(item))
    else Some(Record(JsonRecord(item, ctx)))
  }

  /** The kind of line each mode produces: Graphite is checked first and
      gives a text line, raw passes the element through, and JSON mode gives
      a record with distinct keys. */
  lemma EncodeItemKinds(item: JsValue, ctx: Context, ms: int, graphite: bool, raw: bool)
    ensures var r := EncodeItem(item, ctx, ms, graphite, raw);
            (graphite && r.Some? ==> r.value.Text?)
            && (!graphite && raw ==> r == Some(Raw(item)))
            && (!graphite && !raw ==> r.Some? && r.value.Record? && DistinctKeys(r.value.props))
  {
  }

  /** The `map` over the message: one line per element, in order; it throws
      exactly when Graphite mode meets a null or undefined element. */
  function EncodeAll(items: seq<JsValue>, ctx: Context, ms: int, graphite: bool, raw: bool): (r: Option<seq<Line>>)
    ensures r.None? <==> graphite && exists i :: 0 <= i < |items| && !DefinedNotNull(items[i])
    ensures r.Some? ==> |r.value| == |items|
    ensures r.Some? ==> forall i :: 0 <= i < |items| ==> EncodeItem(items[i], ctx, ms, graphite, raw) == Some(r.value[i])
  {
    if graphite && exists i :: 0 <= i < |items| && !DefinedNotNull(items[i]) then None
    else Some(seq(|items|, i requires 0 <= i < |items| => EncodeItem(items[i], ctx, ms, graphite, raw).value))
  }

  /** In JSON mode (neither Graphite nor raw) every encoded line is a record. */
  lemma JsonModeEncodesRecords(items: seq<JsValue>, ctx: Context, ms: int)
    ensures EncodeAll(items, ctx, ms, false, false).Some?
    ensures AllRecords(EncodeAll(items, ctx, ms, false, false).value)
  {
  }

  // ---------------------------------------------------------------------
  // batchReadyToSend
  // ---------------------------------------------------------------------

  predicate AllRecords(q: seq<Line>) {
    forall i :: 0 <= i < |q| ==> q[i].Record?
  }

  /** `log.msg` as appended to a string; a record without `msg` appends
      "undefined". */
  function MsgText(l: Line): (r: string)
    requires l.Record?
    ensures Get(l.props, "msg").Some? && Get(l.props, "msg").value.Str? ==> r == Get(l.props, "msg").value.s
    ensures "msg" !in Keys(l.props) ==> r == "undefined"
  {
    ToText(Get(l.props, "msg").GetOr(Undefined))
  }

  /** The aggregated size the threshold is compared with: per entry, the
      JavaScript length of its message plus one for the newline. */
  function MessageChars(q: seq<Line>): nat
    requires AllRecords(q)
    decreases |q|
  {
    if q == [] then 0 else Utf16Length(MsgText(q[0])) + 1 + MessageChars(q[1..])
  }

  lemma {:induction false} MessageCharsAppend(a: seq<Line>, b: seq<Line>)
    requires AllRecords(a) && AllRecords(b)
    ensures AllRecords(a + b)
    ensures MessageChars(a + b) == MessageChars(a) + MessageChars(b)
    decreases |a|
  {
    if a == [] {
      assert a + b == b;
    } else {
      assert (a + b)[1..] == a[1..] + b;
      MessageCharsAppend(a[1..], b);
    }
  }

  /** One step of the reduce adds the entry's length plus one. */
  lemma PendingMessagesStep(init: seq<Line>, last: Line, acc: string)
    requires AllRecords(init) && last.Record?
    requires Utf16Length(acc) == MessageChars(init)
    ensures AllRecords(init + [last])
    ensures Utf16Length(acc + MsgText(last) + "\n") == MessageChars(init + [last])
    ensures var r := acc + MsgText(last) + "\n"; |r| > 0 && r[|r| - 1] == '\n'
  {
    assert [last][1..] == [];
    MessageCharsAppend(init, [last]);
    Utf16Append(acc, MsgText(last));
    Utf16Append(acc + MsgText(last), "\n");
  }

  /** The string the reduce in `batchReadyToSend` builds: `acc + log.msg +
      "\n"` entry by entry, from the front. Its JavaScript length (UTF-16
      code units) is the per-entry sum, and it ends with a newline unless
      the queue is empty. */
  function PendingMessages(q: seq<Line>): (r: string)
    requires AllRecords(q)
    ensures Utf16Length(r) == MessageChars(q)
    ensures q == [] <==> r == ""
    ensures q != [] ==> r[|r| - 1] == '\n'
    decreases |q|
  {
    if q == [] then ""
    else
      var init, last := q[..|q| - 1], q[|q| - 1];
      var acc := PendingMessages(init);
      assert init + [last] == q;
      PendingMessagesStep(init, last, acc);
      acc + MsgText(last) + "\n"
  }

  /** The answer of `batchReadyToSend` (its effect on the timer is in
      SumoLogger.BatchReadyToSend): with no batch size, "interval is 0";
      otherwise whether the length of the reduce's string, that is the sum
      over entries of the message's length plus one, reached the batch
      size. */
  function BatchReady(c: Config, q: seq<Line>): (r: bool)
    requires c.batchSize != 0 ==> AllRecords(q)
    ensures c.batchSize == 0 ==> (r <==> c.interval == 0)
    ensures c.batchSize != 0 ==> (r <==> MessageChars(q) >= c.batchSize)
  {
    if c.batchSize == 0 then c.interval == 0 else Utf16Length(PendingMessages(q)) >= c.batchSize
  }

  /** A message of one character beyond the Basic Multilingual Plane counts
      as three towards the batch size: two code units and the newline. */
  lemma AstralMessageCounts(c: Config, ctx: Context)
    requires c.batchSize == 3
    ensures var q := [Record(StringRecord("\U{1F600}", ctx))];
            AllRecords(q) && BatchReady(c, q)
  {
    var q := [Record(StringRecord("\U{1F600}", ctx))];
    assert q[1..] == [];
    assert MsgText(q[0]) == "\U{1F600}";
    var s := "\U{1F600}";
    assert s[1..] == [];
  }

  /** Once the threshold is reached, further lines keep it reached; so the
      first `log` whose lines bring the size to the threshold is the one that
      finds the batch ready, and none before it does. */
  lemma BatchReadyStays(c: Config, q: seq<Line>, more: seq<Line>)
    requires c.batchSize != 0 && AllRecords(q) && AllRecords(more)
    ensures AllRecords(q + more)
    ensures BatchReady(c, q) ==> BatchReady(c, q + more)
    ensures BatchReady(c, q + more) <==> MessageChars(q) + MessageChars(more) >= c.batchSize
  {
    MessageCharsAppend(q, more);
  }

  // ---------------------------------------------------------------------
  // Sending
  // ---------------------------------------------------------------------

  /** The request `sendLogs` makes: POST to the endpoint, headers from the
      configuration, body the newline-join of the whole queue. */
  function RequestFor(c: Config, q: seq<Line>): (r: Request)
    ensures r.url == c.endpoint
    ensures r.headers == Headers(c.graphite, c.sourceName, c.sourceCategory, c.hostName)
    ensures r.body == Join(Texts(q), "\n")
  {
    Request(c.endpoint, Headers(c.graphite, c.sourceName, c.sourceCategory, c.hostName), Body(q))
  }

  /** `q.slice(n)`: drops the first n entries, or every entry when there are
      fewer. */
  function Slice(q: seq<Line>, n: nat): (r: seq<Line>)
    ensures |r| == if n <= |q| then |q| - n else 0
    ensures forall i :: 0 <= i < |r| ==> r[i] == q[n + i]
  {
    if n <= |q| then q[n..] else []
  }

  /** A successful send removes the n lines it carried; the lines logged
      while it was in flight stay, in order. */
  lemma SuccessKeepsArrivals(sent: seq<Line>, arrived: seq<Line>)
    ensures Slice(sent + arrived, |sent|) == arrived
  {
  }

  /** Removal is by count, not by identity: when the queue was emptied while
      a send of n lines was in flight, up to n lines logged after that are
      removed on success although they were never sent. */
  lemma SuccessAfterEmptyDropsUnsent(arrived: seq<Line>, n: nat)
    requires |arrived| <= n
    ensures Slice(arrived, n) == []
  {
  }

  datatype Notification = SuccessCalled | ErrorCalled(error: string)

  /** What the transport did with a request. */
  datatype Outcome = Delivered | Failed(error: string)

  /** What `log` returned: false with a diagnostic, true, the promise of a
      send it started (None when `sendLogs` found a send in flight), or a
      TypeError thrown by the encoder. */
  datatype LogResult = Rejected(why: Rejection) | Queued | Flushing(request: Option<Request>) | Threw

  /** What `log` needs of the queue when it consults `batchReadyToSend`:
      JSON mode, where every entry is a record. */
  predicate Measurable(c: Config, q: seq<Line>) {
    !c.useIntervalOnly && c.batchSize != 0 ==> !c.graphite && !c.raw && AllRecords(q)
  }

  lemma AllRecordsAppend(a: seq<Line>, b: seq<Line>)
    requires AllRecords(a) && AllRecords(b)
    ensures AllRecords(a + b)
  {
    forall i | 0 <= i < |a + b|
      ensures (a + b)[i].Record?
    {
      if i >= |a| {
        assert (a + b)[i] == b[i - |a|];
      }
    }
  }

  /** The lines one `log` call appends: every element encoded with the
      call's context (per-call session key, url and timestamp, else the
      configured ones and `now`). None when encoding throws. */
  function LogLines(c: Config, m: Message, opts: PerCall, now: Timestamp): (r: Option<seq<Line>>)
    ensures r.None? <==> c.graphite && exists i :: 0 <= i < |Items(m)| && !DefinedNotNull(Items(m)[i])
    ensures r.Some? ==> |r.value| == |Items(m)|
    ensures !c.graphite && c.raw ==> r.Some? && forall i :: 0 <= i < |Items(m)| ==> r.value[i] == Raw(Items(m)[i])
  {
    var ts := opts.timestamp.GetOr(now);
    EncodeAll(Items(m), ContextFor(opts, c.sessionKey, c.clientUrl, ts), ts.ms, c.graphite, c.raw)
  }

  /** `log` accepts the message and encoding does not throw. */
  predicate Accepted(c: Config, m: Message, opts: PerCall, now: Timestamp) {
    Check(m, c.graphite).None? && LogLines(c, m, opts, now).Some?
  }

  /** An accepted call appends one line per element, at least one, and in
      JSON mode only records. */
  lemma LogLinesFacts(c: Config, m: Message, opts: PerCall, now: Timestamp)
    requires Accepted(c, m, opts, now)
    ensures |LogLines(c, m, opts, now).value| == |Items(m)| >= 1
    ensures !c.graphite && !c.raw ==> AllRecords(LogLines(c, m, opts, now).value)
  {
  }

  class SumoLogger {
    var config: Config
    /** `this.interval` holds a live timer handle. */
    var armed: bool
    var logSending: bool
    var pendingLogs: seq<Line>
    /** `numberOfLogs` of the send awaiting its response; 0 when none. */
    var inFlight: nat
    /** The calls made to `onSuccess` and `onError`, in order. */
    var notifications: seq<Notification>

    /** A send in flight carries at least one line; none is recorded
        otherwise. */
    ghost predicate Valid()
      reads this
    {
      (logSending ==> inFlight >= 1) && (!logSending ==> inFlight == 0)
    }

    constructor (options: Options, uuid: string)
      requires Accepts(options)
      ensures Valid()
      ensures config == ConfigFrom(options, uuid)
      ensures armed <==> config.interval > 0
      ensures pendingLogs == [] && !logSending && notifications == []
    {
      config := ConfigFrom(options, uuid);
      armed := false;
      logSending := false;
      pendingLogs := [];
      inFlight := 0;
      notifications := [];
      new;
      StartLogSending();
    }

    method SetConfig(options: Options, uuid: string)
      requires options.endpoint.Some?
      modifies this`config
      ensures config == ConfigFrom(options, uuid)
    {
      config := ConfigFrom(options, uuid);
    }

    /** A truthy interval also restarts the timer, which arms it only when
        the interval is positive. */
    method UpdateConfig(u: Options)
      modifies this`config, this`armed
      ensures config == Updated(old(config), u)
      ensures armed == (old(armed) || (NumOr(u.interval, 0) != 0 && config.interval > 0))
    {
      config := Updated(config, u);
      if NumOr(u.interval, 0) != 0 {
        StartLogSending();
      }
    }

    method BatchReadyToSend() returns (ready: bool)
      requires config.batchSize != 0 ==> AllRecords(pendingLogs)
      modifies this`armed
      ensures ready == BatchReady(config, pendingLogs)
      ensures armed == (old(armed) && !(ready && config.batchSize != 0))
    {
      if config.batchSize == 0 {
        ready := config.interval == 0;
      } else {
        var pendingMessages := PendingMessages(pendingLogs);
        ready := Utf16Length(pendingMessages) >= config.batchSize;
        if ready {
          StopLogSending();
        }
      }
    }

    /** `_postSuccess`: drop the sent count from the front, clear the flag,
        restart the timer, call `onSuccess`. */
    method PostSuccess(logsSentLength: nat)
      modifies this`pendingLogs, this`logSending, this`armed, this`notifications
      ensures pendingLogs == Slice(old(pendingLogs), logsSentLength)
      ensures !logSending
      ensures armed == (old(armed) || config.interval > 0)
      ensures notifications == old(notifications) + [SuccessCalled]
    {
      pendingLogs := Slice(pendingLogs, logsSentLength);
      logSending := false;
      StartLogSending();
      notifications := notifications + [SuccessCalled];
    }

    /** `sendLogs` up to its `await`: refused (None, nothing changes) when a
        send is in flight or the queue is empty; otherwise the flag is set,
        the queue length is captured and the request carries the whole
        queue. The queue itself is not touched. */
    method BeginSend() returns (req: Option<Request>)
      requires Valid()
      modifies this`logSending, this`inFlight
      ensures Valid()
      ensures old(logSending) || pendingLogs == [] ==>
                req.None? && logSending == old(logSending) && inFlight == old(inFlight)
      ensures !old(logSending) && pendingLogs != [] ==>
                logSending && inFlight == |pendingLogs| && req == Some(RequestFor(config, pendingLogs))
    {
      if logSending || |pendingLogs| == 0 {
        return None;
      }
      logSending := true;
      var headers := Headers(config.graphite, config.sourceName, config.sourceCategory, config.hostName);
      var logsToSend := pendingLogs;
      var numberOfLogs := |logsToSend|;
      inFlight := numberOfLogs;
      req := Some(Request(config.endpoint, headers, Body(pendingLogs)));
    }

    /** `sendLogs` after its `await`. Success: the captured count leaves the
        front of the queue as it is now, the timer is restarted and
        `onSuccess` called. Failure: the queue and the timer are left alone
        and `onError` receives the error. Either way the flag is cleared. */
    method CompleteSend(outcome: Outcome) returns (delivered: bool)
      requires Valid() && logSending
      modifies this`pendingLogs, this`logSending, this`inFlight, this`armed, this`notifications
      ensures Valid() && !logSending && inFlight == 0
      ensures delivered <==> outcome.Delivered?
      ensures outcome.Delivered? ==>
                pendingLogs == Slice(old(pendingLogs), old(inFlight))
                && armed == (old(armed) || config.interval > 0)
                && notifications == old(notifications) + [SuccessCalled]
      ensures outcome.Failed? ==>
                pendingLogs == old(pendingLogs) && armed == old(armed)
                && notifications == old(notifications) + [ErrorCalled(outcome.error)]
    {
      var numberOfLogs := inFlight;
      if outcome.Delivered? {
        PostSuccess(numberOfLogs);
        delivered := true;
      } else {
        notifications := notifications + [ErrorCalled(outcome.error)];
        delivered := false;
      }
      logSending := false;
      inFlight := 0;
    }

    /** Arms the timer when the interval is positive, clearing any armed
        one first, so that at most one is ever armed; otherwise leaves the
        timer as it is. */
    method StartLogSending()
      modifies this`armed
      ensures armed == (old(armed) || config.interval > 0)
    {
      if config.interval > 0 {
        if armed {
          StopLogSending();
        }
        armed := true;
      }
    }

    method StopLogSending()
      modifies this`armed
      ensures !armed
    {
      armed := false;
    }

    method EmptyLogQueue()
      modifies this`pendingLogs
      ensures pendingLogs == []
    {
      pendingLogs := [];
    }

    method FlushLogs() returns (req: Option<Request>)
      requires Valid()
      modifies this`logSending, this`inFlight
      ensures Valid()
      ensures old(logSending) || pendingLogs == [] ==>
                req.None? && logSending == old(logSending) && inFlight == old(inFlight)
      ensures !old(logSending) && pendingLogs != [] ==>
                logSending && inFlight == |pendingLogs| && req == Some(RequestFor(config, pendingLogs))
    {
      req := BeginSend();
    }

    /** The armed timer fires: `sendLogs` runs. */
    method Tick() returns (req: Option<Request>)
      requires Valid() && armed
      modifies this`logSending, this`inFlight
      ensures Valid()
      ensures old(logSending) || pendingLogs == [] ==>
                req.None? && logSending == old(logSending) && inFlight == old(inFlight)
      ensures !old(logSending) && pendingLogs != [] ==>
                logSending && inFlight == |pendingLogs| && req == Some(RequestFor(config, pendingLogs))
    {
      req := BeginSend();
    }

    /** `log`: checks the message, encodes every element with this call's
        context, appends the lines in order, then, unless interval-only,
        asks `batchReadyToSend` and starts a send when it says so. The
        configuration never changes. */
    method Log(m: Message, opts: PerCall, now: Timestamp) returns (r: LogResult)
      requires Valid() && Measurable(config, pendingLogs)
      modifies this
      ensures Valid() && Measurable(config, pendingLogs)
      ensures config == old(config) && notifications == old(notifications)
      ensures Check(m, config.graphite).Some? ==>
                r == Rejected(Check(m, config.graphite).value) && unchanged(this)
      ensures Check(m, config.graphite).None? && LogLines(config, m, opts, now).None? ==>
                r == Threw && unchanged(this)
      ensures Accepted(config, m, opts, now) ==>
                pendingLogs == old(pendingLogs) + LogLines(config, m, opts, now).value
                && |pendingLogs| > |old(pendingLogs)|
      ensures r.Flushing? <==>
                Accepted(config, m, opts, now) && !config.useIntervalOnly && BatchReady(config, pendingLogs)
      ensures r == Queued <==>
                Accepted(config, m, opts, now) && !(!config.useIntervalOnly && BatchReady(config, pendingLogs))
      ensures r.Flushing? ==>
                armed == (old(armed) && config.batchSize == 0)
                && (old(logSending) ==> r.request.None? && logSending && inFlight == old(inFlight))
                && (!old(logSending) ==>
                      r.request == Some(RequestFor(config, pendingLogs)) && logSending && inFlight == |pendingLogs|)
      ensures r == Queued ==>
                armed == old(armed) && logSending == old(logSending) && inFlight == old(inFlight)
    {
      var why := Check(m, config.graphite);
      if why.Some? {
        return Rejected(why.value);
      }
      var ts := opts.timestamp.GetOr(now);
      var ctx := ContextFor(opts, config.sessionKey, config.clientUrl, ts);
      var encoded := EncodeAll(Items(m), ctx, ts.ms, config.graphite, config.raw);
      if encoded.None? {
        return Threw;
      }
      assert encoded == LogLines(config, m, opts, now) && Accepted(config, m, opts, now);
      LogLinesFacts(config, m, opts, now);
      if !config.useIntervalOnly && config.batchSize != 0 {
        AllRecordsAppend(pendingLogs, encoded.value);
      }
      pendingLogs := pendingLogs + encoded.value;
      r := SendIfReady();
    }

    /** The end of `log`, once its lines are queued: unless interval-only,
        ask `batchReadyToSend` and start a send if it says so. */
    method SendIfReady() returns (r: LogResult)
      requires Valid() && pendingLogs != [] && Measurable(config, pendingLogs)
      modifies this`armed, this`logSending, this`inFlight
      ensures Valid()
      ensures r.Flushing? || r == Queued
      ensures r.Flushing? <==> !config.useIntervalOnly && BatchReady(config, pendingLogs)
      ensures r.Flushing? ==>
                armed == (old(armed) && config.batchSize == 0)
                && (old(logSending) ==> r.request.None? && logSending && inFlight == old(inFlight))
                && (!old(logSending) ==>
                      r.request == Some(RequestFor(config, pendingLogs)) && logSending && inFlight == |pendingLogs|)
      ensures r == Queued ==>
                armed == old(armed) && logSending == old(logSending) && inFlight == old(inFlight)
    {
      if !config.useIntervalOnly {
        var ready := BatchReadyToSend();
        if ready {
          var req := BeginSend();
          return Flushing(req);
        }
      }
      return Queued;
    }
  }
}
