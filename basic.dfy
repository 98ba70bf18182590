/** The basic logger (src/sumoLogger.basic.ts): `log` only queues; a flush
    moves the whole pending queue into a retained batch and sends it; a
    failed batch stays retained and is what the next flush sends again. A
    flush is split at its one `await` into BeginSend and CompleteSend; any
    other call may happen in between. */
module SumoLoggerBasic {
  import opened JsValues
  import opened JsonText
  import opened Codec
  import Full = SumoLoggerFull

  /** Construction options; `None` is an absent field. */
  datatype Options = Options(
    endpoint: Option<string>,
    clientUrl: Option<string>,
    sessionKey: Option<string>,
    hostName: Option<string>,
    sourceCategory: Option<string>,
    sourceName: Option<string>)

  datatype Config = Config(
    clientUrl: string,
    sourceName: string,
    hostName: string,
    sourceCategory: string,
    sessionKey: string)

  /** The constructor's check: the endpoint is a non-empty string. */
  predicate Accepts(options: Options) {
    options.endpoint.Some? && options.endpoint.value != ""
  }

  /** The configuration the constructor builds: absent strings become empty
      (`??`), and an absent or empty session key becomes a generated
      identifier, given here as uuid. */
  function ConfigFrom(o: Options, uuid: string): (c: Config)
    ensures c.sessionKey == (if o.sessionKey.Some? && o.sessionKey.value != "" then o.sessionKey.value else uuid)
    ensures c.clientUrl == o.clientUrl.GetOr("") && c.sourceName == o.sourceName.GetOr("")
    ensures c.hostName == o.hostName.GetOr("") && c.sourceCategory == o.sourceCategory.GetOr("")
  {
    Config(
      clientUrl := o.clientUrl.GetOr(""),
      sourceName := o.sourceName.GetOr(""),
      hostName := o.hostName.GetOr(""),
      sourceCategory := o.sourceCategory.GetOr(""),
      sessionKey := OrElse(o.sessionKey, uuid))
  }

  /** The checks `log` makes, in the source's order: a falsy message; a
      first element that is null or undefined; a first element that is an
      object when `isEmpty(message)` (only a single keyless object, since an
      array reaching this point has an element). */
  function Check(m: Message): (r: Option<Rejection>)
    ensures !MessageTruthy(m) ==> r == Some(NoMessage)
    ensures MessageTruthy(m) && !DefinedNotNull(First(m)) ==> r == Some(NoValue)
    ensures r.None? ==> |Items(m)| >= 1 && DefinedNotNull(First(m))
    ensures m.One? && m.item.Obj? && Keys(m.item.props) == {} ==> r == Some(EmptyObject)
    ensures m.Many? && |m.items| >= 1 && DefinedNotNull(m.items[0]) ==> r.None?
    ensures r.None? <==> MessageTruthy(m) && DefinedNotNull(First(m))
                         && !(m.One? && m.item.Obj? && Keys(m.item.props) == {})
  {
    if !MessageTruthy(m) then Some(NoMessage)
    else
      var testEl := First(m);
      if !DefinedNotNull(testEl) then Some(NoValue)
      else if IsObjectType(testEl) && IsEmpty(m) then Some(EmptyObject)
      else None
  }

  /** This check and the full variant's in JSON mode refuse the same
      messages, for the same reasons, except one kind: an array whose first
      element is null, which the full variant queues and this one refuses. */
  lemma ChecksDifferOnlyOnNullFirst(m: Message)
    ensures Check(m).None? ==> Full.Check(m, false).None?
    ensures Full.Check(m, false).None? && Check(m).Some? <==> m.Many? && |m.items| >= 1 && m.items[0].Null?
    ensures Check(m).Some? && Full.Check(m, false).Some? ==> Check(m) == Full.Check(m, false)
  {
  }

  /** The lines one accepted `log` call pushes: one record per element, in
      order, with the call's context (per-call session key and url when
      non-empty, per-call timestamp when given, else `now`): a string as
      `{msg, sessionId, timestamp, ...client}`, anything else as
      `{sessionId, timestamp, ...client, ...msg}`, which Codec.JsonRecord
      builds as the full variant's `Object.assign` does. */
  function LogLines(c: Config, m: Message, opts: PerCall, now: Timestamp): (r: seq<Line>)
    ensures |r| == |Items(m)|
    ensures forall i :: 0 <= i < |r| ==> r[i].Record? && DistinctKeys(r[i].props)
    ensures forall i :: 0 <= i < |r| && Items(m)[i].Str? ==> Get(r[i].props, "msg") == Some(Items(m)[i])
  {
    Records(Items(m), ContextFor(opts, c.sessionKey, c.clientUrl, opts.timestamp.GetOr(now)))
  }

  /** One JSON record per element, in order, under one context. */
  function Records(items: seq<JsValue>, ctx: Context): seq<Line>
  {
    seq(|items|, i requires 0 <= i < |items| => Record(JsonRecord(items[i], ctx)))
  }

  /** The `for ... of` loop of `log`, pushing the records one by one. */
  method EncodeRecords(items: seq<JsValue>, ctx: Context) returns (lines: seq<Line>)
    ensures lines == Records(items, ctx)
  {
    lines := [];
    var i := 0;
    while i < |items|
      invariant 0 <= i <= |items| && |lines| == i
      invariant forall j :: 0 <= j < i ==> lines[j] == Record(JsonRecord(items[j], ctx))
    {
      lines := lines + [Record(JsonRecord(items[i], ctx))];
      i := i + 1;
    }
  }

  /** The two variants encode alike: this variant's lines are those the
      full variant queues in JSON mode under the same session key and
      client url. */
  lemma EncodersAgree(c: Config, fc: Full.Config, m: Message, opts: PerCall, now: Timestamp)
    requires !fc.graphite && !fc.raw && fc.sessionKey == c.sessionKey && fc.clientUrl == c.clientUrl
    ensures Full.LogLines(fc, m, opts, now) == Some(LogLines(c, m, opts, now))
  {
    var ts := opts.timestamp.GetOr(now);
    var ctx := ContextFor(opts, c.sessionKey, c.clientUrl, ts);
    var full := Full.EncodeAll(Items(m), ctx, ts.ms, false, false);
    var mine := LogLines(c, m, opts, now);
    assert full.Some? && |full.value| == |mine|;
    forall i | 0 <= i < |mine|
      ensures full.value[i] == mine[i]
    {
      assert Full.EncodeItem(Items(m)[i], ctx, ts.ms, false, false) == Some(Record(JsonRecord(Items(m)[i], ctx)));
    }
    assert full.value == mine;
  }

  /** The request a flush makes: POST to the endpoint, the JSON content
      type, and the body the newline-join of the batch. */
  function RequestFor(endpoint: string, c: Config, batch: seq<Line>): (r: Request)
    ensures r.url == endpoint && r.body == Join(Texts(batch), "\n")
    ensures r.headers == Headers(false, c.sourceName, c.sourceCategory, c.hostName)
    ensures r.headers[ContentTypeHeader] == JsonType
  {
    Request(endpoint, Headers(false, c.sourceName, c.sourceCategory, c.hostName), Body(batch))
  }

  /** What the transport did with a request. */
  datatype Outcome = Delivered | Failed(error: string)

  class SumoLogger {
    const endpoint: string
    const config: Config
    var logSending: bool
    /** `_logsToSend`: the batch taken from the queue and not yet delivered. */
    var logsToSend: Option<seq<Line>>
    var pendingLogs: seq<Line>

    /** A retained batch is never empty, and a flush in flight always has
        one. */
    ghost predicate Valid()
      reads this
    {
      (logsToSend.Some? ==> |logsToSend.value| >= 1) && (logSending ==> logsToSend.Some?)
    }

    function Retained(): seq<Line>
      reads this
    {
      if logsToSend.Some? then logsToSend.value else []
    }

    /** Every line not yet delivered, oldest first. */
    function Outstanding(): seq<Line>
      reads this
    {
      Retained() + pendingLogs
    }

    constructor (options: Options, uuid: string)
      requires Accepts(options)
      ensures Valid()
      ensures endpoint == options.endpoint.value && config == ConfigFrom(options, uuid)
      ensures !logSending && logsToSend.None? && pendingLogs == []
    {
      endpoint := options.endpoint.value;
      config := ConfigFrom(options, uuid);
      logSending := false;
      logsToSend := None;
      pendingLogs := [];
    }

    /** Drops the pending queue only; a retained batch and a flush in flight
        are untouched. */
    method EmptyLogQueue()
      requires Valid()
      modifies this`pendingLogs
      ensures Valid()
      ensures pendingLogs == [] && Outstanding() == old(Retained())
    {
      pendingLogs := [];
    }

    /** `flushLogs` up to its `await`: refused (None, nothing changes) when
        a flush is in flight or there is neither a retained batch nor a
        pending line. Otherwise the flag is set; without a retained batch the
        whole queue becomes the batch and the queue is emptied, while a
        retained batch is sent again as it is, with the queue left out of it.
        No line is lost or duplicated: Outstanding() is unchanged. */
    method BeginSend() returns (req: Option<Request>)
      requires Valid()
      modifies this`logSending, this`logsToSend, this`pendingLogs
      ensures Valid() && Outstanding() == old(Outstanding())
      ensures old(logSending) || (old(logsToSend).None? && old(pendingLogs) == []) ==>
                req.None? && logSending == old(logSending) && logsToSend == old(logsToSend)
                && pendingLogs == old(pendingLogs)
      ensures !old(logSending) && old(logsToSend).None? && old(pendingLogs) != [] ==>
                logSending && logsToSend == Some(old(pendingLogs)) && pendingLogs == []
                && req == Some(RequestFor(endpoint, config, old(pendingLogs)))
      ensures !old(logSending) && old(logsToSend).Some? ==>
                logSending && logsToSend == old(logsToSend) && pendingLogs == old(pendingLogs)
                && req == Some(RequestFor(endpoint, config, old(logsToSend).value))
    {
      if logSending || (logsToSend.None? && |pendingLogs| == 0) {
        return None;
      }
      logSending := true;
      var headers := Headers(false, config.sourceName, config.sourceCategory, config.hostName);
      if logsToSend.None? {
        logsToSend := Some(pendingLogs);
        pendingLogs := [];
      }
      req := Some(Request(endpoint, headers, Body(logsToSend.value)));
    }

    /** `flushLogs` after its `await`. Success drops the retained batch, so
        exactly the lines it carried leave Outstanding(). Failure propagates
        the error and keeps the batch for the next flush. Either way the flag
        is cleared and the pending queue is untouched. */
    method CompleteSend(outcome: Outcome) returns (delivered: bool)
      requires Valid() && logSending
      modifies this`logSending, this`logsToSend
      ensures Valid() && !logSending && pendingLogs == old(pendingLogs)
      ensures delivered <==> outcome.Delivered?
      ensures outcome.Delivered? ==>
                logsToSend.None? && |old(Retained())| >= 1
                && Outstanding() == old(Outstanding())[|old(Retained())|..]
      ensures outcome.Failed? ==> logsToSend == old(logsToSend) && Outstanding() == old(Outstanding())
    {
      if outcome.Delivered? {
        logsToSend := None;
        delivered := true;
        assert old(Outstanding())[|old(Retained())|..] == pendingLogs;
      } else {
        delivered := false;
      }
      logSending := false;
    }

    method FlushLogs() returns (req: Option<Request>)
      requires Valid()
      modifies this`logSending, this`logsToSend, this`pendingLogs
      ensures Valid() && Outstanding() == old(Outstanding())
      ensures old(logSending) || (old(logsToSend).None? && old(pendingLogs) == []) ==>
                req.None? && logSending == old(logSending) && logsToSend == old(logsToSend)
                && pendingLogs == old(pendingLogs)
      ensures !old(logSending) && old(logsToSend).None? && old(pendingLogs) != [] ==>
                logSending && logsToSend == Some(old(pendingLogs)) && pendingLogs == []
                && req == Some(RequestFor(endpoint, config, old(pendingLogs)))
      ensures !old(logSending) && old(logsToSend).Some? ==>
                logSending && logsToSend == old(logsToSend) && pendingLogs == old(pendingLogs)
                && req == Some(RequestFor(endpoint, config, old(logsToSend).value))
    {
      req := BeginSend();
    }

    /** `log`: checks the message, then pushes one record per element, in
        order. It never starts a flush and never touches the retained
        batch. */
    method Log(m: Message, opts: PerCall, now: Timestamp) returns (accepted: bool)
      requires Valid()
      modifies this`pendingLogs
      ensures Valid()
      ensures accepted <==> Check(m).None?
      ensures !accepted ==> pendingLogs == old(pendingLogs)
      ensures accepted ==> pendingLogs == old(pendingLogs) + LogLines(config, m, opts, now)
      ensures accepted ==> Outstanding() == old(Outstanding()) + LogLines(config, m, opts, now)
    {
      if Check(m).Some? {
        return false;
      }
      var client := OrElse(opts.url, config.clientUrl);
      var sessionId := OrElse(opts.sessionKey, config.sessionKey);
      var timestamp := opts.timestamp.GetOr(now).iso;
      var ctx := Context(sessionId, timestamp, client);
      var added := EncodeRecords(Items(m), ctx);
      assert ctx == ContextFor(opts, config.sessionKey, config.clientUrl, opts.timestamp.GetOr(now));
      pendingLogs := pendingLogs + added;
      return true;
    }
  }
}
