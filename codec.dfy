/** The pieces both logger variants share: the shape of a log call's
    argument, the per-message context, the JSON records a message becomes,
    the Graphite line, the request headers and the batch body. */
module Codec {
  import opened JsValues
  import opened JsonText

  // ---------------------------------------------------------------------
  // The argument of `log`
  // ---------------------------------------------------------------------

  /** `log(message)`: one value, or an array of values. */
  datatype Message = One(item: JsValue) | Many(items: seq<JsValue>)

  /** `!!message`: an array is always truthy. */
  predicate MessageTruthy(m: Message) {
    m.Many? || Truthy(m.item)
  }

  /** `testEl`: the first element of an array, or the value itself; an
      empty array's first element reads as undefined. */
  function First(m: Message): (r: JsValue)
    ensures m.One? ==> r == m.item
    ensures m.Many? && |m.items| >= 1 ==> r == m.items[0]
    ensures m.Many? && m.items == [] ==> r.Undefined?
  {
    match m
    case One(v) => v
    case Many(vs) => if |vs| > 0 then vs[0] else Undefined
  }

  /** The message normalised to an array (`[message]` for a single value). */
  function Items(m: Message): (r: seq<JsValue>)
    ensures |r| >= 1 ==> r[0] == First(m)
  {
    match m
    case One(v) => [v]
    case Many(vs) => vs
  }

  /** `typeof v === 'object'` */
  predicate IsObjectType(v: JsValue) {
    v.Obj? || v.Null?
  }

  /** The `isEmpty` helper: length of a string or array, number of own keys
      of anything else (a number or boolean has none). */
  function IsEmpty(m: Message): (r: bool)
    requires m.Many? || DefinedNotNull(m.item)
    ensures m.Many? ==> (r <==> |m.items| == 0)
    ensures m.One? && m.item.Obj? ==> (r <==> Keys(m.item.props) == {})
  {
    match m
    case Many(vs) => |vs| == 0
    case One(v) =>
      match v
      case Str(s) => |s| == 0
      case Obj(props) => EmptyKeys(props); |props| == 0
      case _ => true
  }

  lemma EmptyKeys(props: seq<Prop>)
    ensures Keys(props) == {} <==> props == []
  {
  }

  /** `v.k` for the property names the logger reads (`path`, `value`,
      `msg`), which no primitive value carries. */
  function Property(v: JsValue, k: string): (r: JsValue)
    requires DefinedNotNull(v)
    ensures r != Undefined ==> v.Obj? && Get(v.props, k) == Some(r)
  {
    if v.Obj? then Get(v.props, k).GetOr(Undefined) else Undefined
  }

  /** Why `log` refused a message (its console diagnostics). */
  datatype Rejection = NoMessage | NoValue | GraphiteFields | EmptyObject

  // ---------------------------------------------------------------------
  // Per-message context
  // ---------------------------------------------------------------------

  /** A Date as the logger uses it: its `toJSON()` text and `getTime()`. */
  datatype Timestamp = Timestamp(iso: string, ms: int)

  /** The per-call options of `log`. */
  datatype PerCall = PerCall(timestamp: Option<Timestamp>, sessionKey: Option<string>, url: Option<string>)

  /** `o || d` for an optional string. */
  function OrElse(o: Option<string>, d: string): string {
    if o.Some? && o.value != "" then o.value else d
  }

  /** The fields every JSON record of one call carries. */
  datatype Context = Context(sessionId: string, timestamp: string, url: string)

  /** The context of one `log` call: a per-call session key or url wins when
      non-empty, otherwise the configured one; the per-call timestamp wins
      when given, otherwise `now`. The configuration is not consulted for
      anything else and is not changed. */
  function ContextFor(opts: PerCall, sessionKey: string, clientUrl: string, ts: Timestamp): (c: Context)
    ensures opts.sessionKey.Some? && opts.sessionKey.value != "" ==> c.sessionId == opts.sessionKey.value
    ensures (opts.sessionKey.None? || opts.sessionKey.value == "") ==> c.sessionId == sessionKey
    ensures opts.url.Some? && opts.url.value != "" ==> c.url == opts.url.value
    ensures (opts.url.None? || opts.url.value == "") ==> c.url == clientUrl
    ensures c.timestamp == ts.iso
  {
    Context(OrElse(opts.sessionKey, sessionKey), ts.iso, OrElse(opts.url, clientUrl))
  }

  // ---------------------------------------------------------------------
  // JSON records
  // ---------------------------------------------------------------------

  /** `{sessionId, timestamp, url}`: the fields a structured message is
      merged onto. */
  function BaseRecord(ctx: Context): (r: seq<Prop>)
    ensures DistinctKeys(r) && Keys(r) == {"sessionId", "timestamp", "url"}
  {
    var r := [Prop("sessionId", Str(ctx.sessionId)), Prop("timestamp", Str(ctx.timestamp)), Prop("url", Str(ctx.url))];
    assert r[1..][1..][1..] == [];
    assert Keys(r[1..][1..]) == {"url"} && DistinctKeys(r[1..][1..]);
    assert Keys(r[1..]) == {"timestamp", "url"} && DistinctKeys(r[1..]);
    r
  }

  /** `{msg, sessionId, timestamp, url}` for a string message; `url` is
      present even when empty. */
  function StringRecord(msg: string, ctx: Context): (r: seq<Prop>)
    ensures DistinctKeys(r) && Keys(r) == {"msg", "sessionId", "timestamp", "url"}
    ensures Get(r, "msg") == Some(Str(msg))
    ensures Get(r, "sessionId") == Some(Str(ctx.sessionId))
    ensures Get(r, "timestamp") == Some(Str(ctx.timestamp))
    ensures Get(r, "url") == Some(Str(ctx.url))
  {
    var base := BaseRecord(ctx);
    var r := [Prop("msg", Str(msg))] + base;
    assert r[1..] == base && base[1..][1..][1..] == [];
    assert Get(base[1..][1..], "url") == Some(Str(ctx.url));
    assert Get(base[1..][1..], "timestamp") == None;
    assert Get(base[1..], "url") == Some(Str(ctx.url));
    assert Get(base[1..], "timestamp") == Some(Str(ctx.timestamp));
    r
  }

  /** The own enumerable properties `Object.assign` copies from a source:
      none for a primitive, `null` or `undefined`. */
  function OwnProps(v: JsValue): seq<Prop> {
    if v.Obj? then v.props else []
  }

  /** `Object.assign({sessionId, timestamp}, {url}, item)`: the caller's
      keys override the base fields, which are otherwise kept. */
  function ObjectRecord(item: JsValue, ctx: Context): (r: seq<Prop>)
    ensures DistinctKeys(r)
    ensures Keys(r) == {"sessionId", "timestamp", "url"} + Keys(OwnProps(item))
    ensures forall k :: Get(r, k) == if k in Keys(OwnProps(item)) then Get(OwnProps(item), k) else Get(BaseRecord(ctx), k)
  {
    var r := Assign(BaseRecord(ctx), OwnProps(item));
    forall k ensures Get(r, k) == if k in Keys(OwnProps(item)) then Get(OwnProps(item), k) else Get(BaseRecord(ctx), k) {
      AssignGet(BaseRecord(ctx), OwnProps(item), k);
    }
    r
  }

  /** A JSON-mode element as a record: a string is wrapped as
      `{msg, sessionId, timestamp, url}`; anything else is merged onto the
      base fields, its own keys winning. */
  function JsonRecord(item: JsValue, ctx: Context): (r: seq<Prop>)
    ensures DistinctKeys(r)
    ensures item.Str? ==> Get(r, "msg") == Some(item) && Keys(r) == {"msg", "sessionId", "timestamp", "url"}
    ensures !item.Str? ==> Keys(r) == {"sessionId", "timestamp", "url"} + Keys(OwnProps(item))
  {
    if item.Str? then StringRecord(item.s, ctx) else ObjectRecord(item, ctx)
  }

  // ---------------------------------------------------------------------
  // Queue lines and the batch body
  // ---------------------------------------------------------------------

  /** One entry of a pending queue: a JSON record (kept as its properties
      and serialised when sent), a Graphite plaintext line, or a raw-mode
      value passed through unchanged. */
  datatype Line = Record(props: seq<Prop>) | Text(s: string) | Raw(v: JsValue)

  /** The text an entry contributes to `pendingLogs.join("\n")`: the JSON
      text of a record, the Graphite line itself, and for a raw value what
      `Array.prototype.join` makes of it ("" for null and undefined). */
  function LineText(l: Line): (r: string)
    ensures l.Record? ==> '\n' !in r
    ensures l.Text? ==> r == l.s
    ensures l.Raw? && !DefinedNotNull(l.v) ==> r == ""
    ensures l.Raw? && l.v.Str? ==> r == l.v.s
  {
    match l
    case Record(props) => Stringify(Obj(props))
    case Text(s) => s
    case Raw(v) => if DefinedNotNull(v) then ToText(v) else ""
  }

  /** The texts of the entries, in order. */
  function Texts(q: seq<Line>): (r: seq<string>)
    ensures |r| == |q|
    ensures forall i :: 0 <= i < |q| && q[i].Record? ==> '\n' !in r[i]
  {
    seq(|q|, i requires 0 <= i < |q| => LineText(q[i]))
  }

  /** `pendingLogs.join("\n")`: the body of a batch request; a single
      entry's body is its text alone. */
  function Body(q: seq<Line>): (r: string)
    ensures |q| == 1 ==> r == LineText(q[0])
    ensures |q| >= 2 ==> |r| > |LineText(q[0])| && r[|LineText(q[0])|] == '\n'
  {
    Join(Texts(q), "\n")
  }

  /** JSON records never contain a newline, so splitting the body of a
      JSON-mode batch on newlines recovers exactly its queued lines, in
      order. */
  lemma BodySplitsIntoLines(q: seq<Line>)
    requires |q| >= 1
    requires forall i :: 0 <= i < |q| ==> q[i].Record?
    ensures SplitLines(Body(q)) == Texts(q)
  {
    SplitJoin(Texts(q));
  }

  // ---------------------------------------------------------------------
  // Graphite
  // ---------------------------------------------------------------------

  /** `Math.round(ms / 1000)`: the whole second nearest to ms milliseconds,
      halves rounded up. */
  function RoundSeconds(ms: int): (s: int)
    ensures 1000 * s - 500 <= ms < 1000 * s + 500
  {
    (ms + 500) / 1000
  }

  /** `toString(path) + " " + toString(value) + " " + seconds`: the line
      starts with the path's text and a space, and ends with a space and the
      rounded seconds. */
  function GraphiteLine(item: JsValue, ms: int): (r: string)
    requires DefinedNotNull(item)
    ensures var path := ToText(Property(item, "path"));
            |r| > |path| && r[..|path|] == path && r[|path|] == ' '
    ensures var secs := IntToDecimal(RoundSeconds(ms));
            |r| > |secs| && r[|r| - |secs|..] == secs && r[|r| - |secs| - 1] == ' '
  {
    var path := ToText(Property(item, "path"));
    var value := ToText(Property(item, "value"));
    var secs := IntToDecimal(RoundSeconds(ms));
    var r := path + " " + value + " " + secs;
    assert r[..|path|] == path;
    assert r[|r| - |secs|..] == secs;
    r
  }

  /** A Graphite message `{path, value}` with string path and integer value
      at `ms` becomes `path value seconds`, and the seconds read back as the
      rounded time. */
  lemma GraphiteLineOf(path: string, value: int, ms: int)
    ensures var item := Obj([Prop("path", Str(path)), Prop("value", Num(value))]);
            var line := GraphiteLine(item, ms);
            var secs := IntToDecimal(RoundSeconds(ms));
            line == path + " " + IntToDecimal(value) + " " + secs
            && IntValue(secs) * 1000 - 500 <= ms < IntValue(secs) * 1000 + 500
  {
    var props := [Prop("path", Str(path)), Prop("value", Num(value))];
    assert props[1..][1..] == [];
    assert Get(props[1..], "path") == None && Get(props[1..], "value") == Some(Num(value));
    assert Get(props, "path") == Some(Str(path));
    IntRoundTrip(RoundSeconds(ms));
  }

  // ---------------------------------------------------------------------
  // Request
  // ---------------------------------------------------------------------

  const ClientHeader := "X-Sumo-Client"
  const ClientName := "sumo-javascript-sdk"
  const ContentTypeHeader := "Content-Type"
  const JsonType := "application/json"
  const GraphiteType := "application/vnd.sumologic.graphite"
  const NameHeader := "X-Sumo-Name"
  const CategoryHeader := "X-Sumo-Category"
  const HostHeader := "X-Sumo-Host"

  /** The request headers: always the client header and a content type
      (Graphite's iff graphite), and the name, category and host headers
      exactly when the configured value is non-empty. */
  function Headers(graphite: bool, sourceName: string, sourceCategory: string, hostName: string): (h: map<string, string>)
    ensures h.Keys == {ClientHeader, ContentTypeHeader}
                      + (if sourceName != "" then {NameHeader} else {})
                      + (if sourceCategory != "" then {CategoryHeader} else {})
                      + (if hostName != "" then {HostHeader} else {})
    ensures h[ClientHeader] == ClientName
    ensures h[ContentTypeHeader] == GraphiteType <==> graphite
    ensures h[ContentTypeHeader] == if graphite then GraphiteType else JsonType
    ensures NameHeader in h ==> h[NameHeader] == sourceName
    ensures CategoryHeader in h ==> h[CategoryHeader] == sourceCategory
    ensures HostHeader in h ==> h[HostHeader] == hostName
  {
    var base := map[ClientHeader := ClientName, ContentTypeHeader := if graphite then GraphiteType else JsonType];
    var withName := if sourceName != "" then base[NameHeader := sourceName] else base;
    var withCategory := if sourceCategory != "" then withName[CategoryHeader := sourceCategory] else withName;
    if hostName != "" then withCategory[HostHeader := hostName] else withCategory
  }

  /** A POST to `url` with these headers and body. */
  datatype Request = Request(url: string, headers: map<string, string>, body: string)
}
