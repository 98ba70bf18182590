/** Objects as ordered property lists, `Object.assign`, `JSON.stringify`,
    and joining/splitting text on a separator. */
module JsonText {
  import opened JsValues

  // ---------------------------------------------------------------------
  // Property lists
  // ---------------------------------------------------------------------

  function Keys(props: seq<Prop>): set<string>
    decreases |props|
  {
    if props == [] then {} else {props[0].key} + Keys(props[1..])
  }

  /** No key occurs twice, as in every JavaScript object. */
  predicate DistinctKeys(props: seq<Prop>)
    decreases |props|
  {
    props == [] || (props[0].key !in Keys(props[1..]) && DistinctKeys(props[1..]))
  }

  /** `obj[k]` on an own property; the last occurrence of a key wins, as in
      an object literal that repeats a key. */
  function Get(props: seq<Prop>, k: string): (r: Option<JsValue>)
    ensures r.Some? <==> k in Keys(props)
    decreases |props|
  {
    if props == [] then None
    else match Get(props[1..], k)
      case Some(v) => Some(v)
      case None => if props[0].key == k then Some(props[0].val) else None
  }

  /** `obj[p.key] = p.val`: an existing key keeps its position and takes the
      new value; a new key is appended. */
  function Put(t: seq<Prop>, p: Prop): (r: seq<Prop>)
    ensures Keys(r) == Keys(t) + {p.key}
    ensures DistinctKeys(t) ==> DistinctKeys(r)
    ensures DistinctKeys(t) ==> forall k :: Get(r, k) == if k == p.key then Some(p.val) else Get(t, k)
    decreases |t|
  {
    if t == [] then [p]
    else if t[0].key == p.key then
      assert ([p] + t[1..])[1..] == t[1..];
      [p] + t[1..]
    else
      var r := [t[0]] + Put(t[1..], p);
      assert r[1..] == Put(t[1..], p);
      r
  }

  /** `Object.assign(t, s)`: copies the properties of s onto t in order. */
  function Assign(t: seq<Prop>, s: seq<Prop>): (r: seq<Prop>)
    ensures Keys(r) == Keys(t) + Keys(s)
    ensures DistinctKeys(t) ==> DistinctKeys(r)
    decreases |s|
  {
    if s == [] then t else Assign(Put(t, s[0]), s[1..])
  }

  /** After `Object.assign(t, s)`, a key carries the source's value when the
      source has it and the target's value otherwise. */
  lemma {:induction false} AssignGet(t: seq<Prop>, s: seq<Prop>, k: string)
    requires DistinctKeys(t)
    ensures Get(Assign(t, s), k) == if k in Keys(s) then Get(s, k) else Get(t, k)
    decreases |s|
  {
    if s != [] {
      AssignGet(Put(t, s[0]), s[1..], k);
    }
  }

  // ---------------------------------------------------------------------
  // JSON.stringify
  // ---------------------------------------------------------------------

  function HexDigit(d: nat): char
    requires d < 16
  {
    "0123456789abcdef"[d]
  }

  /** The escape JSON.stringify writes for one character of a string. */
  function Escape(c: char): (r: string)
    ensures '\n' !in r
  {
    if c == '"' then ['\\', '"']
    else if c == '\\' then ['\\', '\\']
    else if c as int == 8 then ['\\', 'b']
    else if c as int == 12 then ['\\', 'f']
    else if c == '\n' then ['\\', 'n']
    else if c == '\r' then ['\\', 'r']
    else if c == '\t' then ['\\', 't']
    else if c as int < 0x20 then ['\\', 'u', '0', '0', HexDigit(c as int / 16), HexDigit(c as int % 16)]
    else [c]
  }

  function EscapeString(s: string): (r: string)
    ensures '\n' !in r
    decreases |s|
  {
    if s == [] then [] else Escape(s[0]) + EscapeString(s[1..])
  }

  function Quote(s: string): (r: string)
    ensures '\n' !in r
  {
    "\"" + EscapeString(s) + "\""
  }

  /** JSON.stringify(v) for a value that is not undefined. Properties whose
      value is undefined are skipped, as JSON.stringify does. */
  function Stringify(v: JsValue): (r: string)
    requires !v.Undefined?
    ensures '\n' !in r
    decreases v, if v.Obj? then |v.props| + 1 else 0
  {
    match v
    case Null => "null"
    case Bool(b) => if b then "true" else "false"
    case Num(n) => IntToDecimal(n)
    case Str(s) => Quote(s)
    case Obj(props) =>
      var members := Members(v, 0);
      JoinAvoids(members, ",", '\n');
      "{" + Join(members, ",") + "}"
  }

  /** The `"key":value` texts of v's properties from index i on. */
  function Members(v: JsValue, i: nat): (r: seq<string>)
    requires v.Obj? && i <= |v.props|
    ensures forall j :: 0 <= j < |r| ==> '\n' !in r[j]
    decreases v, |v.props| - i
  {
    if i == |v.props| then []
    else
      var p := v.props[i];
      assert p in v.props;
      var rest := Members(v, i + 1);
      if p.val.Undefined? then rest
      else [Quote(p.key) + ":" + Stringify(p.val)] + rest
  }

  // ---------------------------------------------------------------------
  // Array.prototype.join and String.prototype.split
  // ---------------------------------------------------------------------

  /** `xs.join(sep)`: the pieces in order with sep between neighbours;
      empty for no piece, the piece itself for one. */
  function Join(xs: seq<string>, sep: string): (r: string)
    ensures |xs| == 0 ==> r == ""
    ensures |xs| >= 1 ==> |r| >= |xs[0]| && r[..|xs[0]|] == xs[0]
    ensures |xs| >= 2 ==> |r| >= |xs[0]| + |sep| && r[|xs[0]|..|xs[0]| + |sep|] == sep
    decreases |xs|
  {
    if |xs| == 0 then "" else if |xs| == 1 then xs[0] else xs[0] + sep + Join(xs[1..], sep)
  }

  lemma {:induction false} JoinAvoids(xs: seq<string>, sep: string, c: char)
    requires c !in sep
    requires forall j :: 0 <= j < |xs| ==> c !in xs[j]
    ensures c !in Join(xs, sep)
    decreases |xs|
  {
    if |xs| > 1 {
      JoinAvoids(xs[1..], sep, c);
    }
  }

  /** `s.split("\n")` */
  function SplitLines(s: string): (r: seq<string>)
    ensures |r| >= 1
    decreases |s|
  {
    if s == [] then [""]
    else
      var rest := SplitLines(s[1..]);
      if s[0] == '\n' then [""] + rest else [[s[0]] + rest[0]] + rest[1..]
  }

  lemma {:induction false} SplitNoNewline(x: string)
    requires '\n' !in x
    ensures SplitLines(x) == [x]
    decreases |x|
  {
    if x != [] {
      SplitNoNewline(x[1..]);
      assert [x[0]] + x[1..] == x;
    }
  }

  lemma {:induction false} SplitFirstLine(x: string, rest: string)
    requires '\n' !in x
    ensures SplitLines(x + "\n" + rest) == [x] + SplitLines(rest)
    decreases |x|
  {
    var s := x + "\n" + rest;
    if x == [] {
      assert s[1..] == rest;
    } else {
      assert s[1..] == x[1..] + "\n" + rest;
      SplitFirstLine(x[1..], rest);
      assert [x[0]] + x[1..] == x;
    }
  }

  /** Splitting a newline-joined list of newline-free lines gives the list
      back: a receiver recovers every line of a batch body. */
  lemma {:induction false} SplitJoin(xs: seq<string>)
    requires |xs| >= 1
    requires forall j :: 0 <= j < |xs| ==> '\n' !in xs[j]
    ensures SplitLines(Join(xs, "\n")) == xs
    decreases |xs|
  {
    if |xs| == 1 {
      SplitNoNewline(xs[0]);
    } else {
      SplitJoin(xs[1..]);
      SplitFirstLine(xs[0], Join(xs[1..], "\n"));
      assert [xs[0]] + xs[1..] == xs;
    }
  }
}
