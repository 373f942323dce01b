/** JavaScript values as the logging and message code sees them: primitives,
    arrays, plain objects (ordered member lists, in insertion order) and Error
    instances; truthiness; object spread `{...a, ...b}`; `JSON.stringify`
    without indentation; and `String(v)`. */
module Json {
  import opened Wrappers
  import opened Strings

  datatype Value =
    | Undefined
    | Null
    | Bool(b: bool)
    | Num(n: int)
    | Str(s: string)
    | Arr(items: seq<Value>)
    | Obj(members: seq<Member>)
      /** An `Error` instance: `name`, `message` and `stack` are not enumerable;
          `own` holds the enumerable own properties (such as `status`). */
    | ErrorObj(name: string, message: string, stack: Option<string>, own: seq<Member>)

  datatype Member = Member(key: string, value: Value)

  /** JavaScript truthiness (every number here is finite; NaN is not modelled). */
  predicate Truthy(v: Value) {
    match v
    case Undefined => false
    case Null => false
    case Bool(b) => b
    case Num(n) => n != 0
    case Str(s) => s != ""
    case _ => true
  }

  /** `x || fallback` */
  function Or(x: Value, fallback: Value): (r: Value)
    ensures Truthy(x) ==> r == x
    ensures !Truthy(x) ==> r == fallback
  {
    if Truthy(x) then x else fallback
  }

  // ---------------------------------------------------------------------------
  // Objects as member lists

  function Keys(ms: seq<Member>): (ks: seq<string>)
    ensures |ks| == |ms|
    ensures forall i :: 0 <= i < |ms| ==> ks[i] == ms[i].key
  {
    if ms == [] then [] else [ms[0].key] + Keys(ms[1..])
  }

  /** `k in o`, looking from the last member backwards. */
  predicate HasKey(ms: seq<Member>, k: string)
    decreases |ms|
  {
    ms != [] && (ms[|ms| - 1].key == k || HasKey(ms[..|ms| - 1], k))
  }

  predicate UniqueKeys(ms: seq<Member>) {
    forall i, j :: 0 <= i < j < |ms| ==> ms[i].key != ms[j].key
  }

  /** `o[k]`: the last member named `k`, `undefined` when there is none. */
  function Get(ms: seq<Member>, k: string): (v: Value)
    ensures !HasKey(ms, k) ==> v == Undefined
    decreases |ms|
  {
    if ms == [] then Undefined
    else if ms[|ms| - 1].key == k then ms[|ms| - 1].value
    else Get(ms[..|ms| - 1], k)
  }

  function Replace(m: Member, k: string, v: Value): Member {
    if m.key == k then Member(k, v) else m
  }

  /** Every member named `k` takes the value `v`. */
  function ReplaceAll(ms: seq<Member>, k: string, v: Value): (r: seq<Member>)
    ensures |r| == |ms|
    ensures forall i :: 0 <= i < |ms| ==> r[i] == Replace(ms[i], k, v)
  {
    seq(|ms|, i requires 0 <= i < |ms| => Replace(ms[i], k, v))
  }

  /** `o[k] = v`: an existing member keeps its place, a new one goes last. */
  function Put(ms: seq<Member>, k: string, v: Value): (r: seq<Member>)
    ensures HasKey(ms, k) ==> |r| == |ms|
    ensures !HasKey(ms, k) ==> |r| == |ms| + 1
  {
    if HasKey(ms, k) then ReplaceAll(ms, k, v) else ms + [Member(k, v)]
  }

  /** `{...a, ...b}`: the members of `b` are assigned onto a copy of `a` in order. */
  function Spread(a: seq<Member>, b: seq<Member>): seq<Member>
    decreases |b|
  {
    if b == [] then a else Spread(Put(a, b[0].key, b[0].value), b[1..])
  }

  /** The own enumerable members that `{...v}` copies. */
  function OwnEnumerable(v: Value): (ms: seq<Member>)
    ensures v.Obj? ==> ms == v.members
    ensures v.ErrorObj? ==> ms == v.own
    ensures !(v.Obj? || v.Arr? || v.Str? || v.ErrorObj?) ==> ms == []
  {
    match v
    case Obj(ms) => ms
    case ErrorObj(_, _, _, own) => own
    case Arr(items) => Indexed(items, 0)
    case Str(s) => Indexed(Chars(s), 0)
    case _ => []
  }

  /** `v.k` for an own property: `None` when reading a property of `undefined`
      or `null` throws a `TypeError`. */
  function Property(v: Value, k: string): (r: Option<Value>)
    ensures r.None? <==> v.Undefined? || v.Null?
    ensures v.Obj? ==> r == Some(Get(v.members, k))
  {
    if v.Undefined? || v.Null? then None else Some(Get(OwnEnumerable(v), k))
  }

  /** Members named by position, `"start"`, `"start+1"`, ... */
  function Indexed(items: seq<Value>, start: nat): (ms: seq<Member>)
    ensures |ms| == |items|
    ensures forall i :: 0 <= i < |items| ==> ms[i] == Member(NatToString(start + i), items[i])
  {
    if items == [] then [] else [Member(NatToString(start), items[0])] + Indexed(items[1..], start + 1)
  }

  /** The one-character strings of `s`. */
  function Chars(s: string): (vs: seq<Value>)
    ensures |vs| == |s|
    ensures forall i :: 0 <= i < |s| ==> vs[i] == Str([s[i]])
  {
    if s == [] then [] else [Str([s[0]])] + Chars(s[1..])
  }

  /** Looking up in a list extended by one member. */
  lemma GetSnoc(ms: seq<Member>, m: Member, k: string)
    ensures HasKey(ms + [m], k) <==> m.key == k || HasKey(ms, k)
    ensures Get(ms + [m], k) == if m.key == k then m.value else Get(ms, k)
  {
    assert (ms + [m])[..|ms|] == ms;
  }

  /** `HasKey` agrees with "some member is named `k`". */
  /** A two-member literal, looked up. */
  lemma GetTwo(m0: Member, m1: Member, k: string)
    ensures Get([m0, m1], k) == if k == m1.key then m1.value else if k == m0.key then m0.value else Undefined
    ensures HasKey([m0, m1], k) <==> k == m0.key || k == m1.key
  {
    assert [m0, m1] == [m0] + [m1] && [m0] == [] + [m0];
    GetSnoc([m0], m1, k);
    GetSnoc([], m0, k);
  }

  /** A three-member literal, looked up. */
  lemma GetThree(m0: Member, m1: Member, m2: Member, k: string)
    ensures Get([m0, m1, m2], k) ==
      if k == m2.key then m2.value else if k == m1.key then m1.value else if k == m0.key then m0.value else Undefined
    ensures HasKey([m0, m1, m2], k) <==> k == m0.key || k == m1.key || k == m2.key
  {
    assert [m0, m1, m2] == [m0] + [m1] + [m2] && [m0] == [] + [m0];
    GetSnoc([m0] + [m1], m2, k);
    GetSnoc([m0], m1, k);
    GetSnoc([], m0, k);
  }

  lemma {:induction false} HasKeyAt(ms: seq<Member>, k: string)
    ensures HasKey(ms, k) <==> exists i :: 0 <= i < |ms| && ms[i].key == k
    decreases |ms|
  {
    if ms != [] {
      var init := ms[..|ms| - 1];
      HasKeyAt(init, k);
      if exists i :: 0 <= i < |ms| && ms[i].key == k {
        var i :| 0 <= i < |ms| && ms[i].key == k;
        if i < |init| {
          assert init[i].key == k;
        }
      }
      if HasKey(init, k) {
        var i :| 0 <= i < |init| && init[i].key == k;
        assert ms[i].key == k;
      }
    }
  }

  lemma {:induction false} GetReplaceAll(ms: seq<Member>, k: string, v: Value, k': string)
    ensures HasKey(ReplaceAll(ms, k, v), k') == HasKey(ms, k')
    ensures Get(ReplaceAll(ms, k, v), k') ==
      if k' != k then Get(ms, k') else if HasKey(ms, k) then v else Undefined
    decreases |ms|
  {
    if ms != [] {
      var r := ReplaceAll(ms, k, v);
      var init := ms[..|ms| - 1];
      assert r[..|r| - 1] == ReplaceAll(init, k, v);
      GetReplaceAll(init, k, v, k');
    }
  }

  /** Reading back a key just written gives the written value; other keys are untouched. */
  lemma {:induction false} GetPut(ms: seq<Member>, k: string, v: Value, k': string)
    ensures HasKey(Put(ms, k, v), k') <==> k' == k || HasKey(ms, k')
    ensures Get(Put(ms, k, v), k') == if k' == k then v else Get(ms, k')
  {
    var r := Put(ms, k, v);
    if HasKey(ms, k) {
      GetReplaceAll(ms, k, v, k');
    } else {
      assert r[..|r| - 1] == ms;
    }
  }

  /** The last member named `k` of a list is the last of its tail, or the head. */
  lemma {:induction false} GetTail(b: seq<Member>, k: string)
    requires b != []
    ensures HasKey(b, k) <==> b[0].key == k || HasKey(b[1..], k)
    ensures Get(b, k) == if HasKey(b[1..], k) then Get(b[1..], k)
                         else if b[0].key == k then b[0].value else Undefined
    decreases |b|
  {
    if |b| > 1 {
      var init := b[..|b| - 1];
      assert init[1..] == b[1..][..|b[1..]| - 1];
      assert init[0] == b[0];
      GetTail(init, k);
    }
  }

  /** The keys of a spread are those of either side; values come from the right
      side when it has the key and from the left otherwise. */
  lemma {:induction false} GetSpread(a: seq<Member>, b: seq<Member>, k: string)
    ensures HasKey(Spread(a, b), k) <==> HasKey(a, k) || HasKey(b, k)
    ensures Get(Spread(a, b), k) == if HasKey(b, k) then Get(b, k) else Get(a, k)
    decreases |b|
  {
    if b != [] {
      var a' := Put(a, b[0].key, b[0].value);
      GetSpread(a', b[1..], k);
      GetPut(a, b[0].key, b[0].value, k);
      GetTail(b, k);
    }
  }

  lemma {:induction false} UniquePut(ms: seq<Member>, k: string, v: Value)
    requires UniqueKeys(ms)
    ensures UniqueKeys(Put(ms, k, v))
  {
    HasKeyAt(ms, k);
  }

  /** Spreading onto an object with distinct keys keeps the keys distinct. */
  lemma {:induction false} UniqueSpread(a: seq<Member>, b: seq<Member>)
    requires UniqueKeys(a)
    ensures UniqueKeys(Spread(a, b))
    decreases |b|
  {
    if b != [] {
      UniquePut(a, b[0].key, b[0].value);
      UniqueSpread(Put(a, b[0].key, b[0].value), b[1..]);
    }
  }

  // ---------------------------------------------------------------------------
  // JSON.stringify (no indentation)

  function HexDigit(d: nat): char
    requires d < 16
  {
    "0123456789abcdef"[d]
  }

  /** How `JSON.stringify` writes one character inside a string literal. */
  function EscapeChar(c: char): string {
    if c == '"' then "\\\""
    else if c == '\\' then "\\\\"
    else if c == '\U{8}' then "\\b"
    else if c == '\U{C}' then "\\f"
    else if c == '\n' then "\\n"
    else if c == '\r' then "\\r"
    else if c == '\t' then "\\t"
    else if c < ' ' then "\\u00" + [HexDigit(c as int / 16), HexDigit(c as int % 16)]
    else [c]
  }

  function EscapeBody(s: string): string {
    if s == [] then "" else EscapeChar(s[0]) + EscapeBody(s[1..])
  }

  /** `JSON.stringify(s)` for a string. */
  function Quote(s: string): string {
    "\"" + EscapeBody(s) + "\""
  }

  function HexValue(c: char): (r: Option<nat>)
    ensures r.Some? ==> r.value < 16
  {
    if '0' <= c <= '9' then Some(c as int - '0' as int)
    else if 'a' <= c <= 'f' then Some(c as int - 'a' as int + 10)
    else if 'A' <= c <= 'F' then Some(c as int - 'A' as int + 10)
    else None
  }

  /** Reads the body of a JSON string literal back (the escapes `JSON.stringify`
      writes, with `\u00XX` for control characters). */
  function UnescapeBody(t: string): Option<string>
    decreases |t|
  {
    if t == [] then Some("")
    else if t[0] == '"' || t[0] < ' ' then None
    else if t[0] != '\\' then
      match UnescapeBody(t[1..])
      case Some(rest) => Some([t[0]] + rest)
      case None => None
    else if |t| < 2 then None
    else
      var e := t[1];
      var simple :=
        if e == '"' then Some('"') else if e == '\\' then Some('\\')
        else if e == 'b' then Some('\U{8}') else if e == 'f' then Some('\U{C}')
        else if e == 'n' then Some('\n') else if e == 'r' then Some('\r')
        else if e == 't' then Some('\t') else None;
      if simple.Some? then
        match UnescapeBody(t[2..])
        case Some(rest) => Some([simple.value] + rest)
        case None => None
      else if e == 'u' && |t| >= 6 && t[2] == '0' && t[3] == '0'
              && HexValue(t[4]).Some? && HexValue(t[5]).Some? then
        var code := HexValue(t[4]).value * 16 + HexValue(t[5]).value;
        match UnescapeBody(t[6..])
        case Some(rest) => Some([code as char] + rest)
        case None => None
      else None
  }

  lemma HexDigitValue(d: nat)
    requires d < 16
    ensures HexValue(HexDigit(d)) == Some(d)
  {
  }

  /** Reading back one escaped character yields that character. */
  lemma UnescapeChar(c: char, rest: string)
    ensures UnescapeBody(EscapeChar(c) + rest) ==
      match UnescapeBody(rest)
      case Some(r) => Some([c] + r)
      case None => None
  {
    var t := EscapeChar(c) + rest;
    if c < ' ' && c != '\U{8}' && c != '\U{C}' && c != '\n' && c != '\r' && c != '\t' {
      HexDigitValue(c as int / 16);
      HexDigitValue(c as int % 16);
      assert t[..6] == EscapeChar(c);
      assert t[6..] == rest;
    } else if |EscapeChar(c)| == 2 {
      assert t[2..] == rest;
    } else {
      assert t[1..] == rest;
    }
  }

  /** String escaping round-trips: nothing is lost in the JSON text of a string. */
  lemma {:induction false} EscapeRoundTrip(s: string)
    ensures UnescapeBody(EscapeBody(s)) == Some(s)
  {
    if s != [] {
      EscapeRoundTrip(s[1..]);
      UnescapeChar(s[0], EscapeBody(s[1..]));
      assert [s[0]] + s[1..] == s;
    }
  }

  /** `JSON.stringify(v)`: `None` when the result is `undefined` (for `undefined` itself). */
  function Stringify(v: Value): (r: Option<string>)
    ensures r.None? <==> v.Undefined?
    ensures v.Str? ==> r == Some(Quote(v.s))
  {
    if v.Undefined? then None else Some(Text(v))
  }

  /** The JSON text of a value that is not `undefined` at top level. */
  function Text(v: Value): string
    decreases v, 2
  {
    match v
    case Undefined => "null"
    case Null => "null"
    case Bool(b) => if b then "true" else "false"
    case Num(n) => IntToString(n)
    case Str(s) => Quote(s)
    case Arr(items) => "[" + Join(ItemTexts(v, items), ",") + "]"
    case Obj(ms) => "{" + Join(MemberTexts(v, ms), ",") + "}"
    case ErrorObj(_, _, _, own) => "{" + Join(MemberTexts(v, own), ",") + "}"
  }

  /** Array elements: `undefined` is written as `null`. */
  function ItemTexts(ghost parent: Value, items: seq<Value>): seq<string>
    requires forall i :: 0 <= i < |items| ==> items[i] < parent
    decreases parent, 1, |items|
  {
    if items == [] then [] else [Text(items[0])] + ItemTexts(parent, items[1..])
  }

  /** Object members: those whose value is `undefined` are left out. */
  function MemberTexts(ghost parent: Value, ms: seq<Member>): seq<string>
    requires forall i :: 0 <= i < |ms| ==> ms[i].value < parent
    decreases parent, 1, |ms|
  {
    if ms == [] then []
    else if ms[0].value.Undefined? then MemberTexts(parent, ms[1..])
    else [Quote(ms[0].key) + ":" + Text(ms[0].value)] + MemberTexts(parent, ms[1..])
  }

  // ---------------------------------------------------------------------------
  // String(v), as used by string concatenation

  function ToJsString(v: Value): string
    decreases v, 2
  {
    match v
    case Undefined => "undefined"
    case Null => "null"
    case Bool(b) => if b then "true" else "false"
    case Num(n) => IntToString(n)
    case Str(s) => s
    case Arr(items) => Join(ElementStrings(v, items), ",")
    case Obj(_) => "[object Object]"
    case ErrorObj(name, message, _, _) =>
      if name == "" then message else if message == "" then name else name + ": " + message
  }

  /** `Array.prototype.join` writes `null` and `undefined` elements as empty strings. */
  function ElementStrings(ghost parent: Value, items: seq<Value>): seq<string>
    requires forall i :: 0 <= i < |items| ==> items[i] < parent
    decreases parent, 1, |items|
  {
    if items == [] then []
    else
      var first := if items[0].Undefined? || items[0].Null? then "" else ToJsString(items[0]);
      [first] + ElementStrings(parent, items[1..])
  }
}
