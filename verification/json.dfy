/**
 * Parsed JSON values and the few JavaScript operations the lookup code
 * applies to them: truthiness, lodash `get`, object spread and template-literal
 * text.
 */
module Json {
  import opened Wrappers
  import Text

  /** A parsed JSON value. Numbers are integers; objects are unordered. */
  datatype Value =
    | Null
    | Bool(b: bool)
    | Num(n: int)
    | Str(s: string)
    | Arr(items: seq<Value>)
    | Obj(fields: map<string, Value>)

  /** JavaScript truthiness: `null`, `false`, `0` and `""` are falsy; arrays and objects never are. */
  predicate Truthy(v: Value) {
    match v
    case Null => false
    case Bool(b) => b
    case Num(n) => n != 0
    case Str(s) => s != ""
    case Arr(_) => true
    case Obj(_) => true
  }

  /**
   * lodash `get(key, v)`: a property of a JSON object. None of the keys the
   * lookup code reads is a property of arrays, strings or primitives, so
   * every other value yields `undefined` (`None`).
   */
  function Get(v: Option<Value>, key: string): Option<Value> {
    match v
    case Some(Obj(fields)) => if key in fields then Some(fields[key]) else None
    case _ => None
  }

  /** lodash's `baseGet`: `Get` one key at a time along a path, left to right. */
  function GetPath(v: Option<Value>, path: seq<string>): Option<Value>
    decreases |path|
  {
    if |path| == 0 then v else GetPath(Get(v, path[0]), path[1..])
  }

  /**
   * A lodash path as the source writes it: the dotted `text`, and the `keys`
   * lodash's `stringToPath` splits it into at the dots.
   */
  datatype Path = Path(text: string, keys: seq<string>)

  /** The property named by the whole dotted text of `path`, when `v` is an object holding it. */
  function LiteralKey(v: Option<Value>, path: Path): Option<Value> {
    Get(v, path.text)
  }

  /**
   * lodash `get('a.b.c', v)` and `getOr`: the dotted text is first tried as
   * one key of the object itself (`castPath` through `isKey`), and only when
   * the object has no such key is the path walked key by key.
   */
  function LodashGet(v: Option<Value>, path: Path): Option<Value> {
    match LiteralKey(v, path)
    case Some(x) => Some(x)
    case None => GetPath(v, path.keys)
  }

  /** Looking up a path in two legs is looking it up at once. */
  lemma {:induction false} GetPathAppend(v: Option<Value>, p: seq<string>, q: seq<string>)
    ensures GetPath(v, p + q) == GetPath(GetPath(v, p), q)
    decreases |p|
  {
    if |p| > 0 {
      assert (p + q)[1..] == p[1..] + q;
      GetPathAppend(Get(v, p[0]), p[1..], q);
    } else {
      assert p + q == q;
    }
  }

  /** The own properties `{...xs}` gives an array: keys "0", "1", ... in order. */
  function IndexKeys(xs: seq<Value>): (r: map<string, Value>)
    ensures r.Keys == IndexTexts(|xs|)
    ensures forall i :: 0 <= i < |xs| ==> Text.NatToText(i) in r && r[Text.NatToText(i)] == xs[i]
    decreases |xs|
  {
    if |xs| == 0 then map[]
    else
      var prev := IndexKeys(xs[..|xs| - 1]);
      IndexKeysExtend(xs, prev);
      prev[Text.NatToText(|xs| - 1) := xs[|xs| - 1]]
  }

  /** Adding the last element's key keeps every earlier key and its element. */
  lemma IndexKeysExtend(xs: seq<Value>, prev: map<string, Value>)
    requires |xs| > 0
    requires prev.Keys == IndexTexts(|xs| - 1)
    requires forall i :: 0 <= i < |xs| - 1 ==> Text.NatToText(i) in prev && prev[Text.NatToText(i)] == xs[..|xs| - 1][i]
    ensures var r := prev[Text.NatToText(|xs| - 1) := xs[|xs| - 1]];
      r.Keys == IndexTexts(|xs|)
      && forall i :: 0 <= i < |xs| ==> Text.NatToText(i) in r && r[Text.NatToText(i)] == xs[i]
  {
    IndexKeysExtendKeys(|xs| - 1, prev, xs[|xs| - 1]);
    IndexKeysExtendValues(xs, prev);
  }

  /** Binding the key of `n` adds exactly that key to the keys of `0` to `n - 1`. */
  lemma IndexKeysExtendKeys(n: nat, prev: map<string, Value>, x: Value)
    requires prev.Keys == IndexTexts(n)
    ensures prev[Text.NatToText(n) := x].Keys == IndexTexts(n + 1)
  {
    IndexTextsStep(n);
  }

  /** Binding the key of the last index leaves every earlier index's element in place. */
  lemma IndexKeysExtendValues(xs: seq<Value>, prev: map<string, Value>)
    requires |xs| > 0
    requires forall i :: 0 <= i < |xs| - 1 ==> Text.NatToText(i) in prev && prev[Text.NatToText(i)] == xs[..|xs| - 1][i]
    ensures var r := prev[Text.NatToText(|xs| - 1) := xs[|xs| - 1]];
      forall i :: 0 <= i < |xs| ==> Text.NatToText(i) in r && r[Text.NatToText(i)] == xs[i]
  {
    var n := |xs| - 1;
    var r := prev[Text.NatToText(n) := xs[n]];
    forall i | 0 <= i < n
      ensures Text.NatToText(i) in r && r[Text.NatToText(i)] == xs[i]
    {
      Text.NatToTextInjective(i, n);
      assert xs[..n][i] == xs[i];
    }
  }

  /** The keys "0" to the text of `n - 1`. */
  function IndexTexts(n: nat): set<string> {
    set i | 0 <= i < n :: Text.NatToText(i)
  }

  lemma IndexTextsStep(n: nat)
    ensures IndexTexts(n + 1) == IndexTexts(n) + {Text.NatToText(n)}
  {
  }

  /**
   * Object spread `{...v}`: an object copies its fields, an array or a
   * string its indexed elements, and `undefined` or any primitive nothing.
   */
  function Spread(v: Option<Value>): map<string, Value> {
    match v
    case Some(Obj(fields)) => fields
    case Some(Arr(xs)) => IndexKeys(xs)
    case Some(Str(s)) => IndexKeys(seq(|s|, i requires 0 <= i < |s| => Str([s[i]])))
    case _ => map[]
  }

  /** Joins texts with a separator, as `Array.prototype.join` does. */
  function Join(parts: seq<string>, sep: string): string
    decreases |parts|
  {
    if |parts| == 0 then ""
    else if |parts| == 1 then parts[0]
    else Join(parts[..|parts| - 1], sep) + sep + parts[|parts| - 1]
  }

  /** Joining two texts puts the separator between them. */
  lemma JoinTwo(a: string, b: string, sep: string)
    ensures Join([a, b], sep) == a + sep + b
  {
    assert [a, b][..1] == [a];
  }

  /** Joining four texts puts the separator between each neighbouring pair. */
  lemma JoinFour(a: string, b: string, c: string, d: string, sep: string)
    ensures Join([a, b, c, d], sep) == a + sep + b + sep + c + sep + d
  {
    JoinTwo(a, b, sep);
    assert [a, b, c][..2] == [a, b];
    assert [a, b, c, d][..3] == [a, b, c];
  }

  /**
   * `${v}`: the text a template literal makes of a JSON value. Arrays join
   * their elements with commas, printing `null` elements as nothing.
   */
  function JsText(v: Value): string
    decreases v
  {
    match v
    case Null => "null"
    case Bool(b) => if b then "true" else "false"
    case Num(n) => Text.IntToText(n)
    case Str(s) => s
    case Arr(xs) =>
      Join(seq(|xs|, i requires 0 <= i < |xs| => if xs[i].Null? then "" else JsText(xs[i])), ",")
    case Obj(_) => "[object Object]"
  }
}
