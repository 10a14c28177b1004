/**
 * Turning one successful task result into the lookup result handed back to
 * the host (integration.js:86-133, 142-159): the miss rule, the summary tag,
 * the malicious flag and the rewritten attributes.
 */
module Normalization {
  import opened Wrappers
  import opened Json
  import Text
  import opened Requests
  import opened Responses

  /**
   * JavaScript behaviour the model does not define itself, passed in:
   * `kilobytes(v)` is the text `${(v / 1000).toFixed(2)} KB`,
   * `stringify` is `JSON.stringify`, `looseAbove1000(v)` and
   * `looseTimes1000(v)` are `v > 1000` and `v * 1000` for a string, array or
   * object `v` whose conversion to a primitive succeeds (numeric coercion), and `mapObject(m)` is lodash
   * `map(JSON.stringify)` over a plain object.
   */
  datatype Runtime = Runtime(
    kilobytes: Value -> string,
    stringify: Value -> string,
    looseAbove1000: Value -> bool,
    looseTimes1000: Value -> Value,
    mapObject: map<string, Value> -> Value)

  /**
   * The TypeErrors normalising a hit can throw: `receiver.includes('HIGH')`
   * when `receiver` has no such method, and a comparison or product with a
   * `value` JavaScript cannot convert to a primitive.
   */
  datatype TypeError =
    | IncludesNotAFunction(receiver: Value)
    | NoPrimitiveValue(value: Value)

  /**
   * JavaScript's conversion of a parsed JSON value to a primitive throws.
   * An object's inherited `valueOf` returns the object itself, so its
   * `toString` decides, and an own "toString" key shadows the inherited
   * method with a value that is never callable. An array converts through
   * `join`, which converts each element that is not `null`. Strings, numbers,
   * booleans and `null` are already primitives.
   */
  predicate ToPrimitiveThrows(v: Value)
    decreases v
  {
    match v
    case Obj(fields) => "toString" in fields
    case Arr(xs) => exists i :: 0 <= i < |xs| && ToPrimitiveThrows(xs[i])
    case _ => false
  }

  /** The `data` of a hit: summary tags shown in the overlay and the details object. */
  datatype Hit = Hit(summary: seq<Value>, details: map<string, Value>)

  /** One entry of the list handed to the host; `data: None` is a miss. */
  datatype LookupResult = LookupResult(entity: Entity, data: Option<Hit>)

  const BucketPath: Path :=
    Path("mal_eval_result.probability_bucket", ["mal_eval_result", "probability_bucket"])
  /** The path "data.attributes.mal_eval_result.probability_bucket", read from the whole body. */
  const FullBucketPath: Path :=
    Path("data.attributes." + BucketPath.text, ["data", "attributes", "mal_eval_result", "probability_bucket"])
  const RewrittenKeys: set<string> := {"size", "creation_date", "occurrences"}

  /** The short bucket path's keys are its text split at the dot, as lodash's `stringToPath` splits it. */
  lemma BucketPathSplitsText()
    ensures Join(BucketPath.keys, ".") == BucketPath.text
    ensures forall k :: k in BucketPath.keys ==> '.' !in k
  {
    JoinTwo("mal_eval_result", "probability_bucket", ".");
  }

  /** The full bucket path's keys are its text split at the dots. */
  lemma FullBucketPathSplitsText()
    ensures Join(FullBucketPath.keys, ".") == FullBucketPath.text
    ensures forall k :: k in FullBucketPath.keys ==> '.' !in k
  {
    JoinFour("data", "attributes", "mal_eval_result", "probability_bucket", ".");
    FullBucketPathText();
  }

  /** The full bucket path's text, assembled from its four keys. */
  lemma FullBucketPathText()
    ensures "data" + "." + "attributes" + "." + "mal_eval_result" + "." + "probability_bucket" == FullBucketPath.text
  {
    BucketPathText();
    DataAttributesText();
  }

  /** The leading two keys of the full bucket path, each followed by a dot. */
  lemma DataAttributesText()
    ensures "data" + "." + "attributes" + "." == "data.attributes."
  {
  }

  /** The short bucket path's text, assembled from its two keys. */
  lemma BucketPathText()
    ensures "mal_eval_result" + "." + "probability_bucket" == BucketPath.text
  {
  }

  /** `_isMiss`: a truthy, empty array. */
  predicate IsEmptyArray(body: Value) {
    Truthy(body) && body.Arr? && |body.items| == 0
  }

  /** The miss test of the aggregation loop: a `null` body or `_isMiss`. */
  function IsMiss(body: Value): (miss: bool)
    ensures miss <==> body == Null || body == Arr([])
  {
    body == Null || IsEmptyArray(body)
  }

  /** `get('body.data', result)`: `result` is `{ entity, body }`, which has no key "body.data". */
  function DataOf(body: Value): Option<Value> {
    Get(Some(body), "data")
  }

  /** `get('attributes', data)`. */
  function AttributesOf(body: Value): Option<Value> {
    Get(DataOf(body), "attributes")
  }

  /** `getOr`'s read of the probability bucket from an attributes value. */
  function Bucket(attributes: Option<Value>): Option<Value> {
    LodashGet(attributes, BucketPath)
  }

  /**
   * `getSummaryTags`: the bucket read along the full path from the body,
   * when it is truthy; otherwise no tag. A body key spelling the whole path
   * takes precedence; otherwise the path is walked key by key.
   */
  function SummaryTags(body: Value): (tags: seq<Value>)
    ensures |tags| <= 1
    ensures |tags| == 1 ==> Truthy(tags[0])
    ensures LiteralKey(Some(body), FullBucketPath).Some? ==>
      (|tags| == 1 <==> Truthy(LiteralKey(Some(body), FullBucketPath).value))
      && (|tags| == 1 ==> tags[0] == LiteralKey(Some(body), FullBucketPath).value)
    ensures LiteralKey(Some(body), FullBucketPath).None? ==>
      (|tags| == 1 <==> GetPath(AttributesOf(body), BucketPath.keys).Some? && Truthy(GetPath(AttributesOf(body), BucketPath.keys).value))
      && (|tags| == 1 ==> tags[0] == GetPath(AttributesOf(body), BucketPath.keys).value)
  {
    var bucket := LodashGet(Some(body), FullBucketPath);
    GetPathAppend(Some(body), ["data", "attributes"], BucketPath.keys);
    assert ["data", "attributes"] + BucketPath.keys == FullBucketPath.keys;
    if bucket.Some? && Truthy(bucket.value) then [bucket.value] else []
  }

  /**
   * `getOr('', 'mal_eval_result.probability_bucket', attributes).includes('HIGH')`:
   * an absent bucket reads as "" (not malicious); a string bucket is searched
   * for the substring, an array bucket for the element "HIGH"; on any other
   * value (a `null` bucket included) `includes` throws.
   */
  function IsMalicious(attributes: Option<Value>): (r: Result<bool, TypeError>)
    ensures Bucket(attributes).None? ==> r == Ok(false)
    ensures r.Ok? <==> Bucket(attributes).None? || Bucket(attributes).value.Str? || Bucket(attributes).value.Arr?
    ensures Bucket(attributes).Some? && Bucket(attributes).value.Str? ==>
      r.Ok? && (r.value <==> exists i :: Text.OccursAt(Bucket(attributes).value.s, "HIGH", i))
    ensures Bucket(attributes).Some? && Bucket(attributes).value.Arr? ==>
      r.Ok? && (r.value <==> Str("HIGH") in Bucket(attributes).value.items)
    ensures r.Err? ==> r.error == IncludesNotAFunction(Bucket(attributes).value)
  {
    var receiver := match Bucket(attributes) case Some(v) => v case None => Str("");
    match receiver
    case Str(s) => Ok(Text.Includes(s, "HIGH"))
    case Arr(xs) => Ok(Str("HIGH") in xs)
    case _ => Err(IncludesNotAFunction(receiver))
  }

  /** `rawSize > 1000`, with JavaScript's numeric reading of `true`, `false` and `null`. */
  predicate Above1000(raw: Value, rt: Runtime) {
    match raw
    case Num(n) => n > 1000
    case Bool(_) => false
    case Null => false
    case _ => rt.looseAbove1000(raw)
  }

  /**
   * The display text of a size: kilobytes above 1000, otherwise the size
   * followed by " bytes". For a number at most 1000 the leading text is the
   * number's decimal text and reads back as that number. `rawSize > 1000`
   * throws first for a value with no primitive.
   */
  function SizeText(raw: Value, rt: Runtime): (r: Result<string, TypeError>)
    ensures r.Err? <==> ToPrimitiveThrows(raw)
    ensures r.Err? ==> r.error == NoPrimitiveValue(raw)
    ensures raw.Num? && raw.n > 1000 ==> r == Ok(rt.kilobytes(raw))
    ensures raw.Num? && raw.n <= 1000 ==>
      r.Ok? && |r.value| > 6 && r.value[|r.value| - 6..] == " bytes"
      && r.value[..|r.value| - 6] == Text.IntToText(raw.n)
      && Text.ParseInt(r.value[..|r.value| - 6]) == Some(raw.n)
  {
    if ToPrimitiveThrows(raw) then Err(NoPrimitiveValue(raw))
    else if Above1000(raw, rt) then Ok(rt.kilobytes(raw))
    else
      var text := JsText(raw) + " bytes";
      if raw.Num? then BytesTextReadsBack(raw.n); Ok(text) else Ok(text)
  }

  /** "{n} bytes" ends in " bytes" after the decimal text of `n`, which reads back as `n`. */
  lemma BytesTextReadsBack(n: int)
    ensures var t := Text.IntToText(n) + " bytes";
      |t| > 6 && t[|t| - 6..] == " bytes" && t[..|t| - 6] == Text.IntToText(n)
      && Text.ParseInt(t[..|t| - 6]) == Some(n)
  {
    var t := Text.IntToText(n) + " bytes";
    assert t[..|t| - 6] == Text.IntToText(n);
    Text.ParseIntToText(n);
  }

  /** `rawCreationDate * 1000`: seconds to milliseconds, or the TypeError of a value with no primitive. */
  function Times1000(raw: Value, rt: Runtime): (r: Result<Value, TypeError>)
    ensures r.Err? <==> ToPrimitiveThrows(raw)
    ensures r.Err? ==> r.error == NoPrimitiveValue(raw)
    ensures raw.Num? ==> r.Ok? && r.value.Num? && r.value.n % 1000 == 0 && r.value.n / 1000 == raw.n
  {
    match raw
    case Num(n) => Ok(Num(n * 1000))
    case Bool(b) => Ok(Num(if b then 1000 else 0))
    case Null => Ok(Num(0))
    case _ => if ToPrimitiveThrows(raw) then Err(NoPrimitiveValue(raw)) else Ok(rt.looseTimes1000(raw))
  }

  /**
   * lodash `map(JSON.stringify, occurrences)`: an array maps element by
   * element, a string character by character, a number or boolean to `[]`.
   */
  function StringifyEach(raw: Value, rt: Runtime): (r: Value)
    ensures raw.Arr? ==> r.Arr? && |r.items| == |raw.items|
    ensures raw.Arr? ==> forall i :: 0 <= i < |raw.items| ==> r.items[i] == Str(rt.stringify(raw.items[i]))
    ensures raw.Str? ==> r.Arr? && |r.items| == |raw.s|
    ensures raw.Str? ==> forall i :: 0 <= i < |raw.s| ==> r.items[i] == Str(rt.stringify(Str([raw.s[i]])))
    ensures raw.Num? || raw.Bool? || raw.Null? ==> r == Arr([])
  {
    match raw
    case Arr(xs) => Arr(seq(|xs|, i requires 0 <= i < |xs| => Str(rt.stringify(xs[i]))))
    case Str(s) => Arr(seq(|s|, i requires 0 <= i < |s| => Str(rt.stringify(Str([s[i]])))))
    case Obj(m) => rt.mapObject(m)
    case _ => Arr([])
  }

  /** The attribute `key` is one the normaliser rewrites and its current value is truthy. */
  predicate Rewrites(attributes: Option<Value>, key: string) {
    key in RewrittenKeys && Get(attributes, key).Some? && Truthy(Get(attributes, key).value)
  }

  /** A truthy `size` or `creation_date` whose conversion to a primitive throws. */
  predicate CoercionThrows(attributes: Option<Value>, key: string) {
    key in {"size", "creation_date"} && Rewrites(attributes, key) && ToPrimitiveThrows(Get(attributes, key).value)
  }

  /** `...(raw && { key: f(raw) })`: the one-field object a truthy attribute contributes, or what `f` throws. */
  function Override(attributes: Option<Value>, key: string, f: Value -> Result<Value, TypeError>): Result<map<string, Value>, TypeError> {
    var raw := Get(attributes, key);
    if raw.Some? && Truthy(raw.value) then
      match f(raw.value)
      case Ok(v) => Ok(map[key := v])
      case Err(e) => Err(e)
    else Ok(map[])
  }

  /** The display form of a size, as a JSON string. */
  function SizeValue(raw: Value, rt: Runtime): Result<Value, TypeError> {
    match SizeText(raw, rt)
    case Ok(t) => Ok(Str(t))
    case Err(e) => Err(e)
  }

  /**
   * The rewritten attributes object: the original attributes with a truthy
   * `size`, `creation_date` or `occurrences` replaced by its display form.
   * No attribute is added or removed and every other attribute keeps its
   * value. A truthy `size` or `creation_date` with no primitive throws, the
   * size first, as it is written first.
   */
  function RewriteAttributes(attributes: Option<Value>, rt: Runtime): (r: Result<map<string, Value>, TypeError>)
    ensures r.Err? <==> CoercionThrows(attributes, "size") || CoercionThrows(attributes, "creation_date")
    ensures r.Err? && CoercionThrows(attributes, "size") ==> r.error == NoPrimitiveValue(Get(attributes, "size").value)
    ensures r.Err? && !CoercionThrows(attributes, "size") ==>
      r.error == NoPrimitiveValue(Get(attributes, "creation_date").value)
    ensures r.Ok? ==> r.value.Keys == Spread(attributes).Keys
    ensures r.Ok? ==> forall k :: k in r.value && !Rewrites(attributes, k) ==> r.value[k] == Spread(attributes)[k]
    ensures r.Ok? && Rewrites(attributes, "size") ==>
      r.value["size"] == Str(SizeText(Get(attributes, "size").value, rt).value)
    ensures r.Ok? && Rewrites(attributes, "creation_date") ==>
      r.value["creation_date"] == Times1000(Get(attributes, "creation_date").value, rt).value
    ensures r.Ok? && Rewrites(attributes, "occurrences") ==>
      r.value["occurrences"] == StringifyEach(Get(attributes, "occurrences").value, rt)
  {
    var size := Override(attributes, "size", raw => SizeValue(raw, rt));
    var created := Override(attributes, "creation_date", raw => Times1000(raw, rt));
    var occurrences := Override(attributes, "occurrences", raw => Ok(StringifyEach(raw, rt)));
    if size.Err? then Err(size.error)
    else if created.Err? then Err(created.error)
    else Ok(Spread(attributes) + size.value + created.value + occurrences.value)
  }

  /**
   * `{ ...data, isMalicious, attributes: {...} }`: the data object of the
   * details, or the TypeError thrown building it. `isMalicious` is written
   * before `attributes`, so a throwing verdict wins.
   */
  function DetailsData(data: Option<Value>, rt: Runtime): (r: Result<map<string, Value>, TypeError>)
    ensures r.Err? <==> IsMalicious(Get(data, "attributes")).Err? || RewriteAttributes(Get(data, "attributes"), rt).Err?
    ensures IsMalicious(Get(data, "attributes")).Err? ==> r == Err(IsMalicious(Get(data, "attributes")).error)
    ensures r.Ok? ==> r.value.Keys == Spread(data).Keys + {"isMalicious", "attributes"}
    ensures r.Ok? ==> r.value["isMalicious"] == Bool(IsMalicious(Get(data, "attributes")).value)
    ensures r.Ok? ==> r.value["attributes"] == Obj(RewriteAttributes(Get(data, "attributes"), rt).value)
    ensures r.Ok? ==> forall k :: k in Spread(data) && k != "isMalicious" && k != "attributes" ==>
      r.value[k] == Spread(data)[k]
  {
    var attributes := Get(data, "attributes");
    match IsMalicious(attributes)
    case Err(e) => Err(e)
    case Ok(malicious) =>
      match RewriteAttributes(attributes, rt)
      case Err(e) => Err(e)
      case Ok(rewritten) => Ok(Spread(data)["isMalicious" := Bool(malicious)]["attributes" := Obj(rewritten)])
  }

  /**
   * Building the details of the hit `body` throws: its bucket has no
   * `includes`, or a truthy `size` or `creation_date` has no primitive.
   */
  predicate HitThrows(body: Value) {
    IsMalicious(AttributesOf(body)).Err?
    || CoercionThrows(AttributesOf(body), "size")
    || CoercionThrows(AttributesOf(body), "creation_date")
  }

  /** `{ ...body, data: {...} }`: the details object of a hit. */
  function Details(body: Value, rt: Runtime): (r: Result<map<string, Value>, TypeError>)
    ensures r.Err? <==> HitThrows(body)
    ensures IsMalicious(AttributesOf(body)).Err? ==> r == Err(IsMalicious(AttributesOf(body)).error)
    ensures r.Ok? ==> r.value.Keys == Spread(Some(body)).Keys + {"data"}
    ensures r.Ok? ==> r.value["data"] == Obj(DetailsData(DataOf(body), rt).value)
    ensures r.Ok? ==> forall k :: k in Spread(Some(body)) && k != "data" ==> r.value[k] == Spread(Some(body))[k]
  {
    match DetailsData(DataOf(body), rt)
    case Err(e) => Err(e)
    case Ok(data) => Ok(Spread(Some(body))["data" := Obj(data)])
  }

  /**
   * One pass of the aggregation loop: a miss keeps only the indicator, a hit
   * also gets its summary tags and details. Misses never throw.
   */
  function Normalize(result: TaskResult, rt: Runtime): (r: Result<LookupResult, TypeError>)
    ensures r.Ok? ==> r.value.entity == result.entity
    ensures r.Ok? ==> (r.value.data.None? <==> result.body == Null || result.body == Arr([]))
    ensures r.Err? <==> result.body != Null && result.body != Arr([]) && HitThrows(result.body)
    ensures r.Err? && IsMalicious(AttributesOf(result.body)).Err? ==> r.error == IsMalicious(AttributesOf(result.body)).error
    ensures r.Ok? && r.value.data.Some? ==>
      r.value.data.value.summary == SummaryTags(result.body) && Details(result.body, rt) == Ok(r.value.data.value.details)
  {
    if IsMiss(result.body) then Ok(LookupResult(result.entity, None))
    else
      match Details(result.body, rt)
      case Err(e) => Err(e)
      case Ok(details) => Ok(LookupResult(result.entity, Some(Hit(SummaryTags(result.body), details))))
  }

  /**
   * A malicious verdict comes with the bucket as the one summary tag, as
   * long as neither the body nor the attributes has a key spelling a whole
   * bucket path (such a key is read by one lookup and not the other).
   */
  lemma MaliciousHasSummaryTag(body: Value)
    requires IsMalicious(AttributesOf(body)) == Ok(true)
    requires LiteralKey(Some(body), FullBucketPath).None?
    requires LiteralKey(AttributesOf(body), BucketPath).None?
    ensures SummaryTags(body) == [Bucket(AttributesOf(body)).value]
  {
    var bucket := Bucket(AttributesOf(body));
    assert bucket == GetPath(AttributesOf(body), BucketPath.keys);
    if bucket.Some? && bucket.value.Str? {
      var i :| Text.OccursAt(bucket.value.s, "HIGH", i);
      assert |bucket.value.s| >= 4;
    }
  }

  /**
   * An attributes key spelled "mal_eval_result.probability_bucket" makes the
   * file malicious while the summary stays empty: `getOr` on the attributes
   * reads the literal key, `get` on the body walks a path that does not exist.
   */
  lemma LiteralBucketKeyDivergence()
    ensures var body := Obj(map["data" := Obj(map["attributes" :=
              Obj(map["mal_eval_result.probability_bucket" := Str("HIGH")])])]);
      IsMalicious(AttributesOf(body)) == Ok(true) && SummaryTags(body) == []
  {
    var fields := map["mal_eval_result.probability_bucket" := Str("HIGH")];
    var body := Obj(map["data" := Obj(map["attributes" := Obj(fields)])]);
    assert AttributesOf(body) == Some(Obj(fields));
    assert Bucket(Some(Obj(fields))) == Some(Str("HIGH"));
    assert Text.OccursAt("HIGH", "HIGH", 0);
    assert IsMalicious(AttributesOf(body)) == Ok(true);
    assert LiteralKey(Some(body), FullBucketPath) == None;
    assert GetPath(Some(Obj(fields)), BucketPath.keys) == None;
  }
}
