/** The documented behaviours of the normaliser on concrete bodies. */
module Examples {
  import opened Wrappers
  import opened Json
  import opened Requests
  import opened Responses
  import opened Normalization

  function Attributes(fields: map<string, Value>): Value {
    Obj(map["data" := Obj(map["attributes" := Obj(fields)])])
  }

  /** A "HIGH_CONFIDENCE" bucket is the summary tag and makes the file malicious. */
  lemma HighConfidenceBucket(e: Entity, rt: Runtime)
    ensures var body := Attributes(map["mal_eval_result" := Obj(map["probability_bucket" := Str("HIGH_CONFIDENCE")])]);
      var r := Normalize(TaskResult(e, body), rt);
      r.Ok? && r.value.data.Some? && r.value.data.value.summary == [Str("HIGH_CONFIDENCE")]
      && r.value.data.value.details["data"].fields["isMalicious"] == Bool(true)
  {
    var bucket := map["probability_bucket" := Str("HIGH_CONFIDENCE")];
    var fields := map["mal_eval_result" := Obj(bucket)];
    var body := Attributes(fields);
    assert AttributesOf(body) == Some(Obj(fields));
    assert LiteralKey(Some(Obj(fields)), BucketPath) == None;
    assert Bucket(Some(Obj(fields))) == Some(Str("HIGH_CONFIDENCE"));
    assert Text.OccursAt("HIGH_CONFIDENCE", "HIGH", 0);
    assert IsMalicious(Some(Obj(fields))) == Ok(true);
    assert LiteralKey(Some(body), FullBucketPath) == None;
    assert SummaryTags(body) == [Str("HIGH_CONFIDENCE")];
  }

  /** An empty array body is a miss. */
  lemma EmptyArrayIsMiss(e: Entity, rt: Runtime)
    ensures Normalize(TaskResult(e, Arr([])), rt) == Ok(LookupResult(e, None))
  {
  }

  /** A size of 500 is shown as "500 bytes"; 1500 takes the kilobyte text. */
  lemma SizeExamples(rt: Runtime)
    ensures SizeText(Num(500), rt) == Ok("500 bytes")
    ensures SizeText(Num(1500), rt) == Ok(rt.kilobytes(Num(1500)))
  {
    assert !ToPrimitiveThrows(Num(500));
    assert JsText(Num(500)) == "500";
    assert !Above1000(Num(500), rt);
    assert "500" + " bytes" == "500 bytes";
  }

  /** A creation date of 1000 seconds becomes 1000000 milliseconds. */
  lemma CreationDateExample(rt: Runtime)
    ensures Times1000(Num(1000), rt) == Ok(Num(1000000))
  {
  }

  /** A size object with its own "toString" key cannot be compared with 1000, so normalising the hit throws. */
  lemma ToStringKeySizeThrows(e: Entity, rt: Runtime)
    ensures var size := Obj(map["toString" := Num(1)]);
      Normalize(TaskResult(e, Attributes(map["size" := size])), rt) == Err(NoPrimitiveValue(size))
  {
    var size := Obj(map["toString" := Num(1)]);
    var fields := map["size" := size];
    var body := Attributes(fields);
    assert AttributesOf(body) == Some(Obj(fields));
    assert LiteralKey(Some(Obj(fields)), BucketPath) == None;
    assert IsMalicious(Some(Obj(fields))) == Ok(false);
    assert CoercionThrows(Some(Obj(fields)), "size");
  }

  /** A creation date array holding such an object throws too: `join` converts each element. */
  lemma NestedToStringKeyThrows(e: Entity, rt: Runtime)
    ensures var date := Arr([Obj(map["toString" := Str("x")])]);
      Normalize(TaskResult(e, Attributes(map["creation_date" := date])), rt) == Err(NoPrimitiveValue(date))
  {
    var date := Arr([Obj(map["toString" := Str("x")])]);
    var fields := map["creation_date" := date];
    var body := Attributes(fields);
    assert AttributesOf(body) == Some(Obj(fields));
    assert LiteralKey(Some(Obj(fields)), BucketPath) == None;
    assert IsMalicious(Some(Obj(fields))) == Ok(false);
    assert ToPrimitiveThrows(date.items[0]);
    assert !CoercionThrows(Some(Obj(fields)), "size");
    assert CoercionThrows(Some(Obj(fields)), "creation_date");
  }
}
