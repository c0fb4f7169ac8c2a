/**
 * The output schema of one converted file: an object whose `path` and
 * `content` members are both strings. Other members are dropped.
 */
module Schema {
  import opened Wrappers
  import opened Types

  /** A JSON value as the provider may produce it for one member. */
  datatype Json = JString(s: string) | JNumber(n: int) | JBool(b: bool) | JNull

  /** A JSON object: member names to values. */
  type JsonObject = map<string, Json>

  /** The value is present and is a string (possibly empty). */
  predicate IsStringMember(raw: JsonObject, key: string)
  {
    key in raw && raw[key].JString?
  }

  /** Parses a candidate object against the schema: both members must be strings. */
  function ValidateSchema(raw: JsonObject): (r: Option<ConvertedFile>)
    ensures r.Some? <==> IsStringMember(raw, "path") && IsStringMember(raw, "content")
    ensures r.Some? ==> r.value.path == raw["path"].s && r.value.content == raw["content"].s
  {
    if IsStringMember(raw, "path") && IsStringMember(raw, "content") then
      Some(ConvertedFile(raw["path"].s, raw["content"].s))
    else
      None
  }

  /** The object the prompt asks the provider to output for a converted file. */
  function AsJson(f: ConvertedFile): JsonObject
  {
    map["path" := JString(f.path), "content" := JString(f.content)]
  }

  /** Every converted file, empty strings included, survives the schema. */
  lemma ValidateAsJson(f: ConvertedFile)
    ensures ValidateSchema(AsJson(f)) == Some(f)
  {
    assert IsStringMember(AsJson(f), "path");
    assert IsStringMember(AsJson(f), "content");
  }

  /** Members other than `path` and `content` do not affect the outcome. */
  lemma ValidateIgnoresExtraMembers(raw: JsonObject, key: string, v: Json)
    requires key != "path" && key != "content"
    ensures ValidateSchema(raw[key := v]) == ValidateSchema(raw)
  {
    assert IsStringMember(raw[key := v], "path") == IsStringMember(raw, "path");
    assert IsStringMember(raw[key := v], "content") == IsStringMember(raw, "content");
  }
}
