/**
 * The single-file converter: builds the prompt, asks the provider, accepts
 * the generated file only when both its fields are non-empty, and
 * otherwise falls back to the original content under a diagnostic marker.
 * It returns a file for every input and every provider behaviour.
 */
module Converter {
  import opened Wrappers
  import opened Types
  import opened Schema
  import opened Generation
  import opened PromptBuilder

  /** The error the converter raises itself when a generated field is missing or empty. */
  const InvalidResult := "Invalid or empty conversion result."

  /** The path used in a fallback when the input path is empty. */
  const UnknownPath := "unknown"

  /** The opening of the diagnostic marker. */
  const MarkerOpen := "/* Dobby failed to convert file: "

  /** The closing of the diagnostic marker, ending its line. */
  const MarkerClose := " */\n"

  /** The diagnostic comment placed before the original content in a fallback. */
  function FailureMarker(msg: string): (m: string)
    ensures |m| == |MarkerOpen| + |msg| + |MarkerClose|
    ensures m[..|MarkerOpen|] == MarkerOpen && m[|MarkerOpen|..|MarkerOpen| + |msg|] == msg
    ensures m[|MarkerOpen| + |msg|..] == MarkerClose
  {
    MarkerOpen + msg + MarkerClose
  }

  /** The generation settled with an object whose path and content are both non-empty. */
  predicate Accepted(g: GenResult)
    ensures Accepted(g) <==> g.Ok? && g.obj.Some? && |g.obj.value.content| > 0 && |g.obj.value.path| > 0
  {
    g.Ok? && g.obj.Some? && g.obj.value.content != "" && g.obj.value.path != ""
  }

  /** The message of the error caught for a result that is not accepted. */
  function FailureMessage(g: GenResult): (msg: string)
    requires !Accepted(g)
    ensures g.Err? ==> msg == g.msg
    ensures g.Ok? ==> msg == InvalidResult
  {
    if g.Err? then g.msg else InvalidResult
  }

  /** The path of a fallback: the input path, or the placeholder when that is empty. */
  function FallbackPath(path: string): (r: string)
    ensures r != ""
    ensures path != "" ==> r == path
    ensures path == "" ==> r == UnknownPath
  {
    if path != "" then path else UnknownPath
  }

  /** The fallback file: the original content, annotated with the failure's message. */
  function Fallback(file: UploadedFile, msg: string): (r: ConvertedFile)
    ensures r.path != "" && (file.path != "" ==> r.path == file.path)
    ensures |r.content| == |FailureMarker(msg)| + |file.content|
    ensures r.content[..|FailureMarker(msg)|] == FailureMarker(msg)
    ensures r.content[|FailureMarker(msg)|..] == file.content
  {
    ConvertedFile(FallbackPath(file.path), FailureMarker(msg) + file.content)
  }

  /**
   * The success/fallback decision on a settled generation. The result never
   * has an empty path or empty content: an accepted object is returned as it
   * is, anything else is replaced by the fallback for the caught message.
   */
  function Settle(file: UploadedFile, g: GenResult): (r: ConvertedFile)
    ensures r.path != "" && r.content != ""
    ensures Accepted(g) ==> r == g.obj.value
    ensures !Accepted(g) ==> r == Fallback(file, FailureMessage(g))
  {
    if Accepted(g) then g.obj.value else Fallback(file, FailureMessage(g))
  }

  /** Converts one file: its prompt goes to the provider, whose reply is settled. */
  function ConvertFile(file: UploadedFile, targetLanguage: string, targetVersion: string,
                       provider: string -> ProviderReply): (r: ConvertedFile)
    ensures r.path != "" && r.content != ""
  {
    Settle(file, GenerateObject(provider(Prompt(file, targetLanguage, targetVersion))))
  }

  /**
   * A reply that passes the schema with both fields non-empty is returned
   * as the schema parsed it (extra members dropped), whatever path it names.
   */
  lemma ConvertAccepts(file: UploadedFile, targetLanguage: string, targetVersion: string,
                       provider: string -> ProviderReply, raw: JsonObject, out: ConvertedFile)
    requires provider(Prompt(file, targetLanguage, targetVersion)) == Reply(raw)
    requires ValidateSchema(raw) == Some(out)
    requires out.path != "" && out.content != ""
    ensures ConvertFile(file, targetLanguage, targetVersion, provider) == out
  {
  }

  /** A provider fault falls back with the fault's own message. */
  lemma ConvertFaultFallsBack(file: UploadedFile, targetLanguage: string, targetVersion: string,
                              provider: string -> ProviderReply, msg: string)
    requires provider(Prompt(file, targetLanguage, targetVersion)) == Fault(msg)
    ensures ConvertFile(file, targetLanguage, targetVersion, provider) == Fallback(file, msg)
  {
  }

  /**
   * Empty strings pass the schema, but a reply whose parsed path or content
   * is empty is still rejected, with the converter's own message.
   */
  lemma ConvertRejectsEmptyFields(file: UploadedFile, targetLanguage: string, targetVersion: string,
                                  provider: string -> ProviderReply, raw: JsonObject, out: ConvertedFile)
    requires provider(Prompt(file, targetLanguage, targetVersion)) == Reply(raw)
    requires ValidateSchema(raw) == Some(out)
    requires out.path == "" || out.content == ""
    ensures ConvertFile(file, targetLanguage, targetVersion, provider) == Fallback(file, InvalidResult)
  {
  }

  /** A reply lacking a string `path` or `content` falls back with the schema's message. */
  lemma ConvertRejectsNonConforming(file: UploadedFile, targetLanguage: string, targetVersion: string,
                                    provider: string -> ProviderReply, raw: JsonObject)
    requires provider(Prompt(file, targetLanguage, targetVersion)) == Reply(raw)
    requires !IsStringMember(raw, "path") || !IsStringMember(raw, "content")
    ensures ConvertFile(file, targetLanguage, targetVersion, provider) == Fallback(file, SchemaMismatch)
  {
  }

  /**
   * Every result is either the object the provider's reply parsed to, or
   * the fallback for one of the three failure messages: the schema's, the
   * converter's own, or the provider fault's.
   */
  lemma ConvertOutcomes(file: UploadedFile, targetLanguage: string, targetVersion: string,
                        provider: string -> ProviderReply)
    ensures var reply := provider(Prompt(file, targetLanguage, targetVersion));
      var r := ConvertFile(file, targetLanguage, targetVersion, provider);
      (reply.Reply? && ValidateSchema(reply.raw) == Some(r))
      || r == Fallback(file, SchemaMismatch)
      || r == Fallback(file, InvalidResult)
      || (reply.Fault? && r == Fallback(file, reply.msg))
  {
  }
}
