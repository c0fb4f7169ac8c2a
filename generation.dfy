/**
 * The structured-generation call. The provider itself (its model, its
 * network round trip and its bounded internal retry) is opaque: it is
 * represented only by the reply it finally hands back.
 */
module Generation {
  import opened Wrappers
  import opened Types
  import opened Schema

  /** What the provider hands back after its internal retries. */
  datatype ProviderReply = Reply(raw: JsonObject) | Fault(msg: string)

  /** How the generation call settles: it resolves with an object or rejects with an error. */
  datatype GenResult = Ok(obj: Option<ConvertedFile>) | Err(msg: string)

  /** The library's error text when the reply does not match the schema. */
  const SchemaMismatch := "No object generated: response did not match schema."

  /** Runs a reply through the schema: a conforming object resolves, anything else rejects. */
  function GenerateObject(reply: ProviderReply): (g: GenResult)
    ensures g.Ok? <==> reply.Reply? && ValidateSchema(reply.raw).Some?
    ensures g.Ok? ==> g.obj == ValidateSchema(reply.raw)
    ensures reply.Fault? ==> g == Err(reply.msg)
  {
    match reply
    case Fault(msg) => Err(msg)
    case Reply(raw) =>
      match ValidateSchema(raw)
      case Some(f) => Ok(Some(f))
      case None => Err(SchemaMismatch)
  }
}
