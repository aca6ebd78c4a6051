/**
 * The values a caller configures an export with: the credentials that give
 * access to the instance, and the Object Manager query for the records to
 * export. The query is an object: validation fills in a missing object type
 * in place.
 */
module Query {
  import opened Wrappers

  /** The artifact type id of documents, requested when no object type is given. */
  const DocumentArtifactTypeId: int := 10

  /** Access to the instance; its content does not matter to the model. */
  datatype Credentials = Credentials(token: string)

  /** The object type a query asks for. */
  datatype ObjectTypeRef = ObjectTypeRef(artifactTypeId: int)

  /** An Object Manager query: the fields to export and the object type, which may be absent. */
  class QueryRequest {
    var fields: seq<string>
    var objectType: Option<ObjectTypeRef>

    constructor (fields: seq<string>, objectType: Option<ObjectTypeRef>)
      ensures this.fields == fields && this.objectType == objectType
    {
      this.fields := fields;
      this.objectType := objectType;
    }
  }
}
