/**
 * The configuration an export helper is created from. Create checks the
 * settable properties in a fixed order and fails with the message of the
 * first check that does not hold; when all hold, it gives a query without an
 * object type the document type and creates a helper from exactly the
 * configured values. The block size is never checked.
 */
module Config {
  import opened Wrappers
  import opened Query
  import ExportHelper

  const DefaultWorkspaceId: int := 0
  const DefaultBlockSize: int := 1000
  const DefaultScaleFactor: int := 4
  const MinScaleFactor: int := 1
  const MaxScaleFactor: int := 16

  /** The checks of Create, in the order it makes them. */
  datatype Violation =
    | UrlMissing
    | CredentialsMissing
    | WorkspaceUnset
    | ScaleFactorOutOfRange
    | RequestMissing
    | FieldsEmpty

  /** The message of the argument exception each failed check throws. */
  function Message(v: Violation): string {
    match v
    case UrlMissing => "The 'RelativityUrl' property may not be null"
    case CredentialsMissing => "The 'Credentials' property may not be null"
    case WorkspaceUnset => "The 'WorkspaceId' property must be set"
    case ScaleFactorOutOfRange => "The 'ScaleFactor' property must be between 1 and 16"
    case RequestMissing => "The 'QueryRequest' property may not be null"
    case FieldsEmpty => "The 'QueryRequest.Fields' property must contain at least one field"
  }

  /** What the checks look at: which references are set, the workspace, the scale factor, the field count. */
  datatype Settings = Settings(urlSet: bool, credentialsSet: bool, workspaceId: int, scaleFactor: int,
                               requestSet: bool, fieldCount: nat)

  /** The position of a check in Create's order. */
  function Rank(v: Violation): nat {
    match v
    case UrlMissing => 0
    case CredentialsMissing => 1
    case WorkspaceUnset => 2
    case ScaleFactorOutOfRange => 3
    case RequestMissing => 4
    case FieldsEmpty => 5
  }

  /** Whether the settings fail a check, each check taken on its own. */
  predicate Violates(s: Settings, v: Violation) {
    match v
    case UrlMissing => !s.urlSet
    case CredentialsMissing => !s.credentialsSet
    case WorkspaceUnset => s.workspaceId == 0
    case ScaleFactorOutOfRange => !(MinScaleFactor <= s.scaleFactor <= MaxScaleFactor)
    case RequestMissing => !s.requestSet
    case FieldsEmpty => s.requestSet && s.fieldCount == 0
  }

  /** The guard chain of Create: the first failed check, if any. */
  function Check(s: Settings): (r: Option<Violation>)
    ensures r.Some? ==> Violates(s, r.value)
  {
    if !s.urlSet then Some(UrlMissing)
    else if !s.credentialsSet then Some(CredentialsMissing)
    else if s.workspaceId == 0 then Some(WorkspaceUnset)
    else if s.scaleFactor < MinScaleFactor || s.scaleFactor > MaxScaleFactor then Some(ScaleFactorOutOfRange)
    else if !s.requestSet then Some(RequestMissing)
    else if s.fieldCount == 0 then Some(FieldsEmpty)
    else None
  }

  /** The settings pass exactly when no check fails. */
  lemma CheckPasses(s: Settings)
    ensures Check(s) == None <==> forall v: Violation :: !Violates(s, v)
  {
    if Check(s) == None {
      forall v: Violation ensures !Violates(s, v) {
        match v
        case UrlMissing =>
        case CredentialsMissing =>
        case WorkspaceUnset =>
        case ScaleFactorOutOfRange =>
        case RequestMissing =>
        case FieldsEmpty =>
      }
    }
  }

  /** The reported check is the earliest failed one: every check before it holds. */
  lemma CheckFirst(s: Settings, v: Violation)
    ensures Check(s) == Some(v) <==> Violates(s, v) && forall w: Violation :: Rank(w) < Rank(v) ==> !Violates(s, w)
  {
    if Violates(s, v) && forall w: Violation :: Rank(w) < Rank(v) ==> !Violates(s, w) {
      assert !Violates(s, UrlMissing) || v == UrlMissing;
      assert !Violates(s, CredentialsMissing) || Rank(v) <= 1;
      assert !Violates(s, WorkspaceUnset) || Rank(v) <= 2;
      assert !Violates(s, ScaleFactorOutOfRange) || Rank(v) <= 3;
      assert !Violates(s, RequestMissing) || Rank(v) <= 4;
    }
  }

  /** The scale factor is accepted exactly in 1..16, both ends included. */
  lemma ScaleFactorBounds(s: Settings)
    requires s.urlSet && s.credentialsSet && s.workspaceId != 0
    ensures Check(s) != Some(ScaleFactorOutOfRange) <==> 1 <= s.scaleFactor <= 16
  {
  }

  /** The configurable properties of an export. */
  class ExportApiHelperConfig {
    var relativityUrl: Option<string>
    var credentials: Option<Credentials>
    var workspaceId: int
    var blockSize: int
    var queryRequest: QueryRequest?
    var scaleFactor: int

    /** A configuration with every property at its default. */
    constructor ()
      ensures relativityUrl == None && credentials == None && queryRequest == null
      ensures workspaceId == DefaultWorkspaceId && blockSize == DefaultBlockSize && scaleFactor == DefaultScaleFactor
    {
      relativityUrl, credentials, queryRequest := None, None, null;
      workspaceId, blockSize, scaleFactor := DefaultWorkspaceId, DefaultBlockSize, DefaultScaleFactor;
    }

    /** The request, as a set to read or modify. */
    function Request(): set<QueryRequest>
      reads this
    {
      if queryRequest == null then {} else {queryRequest}
    }

    /** What Create's checks see of the configuration. */
    function Current(): Settings
      reads this, Request()
    {
      Settings(relativityUrl.Some?, credentials.Some?, workspaceId, scaleFactor, queryRequest != null,
               if queryRequest == null then 0 else |queryRequest.fields|)
    }

    /**
     * Validate the configuration and create a helper from it. A failed check
     * changes nothing; otherwise a missing object type becomes the document
     * type, an object type already set is kept, and the helper receives the
     * configured url, credentials, workspace, block size, request and scale
     * factor.
     */
    method Create() returns (r: Result<ExportHelper.ExportApiHelper, string>)
      modifies Request()
      ensures var c := Check(old(Current()));
        && (c.Some? ==> r == Failure(Message(c.value)) && unchanged(Request()))
        && (c.None? ==>
              && r.Success? && fresh(r.value) && r.value.Initial()
              && r.value.relativityUrl == relativityUrl.value && r.value.credentials == credentials.value
              && r.value.workspaceId == workspaceId && r.value.blockSize == blockSize
              && r.value.queryRequest == queryRequest && r.value.scaleFactor == scaleFactor
              && queryRequest.fields == old(queryRequest.fields)
              && queryRequest.objectType == Some(if old(queryRequest.objectType).Some? then old(queryRequest.objectType.value)
                                                 else ObjectTypeRef(DocumentArtifactTypeId)))
    {
      var c := Check(Current());
      if c.Some? {
        return Failure(Message(c.value));
      }
      if queryRequest.objectType.None? {
        queryRequest.objectType := Some(ObjectTypeRef(DocumentArtifactTypeId));
      }
      var helper := new ExportHelper.ExportApiHelper(relativityUrl.value, credentials.value, workspaceId, blockSize,
                                                     queryRequest, scaleFactor);
      r := Success(helper);
    }
  }

  /** A configuration left at its defaults is refused for its missing url, and with a url and credentials set, for its workspace. */
  lemma DefaultsRefused(s: Settings)
    requires s.workspaceId == DefaultWorkspaceId
    ensures !s.urlSet ==> Check(s) == Some(UrlMissing)
    ensures s.urlSet && s.credentialsSet ==> Check(s) == Some(WorkspaceUnset)
  {
  }
}
