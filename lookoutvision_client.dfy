/**
 * LookoutforVisionClient: the operation methods of the Lookout for Vision client.
 *
 * Every operation runs the same pipeline: it checks its required request fields
 * in a fixed order and fails on the first one that is not set, with a
 * MISSING_PARAMETER error; it then resolves the endpoint, failing with
 * an endpoint resolution failure if that fails; it then appends a fixed sequence of
 * literal path pieces and request values to the endpoint's path and hands the
 * request, the HTTP verb and the SigV4 signer to MakeRequest.
 */
module LookoutforVision {
  import opened AwsCore

  datatype Operation =
    | CreateDataset | CreateModel | CreateProject
    | DeleteDataset | DeleteModel | DeleteProject
    | DescribeDataset | DescribeModel | DescribeModelPackagingJob | DescribeProject
    | DetectAnomalies
    | ListDatasetEntries | ListModelPackagingJobs | ListModels | ListProjects | ListTagsForResource
    | StartModel | StartModelPackagingJob | StopModel
    | TagResource | UntagResource | UpdateDatasetEntries

  /** The request fields that some operation requires. */
  datatype Field = ProjectName | DatasetType | ModelVersion | JobName | ResourceArn | TagKeys

  /**
   * The request, as the optional fields the operations consult; an absent value
   * is a field whose HasBeenSet flag is false. (Each operation has its own
   * request class; fields an operation does not have are simply ignored by it.)
   */
  datatype Request = Request(
    projectName: Option<string>,
    datasetType: Option<string>,
    modelVersion: Option<string>,
    jobName: Option<string>,
    resourceArn: Option<string>,
    tagKeys: Option<seq<string>>)

  /** <Field>HasBeenSet() */
  predicate IsSet(req: Request, f: Field) {
    match f
    case ProjectName => req.projectName.Some?
    case DatasetType => req.datasetType.Some?
    case ModelVersion => req.modelVersion.Some?
    case JobName => req.jobName.Some?
    case ResourceArn => req.resourceArn.Some?
    case TagKeys => req.tagKeys.Some?
  }

  /** Get<Field>() of a string field: the stored value, or the empty default when unset. */
  function PathValue(req: Request, f: Field): string
    requires f != TagKeys
  {
    var v := match f
      case ProjectName => req.projectName
      case DatasetType => req.datasetType
      case ModelVersion => req.modelVersion
      case JobName => req.jobName
      case ResourceArn => req.resourceArn;
    if v.Some? then v.value else ""
  }

  /** The field's name as it appears in the error message. */
  function FieldName(f: Field): string {
    match f
    case ProjectName => "ProjectName"
    case DatasetType => "DatasetType"
    case ModelVersion => "ModelVersion"
    case JobName => "JobName"
    case ResourceArn => "ResourceArn"
    case TagKeys => "TagKeys"
  }

  /** The fields each operation checks, in the order it checks them. */
  function RequiredFields(op: Operation): (fields: seq<Field>)
    // at most two guards, never the same field twice
    ensures |fields| <= 2 && (|fields| == 2 ==> fields[0] != fields[1])
    // the resource itself is checked first: ProjectName, or ResourceArn for the tagging operations
    ensures ProjectName in fields ==> fields[0] == ProjectName
    ensures ResourceArn in fields ==> fields[0] == ResourceArn
    // TagKeys is required only by UntagResource, after ResourceArn
    ensures TagKeys in fields <==> op == UntagResource
    ensures TagKeys in fields ==> fields == [ResourceArn, TagKeys]
  {
    match op
    case CreateProject | ListProjects => []
    case CreateDataset | CreateModel | DeleteProject | DescribeProject
       | ListModelPackagingJobs | ListModels | StartModelPackagingJob => [ProjectName]
    case DeleteDataset | DescribeDataset | ListDatasetEntries | UpdateDatasetEntries => [ProjectName, DatasetType]
    case DeleteModel | DescribeModel | DetectAnomalies | StartModel | StopModel => [ProjectName, ModelVersion]
    case DescribeModelPackagingJob => [ProjectName, JobName]
    case ListTagsForResource | TagResource => [ResourceArn]
    case UntagResource => [ResourceArn, TagKeys]
  }

  /**
   * One step of the path construction: AddPathSegments with a literal, or
   * AddPathSegment with the value of a request field.
   */
  datatype PathPart = Literal(text: string) | Param(field: Field)

  /** The path each operation appends to the resolved endpoint. */
  function PathTemplate(op: Operation): (template: seq<PathPart>)
    // TagKeys, the one list-valued field, never appears in a path
    ensures forall i :: 0 <= i < |template| && template[i].Param? ==> template[i].field != TagKeys
  {
    var projects := Literal("/2020-11-20/projects/");
    match op
    case CreateDataset => [projects, Param(ProjectName), Literal("/datasets")]
    case CreateModel => [projects, Param(ProjectName), Literal("/models")]
    case CreateProject => [Literal("/2020-11-20/projects")]
    case DeleteDataset => [projects, Param(ProjectName), Literal("/datasets/"), Param(DatasetType)]
    case DeleteModel => [projects, Param(ProjectName), Literal("/models/"), Param(ModelVersion)]
    case DeleteProject => [projects, Param(ProjectName)]
    case DescribeDataset => [projects, Param(ProjectName), Literal("/datasets/"), Param(DatasetType)]
    case DescribeModel => [projects, Param(ProjectName), Literal("/models/"), Param(ModelVersion)]
    case DescribeModelPackagingJob => [projects, Param(ProjectName), Literal("/modelpackagingjobs/"), Param(JobName)]
    case DescribeProject => [projects, Param(ProjectName)]
    case DetectAnomalies =>
      [projects, Param(ProjectName), Literal("/models/"), Param(ModelVersion), Literal("/detect")]
    case ListDatasetEntries =>
      [projects, Param(ProjectName), Literal("/datasets/"), Param(DatasetType), Literal("/entries")]
    case ListModelPackagingJobs => [projects, Param(ProjectName), Literal("/modelpackagingjobs")]
    case ListModels => [projects, Param(ProjectName), Literal("/models")]
    case ListProjects => [Literal("/2020-11-20/projects")]
    case ListTagsForResource => [Literal("/2020-11-20/tags/"), Param(ResourceArn)]
    case StartModel => [projects, Param(ProjectName), Literal("/models/"), Param(ModelVersion), Literal("/start")]
    case StartModelPackagingJob => [projects, Param(ProjectName), Literal("/modelpackagingjobs")]
    case StopModel => [projects, Param(ProjectName), Literal("/models/"), Param(ModelVersion), Literal("/stop")]
    case TagResource => [Literal("/2020-11-20/tags/"), Param(ResourceArn)]
    case UntagResource => [Literal("/2020-11-20/tags/"), Param(ResourceArn)]
    case UpdateDatasetEntries =>
      [projects, Param(ProjectName), Literal("/datasets/"), Param(DatasetType), Literal("/entries")]
  }

  datatype HttpMethod = HTTP_GET | HTTP_POST | HTTP_DELETE | HTTP_PATCH

  /** The HTTP verb each operation passes to MakeRequest. */
  function Verb(op: Operation): (verb: HttpMethod)
    ensures verb == VerbForAction(ActionOf(op))
  {
    match op
    case CreateDataset | CreateModel | CreateProject | DetectAnomalies
       | StartModel | StartModelPackagingJob | StopModel | TagResource => HTTP_POST
    case DeleteDataset | DeleteModel | DeleteProject | UntagResource => HTTP_DELETE
    case DescribeDataset | DescribeModel | DescribeModelPackagingJob | DescribeProject
       | ListDatasetEntries | ListModelPackagingJobs | ListModels | ListProjects | ListTagsForResource => HTTP_GET
    case UpdateDatasetEntries => HTTP_PATCH
  }

  datatype Signer = SIGV4_SIGNER

  /** What was appended to the endpoint's path: by AddPathSegments, or by AddPathSegment. */
  datatype PathSegment = Segments(path: string) | Segment(value: string)

  /** An endpoint returned by a successful resolution; its contents are not interpreted. */
  datatype Endpoint = Endpoint(uri: string)

  /** The result of the endpoint provider's ResolveEndpoint, an input to the operation. */
  datatype ResolveEndpointOutcome = Resolved(endpoint: Endpoint) | ResolveFailed(message: string)

  /** The LookoutforVisionErrors value the operations themselves construct. */
  datatype ErrorKind = MISSING_PARAMETER

  /** AWSError: the error type, its exception name, its message and whether it may be retried. */
  datatype AwsError = AwsError(kind: ErrorKind, exceptionName: string, message: string, retryable: bool)

  /**
   * What an operation does: return the AWSError it builds for a missing field;
   * return the error AWS_OPERATION_CHECK_SUCCESS makes of a failed resolution,
   * of type CoreErrors::ENDPOINT_RESOLUTION_FAILURE with the resolver's message
   * (the macro's other choices are not part of this model); or call MakeRequest
   * with this endpoint, path, verb and signer.
   */
  datatype Outcome =
    | Failure(error: AwsError)
    | EndpointResolutionFailure(message: string)
    | Dispatch(endpoint: Endpoint, path: seq<PathSegment>, verb: HttpMethod, signer: Signer)

  /** The first field of `required` that is not set, checking in order. */
  function FirstMissing(required: seq<Field>, req: Request): (r: Option<Field>)
    ensures r.None? <==> forall i :: 0 <= i < |required| ==> IsSet(req, required[i])
    ensures r.Some? ==> exists k :: 0 <= k < |required| && required[k] == r.value && !IsSet(req, r.value) &&
                                    forall j :: 0 <= j < k ==> IsSet(req, required[j])
  {
    if required == [] then None
    else if !IsSet(req, required[0]) then Some(required[0])
    else
      var rest := FirstMissing(required[1..], req);
      assert forall i :: 1 <= i < |required| ==> required[i] == required[1..][i - 1];
      rest
  }

  /** The path segments the operation appends, with each parameter replaced by the request's value. */
  function Instantiate(template: seq<PathPart>, req: Request): (path: seq<PathSegment>)
    requires forall i :: 0 <= i < |template| && template[i].Param? ==> template[i].field != TagKeys
    ensures |path| == |template|
    // a literal is appended with AddPathSegments unchanged; a request value only ever as a single AddPathSegment
    ensures forall i :: 0 <= i < |template| ==>
              (template[i].Literal? ==> path[i] == Segments(template[i].text)) &&
              (template[i].Param? ==> path[i] == Segment(PathValue(req, template[i].field)))
  {
    if template == [] then []
    else
      var head := match template[0]
        case Literal(text) => Segments(text)
        case Param(f) => Segment(PathValue(req, f));
      [head] + Instantiate(template[1..], req)
  }

  /** The error an operation returns when required field `f` is not set. */
  function MissingParameter(f: Field): (e: AwsError)
    ensures e.kind == MISSING_PARAMETER && e.exceptionName == "MISSING_PARAMETER" && !e.retryable
    ensures e.message == "Missing required field [" + FieldName(f) + "]"
  {
    AwsError(MISSING_PARAMETER, "MISSING_PARAMETER", "Missing required field [" + FieldName(f) + "]", false)
  }

  /**
   * An operation method (CreateDataset ... UpdateDatasetEntries) on its request,
   * given what ResolveEndpoint would return if it were called.
   */
  function Invoke(op: Operation, req: Request, resolution: ResolveEndpointOutcome): (r: Outcome)
    // a request is dispatched only with every required field set, to the resolved endpoint, signed with SigV4
    ensures r.Dispatch? ==> (forall i :: 0 <= i < |RequiredFields(op)| ==> IsSet(req, RequiredFields(op)[i]))
    ensures r.Dispatch? ==> resolution == Resolved(r.endpoint) && r.signer == SIGV4_SIGNER && r.verb == Verb(op)
    // the operation's own error is a non-retryable MISSING_PARAMETER; a resolution failure passes the resolver's message on
    ensures r.Failure? ==> r.error.kind == MISSING_PARAMETER && !r.error.retryable
    ensures r.EndpointResolutionFailure? ==> resolution == ResolveFailed(r.message)
  {
    match FirstMissing(RequiredFields(op), req)
    case Some(f) => Failure(MissingParameter(f))
    case None =>
      match resolution
      case ResolveFailed(message) => EndpointResolutionFailure(message)
      case Resolved(endpoint) =>
        Dispatch(endpoint, Instantiate(PathTemplate(op), req), Verb(op), SIGV4_SIGNER)
  }

  // ---------------------------------------------------------------------------
  // Properties of the operations

  /**
   * Every request value used in a path is a required field, so a dispatched path
   * never carries the empty default of an unset field.
   */
  lemma PathParamsAreRequired(op: Operation)
    ensures forall i :: 0 <= i < |PathTemplate(op)| && PathTemplate(op)[i].Param? ==>
              PathTemplate(op)[i].field in RequiredFields(op)
  {
  }

  /**
   * A missing required field is reported as MISSING_PARAMETER, naming the first
   * missing field in the operation's order, and the endpoint resolution result
   * plays no part; conversely MISSING_PARAMETER is reported only then.
   */
  lemma MissingFieldIsReported(op: Operation, req: Request, resolution: ResolveEndpointOutcome)
    ensures (exists i :: 0 <= i < |RequiredFields(op)| && !IsSet(req, RequiredFields(op)[i])) <==>
            (Invoke(op, req, resolution).Failure? && Invoke(op, req, resolution).error.kind == MISSING_PARAMETER)
    ensures forall k :: 0 <= k < |RequiredFields(op)| && !IsSet(req, RequiredFields(op)[k]) &&
                        (forall j :: 0 <= j < k ==> IsSet(req, RequiredFields(op)[j])) ==>
              Invoke(op, req, resolution) == Failure(MissingParameter(RequiredFields(op)[k]))
  {
  }

  /** With a required field missing, the outcome is the same whatever the endpoint resolution would give. */
  lemma MissingFieldPrecedesEndpointResolution(op: Operation, req: Request, e1: ResolveEndpointOutcome,
                                                e2: ResolveEndpointOutcome)
    requires exists i :: 0 <= i < |RequiredFields(op)| && !IsSet(req, RequiredFields(op)[i])
    ensures Invoke(op, req, e1) == Invoke(op, req, e2)
  {
  }

  /** The error message names the field: different missing fields give different errors. */
  lemma {:induction false} MissingParameterIdentifiesField(f: Field, g: Field)
    ensures MissingParameter(f) == MissingParameter(g) <==> f == g
  {
    if MissingParameter(f) == MissingParameter(g) {
      var prefix := "Missing required field [";
      var mf, mg := MissingParameter(f).message, MissingParameter(g).message;
      assert |FieldName(f)| == |FieldName(g)|;
      assert FieldName(f) == mf[|prefix|..|mf| - 1];
      assert FieldName(g) == mg[|prefix|..|mg| - 1];
    }
  }

  /** ProjectName is checked first wherever it is required, ResourceArn wherever it is required. */
  lemma CheckOrder(op: Operation, req: Request, resolution: ResolveEndpointOutcome)
    ensures ProjectName in RequiredFields(op) && !IsSet(req, ProjectName) ==>
              Invoke(op, req, resolution) == Failure(MissingParameter(ProjectName))
    ensures ResourceArn in RequiredFields(op) && !IsSet(req, ResourceArn) ==>
              Invoke(op, req, resolution) == Failure(MissingParameter(ResourceArn))
  {
  }

  /** CreateProject and ListProjects require nothing: they always go on to endpoint resolution. */
  lemma NoRequiredFields(op: Operation, req: Request, resolution: ResolveEndpointOutcome)
    ensures RequiredFields(op) == [] <==> op == CreateProject || op == ListProjects
    ensures op == CreateProject || op == ListProjects ==>
              match resolution
              case ResolveFailed(message) => Invoke(op, req, resolution) == EndpointResolutionFailure(message)
              case Resolved(endpoint) => Invoke(op, req, resolution).Dispatch?
  {
  }

  /**
   * With every required field set, a failed resolution is reported as an
   * endpoint resolution failure with the resolver's message and no path; a
   * successful one dispatches the operation's path on the resolved endpoint.
   */
  lemma RequiredFieldsSet(op: Operation, req: Request, resolution: ResolveEndpointOutcome)
    requires forall i :: 0 <= i < |RequiredFields(op)| ==> IsSet(req, RequiredFields(op)[i])
    ensures resolution.ResolveFailed? ==>
              Invoke(op, req, resolution) == EndpointResolutionFailure(resolution.message)
    ensures resolution.Resolved? ==>
              Invoke(op, req, resolution) ==
              Dispatch(resolution.endpoint, Instantiate(PathTemplate(op), req), Verb(op), SIGV4_SIGNER)
  {
  }

  /** DetectAnomalies: "/2020-11-20/projects/", ProjectName, "/models/", ModelVersion, "/detect", by POST. */
  lemma DetectAnomaliesRequest(req: Request, endpoint: Endpoint)
    requires req.projectName.Some? && req.modelVersion.Some?
    ensures Invoke(DetectAnomalies, req, Resolved(endpoint)) ==
            Dispatch(endpoint,
                     [Segments("/2020-11-20/projects/"), Segment(req.projectName.value),
                      Segments("/models/"), Segment(req.modelVersion.value), Segments("/detect")],
                     HTTP_POST, SIGV4_SIGNER)
  {
  }

  /**
   * UntagResource requires TagKeys but leaves it out of the path, which is
   * "/2020-11-20/tags/" and the ResourceArn; the verb is DELETE.
   */
  lemma UntagResourceRequest(req: Request, endpoint: Endpoint)
    requires req.resourceArn.Some? && req.tagKeys.Some?
    ensures TagKeys in RequiredFields(UntagResource)
    ensures Invoke(UntagResource, req, Resolved(endpoint)) ==
            Dispatch(endpoint, [Segments("/2020-11-20/tags/"), Segment(req.resourceArn.value)], HTTP_DELETE, SIGV4_SIGNER)
  {
  }

  /** The action word each operation's name begins with. */
  datatype Action = Create | Delete | Describe | Detect | List | Start | Stop | Tag | Untag | Update

  function ActionOf(op: Operation): Action {
    match op
    case CreateDataset => Create
    case CreateModel => Create
    case CreateProject => Create
    case DeleteDataset => Delete
    case DeleteModel => Delete
    case DeleteProject => Delete
    case DescribeDataset => Describe
    case DescribeModel => Describe
    case DescribeModelPackagingJob => Describe
    case DescribeProject => Describe
    case DetectAnomalies => Detect
    case ListDatasetEntries => List
    case ListModelPackagingJobs => List
    case ListModels => List
    case ListProjects => List
    case ListTagsForResource => List
    case StartModel => Start
    case StartModelPackagingJob => Start
    case StopModel => Stop
    case TagResource => Tag
    case UntagResource => Untag
    case UpdateDatasetEntries => Update
  }

  /**
   * The REST convention the verbs follow: reads (Describe, List) GET; creations
   * and commands (Create, Detect, Start, Stop, Tag) POST; removals (Delete,
   * Untag) DELETE; partial updates (Update) PATCH.
   */
  function VerbForAction(a: Action): HttpMethod {
    match a
    case Describe | List => HTTP_GET
    case Create | Detect | Start | Stop | Tag => HTTP_POST
    case Delete | Untag => HTTP_DELETE
    case Update => HTTP_PATCH
  }

  /**
   * GET is used exactly by the reading operations, and PATCH only by
   * UpdateDatasetEntries; the others POST or DELETE.
   */
  lemma VerbFollowsAction(op: Operation)
    ensures Verb(op) == HTTP_GET <==> ActionOf(op) in {Describe, List}
    ensures Verb(op) == HTTP_PATCH <==> op == UpdateDatasetEntries
  {
  }
}
