/**
 * The X-Ray segment document the exporter produces. Field names are the
 * document's JSON keys; an optional key is an `Option` (`None` is a key left
 * `undefined`, which serialisation drops).
 */
module Document {
  import opened Wrappers
  import opened Js

  /** The request block; `http_method` is the JSON key `method`. */
  datatype Request = Request(
    url: Option<string>,
    http_method: Option<string>,
    user_agent: Option<string>,
    client_ip: Option<string>,
    x_forwarded_for: Option<bool>)

  /** Both fields are always set by the exporter; either may be NaN. */
  datatype Response = Response(status: Number, content_length: Number)

  datatype Http = Http(request: Option<Request>, response: Option<Response>)

  /** A stack frame; `labelText` is the JSON key `label`. */
  datatype StackFrame = StackFrame(labelText: Option<string>, path: string, line: Number)

  /** An exception; `exception_type` is the JSON key `type`. */
  datatype Exception = Exception(
    id: string,
    cause: string,
    exception_type: Option<string>,
    message: Option<string>,
    remote: bool,
    stack: Option<seq<StackFrame>>)

  datatype Cause = Cause(exceptions: Option<seq<Exception>>)

  datatype Service = Service(version: string, runtime: string, runtime_version: string, name: string)

  datatype Sql = Sql(
    url: string,
    connection_string: string,
    database_type: Option<string>,
    user: Option<string>,
    sanitized_query: Option<string>)

  datatype XRay = XRay(sdk: string, sdk_version: Option<string>, auto_instrumentation: bool)

  datatype Eks = Eks(container_id: Option<string>, cluster_name: Option<string>, pod: Option<string>)

  /** Written under the JSON key `ebs`; src/xray.document.ts:21 declares the key `elastic_beanstalk`. */
  datatype Ebs = Ebs(environment: Option<string>, deployment_id: Number, version_label: Option<string>)

  datatype Ecs = Ecs(
    container_name: Option<string>,
    container_id: Option<string>,
    availability_zone: Option<string>,
    container_arn: Option<string>,
    cluster_arn: Option<string>,
    task_arn: Option<string>,
    task_family: Option<string>,
    launch_type: Option<string>)

  datatype Ec2 = Ec2(
    instance_id: Option<string>,
    availability_zone: Option<string>,
    instance_size: Option<string>,
    ami_id: Option<string>)

  datatype Aws = Aws(
    account_id: Option<string>,
    operation: Option<string>,
    region: Option<string>,
    request_id: Option<string>,
    id_2: Option<string>,
    xray: XRay,
    eks: Option<Eks>,
    ebs: Option<Ebs>,
    ecs: Option<Ecs>,
    ec2: Option<Ec2>)

  /** A link; written with the key `span_id`, where src/xray.document.ts:76 declares `id`. */
  datatype Link = Link(span_id: string, trace_id: string, attributes: Attributes)

  /**
   * A segment document; `segment_type` is the JSON key `type`. The keys
   * `annotations` and `metadata` are never set and are not represented.
   */
  datatype Segment = Segment(
    id: string,
    trace_id: string,
    name: string,
    start_time: real,
    end_time: real,
    parent_id: Option<string>,
    fault: Option<bool>,
    error: Option<bool>,
    throttle: Option<bool>,
    cause: Option<Cause>,
    origin: Option<string>,
    namespace: Option<string>,
    user: Option<string>,
    http: Option<Http>,
    aws: Aws,
    service: Service,
    sql: Option<Sql>,
    segment_type: Option<string>,
    links: Option<seq<Link>>)
}
