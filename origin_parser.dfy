/**
 * `DefaultOriginParser` (src/origin.parser.ts): the X-Ray `origin` of a span,
 * a closed decision table over the resource's cloud provider, cloud platform
 * and ECS launch type.
 */
module OriginParser {
  import opened Wrappers
  import opened Js
  import opened SemConv
  import opened Spans

  /** The seven origins the table can produce. */
  const ORIGINS: set<string> := {
    "AWS::AppRunner::Service", "AWS::EKS::Container", "AWS::ElasticBeanstalk::Environment",
    "AWS::ECS::Container", "AWS::ECS::EC2", "AWS::ECS::Fargate", "AWS::EC2::Instance"
  }

  /** The ECS origin for a launch type; compared against the platform value `aws_ec2`, so `ec2` is a plain container. */
  function EcsOrigin(launchType: Value): (r: string)
    ensures !Truthy(launchType) ==> r == "AWS::ECS::Container"
    ensures launchType == Text(PLATFORM_AWS_EC2) ==> r == "AWS::ECS::EC2"
    ensures launchType == Text(LAUNCH_TYPE_FARGATE) ==> r == "AWS::ECS::Fargate"
    ensures launchType != Text(PLATFORM_AWS_EC2) && launchType != Text(LAUNCH_TYPE_FARGATE) ==> r == "AWS::ECS::Container"
  {
    if !Truthy(launchType) then "AWS::ECS::Container"
    else if launchType == Text(PLATFORM_AWS_EC2) then "AWS::ECS::EC2"
    else if launchType == Text(LAUNCH_TYPE_FARGATE) then "AWS::ECS::Fargate"
    else "AWS::ECS::Container"
  }

  /** `getOrigin(span)`, read off the resource attributes. */
  function GetOrigin(span: ReadableSpan): (r: Option<string>)
    ensures Get(span.resource, CLOUD_PROVIDER) != Text(PROVIDER_AWS) ==> r.None?
    ensures r.Some? ==> r.value in ORIGINS
  {
    var res := span.resource;
    if Get(res, CLOUD_PROVIDER) != Text(PROVIDER_AWS) then None
    else
      var platform := Get(res, CLOUD_PLATFORM);
      if platform == Text(PLATFORM_AWS_APP_RUNNER) then Some("AWS::AppRunner::Service")
      else if platform == Text(PLATFORM_AWS_EKS) then Some("AWS::EKS::Container")
      else if platform == Text(PLATFORM_AWS_ELASTIC_BEANSTALK) then Some("AWS::ElasticBeanstalk::Environment")
      else if platform == Text(PLATFORM_AWS_ECS) then Some(EcsOrigin(Get(res, AWS_ECS_LAUNCHTYPE)))
      else if platform == Text(PLATFORM_AWS_EC2) then Some("AWS::EC2::Instance")
      else None
  }

  /** The platforms the table knows. */
  const PLATFORMS: set<string> := {
    PLATFORM_AWS_APP_RUNNER, PLATFORM_AWS_EKS, PLATFORM_AWS_ELASTIC_BEANSTALK, PLATFORM_AWS_ECS, PLATFORM_AWS_EC2
  }

  /**
   * On an AWS resource, each known platform maps to its origin and every other
   * platform value (or none) to `undefined`.
   */
  lemma PlatformTable(span: ReadableSpan)
    requires Get(span.resource, CLOUD_PROVIDER) == Text(PROVIDER_AWS)
    ensures var p := Get(span.resource, CLOUD_PLATFORM);
      && (p == Text(PLATFORM_AWS_APP_RUNNER) ==> GetOrigin(span) == Some("AWS::AppRunner::Service"))
      && (p == Text(PLATFORM_AWS_EKS) ==> GetOrigin(span) == Some("AWS::EKS::Container"))
      && (p == Text(PLATFORM_AWS_ELASTIC_BEANSTALK) ==> GetOrigin(span) == Some("AWS::ElasticBeanstalk::Environment"))
      && (p == Text(PLATFORM_AWS_EC2) ==> GetOrigin(span) == Some("AWS::EC2::Instance"))
      && (p == Text(PLATFORM_AWS_ECS) ==> GetOrigin(span) == Some(EcsOrigin(Get(span.resource, AWS_ECS_LAUNCHTYPE))))
      && (!(p.Text? && p.s in PLATFORMS) ==> GetOrigin(span).None?)
  {
  }

  /** The origin is defined exactly for an AWS resource on a known platform. */
  lemma OriginDefinedIff(span: ReadableSpan)
    ensures GetOrigin(span).Some? <==>
      Get(span.resource, CLOUD_PROVIDER) == Text(PROVIDER_AWS)
      && Get(span.resource, CLOUD_PLATFORM).Text? && Get(span.resource, CLOUD_PLATFORM).s in PLATFORMS
  {
  }
}
