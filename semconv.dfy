/**
 * Attribute keys of the OpenTelemetry semantic conventions, and the few
 * attribute values the exporter compares against, with the values those
 * conventions give them.
 */
module SemConv {
  // Span attributes.
  const HTTP_METHOD := "http.method"
  const HTTP_REQUEST_METHOD := "http.request.method"
  const HTTP_CLIENT_IP := "http.client_ip"
  const HTTP_USER_AGENT := "http.user_agent"
  const USER_AGENT_ORIGINAL := "user_agent.original"
  const HTTP_STATUS_CODE := "http.status_code"
  const HTTP_RESPONSE_STATUS_CODE := "http.response.status_code"
  const HTTP_URL := "http.url"
  const URL_FULL := "url.full"
  const HTTP_SCHEME := "http.scheme"
  const URL_SCHEME := "url.scheme"
  const HTTP_HOST := "http.host"
  const HTTP_TARGET := "http.target"
  const HTTP_SERVER_NAME := "http.server_name"
  const NET_HOST_PORT := "net.host.port"
  const NET_HOST_NAME := "net.host.name"
  const HOST_NAME := "host.name"
  const SERVER_ADDRESS := "server.address"
  const SERVER_PORT := "server.port"
  const NET_PEER_NAME := "net.peer.name"
  const NET_PEER_PORT := "net.peer.port"
  const NET_PEER_IP := "net.peer.ip"
  const NETWORK_PEER_ADDRESS := "network.peer.address"
  const CLIENT_ADDRESS := "client.address"
  const URL_PATH := "url.path"
  const MESSAGE_TYPE := "message.type"
  const MESSAGING_MESSAGE_PAYLOAD_SIZE_BYTES := "messaging.message_payload_size_bytes"
  const DB_SYSTEM := "db.system"
  const DB_NAME := "db.name"
  const DB_CONNECTION_STRING := "db.connection_string"
  const DB_USER := "db.user"
  const DB_STATEMENT := "db.statement"
  const ENDUSER_ID := "enduser.id"
  const RPC_SYSTEM := "rpc.system"
  const RPC_METHOD := "rpc.method"
  const RPC_SERVICE := "rpc.service"
  const PEER_SERVICE := "peer.service"
  const EXCEPTION_TYPE := "exception.type"
  const EXCEPTION_MESSAGE := "exception.message"
  const EXCEPTION_STACKTRACE := "exception.stacktrace"

  // Keys of the exporter's own (src/constants.ts) and of the AWS distribution.
  const AWS_OPERATION := "aws.operation"
  const AWS_ACCOUNT := "aws.account_id"
  const AWS_REGION := "aws.region"
  const AWS_REQUEST_ID := "aws.request.id"
  const AWS_REQUEST_ID_2 := "aws.request.extended_id"
  const AWS_SERVICE := "aws.service"
  const AWS_SPAN_KIND := "aws.span.kind"
  const AWS_LOCAL_SERVICE := "aws.local.service"
  const AWS_REMOTE_SERVICE := "aws.remote.service"

  // Resource attributes.
  const CLOUD_PROVIDER := "cloud.provider"
  const CLOUD_PLATFORM := "cloud.platform"
  const CLOUD_AVAILABILITY_ZONE := "cloud.availability_zone"
  const AWS_ECS_LAUNCHTYPE := "aws.ecs.launchtype"
  const AWS_ECS_CONTAINER_ARN := "aws.ecs.container.arn"
  const AWS_ECS_CLUSTER_ARN := "aws.ecs.cluster.arn"
  const AWS_ECS_TASK_ARN := "aws.ecs.task.arn"
  const AWS_ECS_TASK_FAMILY := "aws.ecs.task.family"
  const CONTAINER_ID := "container.id"
  const CONTAINER_NAME := "container.name"
  const CONTAINER_IMAGE_TAG := "container.image.tag"
  const DEPLOYMENT_ENVIRONMENT := "deployment.environment"
  const HOST_ID := "host.id"
  const HOST_IMAGE_ID := "host.image.id"
  const HOST_TYPE := "host.type"
  const K8S_CLUSTER_NAME := "k8s.cluster.name"
  const K8S_POD_NAME := "k8s.pod.name"
  const PROCESS_RUNTIME_NAME := "process.runtime.name"
  const PROCESS_RUNTIME_VERSION := "process.runtime.version"
  const SERVICE_INSTANCE_ID := "service.instance.id"
  const SERVICE_NAME := "service.name"
  const SERVICE_VERSION := "service.version"
  const TELEMETRY_AUTO_VERSION := "telemetry.auto.version"
  const TELEMETRY_SDK_LANGUAGE := "telemetry.sdk.language"
  const TELEMETRY_SDK_VERSION := "telemetry.sdk.version"

  // Values compared against.
  const PROVIDER_AWS := "aws"
  const PLATFORM_AWS_EC2 := "aws_ec2"
  const PLATFORM_AWS_ECS := "aws_ecs"
  const PLATFORM_AWS_EKS := "aws_eks"
  const PLATFORM_AWS_ELASTIC_BEANSTALK := "aws_elastic_beanstalk"
  const PLATFORM_AWS_APP_RUNNER := "aws_app_runner"
  const LAUNCH_TYPE_FARGATE := "fargate"
  const RPC_SYSTEM_AWS_API := "aws-api"
  const MESSAGE_TYPE_RECEIVED := "RECEIVED"
  const EXCEPTION_EVENT := "exception"
  const LOCAL_ROOT := "local_root"
  const AWS_SDK_PREFIX := "AWS.SDK."
}
