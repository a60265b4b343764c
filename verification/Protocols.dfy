/** Model origins: the binding a turn was requested on. */
module Protocols {
  import opened Wrappers

  datatype Protocol = GoogleInteractions | OpenAIResponses | AnthropicMessages

  datatype Deployment = Deployment(endpoint: string, credentialScope: string)

  datatype ModelOrigin = ModelOrigin(
    protocol: Protocol,
    requestedModel: string,
    deployment: Deployment,
    codecVersion: int)

  /** Field by field, the complete binding: an absent origin matches none, and
      two origins that differ anywhere (the codec version too) are different. */
  predicate SameModelOrigin(left: Option<ModelOrigin>, right: ModelOrigin): (same: bool)
    ensures same <==> left == Some(right)
  {
    if || left.None?
       || left.value.protocol != right.protocol
       || left.value.codecVersion != right.codecVersion
       || left.value.requestedModel != right.requestedModel
    then false
    else
      && left.value.deployment.endpoint == right.deployment.endpoint
      && left.value.deployment.credentialScope == right.deployment.credentialScope
  }
}
