/**
 Shared names: the error values the webhook and the injector return, and the
 annotation keys they read and write.
 */
module Common {

  datatype Option<+T> = None | Some(value: T)

  /** The error values the validator and the resolver can return. */
  datatype Error =
    | ErrMissingConfiguration
    | ErrInvalidBandwidthRange
    | ErrInvalidBandwidthMaxMin
    | ErrInvalidPodSettingBandwidthMaxMin
    | ErrInvalidCustomLimitRangeCountMoreThanOne

  /** Annotation that lets a pod opt out of the namespace policy, and the value that does it. */
  const WebhookPodDisable: string := "customlimitrange.kubernetes.io/limited"
  const PodDisableValue: string := "disable"

  /** Annotation keys carrying a pod's requested bandwidth. */
  const IngressBandwidthKey: string := "kubernetes.io/ingress-bandwidth"
  const EgressBandwidthKey: string := "kubernetes.io/egress-bandwidth"

  /** Namespace used when a request names none. */
  const DefaultNamespace: string := "default"
}
