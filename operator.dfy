/** The parts of the grafana-operator v1beta1 and Kubernetes metav1 types that the current
    revision's manifests are built from. They are a fixed external format. */
module Operator {
  import opened Wrappers

  /** v1beta1.GroupVersion.String() of grafana-operator v5. */
  const GroupVersion: string := "grafana.integreatly.org/v1beta1"

  /** time.Minute, in nanoseconds. */
  const Minute: int := 60 * 1000 * 1000 * 1000

  datatype TypeMeta = TypeMeta(apiVersion: string, kind: string)

  datatype ObjectMeta = ObjectMeta(name: string, namespace: string)

  /** metav1.Duration. */
  datatype Duration = Duration(nanoseconds: int)

  /** metav1.LabelSelector (only its matchLabels are used). */
  datatype LabelSelector = LabelSelector(matchLabels: map<string, string>)

  /** v1beta1.GrafanaCommonSpec; `instanceSelector` is None when nil. */
  datatype GrafanaCommonSpec = GrafanaCommonSpec(
    resyncPeriod: Duration,
    allowCrossNamespaceImport: bool,
    instanceSelector: Option<LabelSelector>)
}
