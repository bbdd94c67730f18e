/** The flag-derived Kubernetes keychain options of authn/options.go. */
module AuthnOptions {

  /** The fields of `k8schain.Options` that the core reads. */
  datatype KubeChainOptions = KubeChainOptions(
    namespace: string,
    serviceAccountName: string,
    imagePullSecrets: seq<string>)

  /** The value `optsFromFlags` starts with: the pod's namespace and service
      account (read from the environment, so given here as inputs) and no pull
      secrets until the `image-pull-secrets` flag is bound and parsed. */
  function InitialFlagOptions(podNamespace: string, podServiceAccount: string): KubeChainOptions
  {
    KubeChainOptions(podNamespace, podServiceAccount, [])
  }

  /** `isOptionsSet`: whether the flag options carry anything that selects a
      cluster-scoped keychain. It only reads the options value it is given. */
  predicate IsOptionsSet(opts: KubeChainOptions)
  {
    opts.serviceAccountName != "" || |opts.imagePullSecrets| > 0
  }

  /** The namespace never decides whether options are set: a non-empty
      namespace alone does not make them count. */
  lemma NamespaceIrrelevant(opts: KubeChainOptions, namespace: string)
    ensures IsOptionsSet(opts.(namespace := namespace)) == IsOptionsSet(opts)
    ensures namespace != "" ==> !IsOptionsSet(KubeChainOptions(namespace, "", []))
  {
  }

  /** Until pull secrets are bound, options are set exactly when the pod's
      service account name is non-empty. */
  lemma InitialOptionsSet(podNamespace: string, podServiceAccount: string)
    ensures IsOptionsSet(InitialFlagOptions(podNamespace, podServiceAccount)) <==> podServiceAccount != ""
  {
  }
}
