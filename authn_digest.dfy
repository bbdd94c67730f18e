/** authn/digest.go: stripping and pinning image digests, the
    insecure-registry heuristic and the composition of the keychain. */
module AuthnDigest {
  import opened Wrappers
  import opened Strings
  import opened AuthnOptions

  /** The errors `ImageWithDigest` can return: its own malformed-image error,
      or one produced by a collaborator and passed through unchanged. */
  datatype Error = InvalidImage(image: string) | External(message: string) {
    /** The text of the error, as `fmt.Errorf` formats it. */
    function Message(): string {
      match this
      case InvalidImage(image) => "invalid image: " + image
      case External(message) => message
    }
  }

  // ---------------------------------------------------------------------
  // ImageWithoutDigest

  /** Drops the `@digest` part of an image reference, cutting at the FIRST '@'.
      A reference whose first '@' is its first character has no name part and
      is rejected. */
  function ImageWithoutDigest(image: string): (r: Result<string, Error>)
    ensures '@' !in image ==> r == Success(image)
    ensures '@' in image ==> (r.Failure? <==> image[0] == '@')
    ensures r.Failure? ==> r.error == InvalidImage(image)
    ensures r.Success? && '@' in image ==>
              && r.value != "" && '@' !in r.value
              && |r.value| < |image| && image[..|r.value|] == r.value && image[|r.value|] == '@'
  {
    var cut := Cut(image, '@');
    if cut.found then
      assert image[..|cut.before|] == cut.before;
      if |cut.before| > 0 then Success(cut.before)
      else Failure(InvalidImage(image))
    else
      Success(image)
  }

  /** Stripping is idempotent: a stripped image has nothing left to strip. */
  lemma StripIdempotent(image: string)
    requires ImageWithoutDigest(image).Success?
    ensures ImageWithoutDigest(ImageWithoutDigest(image).value) == ImageWithoutDigest(image)
  {
  }

  /** Stripping keeps exactly what precedes the first '@', whatever follows it
      (including further '@' characters). */
  lemma StripKeepsPrefix(name: string, rest: string)
    requires name != "" && '@' !in name
    ensures ImageWithoutDigest(name + "@" + rest) == Success(name)
  {
    IndexOfConcat(name, '@', rest);
  }

  /** Stripping fails only with the `invalid image: <image>` error, which
      quotes the whole input, digest included. */
  lemma StripErrorText(name: string, digest: string)
    requires '@' !in name
    ensures var r := ImageWithoutDigest(name + "@" + digest);
            r.Failure? <==> name == ""
    ensures ImageWithoutDigest("@" + digest).Failure?
         && ImageWithoutDigest("@" + digest).error.Message() == "invalid image: @" + digest
  {
    IndexOfConcat(name, '@', digest);
    IndexOfConcat("", '@', digest);
    assert "" + "@" + digest == "@" + digest;
  }

  // ---------------------------------------------------------------------
  // probablyInsecureRegistry

  /** `publicsuffix.PublicSuffix`'s ICANN flag for a host: whether its suffix
      is an ICANN-delegated one. The table itself is not modelled. */
  type PublicSuffixIcann = string -> bool

  /** The inputs the heuristic looks at: at least one '/', and a first segment
      containing '.'. Only these initialise the exception set. */
  predicate HasDottedHost(s: string)
  {
    var parts := Split(s, '/');
    |parts| > 1 && '.' in parts[0]
  }

  /** The verdict of `probablyInsecureRegistry` once the exception set is
      known: the reference's first segment is an explicitly listed insecure
      registry, or a dotted host outside the ICANN public suffixes. */
  function ProbablyInsecure(s: string, exceptions: set<string>, icann: PublicSuffixIcann): bool
  {
    var parts := Split(s, '/');
    if |parts| > 1 && '.' in parts[0] then
      if parts[0] in exceptions then true
      else if !icann(parts[0]) then true
      else false
    else
      false
  }

  /** The verdict stated directly on the text: true exactly when the input has
      a '/', the host before the first '/' contains '.', and that host is
      listed or not under an ICANN suffix. */
  lemma ProbablyInsecureMeaning(s: string, exceptions: set<string>, icann: PublicSuffixIcann)
    ensures ProbablyInsecure(s, exceptions, icann) <==>
              && '/' in s
              && var host := s[..IndexOf(s, '/')];
                 '.' in host && (host in exceptions || !icann(host))
    ensures !HasDottedHost(s) ==> !ProbablyInsecure(s, exceptions, icann)
  {
  }

  /** A host listed as insecure is insecure whatever its public suffix, and
      an unlisted dotted host is insecure exactly when its suffix is not an
      ICANN one. */
  lemma ProbablyInsecureOfHost(host: string, path: string, exceptions: set<string>, icann: PublicSuffixIcann)
    requires '/' !in host && '.' in host
    ensures host in exceptions ==> ProbablyInsecure(host + "/" + path, exceptions, icann)
    ensures host !in exceptions ==> (ProbablyInsecure(host + "/" + path, exceptions, icann) <==> !icann(host))
  {
    IndexOfConcat(host, '/', path);
  }

  /** Bare names are never insecure: with no '/', as in `gcr.io` or `nginx`,
      or with an undotted first segment, as in `kubedb/ui-server`. */
  lemma BareNamesAreSecure(s: string, exceptions: set<string>, icann: PublicSuffixIcann)
    requires '/' !in s || '.' !in s[..IndexOf(s, '/')]
    ensures !ProbablyInsecure(s, exceptions, icann)
  {
  }

  /** The package state behind `probablyInsecureRegistry`: the raw
      `insecureRegistries` flag value, and the set built from it by the first
      classifying call (`once` / `insecureRegistrySet`). */
  class InsecureRegistries {
    var insecureRegistries: seq<string>
    var initialised: bool
    var insecureRegistrySet: set<string>

    /** Before `once.Do` has run, the set is Go's nil set, which holds
        nothing. */
    constructor (registries: seq<string>)
      ensures insecureRegistries == registries
      ensures !initialised && insecureRegistrySet == {}
    {
      insecureRegistries := registries;
      initialised := false;
      insecureRegistrySet := {};
    }

    /** The flag binding writing a new value into `insecureRegistries`; the
        snapshot, once taken, is not affected. */
    method SetInsecureRegistries(registries: seq<string>)
      modifies this`insecureRegistries
      ensures insecureRegistries == registries
    {
      insecureRegistries := registries;
    }

    /** `probablyInsecureRegistry`: classifies `s`, building the exception set
        from the list as it stands on the first call with a dotted host; calls
        that return early do not build it, and later calls reuse it. */
    method ProbablyInsecureRegistry(s: string, icann: PublicSuffixIcann) returns (insecure: bool)
      modifies this`initialised, this`insecureRegistrySet
      ensures HasDottedHost(s) && !old(initialised) ==>
                initialised && insecureRegistrySet == set r | r in insecureRegistries
      ensures !HasDottedHost(s) || old(initialised) ==>
                initialised == old(initialised) && insecureRegistrySet == old(insecureRegistrySet)
      ensures insecure == ProbablyInsecure(s, insecureRegistrySet, icann)
    {
      var parts := Split(s, '/');
      if |parts| > 1 && '.' in parts[0] {
        if !initialised {
          insecureRegistrySet := set r | r in insecureRegistries;
          initialised := true;
        }
        if parts[0] in insecureRegistrySet {
          return true;
        }
        if !icann(parts[0]) {
          return true;
        }
      }
      return false;
    }
  }

  /** The list in force at the first dotted-host call is the one used for
      good. Starting from the list `[first]`: a bare reference is classified
      without taking the snapshot; the list then becomes `[first, second]`,
      and a reference on `second` is found insecure because the snapshot is
      taken now, not at start-up; the list is then emptied, and a reference
      on `first` is still found insecure from the snapshot. */
  method SnapshotIsTakenOnce(bare: string, first: string, second: string, path: string, icann: PublicSuffixIcann)
    returns (early: bool, onSecond: bool, onFirst: bool, snapshot: set<string>)
    requires '/' !in bare
    requires '/' !in first && '.' in first && '/' !in second && '.' in second
    ensures !early
    ensures onSecond && onFirst
    ensures snapshot == {first, second}
  {
    var registries := new InsecureRegistries([first]);
    early := registries.ProbablyInsecureRegistry(bare, icann);
    assert !registries.initialised;
    registries.SetInsecureRegistries([first, second]);
    ProbablyInsecureOfHost(second, path, {first, second}, icann);
    IndexOfConcat(second, '/', path);
    onSecond := registries.ProbablyInsecureRegistry(second + "/" + path, icann);
    assert registries.insecureRegistrySet == {first, second};
    registries.SetInsecureRegistries([]);
    ProbablyInsecureOfHost(first, path, {first, second}, icann);
    IndexOfConcat(first, '/', path);
    onFirst := registries.ProbablyInsecureRegistry(first + "/" + path, icann);
    snapshot := registries.insecureRegistrySet;
  }

  // ---------------------------------------------------------------------
  // CreateKeyChain

  /** The credential sources a keychain is composed of: the fixed helpers and
      a cluster-scoped chain made by `k8schain.New` from some options. */
  datatype Keychain =
    | Google
    | Default
    | GitHub
    | Amazon
    | Azure
    | Kubernetes(options: KubeChainOptions)

  /** `k8schain.New` against the cluster client: the error it reports for the
      given options, or None when it yields the chain `Kubernetes(options)`. */
  type K8sChainNew = KubeChainOptions -> Option<Error>

  /** The chain used when no cluster-scoped option is in effect. */
  const FallbackKeychains: seq<Keychain> := [Google, Default, GitHub, Amazon, Azure]

  /** The cluster-scoped sources in precedence order: the explicit options'
      chain, then the flag options' chain. */
  function ClusterKeychains(k8sOpts: Option<KubeChainOptions>, flagOpts: KubeChainOptions): seq<Keychain>
  {
    (if k8sOpts.Some? then [Kubernetes(k8sOpts.value)] else [])
    + (if IsOptionsSet(flagOpts) then [Kubernetes(flagOpts)] else [])
  }

  /** The keychain `CreateKeyChain` composes, or the first `k8schain.New`
      error, explicit options being tried first. */
  function KeyChain(k8sOpts: Option<KubeChainOptions>, flagOpts: KubeChainOptions, k8sNew: K8sChainNew)
    : Result<seq<Keychain>, Error>
  {
    if k8sOpts.None? && !IsOptionsSet(flagOpts) then Success(FallbackKeychains)
    else if k8sOpts.Some? && k8sNew(k8sOpts.value).Some? then Failure(k8sNew(k8sOpts.value).value)
    else if IsOptionsSet(flagOpts) && k8sNew(flagOpts).Some? then Failure(k8sNew(flagOpts).value)
    else Success(ClusterKeychains(k8sOpts, flagOpts) + [Default])
  }

  /** `CreateKeyChain`: grows the chain source by source. */
  method CreateKeyChain(k8sOpts: Option<KubeChainOptions>, flagOpts: KubeChainOptions, k8sNew: K8sChainNew)
    returns (r: Result<seq<Keychain>, Error>)
    ensures r == KeyChain(k8sOpts, flagOpts, k8sNew)
  {
    if k8sOpts.Some? || IsOptionsSet(flagOpts) {
      var keychains: seq<Keychain> := [];
      if k8sOpts.Some? {
        var err := k8sNew(k8sOpts.value);
        if err.Some? {
          return Failure(err.value);
        }
        keychains := keychains + [Kubernetes(k8sOpts.value)];
      }
      assert keychains == if k8sOpts.Some? then [Kubernetes(k8sOpts.value)] else [];
      if IsOptionsSet(flagOpts) {
        var err := k8sNew(flagOpts);
        if err.Some? {
          return Failure(err.value);
        }
        keychains := keychains + [Kubernetes(flagOpts)];
      }
      assert keychains == ClusterKeychains(k8sOpts, flagOpts);
      keychains := keychains + [Default];
      return Success(keychains);
    }
    return Success([Google, Default, GitHub, Amazon, Azure]);
  }

  /** With no cluster-scoped option the chain is exactly the five fixed
      helpers, in this order, and building it cannot fail. */
  lemma FallbackChainOrder(flagOpts: KubeChainOptions, k8sNew: K8sChainNew)
    requires !IsOptionsSet(flagOpts)
    ensures KeyChain(None, flagOpts, k8sNew) == Success([Google, Default, GitHub, Amazon, Azure])
  {
  }

  /** With some cluster-scoped option the chain has two or three sources:
      the explicit options' chain first when given, the flag options' chain
      next when set, and `Default` last; no cloud helper is consulted. */
  lemma ClusterChainShape(k8sOpts: Option<KubeChainOptions>, flagOpts: KubeChainOptions, k8sNew: K8sChainNew)
    requires k8sOpts.Some? || IsOptionsSet(flagOpts)
    requires KeyChain(k8sOpts, flagOpts, k8sNew).Success?
    ensures var chain := KeyChain(k8sOpts, flagOpts, k8sNew).value;
            && 2 <= |chain| <= 3
            && chain[|chain| - 1] == Default
            && (k8sOpts.Some? ==> chain[0] == Kubernetes(k8sOpts.value))
            && (IsOptionsSet(flagOpts) ==> chain[|chain| - 2] == Kubernetes(flagOpts))
            && (|chain| == 3 <==> k8sOpts.Some? && IsOptionsSet(flagOpts))
            && forall k :: 0 <= k < |chain| ==> chain[k] !in {Google, GitHub, Amazon, Azure}
  {
  }

  /** Without explicit options, the flag options alone decide between the two
      chains: the fixed fallback chain is used exactly when they name no
      service account and list no pull secret; otherwise the flag options'
      cluster chain is tried. */
  lemma FlagOptionsSelectChain(opts: KubeChainOptions, k8sNew: K8sChainNew)
    ensures KeyChain(None, opts, k8sNew) == Success(FallbackKeychains)
            <==> opts.serviceAccountName == "" && opts.imagePullSecrets == []
  {
  }

  /** Building the chain fails exactly when a `k8schain.New` call it makes
      fails, and then with that call's error, the explicit options' call
      being made first. */
  lemma KeyChainErrors(k8sOpts: Option<KubeChainOptions>, flagOpts: KubeChainOptions, k8sNew: K8sChainNew)
    ensures var r := KeyChain(k8sOpts, flagOpts, k8sNew);
            && (r.Failure? <==> (k8sOpts.Some? && k8sNew(k8sOpts.value).Some?)
                                || (IsOptionsSet(flagOpts) && k8sNew(flagOpts).Some?))
            && (k8sOpts.Some? && k8sNew(k8sOpts.value).Some? ==> r == Failure(k8sNew(k8sOpts.value).value))
            && (r.Failure? && (k8sOpts.None? || k8sNew(k8sOpts.value).None?) ==> r == Failure(k8sNew(flagOpts).value))
  {
  }

  // ---------------------------------------------------------------------
  // ImageWithDigest

  /** `crane.Digest`: the digest a registry reports for a reference, given
      the keychain and whether TLS verification is skipped for it. */
  type DigestQuery = (string, seq<Keychain>, bool) -> Result<string, Error>

  /** The calls into code outside the core that `ImageWithDigest` makes. */
  datatype Collaborators = Collaborators(
    k8sNew: K8sChainNew,
    digest: DigestQuery,
    icann: PublicSuffixIcann)

  /** What `ImageWithDigest` returns, given the `SkipImageDigest` switch, the
      flag options and the exception set in force when the registry is
      classified. */
  function PinnedImage(
    image: string, skipImageDigest: string, k8sOpts: Option<KubeChainOptions>,
    flagOpts: KubeChainOptions, exceptions: set<string>, c: Collaborators)
    : Result<string, Error>
  {
    match ImageWithoutDigest(image)
    case Failure(e) => Failure(e)
    case Success(stripped) =>
      if skipImageDigest == "true" then Success(stripped)
      else
        match KeyChain(k8sOpts, flagOpts, c.k8sNew)
        case Failure(e) => Failure(e)
        case Success(chain) =>
          Pin(stripped, chain, ProbablyInsecure(stripped, exceptions, c.icann), c.digest)
  }

  /** The last step of `ImageWithDigest`: the stripped image pinned to the
      digest the registry reports, or the query's error unchanged. */
  function Pin(stripped: string, chain: seq<Keychain>, insecure: bool, digest: DigestQuery): Result<string, Error>
  {
    match digest(stripped, chain, insecure)
    case Failure(e) => Failure(e)
    case Success(d) => Success(stripped + "@" + d)
  }

  /** Whether `ImageWithDigest` gets as far as asking for the digest (and so
      classifies the registry). */
  predicate QueriesDigest(image: string, skipImageDigest: string, k8sOpts: Option<KubeChainOptions>,
                          flagOpts: KubeChainOptions, k8sNew: K8sChainNew)
  {
    && ImageWithoutDigest(image).Success?
    && skipImageDigest != "true"
    && KeyChain(k8sOpts, flagOpts, k8sNew).Success?
  }

  /** `ImageWithDigest`: strip any digest, then, unless the switch says to skip,
      compose the keychain, classify the registry and ask for the digest. */
  method ImageWithDigest(
    registries: InsecureRegistries, image: string, skipImageDigest: string,
    k8sOpts: Option<KubeChainOptions>, flagOpts: KubeChainOptions, c: Collaborators)
    returns (r: Result<string, Error>)
    modifies registries`initialised, registries`insecureRegistrySet
    ensures r == PinnedImage(image, skipImageDigest, k8sOpts, flagOpts, registries.insecureRegistrySet, c)
    ensures !QueriesDigest(image, skipImageDigest, k8sOpts, flagOpts, c.k8sNew) ==>
              registries.initialised == old(registries.initialised)
              && registries.insecureRegistrySet == old(registries.insecureRegistrySet)
    ensures QueriesDigest(image, skipImageDigest, k8sOpts, flagOpts, c.k8sNew) ==>
              var stripped := ImageWithoutDigest(image).value;
              && (HasDottedHost(stripped) && !old(registries.initialised) ==>
                    registries.initialised
                    && registries.insecureRegistrySet == set x | x in registries.insecureRegistries)
              && (!HasDottedHost(stripped) || old(registries.initialised) ==>
                    registries.initialised == old(registries.initialised)
                    && registries.insecureRegistrySet == old(registries.insecureRegistrySet))
  {
    var stripped := ImageWithoutDigest(image);
    if stripped.Failure? {
      return Failure(stripped.error);
    }
    if skipImageDigest == "true" {
      return Success(stripped.value);
    }
    var keyChain := CreateKeyChain(k8sOpts, flagOpts, c.k8sNew);
    if keyChain.Failure? {
      return Failure(keyChain.error);
    }
    r := QueryDigest(registries, stripped.value, keyChain.value, c);
  }

  /** The step of `ImageWithDigest` after the keychain is built: classify the
      registry (which may take the snapshot of the exception list) and ask
      for the digest. */
  method QueryDigest(registries: InsecureRegistries, stripped: string, chain: seq<Keychain>, c: Collaborators)
    returns (r: Result<string, Error>)
    modifies registries`initialised, registries`insecureRegistrySet
    ensures r == Pin(stripped, chain, ProbablyInsecure(stripped, registries.insecureRegistrySet, c.icann), c.digest)
    ensures HasDottedHost(stripped) && !old(registries.initialised) ==>
              registries.initialised
              && registries.insecureRegistrySet == set x | x in registries.insecureRegistries
    ensures !HasDottedHost(stripped) || old(registries.initialised) ==>
              registries.initialised == old(registries.initialised)
              && registries.insecureRegistrySet == old(registries.insecureRegistrySet)
  {
    var insecure := registries.ProbablyInsecureRegistry(stripped, c.icann);
    var digest := c.digest(stripped, chain, insecure);
    if digest.Failure? {
      return Failure(digest.error);
    }
    return Success(stripped + "@" + digest.value);
  }

  /** A malformed image is rejected before anything else happens: the result
      is the stripping error whatever the switch, the options and the
      collaborators. */
  lemma StripErrorComesFirst(
    image: string, skipImageDigest: string, k8sOpts: Option<KubeChainOptions>,
    flagOpts: KubeChainOptions, exceptions: set<string>, c: Collaborators)
    requires |image| > 0 && image[0] == '@'
    ensures PinnedImage(image, skipImageDigest, k8sOpts, flagOpts, exceptions, c) == Failure(InvalidImage(image))
  {
  }

  /** With `SkipImageDigest` exactly "true" the stripped image is returned and
      no collaborator is consulted: the result is the same for any two. */
  lemma SkipReturnsStripped(
    image: string, k8sOpts: Option<KubeChainOptions>, flagOpts: KubeChainOptions,
    exceptions: set<string>, c1: Collaborators, c2: Collaborators)
    requires ImageWithoutDigest(image).Success?
    ensures PinnedImage(image, "true", k8sOpts, flagOpts, exceptions, c1) == ImageWithoutDigest(image)
    ensures PinnedImage(image, "true", k8sOpts, flagOpts, exceptions, c1)
         == PinnedImage(image, "true", k8sOpts, flagOpts, exceptions, c2)
  {
  }

  /** Without the switch, the result is the stripped image pinned to the
      digest the registry reports, and the errors of the keychain and of the
      digest query come back unchanged. */
  lemma PinnedImageOutcomes(
    image: string, skipImageDigest: string, k8sOpts: Option<KubeChainOptions>,
    flagOpts: KubeChainOptions, exceptions: set<string>, c: Collaborators)
    requires ImageWithoutDigest(image).Success? && skipImageDigest != "true"
    ensures var stripped := ImageWithoutDigest(image).value;
            var chain := KeyChain(k8sOpts, flagOpts, c.k8sNew);
            var r := PinnedImage(image, skipImageDigest, k8sOpts, flagOpts, exceptions, c);
            && (chain.Failure? ==> r == Failure(chain.error))
            && (chain.Success? ==>
                  var d := c.digest(stripped, chain.value, ProbablyInsecure(stripped, exceptions, c.icann));
                  && (d.Failure? ==> r == Failure(d.error))
                  && (d.Success? ==> r == Success(stripped + "@" + d.value)))
  {
  }

  /** Pinning an already pinned image replaces its digest instead of adding a
      second one: stripping the result gives back the stripped input.
      `image != ""` is not a restriction of `ImageWithDigest`: the digest
      query is left unconstrained here, so for the empty image it may
      "succeed" and yield `"@" + d`, which strips to an error. What
      `crane.Digest` does with an empty reference is not modelled. */
  lemma PinningReplacesDigest(
    image: string, skipImageDigest: string, k8sOpts: Option<KubeChainOptions>,
    flagOpts: KubeChainOptions, exceptions: set<string>, c: Collaborators)
    requires PinnedImage(image, skipImageDigest, k8sOpts, flagOpts, exceptions, c).Success?
    requires image != ""
    ensures var stripped := ImageWithoutDigest(image).value;
            var r := PinnedImage(image, skipImageDigest, k8sOpts, flagOpts, exceptions, c).value;
            ImageWithoutDigest(r) == Success(stripped)
  {
    var stripped := ImageWithoutDigest(image).value;
    var r := PinnedImage(image, skipImageDigest, k8sOpts, flagOpts, exceptions, c).value;
    if skipImageDigest != "true" {
      var chain := KeyChain(k8sOpts, flagOpts, c.k8sNew).value;
      var d := c.digest(stripped, chain, ProbablyInsecure(stripped, exceptions, c.icann)).value;
      StripKeepsPrefix(stripped, d);
    }
  }
}
