# Image digest pinning: a Dafny model

This project models the part of kmodules/go-containerregistry that decides
how a container image reference is handled before any registry is
contacted. It covers four pieces:

- **Digest stripping and pinning** (`authn/digest.go`).
  - `ImageWithoutDigest` drops an `@digest` suffix.
  - `ImageWithDigest` strips the suffix, honours the `SkipImageDigest`
    switch, composes a keychain, classifies the registry, asks the registry
    for the digest and returns `image@digest`.
- **The insecure-registry heuristic** (`probablyInsecureRegistry`). It
  inspects the first `/`-segment of a reference. It uses an exception set
  that a `sync.Once` builds from the `insecureRegistries` flag on first use,
  and the ICANN flag of the public-suffix table.
- **Keychain composition** (`CreateKeyChain` with `isOptionsSet` of
  `authn/options.go`). It either builds the cluster-scoped chain followed by
  `Default`, or uses the fixed five-helper fallback chain.
- **Reference normalisation** as the `TestParseReference` fixtures of
  `name/lib_test.go` pin it down. This covers:
  - the `Image` record;
  - the rule that composes its `Name` (the digest wins over the tag);
  - registry defaulting, the `docker.io` alias and the `library/`
    namespace.

  The fixtures call this repository's own `ParseReference` (name/lib.go),
  which wraps the upstream `name` package and returns the `Image` record.
  Neither is part of this model. `ImageName.ParseReference` is therefore a
  specification of that function, and every fixture is proved against it.

Modules:

| file | module | models |
|---|---|---|
| `wrappers.dfy` | `Wrappers` | `Option`, and `Result` for Go's `(T, error)` returns |
| `strings.dfy` | `Strings` | `strings.Index`, `LastIndex`, `Cut` and `Split` for a one-character separator, with their laws |
| `authn_options.dfy` | `AuthnOptions` | `optsFromFlags` and `isOptionsSet` |
| `authn_digest.dfy` | `AuthnDigest` | `ImageWithoutDigest`, `probablyInsecureRegistry` with its once-initialised state, `CreateKeyChain` and `ImageWithDigest` |
| `image_name.dfy` | `ImageName` | the `Image` record, `ComposeName` and the normalising parser specification |
| `image_name_fixtures.dfy` | `ImageNameFixtures` | the twelve `TestParseReference` fixtures |

Calls into code outside the core are parameters of the model:

- `k8schain.New` is a `K8sChainNew`: an options value maps to an optional
  error.
- `crane.Digest` is a `DigestQuery`: the reference, the keychain and the
  skip-TLS-verification flag map to a digest or an error.
- `publicsuffix.PublicSuffix`'s ICANN flag is a `PublicSuffixIcann`
  predicate on hosts.
- The environment reads `meta.PodNamespace()` and `meta.PodServiceAccount()`
  are arguments of `InitialFlagOptions`.
- The package variable `SkipImageDigest` is an argument of
  `ImageWithDigest`.

The package state `insecureRegistries`, `once` and `insecureRegistrySet` is
the class `AuthnDigest.InsecureRegistries`. Its `initialised` flag stands
for `once`.

## Behaviour worth noting

- `ImageWithoutDigest` cuts at the first `@` (`strings.Cut`,
  authn/digest.go:133), not at the last one. `name@a@b` strips to `name`.
- The fallback chain is `google, Default, github, amazon, azure`, in that
  order (authn/digest.go:107-113).
- A non-nil `k8sOpts` selects the cluster-scoped chain even when it carries
  no values (authn/digest.go:87,89). Only the flag options go through
  `isOptionsSet` (authn/digest.go:96).
- The classifier needs at least one `/` in the reference
  (authn/digest.go:153). A bare `gcr.io` is never insecure.
- The exception set is built from the list as it stands at the first call
  with a dotted host, not when the flag is bound (authn/digest.go:154-156).
- `docker.io/nginx` is normalised to `index.docker.io/library/nginx`, the
  rule the parser specification assumes, even though its first segment holds a `.`.
  The passthrough property is therefore stated only for registries other
  than `docker.io` and `index.docker.io`.

## Model

| member | source | states |
|---|---|---|
| Strings.Cut | authn/digest.go:133 | `strings.Cut` at one character: found exactly when the separator occurs; then the input is before + separator + after, and before holds no separator; otherwise before is the whole input |
| Strings.Split | authn/digest.go:152 | `strings.Split` has at least one piece; more than one exactly when the separator occurs; the first piece is the text before the first separator |
| Strings.JoinSplit | authn/digest.go:152 | joining the pieces of a split with the separator gives back the input |
| Strings.SplitJoin | authn/digest.go:152 | splitting separator-free pieces joined by the separator gives back those pieces |
| AuthnDigest.ImageWithoutDigest | authn/digest.go:132-140 | no `@`: the input, unchanged; an `@` at index 0: `invalid image` error carrying the input; otherwise a non-empty, `@`-free proper prefix of the input that ends where the first `@` is |
| AuthnDigest.StripIdempotent | authn/digest.go:133-137 | stripping a stripped image changes nothing |
| AuthnDigest.StripKeepsPrefix | authn/digest.go:133-135 | for any non-empty `@`-free name, `name@rest` strips to `name`, even when `rest` holds further `@` |
| AuthnDigest.StripErrorText | authn/digest.go:133-137 | `name@digest` with an `@`-free name fails exactly when the name is empty; the error's text is `invalid image: ` followed by the whole input |
| AuthnDigest.ProbablyInsecureMeaning | authn/digest.go:151-165 | insecure iff the input has a `/`, the host before the first `/` holds a `.`, and the host is listed or not under an ICANN suffix; never insecure without a dotted host |
| AuthnDigest.ProbablyInsecureOfHost | authn/digest.go:157-161 | a listed dotted host is insecure whatever the ICANN flag; an unlisted one is insecure iff its suffix is not ICANN |
| AuthnDigest.BareNamesAreSecure | authn/digest.go:152-153 | a reference with no `/`, or with an undotted first segment, is never insecure |
| AuthnDigest.InsecureRegistries.constructor | authn/digest.go:44-46 | starts with the given `insecureRegistries`, not yet initialised, and an empty exception set |
| AuthnDigest.InsecureRegistries.SetInsecureRegistries | authn/digest.go:54-58 | the flag binding replaces the raw list and leaves the snapshot alone |
| AuthnDigest.InsecureRegistries.ProbablyInsecureRegistry | authn/digest.go:151-165 | returns the verdict against the exception set; the first call with a dotted host builds the set from the list as it stands; every other call leaves flag and set unchanged |
| AuthnDigest.SnapshotIsTakenOnce | authn/digest.go:154-156 | an early-returning call does not take the snapshot; the first dotted-host call takes it from the list as it stands then; later changes to the list do not reach the classifier |
| AuthnDigest.CreateKeyChain | authn/digest.go:85-114 | the chain grown by successive appends equals the `KeyChain` specification, errors included |
| AuthnDigest.FallbackChainOrder | authn/digest.go:107-113 | with no explicit options and flag options not set, the chain is exactly `[Google, Default, GitHub, Amazon, Azure]` and cannot fail |
| AuthnDigest.ClusterChainShape | authn/digest.go:87-104 | otherwise a built chain has 2 or 3 sources: the explicit-options chain first when given, then the flag-options chain when set, `Default` last, and no cloud helper |
| AuthnDigest.KeyChainErrors | authn/digest.go:89-101 | building fails iff one of the `k8schain.New` calls it makes fails; the explicit-options error is reported first, and the flag-options error otherwise |
| AuthnDigest.FlagOptionsSelectChain | authn/digest.go:87-113 | without explicit options, the fallback chain is used iff the flag options name no service account and list no pull secret (`isOptionsSet`, authn/options.go:39) |
| AuthnDigest.ImageWithDigest | authn/digest.go:61-82 | the result equals `PinnedImage` evaluated on the exception set in force; the snapshot is taken only when the digest is queried for a dotted host and was not taken before |
| AuthnDigest.QueryDigest | authn/digest.go:76-81 | classifies the stripped image and returns it pinned to the queried digest, or the query's error unchanged; snapshot as for the classifier |
| AuthnDigest.StripErrorComesFirst | authn/digest.go:63-66 | an image starting with `@` fails with the strip error whatever the switch, the options and the collaborators |
| AuthnDigest.SkipReturnsStripped | authn/digest.go:67-69 | with the switch exactly `"true"` the result is the stripped image, and it does not depend on any collaborator |
| AuthnDigest.PinnedImageOutcomes | authn/digest.go:71-81 | without the switch, a keychain error or a digest error comes back unchanged; on success the result is `stripped + "@" + digest`, queried with the chain and the classifier's verdict |
| AuthnDigest.PinningReplacesDigest | authn/digest.go:61-82 | stripping a successful result gives back the stripped input, so re-pinning replaces the digest rather than adding a second one |
| AuthnOptions.NamespaceIrrelevant | authn/options.go:39 | the namespace never changes whether options are set; a namespace alone does not make them set |
| AuthnOptions.InitialOptionsSet | authn/options.go:26-39 | `optsFromFlags` starts with no pull secrets until the flag is bound, so until then options are set iff the pod's service account name is non-empty |
| ImageName.ParseReference | name/lib_test.go:220-226 | `Original` is the input verbatim; a failure is an invalid-reference error carrying the input |
| ImageName.ParseWellFormed | name/lib_test.go:42-49 | every parsed image has a normalised host registry (never `docker.io`), a valid repository (namespaced on the default registry), separator-free tag and digest, and `Name` composed from them |
| ImageName.ParseReferenceText | name/lib_test.go:37-216 | a reference assembled from valid host, path, tag and digest parses back to those parts, with the registry and repository normalised and the name composed |
| ImageName.ParseNameIdempotent | name/lib_test.go:42-49 | re-parsing a well-formed image's `Name` gives the same registry, repository, digest and name; only a tag the digest hid is lost |
| ImageName.NameAsReferenceText | name/lib_test.go:44 | a well-formed `Name` is the reference text of its registry, repository, shown tag and digest, and those parts are valid |
| ImageName.ComposeNamePriority | name/lib_test.go:70-79 | a digest wins and the tag is dropped from the name; a tag alone follows `:`; the name always starts with `registry/repository` |
| ImageName.LeadingAtRejected | name/lib_test.go:220-224 | a reference starting with `@` is an invalid reference |
| ImageName.BareNameDefaults | name/lib_test.go:160-167 | a name with no registry and no `/` lands on `index.docker.io` in the `library/` namespace and keeps its tag |
| ImageName.ExplicitRegistryPassthrough | name/lib_test.go:205-213 | an explicit registry other than the default one and its alias is kept verbatim, with the repository path unprefixed |
| ImageNameFixtures.ParseNginxByDigest | name/lib_test.go:40-49 | `docker.io/library/nginx@sha256:…` parses to registry `index.docker.io`, tag `""` and name `registry/repository@digest` |
| ImageNameFixtures.ParseMariadbByDigest | name/lib_test.go:55-64 | `docker.io/library/mariadb@sha256:…` parses to the fixture's record |
| ImageNameFixtures.ParseMariadbTagAndDigest | name/lib_test.go:70-79 | `docker.io/library/mariadb:10.8.2@sha256:…` keeps the digest in the name, drops the tag from it and reports tag `10.8.2` |
| ImageNameFixtures.ParseMysqldExporterByDigest | name/lib_test.go:85-94 | `docker.io/prom/mysqld-exporter@sha256:…` keeps the two-segment repository unprefixed |
| ImageNameFixtures.ParseGcrTagAndDigest | name/lib_test.go:100-109 | `gcr.io/google-containers/echoserver:1.10@sha256:…` keeps `gcr.io` and the repository verbatim and reports tag `1.10` |
| ImageNameFixtures.ParseGcrTag | name/lib_test.go:115-124 | `gcr.io/google-containers/echoserver:1.10` parses to name `registry/repository:1.10` with digest `""` |
| ImageNameFixtures.ParseUiServerTag | name/lib_test.go:130-139 | `kubedb/ui-server:1.10-v2` lands on `index.docker.io` without a `library/` prefix |
| ImageNameFixtures.ParsePostgresInitByDigest | name/lib_test.go:145-154 | `docker.io/kubedb/postgres-init@sha256:…` parses to the fixture's record |
| ImageNameFixtures.ParseOfficialTag | name/lib_test.go:160-169 | `nginx:1.0.1` parses to `index.docker.io/library/nginx:1.0.1` |
| ImageNameFixtures.ParseOfficialTagAndDigest | name/lib_test.go:175-184 | `nginx:1.0.1@sha256:…` parses to `index.docker.io/library/nginx@sha256:…` with tag `1.0.1` |
| ImageNameFixtures.ParseOfficialLatestAndDigest | name/lib_test.go:190-199 | `nginx:latest@sha256:…` reports tag `latest` and leaves it out of the name |
| ImageNameFixtures.ParseRegistryK8sTag | name/lib_test.go:205-214 | `registry.k8s.io/ingress-nginx/controller:v1.9.3` keeps the registry and the multi-segment repository verbatim |

## Left out

- `ImageName.ParseReference` specifies this repository's `ParseReference` (name/lib.go), which wraps the upstream `name` package. Neither is part of this model, so its split and registry rules are assumptions, confirmed by the fixtures only on the twelve inputs:
  - the digest follows the only `@`; a reference with a second `@` is rejected;
  - a first `/`-segment is a host when it holds `.` or `:`, or is `localhost`;
  - the tag follows the last `:` of the path after the host;
  - `docker.io` is rewritten to `index.docker.io`;
  - `library/` is added to single-segment repositories on the default registry.
- `ImageName.ParseReference` does not check the tag's character set or length, does not validate the digest's algorithm or hex, and does not reject empty path segments. It only demands a non-empty tag and repository free of separators, and an `algorithm:hex` digest with both halves non-empty. These rules belong to name/lib.go and the upstream `name` package, which this model does not include.
- `ImageName.ParseReference` assumes that a reference with neither tag nor digest reports Tag `""` and gets no default tag: its `Name` is `registry/repository`. None of the fixtures has such an input, so this is an assumption about the parser, like the rules above. `ImageName.BareNameDefaults` states it for an empty tag.
- `ImageName.ParseReference` does not take the `name.Option` values (strict/weak validation, default registry override); every fixture passes none.
- `CreateInClusterKeyChain` (authn/digest.go:117-129) reads the in-cluster configuration and builds a client; it is I/O only.
- `WithTLSSkipVerify` (authn/digest.go:142-149): cloning the HTTP transport is not modelled; only the boolean it passes, the classifier's verdict, is.
- `AddInsecureRegistriesFlag` and `AddKubeChainOptionsFlags` (flag registration) are not modelled. `SetInsecureRegistries` stands for the value the first one binds. The pull-secret list is an input of `KubeChainOptions`.
- `AuthnDigest.InsecureRegistries.ProbablyInsecureRegistry`: the thread safety of `sync.Once` is not modelled, only "initialised at most once".
- `authn.NewMultiKeychain`'s lookup semantics (first source that answers wins) and the credential helpers themselves are not modelled. A keychain is the ordered list of its sources.
- The `error` values of collaborators are kept opaque (`External`); their text is not modelled.
- cmd/echo-image-digest/cmds/root.go (command-line wiring, client configuration and printing) is not part of this model.
