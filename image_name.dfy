/** Image references as name/lib_test.go pins them down: the `Image` record,
    the rule that composes its `Name`, and a specification of the
    normalisation `ParseReference` performs (registry defaulting, the
    `docker.io` alias, the `library/` namespace, tag and digest splitting). */
module ImageName {
  import opened Wrappers
  import opened Strings

  /** The registry a reference names when it names none. */
  const DefaultRegistry: string := "index.docker.io"
  /** The alias of the default registry that is rewritten to it. */
  const DockerHubAlias: string := "docker.io"
  /** The namespace of single-segment repositories on the default registry. */
  const OfficialNamespace: string := "library/"

  /** A parsed reference. An empty `tag` or `digest` means none was given. */
  datatype Image = Image(
    original: string,
    name: string,
    registry: string,
    repository: string,
    tag: string,
    digest: string)

  datatype ParseError = InvalidReference(reference: string)

  /** The canonical name: the digest wins over the tag, which is then left
      out of the name (but still reported in `Image.tag`). */
  function ComposeName(registry: string, repository: string, tag: string, digest: string): string
  {
    if digest != "" then registry + "/" + repository + "@" + digest
    else if tag != "" then registry + "/" + repository + ":" + tag
    else registry + "/" + repository
  }

  /** A first path segment names a registry when it looks like a host. */
  predicate IsRegistryHost(segment: string)
  {
    '.' in segment || ':' in segment || segment == "localhost"
  }

  /** A digest has the form `algorithm:hex` with both parts non-empty. */
  predicate ValidDigest(digest: string)
  {
    ':' in digest && digest[0] != ':' && digest[|digest| - 1] != ':'
  }

  /** A repository is non-empty and holds none of the separators ':' and '@'. */
  predicate ValidRepository(repository: string)
  {
    repository != "" && ':' !in repository && '@' !in repository
  }

  /** A tag is non-empty and holds no '/'. */
  predicate ValidTag(tag: string)
  {
    tag != "" && '/' !in tag
  }

  /** The record invariant of a parsed reference: a normalised registry host,
      a valid repository (namespaced when on the default registry), separator
      free tag and digest, and the name composed from them. */
  predicate WellFormed(img: Image)
  {
    && img.registry != "" && IsRegistryHost(img.registry)
    && '/' !in img.registry && '@' !in img.registry
    && img.registry != DockerHubAlias
    && ValidRepository(img.repository)
    && (img.registry == DefaultRegistry ==> '/' in img.repository)
    && (img.tag != "" ==> ValidTag(img.tag) && ':' !in img.tag && '@' !in img.tag)
    && (img.digest != "" ==> ValidDigest(img.digest) && '@' !in img.digest)
    && img.name == ComposeName(img.registry, img.repository, img.tag, img.digest)
  }

  /** The registry a host segment stands for. */
  function NormaliseRegistry(host: string): string
  {
    if host == DockerHubAlias then DefaultRegistry else host
  }

  /** The repository as reported: a single-segment repository on the default
      registry is placed in the `library/` namespace. */
  function NormaliseRepository(registry: string, repository: string): string
  {
    if registry == DefaultRegistry && '/' !in repository then OfficialNamespace + repository
    else repository
  }

  /** `ParseReference` of name/lib.go, specified: the digest follows the only
      '@' (a second '@' is rejected), the registry is the first '/'-segment
      when that looks like a host, and the tag follows the last ':' of what
      remains. */
  function ParseReference(s: string): (r: Result<Image, ParseError>)
    ensures r.Success? ==> r.value.original == s
    ensures r.Failure? ==> r.error == InvalidReference(s)
  {
    var d := CutLast(s, '@');
    if d.before == "" || '@' in d.before || (d.found && !ValidDigest(d.after)) then
      Failure(InvalidReference(s))
    else
      ParseRemainder(s, d.before, d.after)
  }

  /** The step after the digest is cut off: the registry, if the first
      '/'-segment of `rest` looks like a host, else the default one. */
  function ParseRemainder(s: string, rest: string, digest: string): (r: Result<Image, ParseError>)
    ensures r.Success? ==> r.value.original == s
    ensures r.Failure? ==> r.error == InvalidReference(s)
  {
    var h := Cut(rest, '/');
    if h.found && IsRegistryHost(h.before) then
      ParsePath(s, NormaliseRegistry(h.before), h.after, digest)
    else
      ParsePath(s, DefaultRegistry, rest, digest)
  }

  /** The last step: the tag follows the last ':' of the repository path. */
  function ParsePath(s: string, registry: string, path: string, digest: string): (r: Result<Image, ParseError>)
    ensures r.Success? ==> r.value.original == s
    ensures r.Failure? ==> r.error == InvalidReference(s)
  {
    var t := CutLast(path, ':');
    if !ValidRepository(t.before) || (t.found && !ValidTag(t.after)) then
      Failure(InvalidReference(s))
    else
      var repository := NormaliseRepository(registry, t.before);
      Success(Image(s, ComposeName(registry, repository, t.after, digest), registry, repository, t.after, digest))
  }

  /** What the last stage relies on of the registry: a normalised host. */
  predicate NormalisedRegistry(registry: string)
  {
    registry != "" && IsRegistryHost(registry) && '/' !in registry && '@' !in registry
    && registry != DockerHubAlias
  }

  lemma DefaultRegistryNormalised()
    ensures NormalisedRegistry(DefaultRegistry)
  {
    assert DefaultRegistry[5] == '.';
  }

  lemma ParsePathWellFormed(s: string, registry: string, path: string, digest: string)
    requires NormalisedRegistry(registry) && '@' !in path
    requires digest != "" ==> ValidDigest(digest) && '@' !in digest
    ensures ParsePath(s, registry, path, digest).Success? ==> WellFormed(ParsePath(s, registry, path, digest).value)
  {
    var t := CutLast(path, ':');
    assert t.found ==> path == t.before + [':'] + t.after;
  }

  lemma ParseRemainderWellFormed(s: string, rest: string, digest: string)
    requires '@' !in rest
    requires digest != "" ==> ValidDigest(digest) && '@' !in digest
    ensures ParseRemainder(s, rest, digest).Success? ==> WellFormed(ParseRemainder(s, rest, digest).value)
  {
    var h := Cut(rest, '/');
    DefaultRegistryNormalised();
    if h.found && IsRegistryHost(h.before) {
      assert rest == h.before + ['/'] + h.after;
      ParsePathWellFormed(s, NormaliseRegistry(h.before), h.after, digest);
    } else {
      ParsePathWellFormed(s, DefaultRegistry, rest, digest);
    }
  }

  /** Every parsed reference satisfies the record invariant: its registry is
      a normalised host, its repository valid and namespaced on the default
      registry, and its name composed from registry, repository, tag and
      digest. */
  lemma ParseWellFormed(s: string)
    requires ParseReference(s).Success?
    ensures WellFormed(ParseReference(s).value)
  {
    var d := CutLast(s, '@');
    ParseRemainderWellFormed(s, d.before, d.after);
  }

  /** The text of a reference assembled from its parts: an optional registry
      host, the repository path, an optional tag and an optional digest. */
  function ReferenceText(host: Option<string>, path: string, tag: string, digest: string): string
  {
    HostPart(host) + path + TagPart(tag) + DigestPart(digest)
  }

  /** What a reference assembled from well-formed parts parses to. Without a
      host the path's first segment must not itself look like one. */
  predicate ValidParts(host: Option<string>, path: string, tag: string, digest: string)
  {
    && (host.Some? ==> IsRegistryHost(host.value) && '/' !in host.value && '@' !in host.value)
    && (host.None? ==> !IsRegistryHost(Cut(path, '/').before) || '/' !in path)
    && ValidRepository(path)
    && (tag != "" ==> ValidTag(tag) && ':' !in tag && '@' !in tag)
    && (digest != "" ==> ValidDigest(digest) && '@' !in digest)
  }

  /** First stage of parsing assembled text: the digest after the last '@'. */
  lemma DigestStage(s: string, rest: string, digest: string)
    requires rest != "" && '@' !in rest
    requires digest != "" ==> ValidDigest(digest) && '@' !in digest
    requires s == rest + DigestPart(digest)
    ensures ParseReference(s) == ParseRemainder(s, rest, digest)
  {
    if digest != "" {
      CutLastPrefixed(rest, '@', digest);
    } else {
      assert s == rest;
    }
  }

  /** Second stage, with a host: the registry is that host, normalised. */
  lemma ExplicitRegistryStage(s: string, rest: string, host: string, rem: string, digest: string)
    requires IsRegistryHost(host) && '/' !in host
    requires rest == host + "/" + rem
    ensures ParseRemainder(s, rest, digest) == ParsePath(s, NormaliseRegistry(host), rem, digest)
  {
    CutConcat(host, '/', rem);
    assert rest == host + ['/'] + rem;
  }

  /** Second stage, without a host: the registry is the default one. */
  lemma DefaultRegistryStage(s: string, rest: string, path: string, tagPart: string, digest: string)
    requires !IsRegistryHost(Cut(path, '/').before) || '/' !in path
    requires '/' !in tagPart
    requires rest == path + tagPart
    ensures ParseRemainder(s, rest, digest) == ParsePath(s, DefaultRegistry, rest, digest)
  {
    CutAppend(path, tagPart, '/');
  }

  /** The tag, if any, is what follows the last ':' of assembled text. */
  lemma TagCut(path: string, tag: string)
    requires ':' !in path && ':' !in tag
    ensures CutLast(path + TagPart(tag), ':') == CutResult(path, tag, tag != "")
  {
    if tag != "" {
      CutLastPrefixed(path, ':', tag);
    } else {
      assert path + TagPart(tag) == path;
    }
  }

  /** Last stage: the tag after the last ':'. */
  lemma TagStage(s: string, registry: string, path: string, tag: string, digest: string)
    requires ValidRepository(path)
    requires tag != "" ==> ValidTag(tag) && ':' !in tag
    ensures var repository := NormaliseRepository(registry, path);
            ParsePath(s, registry, path + TagPart(tag), digest)
              == Success(Image(s, ComposeName(registry, repository, tag, digest), registry, repository, tag, digest))
  {
    TagCut(path, tag);
  }

  /** The optional parts of assembled reference text. */
  function HostPart(host: Option<string>): string
  {
    if host.Some? then host.value + "/" else ""
  }

  function TagPart(tag: string): string
  {
    if tag != "" then ":" + tag else ""
  }

  function DigestPart(digest: string): string
  {
    if digest != "" then "@" + digest else ""
  }

  /** How assembled text splits into the pieces the parsing stages see. */
  lemma ReferenceTextShape(host: Option<string>, path: string, tag: string, digest: string)
    requires ValidParts(host, path, tag, digest)
    ensures var rest := HostPart(host) + (path + TagPart(tag));
            && ReferenceText(host, path, tag, digest) == rest + DigestPart(digest)
            && rest != "" && '@' !in rest && '/' !in TagPart(tag)
            && (host.Some? ==> rest == host.value + "/" + (path + TagPart(tag)))
            && (host.None? ==> rest == path + TagPart(tag))
  {
  }

  /** The first two stages together: assembled text is parsed as its path
      and tag on the registry its host stands for. */
  lemma ParseToPath(host: Option<string>, path: string, tag: string, digest: string)
    requires ValidParts(host, path, tag, digest)
    ensures var registry := if host.Some? then NormaliseRegistry(host.value) else DefaultRegistry;
            var s := ReferenceText(host, path, tag, digest);
            ParseReference(s) == ParsePath(s, registry, path + TagPart(tag), digest)
  {
    var s := ReferenceText(host, path, tag, digest);
    var rest := HostPart(host) + (path + TagPart(tag));
    ReferenceTextShape(host, path, tag, digest);
    DigestStage(s, rest, digest);
    if host.Some? {
      ExplicitRegistryStage(s, rest, host.value, path + TagPart(tag), digest);
    } else {
      DefaultRegistryStage(s, rest, path, TagPart(tag), digest);
    }
  }

  /** Parsing undoes assembling: the parts come back, with the registry and
      repository normalised and the name composed from them. */
  lemma ParseReferenceText(host: Option<string>, path: string, tag: string, digest: string)
    requires ValidParts(host, path, tag, digest)
    ensures var s := ReferenceText(host, path, tag, digest);
            var registry := if host.Some? then NormaliseRegistry(host.value) else DefaultRegistry;
            var repository := NormaliseRepository(registry, path);
            ParseReference(s)
              == Success(Image(s, ComposeName(registry, repository, tag, digest), registry, repository, tag, digest))
  {
    var registry := if host.Some? then NormaliseRegistry(host.value) else DefaultRegistry;
    ParseToPath(host, path, tag, digest);
    TagStage(ReferenceText(host, path, tag, digest), registry, path, tag, digest);
  }

  /** A canonical name is assembled text with the tag it shows (none when a
      digest hides it), made of valid parts. */
  lemma NameAsReferenceText(img: Image)
    requires WellFormed(img)
    ensures var tag := if img.digest != "" then "" else img.tag;
            && ValidParts(Some(img.registry), img.repository, tag, img.digest)
            && img.name == ReferenceText(Some(img.registry), img.repository, tag, img.digest)
            && img.name == ComposeName(img.registry, img.repository, tag, img.digest)
  {
    var base := img.registry + "/" + img.repository;
    if img.digest != "" {
      ConcatAssoc(base, "@", img.digest);
      assert base + TagPart("") == base;
    } else if img.tag != "" {
      ConcatAssoc(base, ":", img.tag);
      assert base + TagPart(img.tag) + DigestPart("") == base + TagPart(img.tag);
    } else {
      assert base + TagPart("") + DigestPart("") == base;
    }
  }

  /** Re-parsing the canonical name is stable: it yields the same registry,
      repository and digest and the same name; only a tag that the digest
      hid from the name is lost. */
  lemma ParseNameIdempotent(img: Image)
    requires WellFormed(img)
    ensures var tag := if img.digest != "" then "" else img.tag;
            ParseReference(img.name)
              == Success(Image(img.name, img.name, img.registry, img.repository, tag, img.digest))
  {
    var tag := if img.digest != "" then "" else img.tag;
    NameAsReferenceText(img);
    ParseReferenceText(Some(img.registry), img.repository, tag, img.digest);
  }

  /** The name keeps the digest and drops the tag when both are present; a
      tag alone is kept after ':'; the name always starts with the registry
      and repository. */
  lemma ComposeNamePriority(registry: string, repository: string, tag: string, digest: string)
    ensures digest != "" ==> ComposeName(registry, repository, tag, digest) == ComposeName(registry, repository, "", digest)
    ensures digest != "" ==> ComposeName(registry, repository, tag, digest) == registry + "/" + repository + "@" + digest
    ensures digest == "" && tag != "" ==> ComposeName(registry, repository, tag, digest) == registry + "/" + repository + ":" + tag
    ensures var base := registry + "/" + repository;
            ComposeName(registry, repository, tag, digest)[..|base|] == base
  {
  }

  /** A reference whose first character is '@' names no repository and is
      rejected. */
  lemma LeadingAtRejected(s: string)
    requires |s| > 0 && s[0] == '@'
    ensures ParseReference(s) == Failure(InvalidReference(s))
  {
    var at := LastIndexOf(s, '@');
    if at > 0 {
      assert s[..at][0] == '@';
    }
  }

  /** A bare name (no registry, no '/') lands on the default registry in the
      `library/` namespace. */
  lemma BareNameDefaults(name: string, tag: string)
    requires ValidRepository(name) && '/' !in name
    requires tag != "" ==> ValidTag(tag) && ':' !in tag && '@' !in tag
    ensures var s := ReferenceText(None, name, tag, "");
            && ParseReference(s).Success?
            && ParseReference(s).value.registry == DefaultRegistry
            && ParseReference(s).value.repository == OfficialNamespace + name
            && ParseReference(s).value.tag == tag
  {
    ParseReferenceText(None, name, tag, "");
  }

  /** An explicit registry other than the default one is kept verbatim and
      its repository path is reported without a `library/` namespace. */
  lemma ExplicitRegistryPassthrough(host: string, path: string, tag: string, digest: string)
    requires ValidParts(Some(host), path, tag, digest)
    requires host != DockerHubAlias && host != DefaultRegistry
    ensures var r := ParseReference(ReferenceText(Some(host), path, tag, digest));
            r.Success? && r.value.registry == host && r.value.repository == path
  {
    ParseReferenceText(Some(host), path, tag, digest);
  }
}
