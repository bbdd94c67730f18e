/** The `TestParseReference` fixtures of name/lib_test.go, each proved of
    the `ParseReference` specification.

    Each input and each expected name is written as the concatenation of its
    parts (host, path, tag and digest; registry, repository and digest or
    tag), and each digest as its algorithm and the two halves of its hex
    string. Every fixture is stated of a reference `s` equal to the fixture's
    input and follows from `ParseReferenceText`; the facts about the literal
    parts are lemmas of their own, so that no proof unfolds the parser over
    a literal. */
module ImageNameFixtures {
  import opened Wrappers
  import opened Strings
  import opened ImageName

  const NginxDigest: string := "sha256:" + "d586384381a0e6834cef73d432b1486f" + "0b86334cb92e54256def62dd403f82ab"
  const MariadbDigest: string := "sha256:" + "8040983db146f729749081c6b216a19d" + "52e0973134e2e34c0b4fd87f48bc15b0"
  const MysqldExporterDigest: string := "sha256:" + "a8af600c3ef1c8df179b736b94d04dc5" + "ec209be88407a4c1c1bd0fc6394f56e8"
  const EchoserverDigest: string := "sha256:" + "cb5c1bddd1b5665e1867a7fa1b5fa843" + "a47ee433bbb75d4293888b71def53229"
  const PostgresInitDigest: string := "sha256:" + "48aeb8859d8245d82788836918c817d1" + "ff84dfc9e81612f3ee8e9e22b6e3e8a5"

  /** A `sha256` digest is well-formed when its hex string is non-empty and
      holds neither separator. */
  lemma Sha256Digest(digest: string, high: string, low: string)
    requires digest == "sha256:" + high + low
    requires '@' !in high && ':' !in high && '@' !in low && ':' !in low && low != ""
    ensures ValidDigest(digest) && '@' !in digest
  {
    assert digest[6] == ':';
  }

  /** The digest of the Nginx fixtures is well-formed. */
  lemma NginxDigestValid()
    ensures ValidDigest(NginxDigest) && '@' !in NginxDigest
  {
    Sha256Digest(NginxDigest, "d586384381a0e6834cef73d432b1486f", "0b86334cb92e54256def62dd403f82ab");
  }

  /** The digest of the Mariadb fixtures is well-formed. */
  lemma MariadbDigestValid()
    ensures ValidDigest(MariadbDigest) && '@' !in MariadbDigest
  {
    Sha256Digest(MariadbDigest, "8040983db146f729749081c6b216a19d", "52e0973134e2e34c0b4fd87f48bc15b0");
  }

  /** The digest of the MysqldExporter fixtures is well-formed. */
  lemma MysqldExporterDigestValid()
    ensures ValidDigest(MysqldExporterDigest) && '@' !in MysqldExporterDigest
  {
    Sha256Digest(MysqldExporterDigest, "a8af600c3ef1c8df179b736b94d04dc5", "ec209be88407a4c1c1bd0fc6394f56e8");
  }

  /** The digest of the Echoserver fixtures is well-formed. */
  lemma EchoserverDigestValid()
    ensures ValidDigest(EchoserverDigest) && '@' !in EchoserverDigest
  {
    Sha256Digest(EchoserverDigest, "cb5c1bddd1b5665e1867a7fa1b5fa843", "a47ee433bbb75d4293888b71def53229");
  }

  /** The digest of the PostgresInit fixtures is well-formed. */
  lemma PostgresInitDigestValid()
    ensures ValidDigest(PostgresInitDigest) && '@' !in PostgresInitDigest
  {
    Sha256Digest(PostgresInitDigest, "48aeb8859d8245d82788836918c817d1", "ff84dfc9e81612f3ee8e9e22b6e3e8a5");
  }

  /** A repository path whose first segment is not a host is not read as a
      registry. */
  lemma UnhostedPath(first: string, rest: string, path: string)
    requires '/' !in first && !IsRegistryHost(first)
    requires path == first + "/" + rest
    ensures !IsRegistryHost(Cut(path, '/').before)
  {
    CutConcat(first, '/', rest);
    assert path == first + ['/'] + rest;
  }

  /** Assembled text written out as one concatenation of its present parts. */
  lemma AssembledText(host: Option<string>, path: string, tag: string, digest: string)
    ensures var head := if host.Some? then host.value + "/" + path else path;
            var tagged := if tag != "" then head + ":" + tag else head;
            ReferenceText(host, path, tag, digest) == if digest != "" then tagged + "@" + digest else tagged
  {
  }

  /** The `docker.io` alias is rewritten to the default registry. */
  lemma DockerHubAliasRewritten()
    ensures NormaliseRegistry("docker.io") == "index.docker.io"
  {
  }

  /** Any other registry host is kept as written. */
  lemma RegistryKept(host: string)
    requires host != DockerHubAlias
    ensures NormaliseRegistry(host) == host
  {
  }

  /** The repositories of the fixtures as they are reported: those with a
      '/' unchanged, the bare `nginx` in the `library/` namespace. */
  lemma LibraryNginxKept()
    ensures NormaliseRepository("index.docker.io", "library/nginx") == "library/nginx"
  {
  }

  lemma LibraryMariadbKept()
    ensures NormaliseRepository("index.docker.io", "library/mariadb") == "library/mariadb"
  {
  }

  lemma MysqldExporterKept()
    ensures NormaliseRepository("index.docker.io", "prom/mysqld-exporter") == "prom/mysqld-exporter"
  {
  }

  lemma EchoserverKept()
    ensures NormaliseRepository("gcr.io", "google-containers/echoserver") == "google-containers/echoserver"
  {
  }

  lemma UiServerKept()
    ensures NormaliseRepository("index.docker.io", "kubedb/ui-server") == "kubedb/ui-server"
  {
  }

  lemma PostgresInitKept()
    ensures NormaliseRepository("index.docker.io", "kubedb/postgres-init") == "kubedb/postgres-init"
  {
  }

  lemma OfficialNginxNamespaced()
    ensures NormaliseRepository("index.docker.io", "nginx") == "library/nginx"
  {
  }

  lemma IngressControllerKept()
    ensures NormaliseRepository("registry.k8s.io", "ingress-nginx/controller") == "ingress-nginx/controller"
  {
  }

  /** The parts of the NginxByDigest input are valid. */
  lemma NginxByDigestParts()
    ensures ValidParts(Some("docker.io"), "library/nginx", "", NginxDigest)
  {
    NginxDigestValid();
    assert ValidRepository("library/nginx");
  }

  /** A digest-only reference on the `docker.io` alias: the registry becomes
      the default one and the tag stays empty. */
  lemma ParseNginxByDigest(s: string)
    requires s == "docker.io" + "/" + "library/nginx" + "@" + NginxDigest
    ensures ParseReference(s)
         == Success(Image(s, "index.docker.io" + "/" + "library/nginx" + "@" + NginxDigest,
                          "index.docker.io", "library/nginx", "", NginxDigest))
  {
    NginxByDigestParts();
    DockerHubAliasRewritten();
    LibraryNginxKept();
    AssembledText(Some("docker.io"), "library/nginx", "", NginxDigest);
    ParseReferenceText(Some("docker.io"), "library/nginx", "", NginxDigest);
  }

  /** The parts of the MariadbByDigest input are valid. */
  lemma MariadbByDigestParts()
    ensures ValidParts(Some("docker.io"), "library/mariadb", "", MariadbDigest)
  {
    MariadbDigestValid();
    assert ValidRepository("library/mariadb");
  }

  /** A second digest-only official image on the `docker.io` alias. */
  lemma ParseMariadbByDigest(s: string)
    requires s == "docker.io" + "/" + "library/mariadb" + "@" + MariadbDigest
    ensures ParseReference(s)
         == Success(Image(s, "index.docker.io" + "/" + "library/mariadb" + "@" + MariadbDigest,
                          "index.docker.io", "library/mariadb", "", MariadbDigest))
  {
    MariadbByDigestParts();
    DockerHubAliasRewritten();
    LibraryMariadbKept();
    AssembledText(Some("docker.io"), "library/mariadb", "", MariadbDigest);
    ParseReferenceText(Some("docker.io"), "library/mariadb", "", MariadbDigest);
  }

  /** The parts of the MariadbTagAndDigest input are valid. */
  lemma MariadbTagAndDigestParts()
    ensures ValidParts(Some("docker.io"), "library/mariadb", "10.8.2", MariadbDigest)
  {
    MariadbDigestValid();
    assert ValidRepository("library/mariadb");
    assert ValidTag("10.8.2") && ':' !in "10.8.2" && '@' !in "10.8.2";
  }

  /** Tag and digest: the name keeps the digest and drops the tag, which is
      still reported. */
  lemma ParseMariadbTagAndDigest(s: string)
    requires s == "docker.io" + "/" + "library/mariadb" + ":" + "10.8.2" + "@" + MariadbDigest
    ensures ParseReference(s)
         == Success(Image(s, "index.docker.io" + "/" + "library/mariadb" + "@" + MariadbDigest,
                          "index.docker.io", "library/mariadb", "10.8.2", MariadbDigest))
  {
    MariadbTagAndDigestParts();
    DockerHubAliasRewritten();
    LibraryMariadbKept();
    AssembledText(Some("docker.io"), "library/mariadb", "10.8.2", MariadbDigest);
    ParseReferenceText(Some("docker.io"), "library/mariadb", "10.8.2", MariadbDigest);
  }

  /** The parts of the MysqldExporterByDigest input are valid. */
  lemma MysqldExporterByDigestParts()
    ensures ValidParts(Some("docker.io"), "prom/mysqld-exporter", "", MysqldExporterDigest)
  {
    MysqldExporterDigestValid();
    assert ValidRepository("prom/mysqld-exporter");
  }

  /** A digest-only reference outside the official namespace keeps its two-
      segment repository. */
  lemma ParseMysqldExporterByDigest(s: string)
    requires s == "docker.io" + "/" + "prom/mysqld-exporter" + "@" + MysqldExporterDigest
    ensures ParseReference(s)
         == Success(Image(s, "index.docker.io" + "/" + "prom/mysqld-exporter" + "@" + MysqldExporterDigest,
                          "index.docker.io", "prom/mysqld-exporter", "", MysqldExporterDigest))
  {
    MysqldExporterByDigestParts();
    DockerHubAliasRewritten();
    MysqldExporterKept();
    AssembledText(Some("docker.io"), "prom/mysqld-exporter", "", MysqldExporterDigest);
    ParseReferenceText(Some("docker.io"), "prom/mysqld-exporter", "", MysqldExporterDigest);
  }

  /** The parts of the GcrTagAndDigest input are valid. */
  lemma GcrTagAndDigestParts()
    ensures ValidParts(Some("gcr.io"), "google-containers/echoserver", "1.10", EchoserverDigest)
  {
    EchoserverDigestValid();
    assert ValidRepository("google-containers/echoserver");
    assert ValidTag("1.10") && ':' !in "1.10" && '@' !in "1.10";
  }

  /** Tag and digest on an explicit registry: the registry is kept and the tag
      is dropped from the name. */
  lemma ParseGcrTagAndDigest(s: string)
    requires s == "gcr.io" + "/" + "google-containers/echoserver" + ":" + "1.10" + "@" + EchoserverDigest
    ensures ParseReference(s)
         == Success(Image(s, "gcr.io" + "/" + "google-containers/echoserver" + "@" + EchoserverDigest,
                          "gcr.io", "google-containers/echoserver", "1.10", EchoserverDigest))
  {
    GcrTagAndDigestParts();
    RegistryKept("gcr.io");
    EchoserverKept();
    AssembledText(Some("gcr.io"), "google-containers/echoserver", "1.10", EchoserverDigest);
    ParseReferenceText(Some("gcr.io"), "google-containers/echoserver", "1.10", EchoserverDigest);
  }

  /** The parts of the GcrTag input are valid. */
  lemma GcrTagParts()
    ensures ValidParts(Some("gcr.io"), "google-containers/echoserver", "1.10", "")
  {
    assert ValidRepository("google-containers/echoserver");
    assert ValidTag("1.10") && ':' !in "1.10" && '@' !in "1.10";
  }

  /** A tag only, on an explicit registry: the name is the input itself. */
  lemma ParseGcrTag(s: string)
    requires s == "gcr.io" + "/" + "google-containers/echoserver" + ":" + "1.10"
    ensures ParseReference(s)
         == Success(Image(s, "gcr.io" + "/" + "google-containers/echoserver" + ":" + "1.10",
                          "gcr.io", "google-containers/echoserver", "1.10", ""))
  {
    GcrTagParts();
    RegistryKept("gcr.io");
    EchoserverKept();
    AssembledText(Some("gcr.io"), "google-containers/echoserver", "1.10", "");
    ParseReferenceText(Some("gcr.io"), "google-containers/echoserver", "1.10", "");
  }

  /** The parts of the UiServerTag input are valid. */
  lemma UiServerTagParts()
    ensures ValidParts(None, "kubedb/ui-server", "1.10-v2", "")
  {
    assert ValidRepository("kubedb/ui-server");
    assert ValidTag("1.10-v2") && ':' !in "1.10-v2" && '@' !in "1.10-v2";
    UnhostedPath("kubedb", "ui-server", "kubedb/ui-server");
  }

  /** No registry segment: the default registry, and no `library/` namespace
      for a two-segment repository. */
  lemma ParseUiServerTag(s: string)
    requires s == "kubedb/ui-server" + ":" + "1.10-v2"
    ensures ParseReference(s)
         == Success(Image(s, "index.docker.io" + "/" + "kubedb/ui-server" + ":" + "1.10-v2",
                          "index.docker.io", "kubedb/ui-server", "1.10-v2", ""))
  {
    UiServerTagParts();
    UiServerKept();
    AssembledText(None, "kubedb/ui-server", "1.10-v2", "");
    ParseReferenceText(None, "kubedb/ui-server", "1.10-v2", "");
  }

  /** The parts of the PostgresInitByDigest input are valid. */
  lemma PostgresInitByDigestParts()
    ensures ValidParts(Some("docker.io"), "kubedb/postgres-init", "", PostgresInitDigest)
  {
    PostgresInitDigestValid();
    assert ValidRepository("kubedb/postgres-init");
  }

  /** A digest-only reference with a two-segment repository on the `docker.io`
      alias. */
  lemma ParsePostgresInitByDigest(s: string)
    requires s == "docker.io" + "/" + "kubedb/postgres-init" + "@" + PostgresInitDigest
    ensures ParseReference(s)
         == Success(Image(s, "index.docker.io" + "/" + "kubedb/postgres-init" + "@" + PostgresInitDigest,
                          "index.docker.io", "kubedb/postgres-init", "", PostgresInitDigest))
  {
    PostgresInitByDigestParts();
    DockerHubAliasRewritten();
    PostgresInitKept();
    AssembledText(Some("docker.io"), "kubedb/postgres-init", "", PostgresInitDigest);
    ParseReferenceText(Some("docker.io"), "kubedb/postgres-init", "", PostgresInitDigest);
  }

  /** The parts of the OfficialTag input are valid. */
  lemma OfficialTagParts()
    ensures ValidParts(None, "nginx", "1.0.1", "")
  {
    assert ValidRepository("nginx");
    assert ValidTag("1.0.1") && ':' !in "1.0.1" && '@' !in "1.0.1";
  }

  /** A bare official image with a tag: the default registry and the
      `library/` namespace. */
  lemma ParseOfficialTag(s: string)
    requires s == "nginx" + ":" + "1.0.1"
    ensures ParseReference(s)
         == Success(Image(s, "index.docker.io" + "/" + "library/nginx" + ":" + "1.0.1",
                          "index.docker.io", "library/nginx", "1.0.1", ""))
  {
    OfficialTagParts();
    OfficialNginxNamespaced();
    AssembledText(None, "nginx", "1.0.1", "");
    ParseReferenceText(None, "nginx", "1.0.1", "");
  }

  /** The parts of the OfficialTagAndDigest input are valid. */
  lemma OfficialTagAndDigestParts()
    ensures ValidParts(None, "nginx", "1.0.1", NginxDigest)
  {
    NginxDigestValid();
    assert ValidRepository("nginx");
    assert ValidTag("1.0.1") && ':' !in "1.0.1" && '@' !in "1.0.1";
  }

  /** A bare official image with a tag and a digest: the name keeps only the
      digest. */
  lemma ParseOfficialTagAndDigest(s: string)
    requires s == "nginx" + ":" + "1.0.1" + "@" + NginxDigest
    ensures ParseReference(s)
         == Success(Image(s, "index.docker.io" + "/" + "library/nginx" + "@" + NginxDigest,
                          "index.docker.io", "library/nginx", "1.0.1", NginxDigest))
  {
    OfficialTagAndDigestParts();
    OfficialNginxNamespaced();
    AssembledText(None, "nginx", "1.0.1", NginxDigest);
    ParseReferenceText(None, "nginx", "1.0.1", NginxDigest);
  }

  /** The parts of the OfficialLatestAndDigest input are valid. */
  lemma OfficialLatestAndDigestParts()
    ensures ValidParts(None, "nginx", "latest", NginxDigest)
  {
    NginxDigestValid();
    assert ValidRepository("nginx");
    assert ValidTag("latest") && ':' !in "latest" && '@' !in "latest";
  }

  /** The tag `latest` is reported as written, and dropped from the name, when
      a digest is present. */
  lemma ParseOfficialLatestAndDigest(s: string)
    requires s == "nginx" + ":" + "latest" + "@" + NginxDigest
    ensures ParseReference(s)
         == Success(Image(s, "index.docker.io" + "/" + "library/nginx" + "@" + NginxDigest,
                          "index.docker.io", "library/nginx", "latest", NginxDigest))
  {
    OfficialLatestAndDigestParts();
    OfficialNginxNamespaced();
    AssembledText(None, "nginx", "latest", NginxDigest);
    ParseReferenceText(None, "nginx", "latest", NginxDigest);
  }

  /** The parts of the RegistryK8sTag input are valid. */
  lemma RegistryK8sTagParts()
    ensures ValidParts(Some("registry.k8s.io"), "ingress-nginx/controller", "v1.9.3", "")
  {
    assert ValidRepository("ingress-nginx/controller");
    assert ValidTag("v1.9.3") && ':' !in "v1.9.3" && '@' !in "v1.9.3";
  }

  /** An explicit registry with a multi-segment repository: nothing is added
      or dropped. */
  lemma ParseRegistryK8sTag(s: string)
    requires s == "registry.k8s.io" + "/" + "ingress-nginx/controller" + ":" + "v1.9.3"
    ensures ParseReference(s)
         == Success(Image(s, "registry.k8s.io" + "/" + "ingress-nginx/controller" + ":" + "v1.9.3",
                          "registry.k8s.io", "ingress-nginx/controller", "v1.9.3", ""))
  {
    RegistryK8sTagParts();
    RegistryKept("registry.k8s.io");
    IngressControllerKept();
    AssembledText(Some("registry.k8s.io"), "ingress-nginx/controller", "v1.9.3", "");
    ParseReferenceText(Some("registry.k8s.io"), "ingress-nginx/controller", "v1.9.3", "");
  }

}
