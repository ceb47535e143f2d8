/** The Site resource: its spec, the validation rule of its schema, and small readings of the spec. */
module SiteTypes {
  import opened Wrappers

  datatype SecretKeyRef = SecretKeyRef(name: string, key: string)

  datatype MariaDBClusterRef = MariaDBClusterRef(name: string, namespace: string)

  datatype IngressSpec = IngressSpec(
    enabled: bool,
    path: string,
    tls: Option<bool>,
    annotations: map<string, string>,
    ingressClassName: string)

  datatype DebugSpec = DebugSpec(enabled: bool, log: bool, display: bool)

  datatype InstallSpec = InstallSpec(
    adminUser: string,
    adminEmail: string,
    title: string,
    adminPasswordSecret: Option<SecretKeyRef>,
    adminPassword: Option<string>)

  datatype WordpressSpec = WordpressSpec(
    debug: Option<DebugSpec>,
    install: Option<InstallSpec>,
    version: string)

  datatype DatabaseSpec = DatabaseSpec(
    host: string,
    name: string,
    userSecret: Option<SecretKeyRef>,
    passwordSecret: Option<SecretKeyRef>,
    user: Option<string>,
    password: Option<string>)

  datatype PersistenceSpec = PersistenceSpec(
    enabled: bool,
    existingClaim: string,
    size: string,
    storageClassName: Option<string>)

  datatype FileBrowserSpec = FileBrowserSpec(enabled: bool, image: string)

  datatype DatabaseProvisionSpec = DatabaseProvisionSpec(enabled: bool, mariadbRef: Option<MariaDBClusterRef>)

  datatype ProvisionSpec = ProvisionSpec(database: Option<DatabaseProvisionSpec>)

  datatype NginxSpec = NginxSpec(image: string, config: string)

  datatype PhpSpec = PhpSpec(image: string, config: string)

  datatype SiteSpec = SiteSpec(
    domain: string,
    ingress: Option<IngressSpec>,
    wordpress: Option<WordpressSpec>,
    database: DatabaseSpec,
    persistence: Option<PersistenceSpec>,
    nodeSelector: map<string, string>,
    fileBrowser: Option<FileBrowserSpec>,
    provision: Option<ProvisionSpec>,
    updateStrategy: string,
    nginx: Option<NginxSpec>,
    php: Option<PhpSpec>)

  /** Namespace and name; it also stands for the UID, since a Site is never re-created here. */
  datatype SiteId = SiteId(ns: string, name: string)

  /** The copy of a Site that one reconcile works from. */
  datatype Site = Site(id: SiteId, spec: SiteSpec)

  /** What the manager's flags set. */
  datatype OperatorConfig = OperatorConfig(
    defaultMariaDBRef: Option<MariaDBClusterRef>,
    defaultStorageClassName: string)

  predicate ProvisionEnabled(spec: SiteSpec) {
    && spec.provision.Some?
    && spec.provision.value.database.Some?
    && spec.provision.value.database.value.enabled
  }

  /** The schema's validation rule on credentials. */
  predicate Admitted(spec: SiteSpec) {
    var db := spec.database;
    if ProvisionEnabled(spec) then
      db.userSecret.None? && db.user.None? && db.passwordSecret.None? && db.password.None?
    else
      && (db.userSecret.Some? <==> db.user.None?)
      && (db.passwordSecret.Some? <==> db.password.None?)
  }

  predicate FileBrowserOn(spec: SiteSpec) {
    spec.fileBrowser.Some? && spec.fileBrowser.value.enabled
  }

  predicate IngressOn(spec: SiteSpec) {
    spec.ingress.Some? && spec.ingress.value.enabled
  }

  /** The TLS flag, which the source reads whether or not the ingress itself is enabled. */
  predicate TlsOn(spec: SiteSpec) {
    spec.ingress.Some? && spec.ingress.value.tls == Some(true)
  }

  predicate PersistenceOn(spec: SiteSpec) {
    spec.persistence.Some? && spec.persistence.value.enabled
  }

  /** The operator itself makes and keeps the claim <name>-data. */
  predicate OwnClaim(spec: SiteSpec) {
    PersistenceOn(spec) && spec.persistence.value.existingClaim == ""
  }
}
