/** The managed objects, their keys, and what one reconcile wants each of them to be. */
module Objects {
  import opened Wrappers
  import opened SiteTypes
  import opened Environment
  import opened NginxConfig
  import opened Checksum
  import opened Status

  datatype Kind =
    | SiteKind | SecretKind | DatabaseKind | UserKind | GrantKind | ConfigMapKind
    | DeploymentKind | ServiceKind | IngressKind | PvcKind

  datatype Key = Key(kind: Kind, ns: string, name: string)

  /** Who controls an object: a Site, or anything else in the cluster. */
  datatype Owner = SiteOwner(id: SiteId) | OtherOwner(uid: string)

  datatype VolumeSource = EmptyDir | ConfigMapVolume(name: string) | ClaimVolume(claim: string)

  datatype Volume = Volume(name: string, source: VolumeSource)

  datatype Mount = Mount(volume: string, path: string, subPath: string)

  datatype Container = Container(name: string, image: string, env: seq<EnvVar>, ports: seq<int>, mounts: seq<Mount>)

  datatype DeploymentSpec = DeploymentSpec(
    replicas: int,
    strategy: string,
    selector: map<string, string>,
    podLabels: map<string, string>,
    configHash: Digest,
    nodeSelector: map<string, string>,
    volumes: seq<Volume>,
    initContainers: seq<Container>,
    containers: seq<Container>)

  datatype ServicePort = ServicePort(name: string, port: int, targetPort: int)

  datatype IngressPath = IngressPath(path: string, service: string, port: int)

  datatype IngressTLS = IngressTLS(hosts: seq<string>, secretName: string)

  datatype MariaDBRef = MariaDBRef(name: string, namespace: string, waitForIt: bool)

  datatype Body =
    | SiteBody(spec: SiteSpec, generation: nat, conditions: seq<Condition>)
    | SecretBody(secrets: map<string, string>)
    | DatabaseBody(ref: MariaDBRef, dbName: string)
    | UserBody(ref: MariaDBRef, userName: string, passwordRef: SecretKeyRef)
    | GrantBody(ref: MariaDBRef, privileges: seq<string>, dbName: string, table: string, userName: string)
    | ConfigMapBody(data: map<string, string>)
    | DeploymentBody(labels: map<string, string>, deployment: DeploymentSpec, revision: nat, status: DeploymentStatus)
    | ServiceBody(labels: map<string, string>, selector: map<string, string>, ports: seq<ServicePort>)
    | IngressBody(labels: map<string, string>, annotations: map<string, string>, className: Option<string>,
                  host: string, paths: seq<IngressPath>, tls: seq<IngressTLS>)
    | PvcBody(labels: map<string, string>, accessModes: seq<string>, requests: map<string, string>,
              storageClass: Option<string>)

  /**
   * An object with the parts the operator deals in. The flag says whether the API server has filled in its
   * defaults, which are a function of what the operator wrote.
   */
  datatype Object = Object(controller: Option<Owner>, defaulted: bool, body: Body)

  /** The ten objects of a Site, in the order Reconcile visits them. */
  datatype Part =
    | SecretPart | DatabasePart | UserPart | GrantPart | NginxPart | PhpPart
    | DeploymentPart | ServicePart | IngressPart | PvcPart

  const PARTS := 10

  function PartAt(pc: nat): Part
    requires pc < PARTS
  {
    if pc == 0 then SecretPart else if pc == 1 then DatabasePart else if pc == 2 then UserPart
    else if pc == 3 then GrantPart else if pc == 4 then NginxPart else if pc == 5 then PhpPart
    else if pc == 6 then DeploymentPart else if pc == 7 then ServicePart else if pc == 8 then IngressPart
    else PvcPart
  }

  /** Where Reconcile visits a part. */
  function IndexOf(part: Part): (m: nat)
    ensures m < PARTS && PartAt(m) == part
  {
    match part
    case SecretPart => 0
    case DatabasePart => 1
    case UserPart => 2
    case GrantPart => 3
    case NginxPart => 4
    case PhpPart => 5
    case DeploymentPart => 6
    case ServicePart => 7
    case IngressPart => 8
    case PvcPart => 9
  }

  lemma IndexAt(pc: nat)
    requires pc < PARTS
    ensures IndexOf(PartAt(pc)) == pc
  {
  }

  function Suffix(part: Part): string {
    match part
    case SecretPart => "-site-secret"
    case UserPart => "-db-user"
    case GrantPart => "-db-grant"
    case NginxPart => "-nginx"
    case PhpPart => "-php"
    case IngressPart => "-ingress"
    case PvcPart => "-data"
    case _ => ""
  }

  function KindOf(part: Part): Kind {
    match part
    case SecretPart => SecretKind
    case DatabasePart => DatabaseKind
    case UserPart => UserKind
    case GrantPart => GrantKind
    case NginxPart => ConfigMapKind
    case PhpPart => ConfigMapKind
    case DeploymentPart => DeploymentKind
    case ServicePart => ServiceKind
    case IngressPart => IngressKind
    case PvcPart => PvcKind
  }

  function KeyOf(id: SiteId, part: Part): Key {
    Key(KindOf(part), id.ns, id.name + Suffix(part))
  }

  function SiteKey(id: SiteId): Key {
    Key(SiteKind, id.ns, id.name)
  }

  lemma NginxIsNotPhp(a: string, b: string)
    ensures a + "-nginx" != b + "-php"
  {
    var s, t := a + "-nginx", b + "-php";
    assert s[|s| - 1] == 'x' && t[|t| - 1] == 'p';
  }

  lemma SuffixCancels(a: string, b: string, suffix: string)
    requires a + suffix == b + suffix
    ensures a == b
  {
    assert (a + suffix)[..|a|] == a && (b + suffix)[..|b|] == b;
  }

  /** No two derived objects share a key, within a Site or across Sites. */
  lemma KeysApart(a: SiteId, p: Part, b: SiteId, q: Part)
    ensures KeyOf(a, p) == KeyOf(b, q) ==> a == b && p == q
    ensures KeyOf(a, p) != SiteKey(b)
  {
    NginxIsNotPhp(a.name, b.name);
    NginxIsNotPhp(b.name, a.name);
    if KeyOf(a, p) == KeyOf(b, q) {
      SuffixCancels(a.name, b.name, Suffix(p));
    }
  }

  // ---- What one reconcile wants ----

  /** One run of Reconcile: its copy of the Site, the manager's flags, and what its random draws return. */
  datatype Job = Job(site: Site, cfg: OperatorConfig, draw: string -> string)

  function Labels(id: SiteId): map<string, string> {
    map["app" := id.name]
  }

  function PhpIniContent(spec: SiteSpec): string {
    if spec.php.Some? then spec.php.value.config else ""
  }

  function PhpImage(spec: SiteSpec): string {
    if spec.php.Some? && spec.php.value.image != "" then spec.php.value.image else "wordpress:php8.5-fpm"
  }

  function NginxImage(spec: SiteSpec): string {
    if spec.nginx.Some? && spec.nginx.value.image != "" then spec.nginx.value.image else "nginx:1.30-alpine"
  }

  function WpVersion(spec: SiteSpec): string {
    if spec.wordpress.Some? && spec.wordpress.value.version != "" then spec.wordpress.value.version else "latest"
  }

  function StrategyType(spec: SiteSpec): string {
    if spec.updateStrategy == "Recreate" then "Recreate" else "RollingUpdate"
  }

  const PHP_INI := "zz-site-operator.ini"
  const DATA_VOLUME := "site-data"
  const SITE_ROOT := "/var/www/html"

  function ClaimName(id: SiteId): string {
    id.name + "-data"
  }

  function SiteDataVolume(site: Site): Volume {
    if !PersistenceOn(site.spec) then Volume(DATA_VOLUME, EmptyDir)
    else if site.spec.persistence.value.existingClaim != "" then
      Volume(DATA_VOLUME, ClaimVolume(site.spec.persistence.value.existingClaim))
    else Volume(DATA_VOLUME, ClaimVolume(ClaimName(site.id)))
  }

  function WPInitContainer(site: Site): Container {
    Container("wp-init", PhpImage(site.spec), [EnvVar("WP_VERSION", Plain(WpVersion(site.spec)))], [],
              [Mount(DATA_VOLUME, SITE_ROOT, "")])
  }

  function PhpFpmContainer(site: Site): Container {
    Container("php-fpm", PhpImage(site.spec), PhpEnvs(site), [9000],
              [Mount(DATA_VOLUME, SITE_ROOT, ""), Mount("php-config", "/usr/local/etc/php/conf.d/" + PHP_INI, PHP_INI)])
  }

  function NginxContainer(site: Site): Container {
    Container("nginx", NginxImage(site.spec), [], [80],
              [Mount(DATA_VOLUME, SITE_ROOT, ""), Mount("nginx-config", "/etc/nginx/conf.d/default.conf", "default.conf")])
  }

  function FileBrowserContainer(site: Site): Container {
    var image := if site.spec.fileBrowser.Some? && site.spec.fileBrowser.value.image != ""
                 then site.spec.fileBrowser.value.image else "filebrowser/filebrowser:latest";
    Container("filebrowser", image, FileBrowserEnvs(site), [8080],
              [Mount(DATA_VOLUME, SITE_ROOT, ""), Mount("fb-config", "/config", "")])
  }

  function ConfigHash(spec: SiteSpec): Digest {
    Sha256(Frame([NginxContent(spec), PhpIniContent(spec)]))
  }

  function Volumes(site: Site): seq<Volume> {
    [ SiteDataVolume(site),
      Volume("nginx-config", ConfigMapVolume(site.id.name + "-nginx")),
      Volume("php-config", ConfigMapVolume(site.id.name + "-php")),
      Volume("fb-config", EmptyDir) ]
  }

  function Containers(site: Site): seq<Container> {
    [PhpFpmContainer(site), NginxContainer(site)]
    + if FileBrowserOn(site.spec) then [FileBrowserContainer(site)] else []
  }

  function BuildDeploymentSpec(site: Site): DeploymentSpec {
    DeploymentSpec(1, StrategyType(site.spec), Labels(site.id), Labels(site.id), ConfigHash(site.spec),
                   site.spec.nodeSelector, Volumes(site), [WPInitContainer(site)], Containers(site))
  }

  function ServicePorts(spec: SiteSpec): seq<ServicePort> {
    [ServicePort("http", 80, 80)] + if FileBrowserOn(spec) then [ServicePort("filebrowser", 8080, 8080)] else []
  }

  function IngressPaths(site: Site, ingress: IngressSpec): seq<IngressPath> {
    [IngressPath(ingress.path, site.id.name, 80)]
    + if FileBrowserOn(site.spec) then [IngressPath("/filebrowser", site.id.name, 8080)] else []
  }

  function IngressTls(site: Site, ingress: IngressSpec): seq<IngressTLS> {
    if ingress.tls == Some(true) then [IngressTLS([site.spec.domain], site.id.name + "-tls")] else []
  }

  /** The cluster a Site provisions on: its own reference, or else the operator's default. */
  function ResolveMariaDBRef(job: Job): Option<MariaDBClusterRef>
  {
    var own := if ProvisionEnabled(job.site.spec) then job.site.spec.provision.value.database.value.mariadbRef else None;
    if own.Some? && own.value.name != "" then own
    else if job.cfg.defaultMariaDBRef.Some? && job.cfg.defaultMariaDBRef.value.name != "" then job.cfg.defaultMariaDBRef
    else None
  }

  function ObjectRef(job: Job): MariaDBRef {
    var ref := ResolveMariaDBRef(job).GetOr(MariaDBClusterRef("", ""));
    MariaDBRef(ref.name, ref.namespace, true)
  }

  function ClaimSize(spec: SiteSpec): string {
    if spec.persistence.Some? && spec.persistence.value.size != "" then spec.persistence.value.size else "1Gi"
  }

  /** The storage class a new claim gets: the Site's own, or else the operator's default. */
  function WantedStorageClass(job: Job): Option<string> {
    var own := if job.site.spec.persistence.Some? then job.site.spec.persistence.value.storageClassName else None;
    if own.None? && job.cfg.defaultStorageClassName != "" then Some(job.cfg.defaultStorageClassName) else own
  }

  // What a mutation keeps of the object it was given.

  function OldSecrets(x: Option<Object>): map<string, string> {
    if x.Some? && x.value.body.SecretBody? then x.value.body.secrets else map[]
  }

  function OldClass(x: Option<Object>): Option<string> {
    if x.Some? && x.value.body.IngressBody? then x.value.body.className else None
  }

  function OldRequests(x: Option<Object>): map<string, string> {
    if x.Some? && x.value.body.PvcBody? then x.value.body.requests else map[]
  }

  function OldStorageClass(x: Option<Object>): Option<string> {
    if x.Some? && x.value.body.PvcBody? then x.value.body.storageClass else None
  }

  function OldAccessModes(x: Option<Object>): seq<string> {
    if x.Some? && x.value.body.PvcBody? then x.value.body.accessModes else []
  }

  const NO_STATUS := DeploymentStatus(0, 0, 0, 0, [])

  function OldRevision(x: Option<Object>): nat {
    if x.Some? && x.value.body.DeploymentBody? then x.value.body.revision else 0
  }

  function OldStatus(x: Option<Object>): DeploymentStatus {
    if x.Some? && x.value.body.DeploymentBody? then x.value.body.status else NO_STATUS
  }

  /** Keys are added, never replaced. */
  function WithKeys(secrets: map<string, string>, wanted: set<string>, draw: string -> string): map<string, string> {
    map k | k in secrets.Keys + wanted :: if k in secrets then secrets[k] else draw(k)
  }

  /** The body a mutation leaves behind, given the object it read (None when it is about to create). */
  function Desired(job: Job, part: Part, x: Option<Object>): Body {
    var site := job.site;
    match part
    case SecretPart => SecretBody(WithKeys(OldSecrets(x), WantedKeys(site.spec), job.draw))
    case DatabasePart => DatabaseBody(ObjectRef(job), site.spec.database.name)
    case UserPart =>
      UserBody(ObjectRef(job), ProvisionedUsername(site.id), SecretKeyRef(SecretName(site.id), DB_PASSWORD))
    case GrantPart =>
      GrantBody(ObjectRef(job), ["ALL PRIVILEGES"], site.spec.database.name, "*", ProvisionedUsername(site.id))
    case NginxPart => ConfigMapBody(map["default.conf" := NginxContent(site.spec)])
    case PhpPart => ConfigMapBody(map[PHP_INI := PhpIniContent(site.spec)])
    case DeploymentPart => DeploymentBody(Labels(site.id), BuildDeploymentSpec(site), OldRevision(x), OldStatus(x))
    case ServicePart => ServiceBody(Labels(site.id), Labels(site.id), ServicePorts(site.spec))
    case IngressPart =>
      var ingress := site.spec.ingress.GetOr(IngressSpec(false, "", None, map[], ""));
      IngressBody(Labels(site.id), ingress.annotations,
                  if ingress.ingressClassName != "" then Some(ingress.ingressClassName) else OldClass(x),
                  site.spec.domain, IngressPaths(site, ingress), IngressTls(site, ingress))
    case PvcPart =>
      PvcBody(Labels(site.id), if x.None? then ["ReadWriteOnce"] else OldAccessModes(x),
              OldRequests(x)["storage" := ClaimSize(site.spec)],
              if x.None? && WantedStorageClass(job).Some? then WantedStorageClass(job) else OldStorageClass(x))
  }

  /** The body is of the part's type. */
  predicate OfType(body: Body, part: Part) {
    match part
    case SecretPart => body.SecretBody?
    case DatabasePart => body.DatabaseBody?
    case UserPart => body.UserBody?
    case GrantPart => body.GrantBody?
    case NginxPart => body.ConfigMapBody?
    case PhpPart => body.ConfigMapBody?
    case DeploymentPart => body.DeploymentBody?
    case ServicePart => body.ServiceBody?
    case IngressPart => body.IngressBody?
    case PvcPart => body.PvcBody?
  }

  datatype Error = Transport(text: string) | NotFound | AlreadyExists | Conflict | AlreadyOwned | NoCluster

  function Message(e: Error): string {
    match e
    case Transport(text) => text
    case NotFound => "not found"
    case AlreadyExists => "already exists"
    case Conflict => "the object has been modified"
    case AlreadyOwned => "already owned by another controller"
    case NoCluster => "provision.database.enabled is true but no mariadbRef is set"
  }

  /** Overwriting a whole spec, or a list of ports or paths, drops the server's defaults in it. */
  predicate LosesDefaults(part: Part) {
    part == DeploymentPart || part == ServicePart || part == IngressPart
  }

  predicate ControlledBy(x: Option<Object>, id: SiteId) {
    x.Some? && x.value.controller == Some(SiteOwner(id))
  }

  predicate ControlledByOther(x: Option<Object>, id: SiteId) {
    x.Some? && x.value.controller.Some? && x.value.controller != Some(SiteOwner(id))
  }

  /** The whole mutate function: fields in memory first, then the controller reference. */
  function Mutate(job: Job, part: Part, x: Option<Object>): Result<Object, Error> {
    if ControlledByOther(x, job.site.id) then Failure(AlreadyOwned)
    else Success(Object(Some(SiteOwner(job.site.id)),
                        x.Some? && x.value.defaulted && !LosesDefaults(part),
                        Desired(job, part, x)))
  }

  /** How Reconcile treats a part: not at all, refuse, create or update with so many attempts, or delete if owned. */
  datatype Op = Skip | Refuse(error: Error) | Upsert(attempts: nat) | DeleteOwned

  const RETRIES := 5

  function OpFor(job: Job, part: Part): Op {
    var spec := job.site.spec;
    match part
    case SecretPart => Upsert(1)
    case DatabasePart =>
      if !ProvisionEnabled(spec) then Skip
      else if ResolveMariaDBRef(job).None? then Refuse(NoCluster)
      else Upsert(RETRIES)
    case UserPart => if ProvisionEnabled(spec) then Upsert(RETRIES) else Skip
    case GrantPart => if ProvisionEnabled(spec) then Upsert(RETRIES) else Skip
    case IngressPart => if IngressOn(spec) then Upsert(RETRIES) else DeleteOwned
    case PvcPart => if OwnClaim(spec) then Upsert(RETRIES) else DeleteOwned
    case _ => Upsert(RETRIES)
  }

  /** The annotation tells two specs apart exactly when it must, provided the rendered texts hold no NUL. */
  lemma ConfigHashTellsApart(a: SiteSpec, b: SiteSpec)
    requires NulFree(NginxContent(a)) && NulFree(PhpIniContent(a))
    ensures ConfigHash(a) == ConfigHash(b) <==> NginxContent(a) == NginxContent(b) && PhpIniContent(a) == PhpIniContent(b)
  {
    PairPinnedDownIffNulFree(NginxContent(a), PhpIniContent(a));
  }

  /** With provisioning on, user name, password key and database name agree wherever they are written. */
  lemma CredentialsAgree(job: Job, x: Option<Object>, y: Option<Object>, z: Option<Object>)
    requires ProvisionEnabled(job.site.spec)
    ensures var envs := PhpEnvs(job.site);
            var db, user, grant := Desired(job, DatabasePart, x), Desired(job, UserPart, y), Desired(job, GrantPart, z);
            && EnvVar(DB_USER, Plain(user.userName)) in envs && user.userName == grant.userName
            && EnvVar(DB_PASSWORD, FromSecret(user.passwordRef)) in envs
            && user.passwordRef.key in OldSecrets(Some(Object(None, true, Desired(job, SecretPart, x))))
            && EnvVar("DB_NAME", Plain(db.dbName)) in envs && db.dbName == grant.dbName
            && db.ref == user.ref == grant.ref
  {
    var dbEnvs := DatabaseEnvs(job.site);
    assert dbEnvs[1] == EnvVar("DB_NAME", Plain(job.site.spec.database.name));
    assert dbEnvs[2] == EnvVar(DB_USER, Plain(ProvisionedUsername(job.site.id)));
    assert dbEnvs[3] == SecretEnv(job.site.id, DB_PASSWORD);
    assert forall e :: e in dbEnvs ==> e in PhpEnvs(job.site);
    assert DB_PASSWORD in ProvisionKeys(job.site.spec);
  }
}
