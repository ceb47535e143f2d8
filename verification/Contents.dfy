/** What the stored objects of a Site say, in terms of its spec and the manager's flags alone. */
module Contents {
  import opened Wrappers
  import opened SiteTypes
  import opened Text
  import opened Environment
  import opened Variables
  import NginxConfig
  import opened Objects
  import opened Machine
  import opened Runs
  import opened Provenance
  import opened Convergence

  // ---- The MariaDB cluster ----

  /** The Site's own cluster reference, wherever the spec leaves it out. */
  function OwnRef(spec: SiteSpec): Option<MariaDBClusterRef> {
    if spec.provision.Some? && spec.provision.value.database.Some? then spec.provision.value.database.value.mariadbRef else None
  }

  predicate Named(ref: Option<MariaDBClusterRef>) {
    ref.Some? && ref.value.name != ""
  }

  predicate Refers(ref: MariaDBRef, to: MariaDBClusterRef) {
    ref.name == to.name && ref.namespace == to.namespace && ref.waitForIt
  }

  /** The Site's own reference whenever it has a name, and otherwise the manager's default. */
  predicate Chosen(ref: MariaDBRef, spec: SiteSpec, cfg: OperatorConfig) {
    if Named(OwnRef(spec)) then Refers(ref, OwnRef(spec).value)
    else Named(cfg.defaultMariaDBRef) && Refers(ref, cfg.defaultMariaDBRef.value)
  }

  const MARIADB := {DatabasePart, UserPart, GrantPart}

  /** The three MariaDB objects are on the chosen cluster, and ask for the Site's database. */
  ghost predicate OnCluster(w: World, id: SiteId, spec: SiteSpec, cfg: OperatorConfig) {
    var db, user := Current(w, KeyOf(id, DatabasePart)), Current(w, KeyOf(id, UserPart));
    var grant := Current(w, KeyOf(id, GrantPart));
    && db.Some? && db.value.body.DatabaseBody? && Chosen(db.value.body.ref, spec, cfg)
    && db.value.body.dbName == spec.database.name
    && user.Some? && user.value.body.UserBody? && Chosen(user.value.body.ref, spec, cfg)
    && grant.Some? && grant.value.body.GrantBody? && Chosen(grant.value.body.ref, spec, cfg)
    && grant.value.body.dbName == spec.database.name && grant.value.body.table == "*"
    && grant.value.body.privileges == ["ALL PRIVILEGES"]
  }

  lemma RefChosen(job: Job)
    requires ProvisionEnabled(job.site.spec) && !OpFor(job, DatabasePart).Refuse?
    ensures Chosen(ObjectRef(job), job.site.spec, job.cfg)
  {
  }

  /** In every single-worker run, once through a job that provisions, the objects are on the cluster it chooses. */
  lemma ClusterChosen(s: State, events: seq<Event>, id: SiteId, tid: nat, job: Job)
    requires AllSound(s) && OneWorker(s, id, tid) && AllOrderly(events, id, tid, MARIADB)
    requires Through(s, events, id, tid, job) && ProvisionEnabled(job.site.spec)
    ensures OnCluster(Run(s, events).world, id, job.site.spec, job.cfg)
  {
    var w := Run(s, events).world;
    ThroughAllSettled(s, events, id, tid, job, MARIADB);
    RefChosen(job);
    MariaDBSettled(job, DatabasePart, Stored(w, job, DatabasePart));
    MariaDBSettled(job, UserPart, Stored(w, job, UserPart));
    MariaDBSettled(job, GrantPart, Stored(w, job, GrantPart));
  }

  lemma SameDesired(a: Job, b: Job, part: Part)
    requires a.site == b.site && Named(OwnRef(a.site.spec)) && ProvisionEnabled(a.site.spec)
    requires part == DatabasePart || part == UserPart || part == GrantPart
    ensures Desired(a, part, None) == Desired(b, part, None)
  {
  }

  /** Two runs of a Site that names its cluster agree on its MariaDB objects, whatever defaults the managers have. */
  lemma DefaultDoesNotMatter(s1: State, events1: seq<Event>, tid1: nat, a: Job, s2: State, events2: seq<Event>, tid2: nat, b: Job,
                             id: SiteId, part: Part)
    requires AllSound(s1) && OneWorker(s1, id, tid1) && AllOrderly(events1, id, tid1, {part}) && Through(s1, events1, id, tid1, a)
    requires AllSound(s2) && OneWorker(s2, id, tid2) && AllOrderly(events2, id, tid2, {part}) && Through(s2, events2, id, tid2, b)
    requires a.site == b.site && Named(OwnRef(a.site.spec)) && ProvisionEnabled(a.site.spec)
    requires part == DatabasePart || part == UserPart || part == GrantPart
    ensures var x, y := Current(Run(s1, events1).world, KeyOf(id, part)), Current(Run(s2, events2).world, KeyOf(id, part));
            x.Some? && y.Some? && x.value.body == y.value.body
  {
    ThroughSettled(s1, events1, id, tid1, a, part);
    ThroughSettled(s2, events2, id, tid2, b, part);
    MariaDBSettled(a, part, Current(Run(s1, events1).world, KeyOf(id, part)));
    MariaDBSettled(b, part, Current(Run(s2, events2).world, KeyOf(id, part)));
    SameDesired(a, b, part);
  }

  // ---- The pods ----

  function ImageOr(image: string, default: string): string {
    if image == "" then default else image
  }

  function PhpImageAsked(spec: SiteSpec): string {
    ImageOr(if spec.php.Some? then spec.php.value.image else "", "wordpress:php8.5-fpm")
  }

  predicate FileBrowserAsked(spec: SiteSpec) {
    spec.fileBrowser.Some? && spec.fileBrowser.value.enabled
  }

  predicate InstallsAsAsked(c: Container, spec: SiteSpec) {
    && c.image == PhpImageAsked(spec)
    && c.env == [EnvVar("WP_VERSION", Plain(ImageOr(if spec.wordpress.Some? then spec.wordpress.value.version else "", "latest")))]
  }

  predicate ServesAsAsked(php: Container, nginx: Container, spec: SiteSpec) {
    && php.name == "php-fpm" && php.image == PhpImageAsked(spec) && 9000 in php.ports
    && nginx.name == "nginx" && 80 in nginx.ports
    && nginx.image == ImageOr(if spec.nginx.Some? then spec.nginx.value.image else "", "nginx:1.30-alpine")
  }

  ghost predicate BrowsesAsAsked(c: Container, spec: SiteSpec)
    requires FileBrowserAsked(spec)
  {
    && c.name == "filebrowser" && 8080 in c.ports && IsText(c.env, "FB_PORT", "8080")
    && IsText(c.env, "FB_BASE_URL", "/filebrowser") && IsText(c.env, "FB_ROOT", "/var/www/html")
    && c.image == ImageOr(spec.fileBrowser.value.image, "filebrowser/filebrowser:latest")
  }

  /** One pod, on the nodes asked for, with the images asked for, rolled out as asked for. */
  ghost predicate PodsAsAsked(pods: DeploymentSpec, spec: SiteSpec) {
    && pods.replicas == 1 && pods.nodeSelector == spec.nodeSelector
    && pods.strategy == (if spec.updateStrategy == "Recreate" then "Recreate" else "RollingUpdate")
    && |pods.initContainers| == 1 && InstallsAsAsked(pods.initContainers[0], spec)
    && |pods.containers| == (if FileBrowserAsked(spec) then 3 else 2)
    && ServesAsAsked(pods.containers[0], pods.containers[1], spec)
    && (FileBrowserAsked(spec) ==> BrowsesAsAsked(pods.containers[2], spec))
  }

  lemma FileBrowserSays(site: Site)
    ensures var envs := FileBrowserEnvs(site);
            && IsText(envs, "FB_PORT", "8080") && IsText(envs, "FB_BASE_URL", "/filebrowser")
            && IsText(envs, "FB_ROOT", "/var/www/html")
  {
    var envs := FileBrowserEnvs(site);
    assert envs[0] == EnvVar("FB_PORT", Plain("8080"));
    assert envs[1] == EnvVar("FB_ROOT", Plain("/var/www/html"));
    assert envs[3] == EnvVar("FB_BASE_URL", Plain("/filebrowser"));
  }

  lemma ContainersAsAsked(site: Site)
    ensures InstallsAsAsked(WPInitContainer(site), site.spec)
    ensures ServesAsAsked(PhpFpmContainer(site), NginxContainer(site), site.spec)
    ensures FileBrowserAsked(site.spec) ==> BrowsesAsAsked(FileBrowserContainer(site), site.spec)
  {
    FileBrowserSays(site);
    assert PhpFpmContainer(site).ports[0] == 9000 && NginxContainer(site).ports[0] == 80;
    assert FileBrowserContainer(site).ports[0] == 8080;
  }

  lemma BuiltAsAsked(site: Site)
    ensures PodsAsAsked(BuildDeploymentSpec(site), site.spec)
  {
    ContainersAsAsked(site);
  }

  /** The stored Deployment is as the spec asks, and its php-fpm container reads what the spec says. */
  ghost predicate DeploymentAsAsked(w: World, id: SiteId, spec: SiteSpec) {
    var x := Current(w, KeyOf(id, DeploymentPart));
    && x.Some? && x.value.body.DeploymentBody? && PodsAsAsked(x.value.body.deployment, spec)
    && AllSaid(x.value.body.deployment.containers[0].env, id, spec)
  }

  /** In every single-worker run, once through a job. */
  lemma DeploymentIsAsAsked(s: State, events: seq<Event>, id: SiteId, tid: nat, job: Job)
    requires AllSound(s) && OneWorker(s, id, tid) && AllOrderly(events, id, tid, {DeploymentPart})
    requires Through(s, events, id, tid, job)
    ensures DeploymentAsAsked(Run(s, events).world, id, job.site.spec)
  {
    ThroughSettled(s, events, id, tid, job, DeploymentPart);
    DeploymentSettled(job, Current(Run(s, events).world, KeyOf(id, DeploymentPart)));
    BuiltAsAsked(job.site);
    PhpEnvsFirst(job.site);
    EnvironmentSays(job.site);
  }

  // ---- Files ----

  const FILES := {NginxPart, PhpPart, DeploymentPart}
  const PHP_PATH := "/usr/local/etc/php/conf.d/zz-site-operator.ini"
  const NGINX_PATH := "/etc/nginx/conf.d/default.conf"

  function PhpConfig(spec: SiteSpec): string {
    if spec.php.Some? then spec.php.value.config else ""
  }

  function UserConfig(spec: SiteSpec): string {
    if spec.nginx.Some? then spec.nginx.value.config else ""
  }

  /** The volume of the Site's files: the claim the user brought, the operator's own, or nothing that lasts. */
  function DataSource(id: SiteId, spec: SiteSpec): VolumeSource {
    if spec.persistence.Some? && spec.persistence.value.enabled then
      var brought := spec.persistence.value.existingClaim;
      ClaimVolume(if brought == "" then id.name + "-data" else brought)
    else EmptyDir
  }

  /** The container has the Site's files at the shared directory. */
  predicate HasData(c: Container, volumes: seq<Volume>, source: VolumeSource) {
    exists m :: m in c.mounts && m.path == "/var/www/html" && Volume(m.volume, source) in volumes
  }

  /** The container reads the text, out of a stored ConfigMap, as the file at the path. */
  ghost predicate ReadsFile(w: World, ns: string, c: Container, volumes: seq<Volume>, path: string, text: string) {
    exists m, name :: m in c.mounts && m.path == path && Volume(m.volume, ConfigMapVolume(name)) in volumes
                      && TextOf(Current(w, Key(ConfigMapKind, ns, name)), m.subPath) == Some(text)
  }

  function TextOf(x: Option<Object>, file: string): Option<string> {
    if x.Some? && x.value.body.ConfigMapBody? && file in x.value.body.data then Some(x.value.body.data[file]) else None
  }

  /**
   * All containers share one directory, nginx serves that directory, and php-fpm and nginx read the user's own
   * configuration.
   */
  ghost predicate FilesAsAsked(w: World, id: SiteId, spec: SiteSpec) {
    var x := Current(w, KeyOf(id, DeploymentPart));
    && x.Some? && x.value.body.DeploymentBody?
    && var pods := x.value.body.deployment;
       && (forall c :: c in pods.initContainers + pods.containers ==> HasData(c, pods.volumes, DataSource(id, spec)))
       && |pods.containers| >= 2
       && ReadsFile(w, id.ns, pods.containers[0], pods.volumes, PHP_PATH, PhpConfig(spec))
       && exists text :: ReadsFile(w, id.ns, pods.containers[1], pods.volumes, NGINX_PATH, text)
                         && Contains(text, "root /var/www/html;") && Contains(text, UserConfig(spec))
  }

  lemma DataShared(site: Site)
    ensures var pods := BuildDeploymentSpec(site);
            forall c :: c in pods.initContainers + pods.containers ==> HasData(c, pods.volumes, DataSource(site.id, site.spec))
  {
    var pods, source := BuildDeploymentSpec(site), DataSource(site.id, site.spec);
    assert Volumes(site)[0] == Volume(DATA_VOLUME, source) && Volumes(site)[0] in pods.volumes;
    forall c | c in pods.initContainers + pods.containers
      ensures HasData(c, pods.volumes, source)
    {
      assert c.mounts[0] == Mount(DATA_VOLUME, "/var/www/html", "") && c.mounts[0] in c.mounts;
    }
  }

  lemma PhpIniPath()
    ensures "/usr/local/etc/php/conf.d/" + PHP_INI == PHP_PATH
  {
  }

  lemma ConfigsMounted(site: Site)
    ensures var php, nginx, volumes := PhpFpmContainer(site), NginxContainer(site), Volumes(site);
            && Mount("php-config", PHP_PATH, PHP_INI) in php.mounts
            && Mount("nginx-config", NGINX_PATH, "default.conf") in nginx.mounts
            && Volume("php-config", ConfigMapVolume(site.id.name + "-php")) in volumes
            && Volume("nginx-config", ConfigMapVolume(site.id.name + "-nginx")) in volumes
  {
    PhpIniPath();
    assert PhpFpmContainer(site).mounts[1] in PhpFpmContainer(site).mounts;
    assert NginxContainer(site).mounts[1] in NginxContainer(site).mounts;
    assert Volumes(site)[1] in Volumes(site) && Volumes(site)[2] in Volumes(site);
  }

  lemma PhpText(job: Job, x: Option<Object>)
    requires Settled(job, PhpPart, x)
    ensures TextOf(x, PHP_INI) == Some(PhpConfig(job.site.spec))
  {
  }

  lemma NginxText(job: Job, x: Option<Object>)
    requires Settled(job, NginxPart, x)
    ensures TextOf(x, "default.conf") == Some(NginxConfig.NginxContent(job.site.spec))
  {
  }

  lemma FileRead(w: World, ns: string, c: Container, volumes: seq<Volume>, m: Mount, name: string, text: string)
    requires m in c.mounts && Volume(m.volume, ConfigMapVolume(name)) in volumes
    requires TextOf(Current(w, Key(ConfigMapKind, ns, name)), m.subPath) == Some(text)
    ensures ReadsFile(w, ns, c, volumes, m.path, text)
  {
  }

  /** In every single-worker run, once through a job. */
  lemma FilesAreAsAsked(s: State, events: seq<Event>, id: SiteId, tid: nat, job: Job)
    requires AllSound(s) && OneWorker(s, id, tid) && AllOrderly(events, id, tid, FILES)
    requires Through(s, events, id, tid, job)
    ensures FilesAsAsked(Run(s, events).world, id, job.site.spec)
  {
    var w := Run(s, events).world;
    ThroughAllSettled(s, events, id, tid, job, FILES);
    DeploymentSettled(job, Stored(w, job, DeploymentPart));
    DataShared(job.site);
    PhpText(job, Stored(w, job, PhpPart));
    NginxText(job, Stored(w, job, NginxPart));
    PodsRead(w, job.site);
    TextServes(job.site.spec);
  }

  lemma PodsRead(w: World, site: Site)
    requires TextOf(Current(w, KeyOf(site.id, PhpPart)), PHP_INI) == Some(PhpConfig(site.spec))
    requires TextOf(Current(w, KeyOf(site.id, NginxPart)), "default.conf") == Some(NginxConfig.NginxContent(site.spec))
    ensures var pods, text := BuildDeploymentSpec(site), NginxConfig.NginxContent(site.spec);
            && |pods.containers| >= 2
            && ReadsFile(w, site.id.ns, pods.containers[0], pods.volumes, PHP_PATH, PhpConfig(site.spec))
            && ReadsFile(w, site.id.ns, pods.containers[1], pods.volumes, NGINX_PATH, text)
  {
    PhpReadsIt(w, site);
    NginxReadsIt(w, site);
    BuildParts(site);
  }

  lemma BuildParts(site: Site)
    ensures var pods := BuildDeploymentSpec(site);
            && pods.volumes == Volumes(site) && |pods.containers| >= 2
            && pods.containers[0] == PhpFpmContainer(site) && pods.containers[1] == NginxContainer(site)
  {
  }

  lemma TextServes(spec: SiteSpec)
    ensures var text := NginxConfig.NginxContent(spec);
            Contains(text, "root /var/www/html;") && Contains(text, UserConfig(spec))
  {
    NginxConfig.FilesServed(spec);
    assert UserConfig(spec) == if spec.nginx.Some? then spec.nginx.value.config else "";
  }

  lemma PhpReadsIt(w: World, site: Site)
    requires TextOf(Current(w, KeyOf(site.id, PhpPart)), PHP_INI) == Some(PhpConfig(site.spec))
    ensures ReadsFile(w, site.id.ns, PhpFpmContainer(site), Volumes(site), PHP_PATH, PhpConfig(site.spec))
  {
    ConfigsMounted(site);
    FileRead(w, site.id.ns, PhpFpmContainer(site), Volumes(site), Mount("php-config", PHP_PATH, PHP_INI),
             site.id.name + "-php", PhpConfig(site.spec));
  }

  lemma NginxReadsIt(w: World, site: Site)
    requires TextOf(Current(w, KeyOf(site.id, NginxPart)), "default.conf") == Some(NginxConfig.NginxContent(site.spec))
    ensures ReadsFile(w, site.id.ns, NginxContainer(site), Volumes(site), NGINX_PATH, NginxConfig.NginxContent(site.spec))
  {
    ConfigsMounted(site);
    FileRead(w, site.id.ns, NginxContainer(site), Volumes(site), Mount("nginx-config", NGINX_PATH, "default.conf"),
             site.id.name + "-nginx", NginxConfig.NginxContent(site.spec));
  }

  // ---- TLS and ports ----

  const WEB := {NginxPart, DeploymentPart, IngressPart}

  predicate TlsAsked(spec: SiteSpec) {
    spec.ingress.Some? && spec.ingress.value.tls == Some(true)
  }

  /** The Ingress serves the domain, over TLS exactly when that is asked for, with the paths and notes asked for. */
  ghost predicate IngressAsAsked(x: Option<Object>, id: SiteId, spec: SiteSpec) {
    && x.Some? && x.value.body.IngressBody? && spec.ingress.Some?
    && var ingress := x.value.body;
       && ingress.host == spec.domain && ingress.annotations == spec.ingress.value.annotations
       && (TlsAsked(spec) <==> exists t :: t in ingress.tls && ingress.host in t.hosts)
       && (forall t :: t in ingress.tls ==> t.secretName == id.name + "-tls")
       && (exists p :: p in ingress.paths && p.path == spec.ingress.value.path && p.port == 80)
       && (FileBrowserAsked(spec) <==>
             exists p :: p in ingress.paths && p.path == "/filebrowser" && p.port == 8080)
  }

  /** PHP is told to be reached over https exactly when that is asked for. */
  ghost predicate PhpKnows(x: Option<Object>, spec: SiteSpec) {
    && x.Some? && x.value.body.DeploymentBody? && |x.value.body.deployment.containers| > 0
    && var env := x.value.body.deployment.containers[0].env;
       && (exists home :: IsText(env, "WP_HOME", home))
       && (forall home :: IsText(env, "WP_HOME", home) ==> (TlsAsked(spec) <==> "https://" <= home))
  }

  /** nginx tells PHP so too, and listens and passes on where the containers are reached. */
  predicate TextKnows(text: string, spec: SiteSpec) {
    && (Contains(text, "fastcgi_param HTTPS on;") <==>
          TlsAsked(spec) || Contains(UserConfig(spec), "fastcgi_param HTTPS on;"))
    && Contains(text, "listen 80;") && Contains(text, "fastcgi_pass 127.0.0.1:9000;")
  }

  ghost predicate NginxKnows(x: Option<Object>, spec: SiteSpec) {
    && x.Some? && x.value.body.ConfigMapBody? && "default.conf" in x.value.body.data
    && TextKnows(x.value.body.data["default.conf"], spec)
  }

  ghost predicate TlsAgrees(w: World, id: SiteId, spec: SiteSpec) {
    && IngressAsAsked(Current(w, KeyOf(id, IngressPart)), id, spec)
    && PhpKnows(Current(w, KeyOf(id, DeploymentPart)), spec)
    && NginxKnows(Current(w, KeyOf(id, NginxPart)), spec)
  }

  lemma PathsAre(site: Site, ingress: IngressSpec)
    ensures var paths := IngressPaths(site, ingress);
            && (exists p :: p in paths && p.path == ingress.path && p.port == 80)
            && (FileBrowserOn(site.spec) <==> exists p :: p in paths && p.path == "/filebrowser" && p.port == 8080)
  {
    var paths := IngressPaths(site, ingress);
    assert paths[0] in paths && paths[0].path == ingress.path && paths[0].port == 80;
    if FileBrowserOn(site.spec) {
      assert paths[1] in paths && paths[1].path == "/filebrowser" && paths[1].port == 8080;
    }
  }

  lemma TlsIs(site: Site, ingress: IngressSpec)
    ensures var tls := IngressTls(site, ingress);
            && (ingress.tls == Some(true) <==> exists t :: t in tls && site.spec.domain in t.hosts)
            && (forall t :: t in tls ==> t.secretName == site.id.name + "-tls")
  {
    var tls := IngressTls(site, ingress);
    if ingress.tls == Some(true) {
      assert tls[0] in tls && tls[0].hosts[0] == site.spec.domain;
    }
  }

  lemma IngressFields(job: Job, x: Option<Object>)
    requires Settled(job, IngressPart, x) && IngressOn(job.site.spec)
    ensures x.Some? && x.value.body.IngressBody?
    ensures var ingress := job.site.spec.ingress.value;
            && x.value.body.host == job.site.spec.domain && x.value.body.annotations == ingress.annotations
            && x.value.body.paths == IngressPaths(job.site, ingress) && x.value.body.tls == IngressTls(job.site, ingress)
  {
  }

  lemma IngressIs(job: Job, x: Option<Object>)
    requires Settled(job, IngressPart, x) && IngressOn(job.site.spec)
    ensures IngressAsAsked(x, job.site.id, job.site.spec)
  {
    IngressFields(job, x);
    PathsAre(job.site, job.site.spec.ingress.value);
    TlsIs(job.site, job.site.spec.ingress.value);
  }

  lemma HomesAgree(envs: seq<EnvVar>, a: string, b: string)
    requires IsText(envs, "WP_HOME", a) && IsText(envs, "WP_HOME", b)
    ensures a == b
  {
    assert EnvVar("WP_HOME", Plain(a)) in envs && EnvVar("WP_HOME", Plain(b)) in envs;
  }

  lemma PhpIs(job: Job, x: Option<Object>)
    requires Settled(job, DeploymentPart, x)
    ensures PhpKnows(x, job.site.spec)
  {
    var spec, env := job.site.spec, PhpEnvs(job.site);
    var home := (if TlsAsked(spec) then "https://" else "http://") + spec.domain;
    DeploymentSettled(job, x);
    PhpEnvsFirst(job.site);
    AddressIs(job.site);
    assert IsText(env, "WP_HOME", home);
    SchemeIs(spec, home);
    forall other | IsText(env, "WP_HOME", other)
      ensures other == home
    {
      HomesAgree(env, other, home);
    }
  }

  lemma SchemeIs(spec: SiteSpec, home: string)
    requires home == (if TlsAsked(spec) then "https://" else "http://") + spec.domain
    ensures TlsAsked(spec) <==> "https://" <= home
  {
    if !TlsAsked(spec) {
      assert home[4] == ':' && "https://"[4] == 's';
    }
  }

  lemma TextIs(spec: SiteSpec)
    ensures TextKnows(NginxConfig.NginxContent(spec), spec)
  {
    assert NginxConfig.HTTPS_ON == "fastcgi_param HTTPS on;";
    assert NginxConfig.ExtraConfig(spec) == UserConfig(spec) && (TlsOn(spec) <==> TlsAsked(spec));
    NginxConfig.HttpsParameter(spec);
    NginxConfig.PortsWritten(spec);
  }

  lemma NginxFields(job: Job, x: Option<Object>)
    requires Settled(job, NginxPart, x)
    ensures x.Some? && x.value.body == ConfigMapBody(map["default.conf" := NginxConfig.NginxContent(job.site.spec)])
  {
  }

  lemma NginxIs(job: Job, x: Option<Object>)
    requires Settled(job, NginxPart, x)
    ensures NginxKnows(x, job.site.spec)
  {
    NginxFields(job, x);
    TextIs(job.site.spec);
  }

  /**
   * In every single-worker run, once through a job with ingress on, Ingress, PHP and nginx agree on TLS: the Ingress
   * has an entry for its host exactly when WP_HOME is https and nginx says HTTPS on of its own, which is exactly
   * when the spec asks for TLS; and nginx listens and passes on at the ports of the containers.
   */
  lemma TlsIsAsAsked(s: State, events: seq<Event>, id: SiteId, tid: nat, job: Job)
    requires AllSound(s) && OneWorker(s, id, tid) && AllOrderly(events, id, tid, WEB)
    requires Through(s, events, id, tid, job) && IngressOn(job.site.spec)
    ensures TlsAgrees(Run(s, events).world, id, job.site.spec)
  {
    var w := Run(s, events).world;
    ThroughAllSettled(s, events, id, tid, job, WEB);
    IngressIs(job, Stored(w, job, IngressPart));
    PhpIs(job, Stored(w, job, DeploymentPart));
    NginxIs(job, Stored(w, job, NginxPart));
  }

  // ---- The claim ----

  /** The claim's class is the Site's own choice when it was created, or else the manager's default then. */
  predicate ClassChosen(class_: Option<string>, spec: SiteSpec, cfg: OperatorConfig) {
    var own := if spec.persistence.Some? then spec.persistence.value.storageClassName else None;
    class_ == if own.Some? then own else if cfg.defaultStorageClassName == "" then None else Some(cfg.defaultStorageClassName)
  }

  /** In every single-worker run, once through a job that keeps a claim: its class, size and access modes. */
  lemma ClaimIsAsAsked(s: State, events: seq<Event>, id: SiteId, tid: nat, job: Job)
    requires AllSound(s) && OneWorker(s, id, tid) && AllOrderly(events, id, tid, {PvcPart})
    requires Current(s.world, KeyOf(id, PvcPart)).None?
    requires Through(s, events, id, tid, job) && OwnClaim(job.site.spec)
    ensures var x, writers := Current(Run(s, events).world, KeyOf(id, PvcPart)), Writers(s, events, id, PvcPart);
            && x.Some? && x.value.body.PvcBody? && |writers| > 0
            && ClassChosen(x.value.body.storageClass, writers[0].site.spec, writers[0].cfg)
            && x.value.body.requests == map["storage" := ImageOr(job.site.spec.persistence.value.size, "1Gi")]
            && x.value.body.accessModes == ["ReadWriteOnce"]
  {
    StorageClassIsTheFirst(s, events, id, tid, job);
    RunGrows(s, events, id, PvcPart);
  }

  // ---- Selectors across Sites ----

  /** What an object selects pods by, if it does. */
  function SelectorOf(x: Option<Object>): Option<map<string, string>> {
    if x.None? then None
    else match x.value.body
         case ServiceBody(_, selector, _) => Some(selector)
         case DeploymentBody(_, pods, _, _) => Some(pods.selector)
         case _ => None
  }

  function PodsOf(x: Option<Object>): Option<map<string, string>> {
    if x.Some? && x.value.body.DeploymentBody? then Some(x.value.body.deployment.podLabels) else None
  }

  /** The first object selects the pods of the second. */
  predicate SelectsPods(x: Option<Object>, deploy: Option<Object>) {
    SelectorOf(x).Some? && PodsOf(deploy).Some? && Includes(SelectorOf(x).value, PodsOf(deploy).value)
  }

  lemma GrownSelector(x: Option<Object>, writers: seq<Job>, id: SiteId, part: Part)
    requires (part == ServicePart || part == DeploymentPart) && Grown(x, writers, id, part) && x.Some?
    ensures SelectorOf(x) == Some(map["app" := id.name])
    ensures part == DeploymentPart ==> PodsOf(x) == Some(map["app" := id.name])
  {
  }

  lemma NamesTell(a: string, b: string)
    ensures Includes(map["app" := a], map["app" := b]) <==> a == b
  {
    assert "app" in map["app" := a];
    if a == b {
    } else {
      assert map["app" := a]["app"] != map["app" := b]["app"];
    }
  }

  /**
   * In every run of any threads, for any two Sites in a namespace whose Service and Deployments were absent at
   * first: a stored Service or Deployment of the one selects the stored pods of the other exactly when they are the
   * same Site.
   */
  lemma SelectorsApart(s: State, events: seq<Event>, a: SiteId, part: Part, b: SiteId)
    requires AllSound(s) && (part == ServicePart || part == DeploymentPart) && a.ns == b.ns
    requires Current(s.world, KeyOf(a, part)).None? && Current(s.world, KeyOf(b, DeploymentPart)).None?
    requires forall i :: 0 <= i < |events| ==>
               !(events[i].Meddle? && (events[i].key == KeyOf(a, part) || events[i].key == KeyOf(b, DeploymentPart)))
    ensures var x, y := Current(Run(s, events).world, KeyOf(a, part)), Current(Run(s, events).world, KeyOf(b, DeploymentPart));
            x.Some? && y.Some? ==> (SelectsPods(x, y) <==> a == b)
  {
    var x, y := Current(Run(s, events).world, KeyOf(a, part)), Current(Run(s, events).world, KeyOf(b, DeploymentPart));
    RunGrows(s, events, a, part);
    RunGrows(s, events, b, DeploymentPart);
    if x.Some? && y.Some? {
      GrownSelector(x, Writers(s, events, a, part), a, part);
      GrownSelector(y, Writers(s, events, b, DeploymentPart), b, DeploymentPart);
      NamesTell(a.name, b.name);
    }
  }
}
