/** The mutate functions, as the reconciler runs them: closures that overwrite fields of an object in memory. */
module Drafts {
  import opened Wrappers
  import opened SiteTypes
  import opened Environment
  import opened NginxConfig
  import opened Checksum
  import opened Objects

  /** A mutate closure, named by its object, with the variables it captures. */
  datatype Closure =
    | ForSecret
    | ForDatabase(ref: MariaDBRef)
    | ForUser(ref: MariaDBRef, username: string)
    | ForGrant(ref: MariaDBRef, username: string)
    | ForConfigMap(part: Part, file: string, content: string)
    | ForDeployment(labels: map<string, string>, envs: seq<EnvVar>, configHash: Digest)
    | ForService(labels: map<string, string>)
    | ForIngress(labels: map<string, string>)
    | ForClaim(size: string, storageClassName: Option<string>)

  /** The closure belongs to the part, and the values it captured are those the job calls for. */
  predicate Captures(f: Closure, job: Job, part: Part) {
    var site := job.site;
    match f
    case ForSecret => part == SecretPart
    case ForDatabase(ref) => part == DatabasePart && ref == ObjectRef(job)
    case ForUser(ref, username) => part == UserPart && ref == ObjectRef(job) && username == ProvisionedUsername(site.id)
    case ForGrant(ref, username) => part == GrantPart && ref == ObjectRef(job) && username == ProvisionedUsername(site.id)
    case ForConfigMap(p, file, content) =>
      && part == p && (part == NginxPart || part == PhpPart)
      && file == (if part == NginxPart then "default.conf" else PHP_INI)
      && content == (if part == NginxPart then NginxContent(site.spec) else PhpIniContent(site.spec))
    case ForDeployment(labels, envs, configHash) =>
      part == DeploymentPart && labels == Labels(site.id) && envs == PhpEnvs(site) && configHash == ConfigHash(site.spec)
    case ForService(labels) => part == ServicePart && labels == Labels(site.id)
    case ForIngress(labels) => part == IngressPart && labels == Labels(site.id) && IngressOn(site.spec)
    case ForClaim(size, class_) =>
      part == PvcPart && size == ClaimSize(site.spec) && class_ == WantedStorageClass(job) && OwnClaim(site.spec)
  }

  const BLANK_PODS := DeploymentSpec(0, "", map[], map[], Sha256(""), map[], [], [], [])

  /** The empty object a read decodes into. */
  function Blank(part: Part): Body {
    match part
    case SecretPart => SecretBody(map[])
    case DatabasePart => DatabaseBody(MariaDBRef("", "", false), "")
    case UserPart => UserBody(MariaDBRef("", "", false), "", SecretKeyRef("", ""))
    case GrantPart => GrantBody(MariaDBRef("", "", false), [], "", "", "")
    case NginxPart => ConfigMapBody(map[])
    case PhpPart => ConfigMapBody(map[])
    case DeploymentPart => DeploymentBody(map[], BLANK_PODS, 0, NO_STATUS)
    case ServicePart => ServiceBody(map[], map[], [])
    case IngressPart => IngressBody(map[], map[], None, "", [], [])
    case PvcPart => PvcBody(map[], [], map[], None)
  }

  function Decoded(read: Option<Object>, part: Part): Body {
    if read.Some? && OfType(read.value.body, part) then read.value.body else Blank(part)
  }

  lemma ConfigMapDesired(f: Closure, job: Job, part: Part, x: Option<Object>)
    requires f.ForConfigMap? && Captures(f, job, part)
    ensures Desired(job, part, x) == ConfigMapBody(map[f.file := f.content]) && !LosesDefaults(part)
  {
  }

  lemma OneMoreKey(secrets: map<string, string>, done: set<string>, key: string, draw: string -> string)
    ensures var before, after := WithKeys(secrets, done, draw), WithKeys(secrets, done + {key}, draw);
            after == if key in before then before else before[key := draw(key)]
  {
  }

  lemma NoMoreKeys(secrets: map<string, string>, draw: string -> string)
    ensures WithKeys(secrets, {}, draw) == secrets
  {
  }

  /** A mutable object in memory. */
  class Draft {
    const created: bool               // its creation timestamp is set
    var controller: Option<Owner>
    var defaulted: bool
    var body: Body

    constructor (read: Option<Object>, part: Part)
      ensures created == read.Some? && body == Decoded(read, part)
      ensures controller == (if read.Some? then read.value.controller else None)
      ensures defaulted == (read.Some? && read.value.defaulted)
    {
      created := read.Some?;
      controller := if read.Some? then read.value.controller else None;
      defaulted := read.Some? && read.value.defaulted;
      body := Decoded(read, part);
    }

    /** Put a random value under a key that has none. */
    method EnsureKey(key: string, draw: string -> string, ghost secrets: map<string, string>, ghost done: set<string>)
      requires body == SecretBody(WithKeys(secrets, done, draw))
      modifies this`body
      ensures body == SecretBody(WithKeys(secrets, done + {key}, draw))
    {
      OneMoreKey(secrets, done, key, draw);
      if key !in body.secrets {
        body := SecretBody(body.secrets[key := draw(key)]);
      }
    }

    /** Every key the spec calls for is there afterwards, and no key that was there has changed. */
    method FillSecret(spec: SiteSpec, draw: string -> string)
      requires body.SecretBody?
      modifies this`body
      ensures body == SecretBody(WithKeys(old(body.secrets), WantedKeys(spec), draw))
    {
      ghost var secrets := body.secrets;
      FillSalts(draw);
      ghost var done := set s | s in SALTS;
      if ProvisionEnabled(spec) {
        EnsureKey(DB_PASSWORD, draw, secrets, done);
      }
      assert done + {} == done;
      done := done + ProvisionKeys(spec);
      FillPasswords(spec, draw, secrets, done);
    }

    method FillPasswords(spec: SiteSpec, draw: string -> string, ghost secrets: map<string, string>, ghost done: set<string>)
      requires body == SecretBody(WithKeys(secrets, done, draw))
      modifies this`body
      ensures body == SecretBody(WithKeys(secrets, done + AdminKeys(spec) + FileBrowserKeys(spec), draw))
    {
      assert done + {} == done;
      if spec.wordpress.Some? && spec.wordpress.value.install.Some? {
        var install := spec.wordpress.value.install.value;
        if install.adminPasswordSecret.None? && install.adminPassword.None? {
          EnsureKey(ADMIN_PASSWORD, draw, secrets, done);
        }
      }
      ghost var more := done + AdminKeys(spec);
      assert more + {} == more;
      if spec.fileBrowser.Some? && spec.fileBrowser.value.enabled {
        EnsureKey(FB_PASSWORD, draw, secrets, more);
      }
    }

    method FillSalts(draw: string -> string)
      requires body.SecretBody?
      modifies this`body
      ensures body == SecretBody(WithKeys(old(body.secrets), (set s | s in SALTS), draw))
    {
      ghost var secrets := body.secrets;
      ghost var done: set<string> := {};
      NoMoreKeys(secrets, draw);
      for i := 0 to |SALTS|
        invariant done == set s | s in SALTS[..i]
        invariant body == SecretBody(WithKeys(secrets, done, draw))
      {
        EnsureKey(SALTS[i], draw, secrets, done);
        done := done + {SALTS[i]};
      }
      assert done == set s | s in SALTS;
    }

    method BuildContainers(site: Site, envs: seq<EnvVar>) returns (containers: seq<Container>)
      ensures envs == PhpEnvs(site) ==> containers == Containers(site)
    {
      containers := [PhpFpmContainer(site).(env := envs), NginxContainer(site)];
      if site.spec.fileBrowser.Some? && site.spec.fileBrowser.value.enabled {
        containers := containers + [FileBrowserContainer(site)];
      }
    }

    /** The whole spec is replaced; revision and status, which the server keeps, are as read. */
    method FillDeployment(site: Site, labels: map<string, string>, envs: seq<EnvVar>, configHash: Digest)
      requires body.DeploymentBody?
      requires labels == Labels(site.id) && envs == PhpEnvs(site) && configHash == ConfigHash(site.spec)
      modifies this`body, this`defaulted
      ensures !defaulted && body == DeploymentBody(Labels(site.id), BuildDeploymentSpec(site), old(body.revision), old(body.status))
    {
      body := DeploymentBody(labels, body.deployment, body.revision, body.status);
      var containers := BuildContainers(site, envs);
      body := body.(deployment := DeploymentSpec(1, StrategyType(site.spec), labels, labels, configHash, site.spec.nodeSelector,
                                                 Volumes(site), [WPInitContainer(site)], containers));
      defaulted := false;
    }

    method FillService(site: Site, labels: map<string, string>)
      requires body.ServiceBody? && labels == Labels(site.id)
      modifies this`body, this`defaulted
      ensures !defaulted && body == ServiceBody(Labels(site.id), Labels(site.id), ServicePorts(site.spec))
    {
      body := ServiceBody(labels, body.selector, body.ports);
      body := body.(selector := labels);
      var ports := [ServicePort("http", 80, 80)];
      if site.spec.fileBrowser.Some? && site.spec.fileBrowser.value.enabled {
        ports := ports + [ServicePort("filebrowser", 8080, 8080)];
      }
      body := body.(ports := ports);
      defaulted := false;
    }

    /** Everything is replaced but the class, which is only overwritten by another. */
    method FillIngress(site: Site, labels: map<string, string>)
      requires body.IngressBody? && labels == Labels(site.id) && IngressOn(site.spec)
      modifies this`body, this`defaulted
      ensures var ingress := site.spec.ingress.value;
              !defaulted
              && body == IngressBody(Labels(site.id), ingress.annotations,
                                     if ingress.ingressClassName != "" then Some(ingress.ingressClassName) else old(body.className),
                                     site.spec.domain, IngressPaths(site, ingress), IngressTls(site, ingress))
    {
      var ingress := site.spec.ingress.value;
      body := IngressBody(labels, body.annotations, body.className, body.host, body.paths, body.tls);
      body := body.(annotations := ingress.annotations);
      if ingress.ingressClassName != "" {
        body := body.(className := Some(ingress.ingressClassName));
      }
      var paths := [IngressPath(ingress.path, site.id.name, 80)];
      if site.spec.fileBrowser.Some? && site.spec.fileBrowser.value.enabled {
        paths := paths + [IngressPath("/filebrowser", site.id.name, 8080)];
      }
      body := body.(host := site.spec.domain, paths := paths);
      if ingress.tls.Some? && ingress.tls.value {
        body := body.(tls := [IngressTLS([site.spec.domain], site.id.name + "-tls")]);
      } else {
        body := body.(tls := []);
      }
      defaulted := false;
    }

    /** Access modes and class are set on a new claim only; the size always. */
    method FillClaim(id: SiteId, size: string, storageClassName: Option<string>)
      requires body.PvcBody?
      modifies this`body
      ensures body == PvcBody(Labels(id), if created then old(body.accessModes) else ["ReadWriteOnce"],
                              old(body.requests)["storage" := size],
                              if !created && storageClassName.Some? then storageClassName else old(body.storageClass))
    {
      body := PvcBody(map["app" := id.name], body.accessModes, body.requests, body.storageClass);
      if !created {
        body := body.(accessModes := ["ReadWriteOnce"]);
      }
      body := body.(requests := body.requests["storage" := size]);
      if !created && storageClassName.Some? {
        body := body.(storageClass := storageClassName);
      }
    }

    /** Refused if another controller is set already. */
    method SetControllerReference(owner: SiteId) returns (error: Option<Error>)
      modifies this`controller
      ensures error == if old(controller).Some? && old(controller) != Some(SiteOwner(owner)) then Some(AlreadyOwned) else None
      ensures controller == if error.None? then Some(SiteOwner(owner)) else old(controller)
    {
      if controller.Some? && controller != Some(SiteOwner(owner)) {
        return Some(AlreadyOwned);
      }
      controller := Some(SiteOwner(owner));
      return None;
    }

    method FillMariaDB(f: Closure, job: Job, ghost part: Part, ghost read: Option<Object>)
      requires f.ForDatabase? || f.ForUser? || f.ForGrant?
      requires Captures(f, job, part)
      modifies this`body
      ensures body == Desired(job, part, read) && !LosesDefaults(part)
    {
      var site := job.site;
      match f
      case ForDatabase(ref) => body := DatabaseBody(ref, site.spec.database.name);
      case ForUser(ref, username) =>
        body := UserBody(ref, username, SecretKeyRef(site.id.name + "-site-secret", DB_PASSWORD));
      case ForGrant(ref, username) =>
        body := GrantBody(ref, ["ALL PRIVILEGES"], site.spec.database.name, "*", username);
    }

    method FillConfig(f: Closure, job: Job, part: Part, ghost read: Option<Object>)
      requires f.ForConfigMap? || f.ForDeployment?
      requires Captures(f, job, part) && body == Decoded(read, part)
      modifies this`body, this`defaulted
      ensures body == Desired(job, part, read) && defaulted == (old(defaulted) && !LosesDefaults(part))
    {
      match f
      case ForConfigMap(_, file, content) =>
        ConfigMapDesired(f, job, part, read);
        body := ConfigMapBody(map[file := content]);
      case ForDeployment(labels, envs, configHash) => FillDeployment(job.site, labels, envs, configHash);
    }

    method FillNetwork(f: Closure, job: Job, part: Part, ghost read: Option<Object>)
      requires f.ForService? || f.ForIngress? || f.ForClaim?
      requires Captures(f, job, part) && created == read.Some? && body == Decoded(read, part)
      modifies this`body, this`defaulted
      ensures body == Desired(job, part, read) && defaulted == (old(defaulted) && !LosesDefaults(part))
    {
      match f
      case ForService(labels) => FillService(job.site, labels);
      case ForIngress(labels) => FillIngress(job.site, labels);
      case ForClaim(size, storageClassName) => FillClaim(job.site.id, size, storageClassName);
    }

    method Fill(f: Closure, job: Job, part: Part, ghost read: Option<Object>)
      requires Captures(f, job, part) && created == read.Some? && body == Decoded(read, part)
      modifies this`body, this`defaulted
      ensures body == Desired(job, part, read) && defaulted == (old(defaulted) && !LosesDefaults(part))
    {
      if f.ForDatabase? || f.ForUser? || f.ForGrant? {
        FillMariaDB(f, job, part, read);
      } else if f.ForService? || f.ForIngress? || f.ForClaim? {
        FillNetwork(f, job, part, read);
      } else if f.ForSecret? {
        FillSecret(job.site.spec, job.draw);
      } else {
        FillConfig(f, job, part, read);
      }
    }

    /** The mutate function: fields in memory first, then the controller reference. */
    method Mutate(f: Closure, job: Job, part: Part, ghost read: Option<Object>) returns (error: Option<Error>)
      requires Captures(f, job, part) && created == read.Some? && body == Decoded(read, part)
      requires controller == (if read.Some? then read.value.controller else None)
      requires defaulted == (read.Some? && read.value.defaulted)
      modifies this
      ensures Objects.Mutate(job, part, read)
              == if error.Some? then Failure(error.value) else Success(Object(controller, defaulted, body))
    {
      Fill(f, job, part, read);
      error := SetControllerReference(job.site.id);
    }
  }
}
