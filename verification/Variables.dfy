/** What the php-fpm container reads, variable by variable, in terms of the spec alone. */
module Variables {
  import opened Wrappers
  import opened SiteTypes
  import opened Environment

  // ---- The value of a variable ----

  /** The variable is defined, with that source and no other. */
  ghost predicate Reads(envs: seq<EnvVar>, name: string, source: EnvSource) {
    EnvVar(name, source) in envs && forall e :: e in envs && e.name == name ==> e.source == source
  }

  ghost predicate IsText(envs: seq<EnvVar>, name: string, value: string) {
    Reads(envs, name, Plain(value))
  }

  lemma ReadsOnce(envs: seq<EnvVar>, e: EnvVar)
    requires Distinct(Names(envs)) && e in envs
    ensures Reads(envs, e.name, e.source)
  {
    var i :| 0 <= i < |envs| && envs[i] == e;
    forall other | other in envs && other.name == e.name
      ensures other.source == e.source
    {
      var j :| 0 <= j < |envs| && envs[j] == other;
      assert Names(envs)[i] == Names(envs)[j];
    }
  }

  lemma PhpReads(site: Site, e: EnvVar)
    requires e in BaseEnvs(site) || e in DatabaseEnvs(site)
             || (Install(site.spec).Some? && e in InstallEnvs(site, Install(site.spec).value))
    ensures Reads(PhpEnvs(site), e.name, e.source)
  {
    NeverTwice(site);
    assert e in PhpEnvs(site);
    ReadsOnce(PhpEnvs(site), e);
  }

  predicate DebugFlag(spec: SiteSpec, flag: DebugSpec -> bool) {
    spec.wordpress.Some? && spec.wordpress.value.debug.Some? && flag(spec.wordpress.value.debug.value)
  }

  function TrueOrFalse(b: bool): string {
    if b then "true" else "false"
  }

  /** The address of the Site is https exactly when the tls flag is set. */
  ghost predicate AddressSaid(envs: seq<EnvVar>, spec: SiteSpec) {
    var scheme := if spec.ingress.Some? && spec.ingress.value.tls == Some(true) then "https://" else "http://";
    IsText(envs, "WP_HOME", scheme + spec.domain) && IsText(envs, "WP_SITEURL", scheme + spec.domain)
  }

  ghost predicate DebugSaid(envs: seq<EnvVar>, spec: SiteSpec) {
    && IsText(envs, "WP_DEBUG", TrueOrFalse(DebugFlag(spec, (d: DebugSpec) => d.enabled)))
    && IsText(envs, "WP_DEBUG_LOG", TrueOrFalse(DebugFlag(spec, (d: DebugSpec) => d.log)))
    && IsText(envs, "WP_DEBUG_DISPLAY", TrueOrFalse(DebugFlag(spec, (d: DebugSpec) => d.display)))
  }

  /** Where the database is, and the user's own credentials, references first, unless one is provisioned. */
  ghost predicate DatabaseSaid(envs: seq<EnvVar>, id: SiteId, spec: SiteSpec) {
    var db := spec.database;
    && IsText(envs, "DB_HOST", db.host) && IsText(envs, "DB_NAME", db.name)
    && (ProvisionEnabled(spec) ==> IsText(envs, "DB_USER", "site_" + if |id.name| > 27 then id.name[..27] else id.name))
    && (!ProvisionEnabled(spec) ==>
          && (db.userSecret.Some? ==> Reads(envs, "DB_USER", FromSecret(db.userSecret.value)))
          && (db.userSecret.None? && db.user.Some? ==> IsText(envs, "DB_USER", db.user.value))
          && (db.passwordSecret.Some? ==> Reads(envs, "DB_PASSWORD", FromSecret(db.passwordSecret.value)))
          && (db.passwordSecret.None? && db.password.Some? ==> IsText(envs, "DB_PASSWORD", db.password.value)))
  }

  /** What the installation is told, if one is asked for. */
  ghost predicate InstallSaid(envs: seq<EnvVar>, id: SiteId, spec: SiteSpec) {
    spec.wordpress.Some? && spec.wordpress.value.install.Some? ==>
      var install := spec.wordpress.value.install.value;
      && IsText(envs, "WP_INSTALL", "true")
      && IsText(envs, "WP_ADMIN_USER", install.adminUser) && IsText(envs, "WP_ADMIN_EMAIL", install.adminEmail)
      && IsText(envs, "WP_TITLE", if install.title == "" then id.name else install.title)
      && (install.adminPasswordSecret.Some? ==> Reads(envs, "WP_ADMIN_PASSWORD", FromSecret(install.adminPasswordSecret.value)))
      && (install.adminPasswordSecret.None? && install.adminPassword.Some? ==>
            IsText(envs, "WP_ADMIN_PASSWORD", install.adminPassword.value))
  }

  lemma BaseHead(site: Site)
    ensures var envs := BaseEnvs(site);
            && EnvVar("WP_HOME", Plain(Home(site.spec))) in envs && EnvVar("WP_SITEURL", Plain(Home(site.spec))) in envs
            && EnvVar("WP_DEBUG", Plain(TrueOrFalse(DebugFlag(site.spec, (d: DebugSpec) => d.enabled)))) in envs
            && EnvVar("WP_DEBUG_LOG", Plain(TrueOrFalse(DebugFlag(site.spec, (d: DebugSpec) => d.log)))) in envs
            && EnvVar("WP_DEBUG_DISPLAY", Plain(TrueOrFalse(DebugFlag(site.spec, (d: DebugSpec) => d.display)))) in envs
  {
    var envs := BaseEnvs(site);
    assert envs[0] in envs && envs[1] in envs && envs[2] in envs && envs[3] in envs && envs[4] in envs;
  }

  lemma BaseReads(site: Site, name: string, value: string)
    requires EnvVar(name, Plain(value)) in BaseEnvs(site)
    ensures IsText(PhpEnvs(site), name, value)
  {
    PhpReads(site, EnvVar(name, Plain(value)));
  }

  lemma HomeIs(spec: SiteSpec)
    ensures Home(spec) == (if spec.ingress.Some? && spec.ingress.value.tls == Some(true) then "https://" else "http://") + spec.domain
  {
    assert "https" + "://" == "https://" && "http" + "://" == "http://";
  }

  lemma AddressIs(site: Site)
    ensures AddressSaid(PhpEnvs(site), site.spec)
  {
    BaseHead(site);
    HomeIs(site.spec);
    BaseReads(site, "WP_HOME", Home(site.spec));
    BaseReads(site, "WP_SITEURL", Home(site.spec));
  }

  lemma DebugIs(site: Site)
    ensures DebugSaid(PhpEnvs(site), site.spec)
  {
    BaseHead(site);
    BaseReads(site, "WP_DEBUG", TrueOrFalse(DebugFlag(site.spec, (d: DebugSpec) => d.enabled)));
    BaseReads(site, "WP_DEBUG_LOG", TrueOrFalse(DebugFlag(site.spec, (d: DebugSpec) => d.log)));
    BaseReads(site, "WP_DEBUG_DISPLAY", TrueOrFalse(DebugFlag(site.spec, (d: DebugSpec) => d.display)));
  }

  lemma DatabaseIs(site: Site)
    ensures DatabaseSaid(PhpEnvs(site), site.id, site.spec)
  {
    var envs := DatabaseEnvs(site);
    forall i | 0 <= i < |envs|
      ensures Reads(PhpEnvs(site), envs[i].name, envs[i].source)
    {
      PhpReads(site, envs[i]);
    }
    var db := site.spec.database;
    assert envs[0] == EnvVar("DB_HOST", Plain(db.host)) && envs[1] == EnvVar("DB_NAME", Plain(db.name));
    if ProvisionEnabled(site.spec) {
      assert envs[2] == EnvVar(DB_USER, Plain(ProvisionedUsername(site.id)));
    } else {
      var user, password := Credential(DB_USER, db.userSecret, db.user), Credential(DB_PASSWORD, db.passwordSecret, db.password);
      assert envs == [EnvVar("DB_HOST", Plain(db.host)), EnvVar("DB_NAME", Plain(db.name))] + (user + password);
      assert |user| > 0 ==> envs[2] == user[0];
      assert |password| > 0 ==> envs[2 + |user|] == password[0];
    }
  }

  lemma InstallIs(site: Site)
    ensures InstallSaid(PhpEnvs(site), site.id, site.spec)
  {
    if Install(site.spec).Some? {
      var envs := InstallEnvs(site, Install(site.spec).value);
      forall i | 0 <= i < |envs|
        ensures Reads(PhpEnvs(site), envs[i].name, envs[i].source)
      {
        PhpReads(site, envs[i]);
      }
      assert envs[0].name == "WP_INSTALL" && envs[1].name == "WP_ADMIN_USER" && envs[2].name == "WP_ADMIN_EMAIL";
      assert envs[3].name == "WP_TITLE" && envs[4] == AdminPasswordEnv(site, Install(site.spec).value);
    }
  }

  /** Each variable of the container says what the spec asks for, and says it once. */
  ghost predicate AllSaid(envs: seq<EnvVar>, id: SiteId, spec: SiteSpec) {
    AddressSaid(envs, spec) && DebugSaid(envs, spec) && DatabaseSaid(envs, id, spec) && InstallSaid(envs, id, spec)
  }

  lemma EnvironmentSays(site: Site)
    ensures AllSaid(PhpEnvs(site), site.id, site.spec)
  {
    AddressIs(site);
    DebugIs(site);
    DatabaseIs(site);
    InstallIs(site);
  }

  // ---- References that the operator makes up ----

  /** The user wrote the reference into the spec. */
  predicate WrittenByUser(spec: SiteSpec, ref: SecretKeyRef) {
    || (spec.wordpress.Some? && spec.wordpress.value.install.Some?
        && spec.wordpress.value.install.value.adminPasswordSecret == Some(ref))
    || spec.database.userSecret == Some(ref) || spec.database.passwordSecret == Some(ref)
  }

  /** A reference of the operator's own reads the variable's own key, one that is generated for the spec. */
  predicate Generated(site: Site, e: EnvVar) {
    e.source.FromSecret? && !WrittenByUser(site.spec, e.source.ref) ==>
      && e.source.ref.name == SecretName(site.id) && e.source.ref.key == e.name && e.name in WantedKeys(site.spec)
  }

  lemma BaseGenerated(site: Site, e: EnvVar)
    requires e in BaseEnvs(site)
    ensures Generated(site, e)
  {
    BaseEnvsAre(site);
    var i :| 0 <= i < |BaseEnvs(site)| && BaseEnvs(site)[i] == e;
    if i >= 5 {
      assert SALTS[i - 5] in SALTS;
    }
  }

  lemma InstallGenerated(site: Site, e: EnvVar)
    requires Install(site.spec).Some? && e in InstallEnvs(site, Install(site.spec).value)
    ensures Generated(site, e)
  {
  }

  lemma DatabaseGenerated(site: Site, e: EnvVar)
    requires e in DatabaseEnvs(site)
    ensures Generated(site, e)
  {
  }

  lemma FileBrowserGenerated(site: Site, e: EnvVar)
    requires FileBrowserOn(site.spec) && e in FileBrowserEnvs(site)
    ensures Generated(site, e)
  {
  }

  lemma AllGenerated(site: Site, e: EnvVar)
    requires e in AllEnvs(site)
    ensures Generated(site, e)
  {
    if e in BaseEnvs(site) {
      BaseGenerated(site, e);
    } else if e in DatabaseEnvs(site) {
      DatabaseGenerated(site, e);
    } else if FileBrowserOn(site.spec) && e in FileBrowserEnvs(site) {
      FileBrowserGenerated(site, e);
    } else {
      InstallGenerated(site, e);
    }
  }
}
