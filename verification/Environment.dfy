/** Environment variables of the php-fpm container and the keys of the generated Secret. */
module Environment {
  import opened Wrappers
  import opened SiteTypes

  datatype EnvSource = Plain(value: string) | FromSecret(ref: SecretKeyRef)

  datatype EnvVar = EnvVar(name: string, source: EnvSource)

  const DB_USER := "DB_USER"
  const DB_PASSWORD := "DB_PASSWORD"
  const ADMIN_PASSWORD := "ADMIN_PASSWORD"
  const WP_ADMIN_PASSWORD := "WP_ADMIN_PASSWORD"
  const FB_PASSWORD := "FB_PASSWORD"

  const SALTS: seq<string> := [
    "AUTH_KEY", "SECURE_AUTH_KEY", "LOGGED_IN_KEY", "NONCE_KEY",
    "AUTH_SALT", "SECURE_AUTH_SALT", "LOGGED_IN_SALT", "NONCE_SALT"]

  function SecretName(id: SiteId): string {
    id.name + "-site-secret"
  }

  function SecretEnv(id: SiteId, name: string): EnvVar {
    EnvVar(name, FromSecret(SecretKeyRef(SecretName(id), name)))
  }

  function ProvisionedUsername(id: SiteId): string {
    "site_" + if |id.name| > 27 then id.name[..27] else id.name
  }

  /** MariaDB accepts every derived user name, and two Sites share one iff their first 27 characters agree. */
  lemma UsernamesFitAndCollide(a: SiteId, b: SiteId)
    ensures |ProvisionedUsername(a)| <= 32
    ensures ProvisionedUsername(a) == ProvisionedUsername(b)
       <==> (if |a.name| > 27 then a.name[..27] else a.name) == (if |b.name| > 27 then b.name[..27] else b.name)
  {
    assert ProvisionedUsername(a)[5..] == if |a.name| > 27 then a.name[..27] else a.name;
    assert ProvisionedUsername(b)[5..] == if |b.name| > 27 then b.name[..27] else b.name;
  }

  function FormatBool(b: bool): string {
    if b then "true" else "false"
  }

  function Home(spec: SiteSpec): string {
    (if TlsOn(spec) then "https" else "http") + "://" + spec.domain
  }

  predicate DebugSet(spec: SiteSpec, flag: DebugSpec -> bool) {
    spec.wordpress.Some? && spec.wordpress.value.debug.Some? && flag(spec.wordpress.value.debug.value)
  }

  function Install(spec: SiteSpec): Option<InstallSpec> {
    if spec.wordpress.Some? then spec.wordpress.value.install else None
  }

  function BaseEnvs(site: Site): seq<EnvVar> {
    [ EnvVar("WP_HOME", Plain(Home(site.spec))),
      EnvVar("WP_SITEURL", Plain(Home(site.spec))),
      EnvVar("WP_DEBUG", Plain(FormatBool(DebugSet(site.spec, (d: DebugSpec) => d.enabled)))),
      EnvVar("WP_DEBUG_LOG", Plain(FormatBool(DebugSet(site.spec, (d: DebugSpec) => d.log)))),
      EnvVar("WP_DEBUG_DISPLAY", Plain(FormatBool(DebugSet(site.spec, (d: DebugSpec) => d.display)))),
      SecretEnv(site.id, "AUTH_KEY"), SecretEnv(site.id, "SECURE_AUTH_KEY"),
      SecretEnv(site.id, "LOGGED_IN_KEY"), SecretEnv(site.id, "NONCE_KEY"),
      SecretEnv(site.id, "AUTH_SALT"), SecretEnv(site.id, "SECURE_AUTH_SALT"),
      SecretEnv(site.id, "LOGGED_IN_SALT"), SecretEnv(site.id, "NONCE_SALT") ]
  }

  function AdminPasswordEnv(site: Site, install: InstallSpec): EnvVar {
    if install.adminPasswordSecret.Some? then EnvVar(WP_ADMIN_PASSWORD, FromSecret(install.adminPasswordSecret.value))
    else if install.adminPassword.Some? then EnvVar(WP_ADMIN_PASSWORD, Plain(install.adminPassword.value))
    else SecretEnv(site.id, ADMIN_PASSWORD)
  }

  function InstallEnvs(site: Site, install: InstallSpec): seq<EnvVar> {
    [ EnvVar("WP_INSTALL", Plain("true")),
      EnvVar("WP_ADMIN_USER", Plain(install.adminUser)),
      EnvVar("WP_ADMIN_EMAIL", Plain(install.adminEmail)),
      EnvVar("WP_TITLE", Plain(if install.title == "" then site.id.name else install.title)),
      AdminPasswordEnv(site, install) ]
  }

  function WPEnvs(site: Site): seq<EnvVar> {
    BaseEnvs(site) + if Install(site.spec).Some? then InstallEnvs(site, Install(site.spec).value) else []
  }

  /** A credential given by reference wins over one given in plain text. */
  function Credential(name: string, secret: Option<SecretKeyRef>, plain: Option<string>): seq<EnvVar> {
    if secret.Some? then [EnvVar(name, FromSecret(secret.value))]
    else if plain.Some? then [EnvVar(name, Plain(plain.value))]
    else []
  }

  function DatabaseEnvs(site: Site): seq<EnvVar> {
    var db := site.spec.database;
    [EnvVar("DB_HOST", Plain(db.host)), EnvVar("DB_NAME", Plain(db.name))]
    + if ProvisionEnabled(site.spec) then
        [EnvVar(DB_USER, Plain(ProvisionedUsername(site.id))), SecretEnv(site.id, DB_PASSWORD)]
      else
        Credential(DB_USER, db.userSecret, db.user) + Credential(DB_PASSWORD, db.passwordSecret, db.password)
  }

  function PhpEnvs(site: Site): seq<EnvVar> {
    WPEnvs(site) + DatabaseEnvs(site)
  }

  /** The builders as the source writes them: slices grown by guarded appends. */
  method BuildWPEnvs(site: Site) returns (envs: seq<EnvVar>)
    ensures envs == WPEnvs(site)
  {
    var scheme := "http";
    if site.spec.ingress.Some? && site.spec.ingress.value.tls.Some? {
      if site.spec.ingress.value.tls.value {
        scheme := "https";
      }
    }
    var debug, log, display := false, false, false;
    if site.spec.wordpress.Some? && site.spec.wordpress.value.debug.Some? {
      var flags := site.spec.wordpress.value.debug.value;
      debug, log, display := flags.enabled, flags.log, flags.display;
    }
    envs := [
      EnvVar("WP_HOME", Plain(scheme + "://" + site.spec.domain)),
      EnvVar("WP_SITEURL", Plain(scheme + "://" + site.spec.domain)),
      EnvVar("WP_DEBUG", Plain(FormatBool(debug))),
      EnvVar("WP_DEBUG_LOG", Plain(FormatBool(log))),
      EnvVar("WP_DEBUG_DISPLAY", Plain(FormatBool(display))),
      SecretEnv(site.id, "AUTH_KEY"), SecretEnv(site.id, "SECURE_AUTH_KEY"),
      SecretEnv(site.id, "LOGGED_IN_KEY"), SecretEnv(site.id, "NONCE_KEY"),
      SecretEnv(site.id, "AUTH_SALT"), SecretEnv(site.id, "SECURE_AUTH_SALT"),
      SecretEnv(site.id, "LOGGED_IN_SALT"), SecretEnv(site.id, "NONCE_SALT")];
    assert envs == BaseEnvs(site);
    if site.spec.wordpress.Some? && site.spec.wordpress.value.install.Some? {
      var install := site.spec.wordpress.value.install.value;
      envs := envs + [EnvVar("WP_INSTALL", Plain("true"))];
      envs := envs + [EnvVar("WP_ADMIN_USER", Plain(install.adminUser))];
      envs := envs + [EnvVar("WP_ADMIN_EMAIL", Plain(install.adminEmail))];
      var title := install.title;
      if title == "" {
        title := site.id.name;
      }
      envs := envs + [EnvVar("WP_TITLE", Plain(title))];
      if install.adminPasswordSecret.Some? {
        envs := envs + [EnvVar(WP_ADMIN_PASSWORD, FromSecret(install.adminPasswordSecret.value))];
      } else if install.adminPassword.Some? {
        envs := envs + [EnvVar(WP_ADMIN_PASSWORD, Plain(install.adminPassword.value))];
      } else {
        envs := envs + [SecretEnv(site.id, ADMIN_PASSWORD)];
      }
    }
  }

  method BuildDatabaseEnvs(site: Site) returns (envs: seq<EnvVar>)
    ensures envs == DatabaseEnvs(site)
  {
    var db := site.spec.database;
    envs := [EnvVar("DB_HOST", Plain(db.host)), EnvVar("DB_NAME", Plain(db.name))];
    if ProvisionEnabled(site.spec) {
      return envs + [EnvVar(DB_USER, Plain(ProvisionedUsername(site.id))), SecretEnv(site.id, DB_PASSWORD)];
    }
    if db.userSecret.Some? {
      envs := envs + [EnvVar(DB_USER, FromSecret(db.userSecret.value))];
    } else if db.user.Some? {
      envs := envs + [EnvVar(DB_USER, Plain(db.user.value))];
    }
    if db.passwordSecret.Some? {
      envs := envs + [EnvVar(DB_PASSWORD, FromSecret(db.passwordSecret.value))];
    } else if db.password.Some? {
      envs := envs + [EnvVar(DB_PASSWORD, Plain(db.password.value))];
    }
  }

  function FileBrowserEnvs(site: Site): seq<EnvVar> {
    [ EnvVar("FB_PORT", Plain("8080")), EnvVar("FB_ROOT", Plain("/var/www/html")),
      EnvVar("FB_DATABASE", Plain("/tmp/filebrowser.db")), EnvVar("FB_BASE_URL", Plain("/filebrowser")),
      EnvVar("FB_ADDRESS", Plain("0.0.0.0")), EnvVar("FB_USERNAME", Plain("admin")),
      SecretEnv(site.id, FB_PASSWORD) ]
  }

  // ---- Variable names ----

  function Names(envs: seq<EnvVar>): seq<string> {
    seq(|envs|, i requires 0 <= i < |envs| => envs[i].name)
  }

  predicate Distinct(names: seq<string>) {
    forall i, j :: 0 <= i < j < |names| ==> names[i] != names[j]
  }

  const WP_NAMES: seq<string> := ["WP_HOME", "WP_SITEURL", "WP_DEBUG", "WP_DEBUG_LOG", "WP_DEBUG_DISPLAY"]
  const INSTALL_NAMES: seq<string> := ["WP_INSTALL", "WP_ADMIN_USER", "WP_ADMIN_EMAIL", "WP_TITLE"]
  const DB_NAMES: seq<string> := ["DB_HOST", "DB_NAME", DB_USER, DB_PASSWORD]

  predicate AllStart(names: seq<string>, c: char) {
    forall n :: n in names ==> n != [] && n[0] == c
  }

  predicate NoneStarts(names: seq<string>, c: char) {
    forall n :: n in names ==> n != [] && n[0] != c
  }

  lemma WPNamesDistinct()
    ensures Distinct(WP_NAMES + INSTALL_NAMES + [WP_ADMIN_PASSWORD])
    ensures AllStart(WP_NAMES + INSTALL_NAMES + [WP_ADMIN_PASSWORD], 'W')
  {
    assert "WP_SITEURL"[3] == 'S' && "WP_INSTALL"[3] == 'I';
    assert "WP_DEBUG"[3] == 'D' && "WP_TITLE"[3] == 'T';
  }

  lemma SaltsDistinct()
    ensures Distinct(SALTS + [ADMIN_PASSWORD])
    ensures NoneStarts(SALTS + [ADMIN_PASSWORD], 'W') && NoneStarts(SALTS + [ADMIN_PASSWORD], 'D')
  {
    assert "AUTH_SALT"[0] == 'A' && "NONCE_KEY"[0] == 'N';
    assert "LOGGED_IN_SALT"[0] == 'L' && ADMIN_PASSWORD[0] == 'A';
  }

  lemma DBNamesDistinct()
    ensures Distinct(DB_NAMES) && AllStart(DB_NAMES, 'D')
  {
    assert "DB_HOST"[3] == 'H' && "DB_NAME"[3] == 'N' && DB_USER[3] == 'U';
  }

  function AdminNames(spec: SiteSpec): seq<string> {
    match Install(spec)
    case None => []
    case Some(install) =>
      [if install.adminPasswordSecret.Some? || install.adminPassword.Some? then WP_ADMIN_PASSWORD else ADMIN_PASSWORD]
  }

  lemma NamesOf(site: Site)
    ensures Names(PhpEnvs(site))
         == WP_NAMES + SALTS + (if Install(site.spec).Some? then INSTALL_NAMES else []) + AdminNames(site.spec)
            + Names(DatabaseEnvs(site))
  {
    assert Names(BaseEnvs(site)) == WP_NAMES + SALTS;
    if Install(site.spec).Some? {
      assert Names(InstallEnvs(site, Install(site.spec).value)) == INSTALL_NAMES + AdminNames(site.spec);
    }
  }

  /** No database variable is defined twice, and for an admitted Site each of them is. */
  lemma DatabaseNames(site: Site)
    ensures Distinct(Names(DatabaseEnvs(site))) && AllStart(Names(DatabaseEnvs(site)), 'D')
    ensures Admitted(site.spec) ==> Names(DatabaseEnvs(site)) == DB_NAMES
  {
    DBNamesDistinct();
    var names := Names(DatabaseEnvs(site));
    assert names == DB_NAMES || names == ["DB_HOST", "DB_NAME"] || names == ["DB_HOST", "DB_NAME", DB_USER]
           || names == ["DB_HOST", "DB_NAME", DB_PASSWORD];
    assert forall n :: n in names ==> n in DB_NAMES;
    assert DB_NAMES[0] != DB_NAMES[1] && DB_NAMES[0] != DB_NAMES[2] && DB_NAMES[0] != DB_NAMES[3];
    assert DB_NAMES[1] != DB_NAMES[2] && DB_NAMES[1] != DB_NAMES[3] && DB_NAMES[2] != DB_NAMES[3];
  }

  /** No variable is defined twice, whatever the spec. */
  lemma NeverTwice(site: Site)
    ensures Distinct(Names(PhpEnvs(site)))
  {
    NamesOf(site);
    WPNamesDistinct();
    SaltsDistinct();
    DatabaseNames(site);
    GroupsDistinct(WP_NAMES, SALTS, INSTALL_NAMES, [WP_ADMIN_PASSWORD], [ADMIN_PASSWORD], Names(DatabaseEnvs(site)));
  }

  /** For an admitted Site no variable is defined twice, and each database variable is defined. */
  lemma EnvironmentCoherent(site: Site)
    requires Admitted(site.spec)
    ensures Distinct(Names(PhpEnvs(site)))
    ensures forall n :: n in DB_NAMES ==> n in Names(PhpEnvs(site))
  {
    NeverTwice(site);
    NamesOf(site);
    DatabaseNames(site);
  }

  lemma GroupsDistinct(wp: seq<string>, salts: seq<string>, install: seq<string>, given: seq<string>,
                       generated: seq<string>, db: seq<string>)
    requires Distinct(wp + install + given) && AllStart(wp + install + given, 'W')
    requires Distinct(salts + generated) && NoneStarts(salts + generated, 'W') && NoneStarts(salts + generated, 'D')
    requires Distinct(db) && AllStart(db, 'D')
    ensures Distinct(wp + salts + [] + [] + db)
    ensures Distinct(wp + salts + install + given + db)
    ensures Distinct(wp + salts + install + generated + db)
  {
    PartsDistinct(wp, install, given);
    assert salts + generated + [] == salts + generated;
    PartsDistinct(salts, generated, []);
    assert forall n :: n in wp || n in install || n in given ==> n in wp + install + given;
    assert forall n :: n in salts || n in generated ==> n in salts + generated;
    assert wp + salts + [] + [] + db == wp + salts + db;
    DistinctJoin(wp, salts);
    DistinctJoin(wp + salts, db);
    DistinctJoin(wp + salts, install);
    DistinctJoin(wp + salts + install, given);
    DistinctJoin(wp + salts + install + given, db);
    DistinctJoin(wp + salts + install, generated);
    DistinctJoin(wp + salts + install + generated, db);
  }

  lemma PartsDistinct(a: seq<string>, b: seq<string>, c: seq<string>)
    requires Distinct(a + b + c)
    ensures Distinct(a) && Distinct(b) && Distinct(c)
    ensures forall n :: n in a ==> n !in b && n !in c
    ensures forall n :: n in b ==> n !in c
  {
    var s := a + b + c;
    assert forall i :: 0 <= i < |a| ==> a[i] == s[i];
    assert forall i :: 0 <= i < |b| ==> b[i] == s[|a| + i];
    assert forall i :: 0 <= i < |c| ==> c[i] == s[|a| + |b| + i];
  }

  lemma DistinctJoin(a: seq<string>, b: seq<string>)
    requires Distinct(a) && Distinct(b) && forall n :: n in a ==> n !in b
    ensures Distinct(a + b)
  {
    var s := a + b;
    forall i, j | 0 <= i < j < |s|
      ensures s[i] != s[j]
    {
      assert s[i] == if i < |a| then a[i] else b[i - |a|];
      assert s[j] == if j < |a| then a[j] else b[j - |a|];
      assert i < |a| ==> a[i] in a;
      assert j >= |a| ==> b[j - |a|] in b;
    }
  }

  /**
   * The start script reads WP_ADMIN_PASSWORD; it is defined exactly when the user supplied a password.
   * The generated password goes to another variable.
   */
  lemma AdminPasswordDefinedIff(site: Site)
    requires Admitted(site.spec)
    ensures WP_ADMIN_PASSWORD in Names(PhpEnvs(site))
       <==> Install(site.spec).Some? && (Install(site.spec).value.adminPasswordSecret.Some?
                                         || Install(site.spec).value.adminPassword.Some?)
  {
    EnvironmentCoherent(site);
    NamesOf(site);
    DatabaseNames(site);
    WPNamesDistinct();
    SaltsDistinct();
    DBNamesDistinct();
    PartsDistinct(WP_NAMES, INSTALL_NAMES, [WP_ADMIN_PASSWORD]);
    assert WP_ADMIN_PASSWORD in [WP_ADMIN_PASSWORD];
    assert WP_ADMIN_PASSWORD in WP_NAMES + INSTALL_NAMES + [WP_ADMIN_PASSWORD];
    assert ADMIN_PASSWORD in SALTS + [ADMIN_PASSWORD];
    assert forall n :: n in SALTS ==> n in SALTS + [ADMIN_PASSWORD];
  }

  /** The variables that the php-fpm start script reads. */
  const SCRIPT_READS: seq<string> := DB_NAMES + WP_NAMES + SALTS + INSTALL_NAMES + [WP_ADMIN_PASSWORD]

  lemma ScriptReads()
    ensures WP_ADMIN_PASSWORD in SCRIPT_READS && ADMIN_PASSWORD !in SCRIPT_READS
  {
    WPNamesDistinct();
    SaltsDistinct();
    DBNamesDistinct();
    assert ADMIN_PASSWORD in SALTS + [ADMIN_PASSWORD] && [ADMIN_PASSWORD][0] == ADMIN_PASSWORD;
    PartsDistinct(SALTS, [ADMIN_PASSWORD], []);
    assert SALTS + [ADMIN_PASSWORD] + [] == SALTS + [ADMIN_PASSWORD];
    forall n | n in WP_NAMES || n in INSTALL_NAMES || n == WP_ADMIN_PASSWORD
      ensures n in WP_NAMES + INSTALL_NAMES + [WP_ADMIN_PASSWORD]
    {
    }
  }

  /** A Site that asks for an install and leaves the password to the operator. */
  function GeneratedPasswordSpec(): SiteSpec {
    SiteSpec("example.com", None,
      Some(WordpressSpec(None, Some(InstallSpec("admin", "admin@example.com", "", None, None)), "")),
      DatabaseSpec("db", "wp", None, None, Some("u"), Some("p")),
      None, map[], None, None, "", None, None)
  }

  lemma GeneratedPasswordNeverRead(id: SiteId)
    ensures var site := Site(id, GeneratedPasswordSpec());
            && Admitted(site.spec)
            && "WP_INSTALL" in Names(PhpEnvs(site))
            && WP_ADMIN_PASSWORD !in Names(PhpEnvs(site))
            && SecretEnv(id, ADMIN_PASSWORD) in PhpEnvs(site)
            && WP_ADMIN_PASSWORD in SCRIPT_READS && ADMIN_PASSWORD !in SCRIPT_READS
  {
    ScriptReads();
    var site := Site(id, GeneratedPasswordSpec());
    AdminPasswordDefinedIff(site);
    NamesOf(site);
    assert "WP_INSTALL" in INSTALL_NAMES;
    assert InstallEnvs(site, Install(site.spec).value)[4] == SecretEnv(id, ADMIN_PASSWORD);
  }

  // ---- Keys of the generated Secret ----

  function ProvisionKeys(spec: SiteSpec): set<string> {
    if ProvisionEnabled(spec) then {DB_PASSWORD} else {}
  }

  function AdminKeys(spec: SiteSpec): set<string> {
    match Install(spec)
    case None => {}
    case Some(install) =>
      if install.adminPasswordSecret.None? && install.adminPassword.None? then {ADMIN_PASSWORD} else {}
  }

  function FileBrowserKeys(spec: SiteSpec): set<string> {
    if FileBrowserOn(spec) then {FB_PASSWORD} else {}
  }

  /** The keys the operator generates for a spec. */
  function WantedKeys(spec: SiteSpec): set<string> {
    (set s | s in SALTS) + ProvisionKeys(spec) + AdminKeys(spec) + FileBrowserKeys(spec)
  }

  /** Keys that a list of variables reads from the Site's generated Secret. */
  function OwnKeys(id: SiteId, envs: seq<EnvVar>): set<string> {
    set e | e in envs && e.source.FromSecret? && e.source.ref.name == SecretName(id) :: e.source.ref.key
  }

  /** The references to Secrets that the user wrote and the operator passes on. */
  function UserRefs(spec: SiteSpec): set<SecretKeyRef> {
    (match Install(spec)
     case None => {}
     case Some(install) => if install.adminPasswordSecret.Some? then {install.adminPasswordSecret.value} else {})
    + (if !ProvisionEnabled(spec) && spec.database.userSecret.Some? then {spec.database.userSecret.value} else {})
    + (if !ProvisionEnabled(spec) && spec.database.passwordSecret.Some? then {spec.database.passwordSecret.value} else {})
  }

  /** A user reference into the generated Secret names a key the operator generates. */
  predicate RefsCovered(site: Site) {
    forall r :: r in UserRefs(site.spec) && r.name == SecretName(site.id) ==> r.key in WantedKeys(site.spec)
  }

  function AllEnvs(site: Site): seq<EnvVar> {
    PhpEnvs(site) + if FileBrowserOn(site.spec) then FileBrowserEnvs(site) else []
  }

  lemma OwnKeysJoin(id: SiteId, a: seq<EnvVar>, b: seq<EnvVar>)
    ensures OwnKeys(id, a + b) == OwnKeys(id, a) + OwnKeys(id, b)
  {
    forall e | e in a + b
      ensures e in a || e in b
    {
    }
  }

  lemma BaseKeys(site: Site)
    ensures OwnKeys(site.id, BaseEnvs(site)) == set s | s in SALTS
  {
    var envs := BaseEnvs(site);
    BaseEnvsAre(site);
    forall i | 0 <= i < |SALTS|
      ensures SALTS[i] in OwnKeys(site.id, envs)
    {
      assert envs[i + 5] == SecretEnv(site.id, SALTS[i]) && envs[i + 5] in envs;
    }
    forall e | e in envs && e.source.FromSecret?
      ensures e.source.ref.key in SALTS
    {
      var i :| 0 <= i < |envs| && envs[i] == e;
      assert i >= 5 && e == SecretEnv(site.id, SALTS[i - 5]);
    }
  }

  lemma BaseEnvsAre(site: Site)
    ensures var envs := BaseEnvs(site);
            && |envs| == 5 + |SALTS|
            && (forall i :: 0 <= i < 5 ==> envs[i].source.Plain?)
            && (forall i :: 5 <= i < |envs| ==> envs[i] == SecretEnv(site.id, SALTS[i - 5]))
  {
  }

  /** Keys of the generated Secret that the user's own references name. */
  function UserKeys(site: Site): set<string> {
    set r | r in UserRefs(site.spec) && r.name == SecretName(site.id) :: r.key
  }

  function RefKeys(id: SiteId, ref: Option<SecretKeyRef>): set<string> {
    if ref.Some? && ref.value.name == SecretName(id) then {ref.value.key} else {}
  }

  function InstallUserKeys(site: Site): set<string> {
    match Install(site.spec)
    case None => {}
    case Some(install) => RefKeys(site.id, install.adminPasswordSecret)
  }

  function DatabaseUserKeys(site: Site): set<string> {
    if ProvisionEnabled(site.spec) then {}
    else RefKeys(site.id, site.spec.database.userSecret) + RefKeys(site.id, site.spec.database.passwordSecret)
  }

  lemma UserKeysSplit(site: Site)
    ensures UserKeys(site) == InstallUserKeys(site) + DatabaseUserKeys(site)
  {
  }

  lemma KeysSplit(site: Site)
    ensures WantedKeys(site.spec) + UserKeys(site)
         == (set s | s in SALTS) + (AdminKeys(site.spec) + InstallUserKeys(site))
            + (ProvisionKeys(site.spec) + DatabaseUserKeys(site)) + FileBrowserKeys(site.spec)
  {
    UserKeysSplit(site);
  }

  /** The containers read from the generated Secret exactly the generated keys and what the user adds. */
  lemma OwnKeysExact(site: Site)
    ensures OwnKeys(site.id, AllEnvs(site)) == WantedKeys(site.spec) + UserKeys(site)
  {
    var id := site.id;
    var install := if Install(site.spec).Some? then InstallEnvs(site, Install(site.spec).value) else [];
    var fb := if FileBrowserOn(site.spec) then FileBrowserEnvs(site) else [];
    OwnKeysOfFour(id, BaseEnvs(site), install, DatabaseEnvs(site), fb);
    BaseKeys(site);
    InstallKeys(site, install);
    DatabaseKeys(site);
    FileBrowserOwnKeys(site, fb);
    KeysSplit(site);
  }

  lemma OwnKeysOfFour(id: SiteId, a: seq<EnvVar>, b: seq<EnvVar>, c: seq<EnvVar>, d: seq<EnvVar>)
    ensures OwnKeys(id, a + b + c + d) == OwnKeys(id, a) + OwnKeys(id, b) + OwnKeys(id, c) + OwnKeys(id, d)
  {
    OwnKeysJoin(id, a, b);
    OwnKeysJoin(id, a + b, c);
    OwnKeysJoin(id, a + b + c, d);
  }

  lemma FileBrowserOwnKeys(site: Site, envs: seq<EnvVar>)
    requires envs == if FileBrowserOn(site.spec) then FileBrowserEnvs(site) else []
    ensures OwnKeys(site.id, envs) == FileBrowserKeys(site.spec)
  {
    if FileBrowserOn(site.spec) {
      assert envs[6] == SecretEnv(site.id, FB_PASSWORD);
    }
  }

  /** The generated Secret is asked only for keys it holds exactly when the user's references into it are covered. */
  lemma OwnKeysCoveredIff(site: Site)
    ensures OwnKeys(site.id, AllEnvs(site)) <= WantedKeys(site.spec) <==> RefsCovered(site)
  {
    OwnKeysExact(site);
    if RefsCovered(site) {
      assert UserKeys(site) <= WantedKeys(site.spec);
    } else {
      var r :| r in UserRefs(site.spec) && r.name == SecretName(site.id) && r.key !in WantedKeys(site.spec);
      assert r.key in UserKeys(site);
    }
  }

  lemma InstallKeys(site: Site, envs: seq<EnvVar>)
    requires envs == if Install(site.spec).Some? then InstallEnvs(site, Install(site.spec).value) else []
    ensures OwnKeys(site.id, envs) == AdminKeys(site.spec) + InstallUserKeys(site)
  {
    if Install(site.spec).Some? {
      assert envs[4] == AdminPasswordEnv(site, Install(site.spec).value);
    }
  }

  lemma DatabaseKeys(site: Site)
    ensures OwnKeys(site.id, DatabaseEnvs(site)) == ProvisionKeys(site.spec) + DatabaseUserKeys(site)
  {
    var db := site.spec.database;
    var envs := DatabaseEnvs(site);
    if ProvisionEnabled(site.spec) {
      assert envs[3] == SecretEnv(site.id, DB_PASSWORD);
    } else {
      var user := Credential(DB_USER, db.userSecret, db.user);
      var password := Credential(DB_PASSWORD, db.passwordSecret, db.password);
      OwnKeysJoin(site.id, [EnvVar("DB_HOST", Plain(db.host)), EnvVar("DB_NAME", Plain(db.name))], user + password);
      OwnKeysJoin(site.id, user, password);
      assert db.userSecret.Some? ==> user == [EnvVar(DB_USER, FromSecret(db.userSecret.value))];
      assert db.passwordSecret.Some? ==> password == [EnvVar(DB_PASSWORD, FromSecret(db.passwordSecret.value))];
      assert envs == [EnvVar("DB_HOST", Plain(db.host)), EnvVar("DB_NAME", Plain(db.name))] + (user + password);
    }
  }
}
