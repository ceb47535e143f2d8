/** The rendered nginx server block (buildNginxConfigContent) and what it may contain. */
module NginxConfig {
  import opened SiteTypes
  import opened Text

  const REDIRECT := "absolute_redirect"
  const REDIRECT_OFF := "absolute_redirect off;"
  const HTTPS_ON := "fastcgi_param HTTPS on;"
  const FORWARDED_HTTPS := "fastcgi_param " + "HTTP_X_FORWARDED_PROTO" + " https;"
  const FORWARDED_SCHEME := "HTTP_X_FORWARDED_PROTO $scheme"

  // The fixed text, cut into constants short enough for the verifier to search.
  const SERVER := "\nserver {\n  listen 80;\n" + "  server_name _;\n\n"
  const INDEX := "  root /var/www/html;\n" + "  index index.php index.html;\n"
  const LOCATION_ROOT := "\n  location / {\n" + "    try_files $uri $uri/ " + "/index.php?$args;\n  }\n"
  const LOCATION_PHP := "\n  location ~ \\.php$ {\n"
  const FASTCGI_PASS := "    include fastcgi_params;\n" + "    fastcgi_pass " + "127.0.0.1:9000;\n"
  const SCRIPT := "    fastcgi_param SCRIPT_FILENAME "
  const SCRIPT_PATH := "$document_root" + "$fastcgi_script_name;\n"
  const TAIL := "  }\n}\n"

  /** Everything in the template that is not a hole. */
  datatype Fixed = Fixed(head: string, locations: string, tail: string) {
    predicate Lacks(c: char) {
      c !in head && c !in locations && c !in tail
    }
  }

  function Written(): Fixed {
    Fixed(SERVER + INDEX, LOCATION_ROOT + LOCATION_PHP + FASTCGI_PASS + SCRIPT + SCRIPT_PATH, TAIL)
  }

  /** The template with its four holes; every hole stands alone on an indented line. */
  function Template(text: Fixed, redirect: string, extra: string, https: string, forwarded: string): string {
    text.head + "\n" + ("  " + redirect) + "\n" + "" + "\n" + ("  " + extra) + "\n" + text.locations + "\n"
    + ("    " + https) + "\n" + ("    " + forwarded) + "\n" + text.tail
  }

  function ExtraConfig(spec: SiteSpec): string {
    if spec.nginx.Some? then spec.nginx.value.config else ""
  }

  function Redirect(spec: SiteSpec): string {
    if Contains(ExtraConfig(spec), REDIRECT) then "" else REDIRECT_OFF
  }

  function HttpsParam(spec: SiteSpec): string {
    if TlsOn(spec) then HTTPS_ON else ""
  }

  function ForwardedParam(spec: SiteSpec): string {
    if TlsOn(spec) then FORWARDED_HTTPS else ""
  }

  function Filled(text: Fixed, spec: SiteSpec): string {
    Template(text, Redirect(spec), ExtraConfig(spec), HttpsParam(spec), ForwardedParam(spec))
  }

  function NginxContent(spec: SiteSpec): string {
    Filled(Written(), spec)
  }

  /** The builder as the source writes it. */
  method BuildNginxConfigContent(spec: SiteSpec) returns (content: string)
    ensures content == NginxContent(spec)
  {
    var tlsEnabled := spec.ingress.Some? && spec.ingress.value.tls.GetOr(false);
    var fastcgiHTTPS, fastcgiXFP := "", "";
    if tlsEnabled {
      fastcgiHTTPS := HTTPS_ON;
      fastcgiXFP := FORWARDED_HTTPS;
    }
    var extraConfig := "";
    if spec.nginx.Some? {
      extraConfig := spec.nginx.value.config;
    }
    var absoluteRedirect := REDIRECT_OFF;
    if Contains(extraConfig, REDIRECT) {
      absoluteRedirect := "";
    }
    content := Template(Written(), absoluteRedirect, extraConfig, fastcgiHTTPS, fastcgiXFP);
  }

  lemma CountIndent2(s: string, pat: string)
    requires pat != [] && pat[0] != ' '
    ensures Count("  " + s, pat) == Count(s, pat)
  {
    CountIndented(' ', s, pat);
    CountIndented(' ', " " + s, pat);
    assert "  " + s == [' '] + (" " + s);
  }

  /** A pattern that fits on one line and does not begin with a blank. */
  predicate OneLine(pat: string) {
    pat != [] && pat[0] != ' ' && '\n' !in pat
  }

  /** Such a pattern never straddles a hole: its matches are those in the fixed text and in each hole. */
  lemma TemplateCountOf(text: Fixed, redirect: string, extra: string, https: string, forwarded: string, pat: string)
    requires OneLine(pat)
    ensures Count(Template(text, redirect, extra, https, forwarded), pat)
         == Count(text.head, pat) + Count(redirect, pat) + Count(extra, pat) + Count(text.locations, pat)
            + Count(https, pat) + Count(forwarded, pat) + Count(text.tail, pat)
  {
    var r, e := "  " + redirect, "  " + extra;
    var h, f := "    " + https, "    " + forwarded;
    CountIndent2(redirect, pat);
    CountIndent2(extra, pat);
    assert h == "  " + ("  " + https) && f == "  " + ("  " + forwarded);
    CountIndent2(https, pat);
    CountIndent2("  " + https, pat);
    CountIndent2(forwarded, pat);
    CountIndent2("  " + forwarded, pat);
    var t1 := text.head + "\n" + r;
    var t2 := t1 + "\n" + "";
    var t3 := t2 + "\n" + e;
    var t4 := t3 + "\n" + text.locations;
    var t5 := t4 + "\n" + h;
    var t6 := t5 + "\n" + f;
    CountSplits(text.head, '\n', r, pat);
    CountSplits(t1, '\n', "", pat);
    CountSplits(t2, '\n', e, pat);
    CountSplits(t3, '\n', text.locations, pat);
    CountSplits(t4, '\n', h, pat);
    CountSplits(t5, '\n', f, pat);
    CountSplits(t6, '\n', text.tail, pat);
    assert Template(text, redirect, extra, https, forwarded) == t6 + "\n" + text.tail;
  }

  /** When the fixed text lacks one of its characters, a pattern can only match inside a hole. */
  lemma HolesOnly(text: Fixed, redirect: string, extra: string, https: string, forwarded: string, pat: string, c: char)
    requires OneLine(pat) && c in pat && text.Lacks(c)
    ensures Count(Template(text, redirect, extra, https, forwarded), pat)
         == Count(redirect, pat) + Count(extra, pat) + Count(https, pat) + Count(forwarded, pat)
  {
    TemplateCountOf(text, redirect, extra, https, forwarded, pat);
    CountMissing(text.head, pat, c);
    CountMissing(text.locations, pat, c);
    CountMissing(text.tail, pat, c);
  }

  lemma ServerLacks()
    ensures 'b' !in SERVER && 'H' !in SERVER
  {
  }

  lemma IndexLacks()
    ensures 'b' !in INDEX && 'H' !in INDEX
  {
  }

  lemma LocationRootLacks()
    ensures 'b' !in LOCATION_ROOT && 'H' !in LOCATION_ROOT
  {
  }

  lemma LocationPhpLacks()
    ensures 'b' !in LOCATION_PHP && 'H' !in LOCATION_PHP
  {
  }

  lemma FastcgiPassLacks()
    ensures 'b' !in FASTCGI_PASS && 'H' !in FASTCGI_PASS
  {
  }

  lemma ScriptNameLacks()
    ensures 'b' !in SCRIPT && 'H' !in SCRIPT
  {
  }

  lemma ScriptPathLacks()
    ensures 'b' !in SCRIPT_PATH && 'H' !in SCRIPT_PATH
  {
  }

  /** No fixed line has a b (as in absolute) or an H (as in HTTPS). */
  lemma WrittenLacks()
    ensures Written().Lacks('b') && Written().Lacks('H')
  {
    ServerLacks();
    IndexLacks();
    LocationRootLacks();
    LocationPhpLacks();
    FastcgiPassLacks();
    ScriptNameLacks();
    ScriptPathLacks();
  }

  // From here on the literal texts meet only membership questions; every count is taken on variables.

  lemma CountOfItself(pat: string)
    requires pat != []
    ensures Count(pat, pat) == 1 && Count("", pat) == 0
  {
    assert pat[..|pat|] == pat;
  }

  /** A directive written only when the user text lacks it occurs once, or as often as the user wrote it. */
  lemma OnceInTemplate(text: Fixed, off: string, extra: string, https: string, forwarded: string, pat: string, c: char)
    requires OneLine(pat) && c in pat && text.Lacks(c) && c !in https && c !in forwarded
    requires pat <= off && pat[0] !in off[1..]
    ensures var redirect := if Contains(extra, pat) then "" else off;
            var own := Count(extra, pat);
            Count(Template(text, redirect, extra, https, forwarded), pat) == if own > 0 then own else 1
  {
    var redirect := if Contains(extra, pat) then "" else off;
    HolesOnly(text, redirect, extra, https, forwarded, pat, c);
    CountMissing(https, pat, c);
    CountMissing(forwarded, pat, c);
    CountMissing(off[1..], pat, pat[0]);
    ContainsIffCounted(extra, pat);
    CountOfItself(pat);
  }

  /** A pattern that neither the fixed text nor the operator's own lines can match is the user's alone. */
  lemma OnlyTheUsers(text: Fixed, redirect: string, extra: string, https: string, forwarded: string, pat: string, c: char, d: char)
    requires OneLine(pat) && c in pat && d in pat && text.Lacks(c)
    requires c !in redirect && d !in https && d !in forwarded
    ensures Count(Template(text, redirect, extra, https, forwarded), pat) == Count(extra, pat)
  {
    HolesOnly(text, redirect, extra, https, forwarded, pat, c);
    CountMissing(redirect, pat, c);
    CountMissing(https, pat, d);
    CountMissing(forwarded, pat, d);
  }

  /** A parameter written under a flag occurs once more than in the user text when the flag is set. */
  lemma ParameterInTemplate(text: Fixed, redirect: string, extra: string, https: string, forwarded: string,
                            on: bool, first: bool, pat: string, c: char, d: char)
    requires OneLine(pat) && c in pat && d in pat && text.Lacks(c) && c !in redirect
    requires (if first then https else forwarded) == if on then pat else ""
    requires d !in if first then forwarded else https
    ensures Count(Template(text, redirect, extra, https, forwarded), pat) == (if on then 1 else 0) + Count(extra, pat)
  {
    HolesOnly(text, redirect, extra, https, forwarded, pat, c);
    CountMissing(redirect, pat, c);
    CountMissing(if first then forwarded else https, pat, d);
    CountOfItself(pat);
  }

  lemma RedirectLetters()
    ensures OneLine(REDIRECT) && 'b' in REDIRECT
  {
    assert REDIRECT[0] == 'a' && REDIRECT[1] == 'b';
  }

  lemma RedirectOffLetters()
    ensures REDIRECT <= REDIRECT_OFF && REDIRECT[0] !in REDIRECT_OFF[1..]
  {
    assert REDIRECT[0] == 'a';
  }

  lemma RedirectOffLacks()
    ensures 'H' !in REDIRECT_OFF
  {
  }

  lemma HttpsLetters()
    ensures OneLine(HTTPS_ON) && 'H' in HTTPS_ON && 'S' in HTTPS_ON
  {
    assert HTTPS_ON[14] == 'H' && HTTPS_ON[18] == 'S';
  }

  lemma HttpsLacks()
    ensures 'b' !in HTTPS_ON && 'X' !in HTTPS_ON && '$' !in HTTPS_ON
  {
  }

  lemma ForwardedOneLine()
    ensures OneLine(FORWARDED_HTTPS)
  {
  }

  lemma ForwardedLetters()
    ensures 'H' in FORWARDED_HTTPS && 'X' in FORWARDED_HTTPS
  {
    assert FORWARDED_HTTPS[14] == 'H' && FORWARDED_HTTPS[19] == 'X';
  }

  lemma ForwardedLacks()
    ensures 'b' !in FORWARDED_HTTPS && 'S' !in FORWARDED_HTTPS && '$' !in FORWARDED_HTTPS
  {
  }

  lemma SchemeLetters()
    ensures OneLine(FORWARDED_SCHEME) && 'H' in FORWARDED_SCHEME && '$' in FORWARDED_SCHEME
  {
    assert FORWARDED_SCHEME[0] == 'H' && FORWARDED_SCHEME[23] == '$';
  }

  /** The directive is present, and never twice by the operator's doing. */
  lemma RedirectOnce(spec: SiteSpec)
    ensures var own := Count(ExtraConfig(spec), REDIRECT);
            Count(NginxContent(spec), REDIRECT) == if own > 0 then own else 1
  {
    WrittenLacks();
    RedirectLetters();
    RedirectOffLetters();
    HttpsLacks();
    ForwardedLacks();
    OnceInTemplate(Written(), REDIRECT_OFF, ExtraConfig(spec), HttpsParam(spec), ForwardedParam(spec), REDIRECT, 'b');
  }

  /** Exactly one HTTPS parameter for TLS, plus whatever the user wrote. */
  lemma HttpsParameter(spec: SiteSpec)
    ensures Count(NginxContent(spec), HTTPS_ON) == (if TlsOn(spec) then 1 else 0) + Count(ExtraConfig(spec), HTTPS_ON)
    ensures Contains(NginxContent(spec), HTTPS_ON) <==> TlsOn(spec) || Contains(ExtraConfig(spec), HTTPS_ON)
  {
    WrittenLacks();
    RedirectOffLacks();
    HttpsLetters();
    ForwardedLacks();
    ParameterInTemplate(Written(), Redirect(spec), ExtraConfig(spec), HttpsParam(spec), ForwardedParam(spec),
                        TlsOn(spec), true, HTTPS_ON, 'H', 'S');
    ContainsIffCounted(NginxContent(spec), HTTPS_ON);
    ContainsIffCounted(ExtraConfig(spec), HTTPS_ON);
  }

  /** The forwarded-protocol parameter is set under the same condition. */
  lemma ForwardedParameter(spec: SiteSpec)
    ensures Count(NginxContent(spec), FORWARDED_HTTPS)
         == (if TlsOn(spec) then 1 else 0) + Count(ExtraConfig(spec), FORWARDED_HTTPS)
  {
    WrittenLacks();
    RedirectOffLacks();
    ForwardedOneLine();
    ForwardedLetters();
    HttpsLacks();
    ParameterInTemplate(Written(), Redirect(spec), ExtraConfig(spec), HttpsParam(spec), ForwardedParam(spec),
                        TlsOn(spec), false, FORWARDED_HTTPS, 'H', 'X');
  }

  /** PHP is never told nginx's own scheme, unless the user text says so itself. */
  lemma SchemeNeverForwarded(spec: SiteSpec)
    ensures Count(NginxContent(spec), FORWARDED_SCHEME) == Count(ExtraConfig(spec), FORWARDED_SCHEME)
  {
    WrittenLacks();
    RedirectOffLacks();
    HttpsLacks();
    ForwardedLacks();
    SchemeLetters();
    OnlyTheUsers(Written(), Redirect(spec), ExtraConfig(spec), HttpsParam(spec), ForwardedParam(spec),
                 FORWARDED_SCHEME, 'H', '$');
  }

  // ---- Ports ----

  lemma Inside(a: string, pat: string, b: string)
    ensures Contains(a + pat + b, pat)
  {
    assert (a + pat + b)[|a|..|a| + |pat|] == pat;
    assert MatchAt(a + pat + b, pat, |a|);
  }

  lemma ContainsWithin(a: string, s: string, b: string, pat: string)
    requires Contains(s, pat)
    ensures Contains(a + s + b, pat)
  {
    var i: nat :| i <= |s| && MatchAt(s, pat, i);
    assert (a + s + b)[|a| + i..|a| + i + |pat|] == s[i..i + |pat|];
    assert MatchAt(a + s + b, pat, |a| + i);
  }

  lemma ServerListens()
    ensures Contains(SERVER, "listen 80;")
  {
    assert SERVER == "\nserver {\n  " + "listen 80;" + "\n  server_name _;\n\n";
    Inside("\nserver {\n  ", "listen 80;", "\n  server_name _;\n\n");
  }

  lemma PassesOn()
    ensures Contains(FASTCGI_PASS, "fastcgi_pass 127.0.0.1:9000;")
  {
    assert "fastcgi_pass " + "127.0.0.1:9000;" == "fastcgi_pass 127.0.0.1:9000;";
    assert "127.0.0.1:9000;" + "\n" == "127.0.0.1:9000;\n";
    assert "    " + "fastcgi_pass " == "    fastcgi_pass ";
    assert FASTCGI_PASS == ("    include fastcgi_params;\n" + "    ") + "fastcgi_pass 127.0.0.1:9000;" + "\n";
    Inside("    include fastcgi_params;\n" + "    ", "fastcgi_pass 127.0.0.1:9000;", "\n");
  }

  lemma RootLine()
    ensures Contains("  root /var/www/html;\n", "root /var/www/html;")
  {
    assert "  " + "root /var/www/html;" + "\n" == "  root /var/www/html;\n";
    Inside("  ", "root /var/www/html;", "\n");
  }

  lemma ServesRoot()
    ensures Contains(INDEX, "root /var/www/html;")
  {
    var line, rest := "  root /var/www/html;\n", "  index index.php index.html;\n";
    RootLine();
    ContainsWithin("", line, rest, "root /var/www/html;");
    assert "" + line + rest == line + rest == INDEX;
  }

  lemma TemplateContains(text: Fixed, redirect: string, extra: string, https: string, forwarded: string, pat: string)
    requires Contains(text.head, pat) || Contains(text.locations, pat)
    ensures Contains(Template(text, redirect, extra, https, forwarded), pat)
  {
    var before := text.head + "\n" + ("  " + redirect) + "\n" + "" + "\n" + ("  " + extra) + "\n";
    var after := "\n" + ("    " + https) + "\n" + ("    " + forwarded) + "\n" + text.tail;
    var whole := Template(text, redirect, extra, https, forwarded);
    assert whole == before + text.locations + after;
    if Contains(text.head, pat) {
      var rest := "\n" + ("  " + redirect) + "\n" + "" + "\n" + ("  " + extra) + "\n" + text.locations + after;
      assert whole == "" + text.head + rest;
      ContainsWithin("", text.head, rest, pat);
    } else {
      ContainsWithin(before, text.locations, after, pat);
    }
  }

  /** nginx serves the directory the containers share, and the user's own text is there as it is. */
  lemma FilesServed(spec: SiteSpec)
    ensures Contains(NginxContent(spec), "root /var/www/html;")
    ensures Contains(NginxContent(spec), if spec.nginx.Some? then spec.nginx.value.config else "")
  {
    RootWritten();
    TemplateContains(Written(), Redirect(spec), ExtraConfig(spec), HttpsParam(spec), ForwardedParam(spec), "root /var/www/html;");
    ExtraWritten(Written(), Redirect(spec), ExtraConfig(spec), HttpsParam(spec), ForwardedParam(spec));
  }

  lemma RootWritten()
    ensures Contains(Written().head, "root /var/www/html;")
  {
    ServesRoot();
    ContainsWithin(SERVER, INDEX, "", "root /var/www/html;");
    assert SERVER + INDEX + "" == Written().head;
  }

  lemma ExtraWritten(text: Fixed, redirect: string, extra: string, https: string, forwarded: string)
    ensures Contains(Template(text, redirect, extra, https, forwarded), extra)
  {
    var before := text.head + "\n" + ("  " + redirect) + "\n" + "" + "\n" + "  ";
    var after := "\n" + text.locations + "\n" + ("    " + https) + "\n" + ("    " + forwarded) + "\n" + text.tail;
    assert Template(text, redirect, extra, https, forwarded) == before + extra + after;
    Inside(before, extra, after);
  }

  /** nginx listens on port 80 and passes PHP on to port 9000, whatever the spec. */
  lemma PortsWritten(spec: SiteSpec)
    ensures Contains(NginxContent(spec), "listen 80;") && Contains(NginxContent(spec), "fastcgi_pass 127.0.0.1:9000;")
  {
    ServerListens();
    PassesOn();
    ContainsWithin("", SERVER, INDEX, "listen 80;");
    assert "" + SERVER + INDEX == Written().head;
    ContainsWithin(LOCATION_ROOT + LOCATION_PHP, FASTCGI_PASS, SCRIPT + SCRIPT_PATH, "fastcgi_pass 127.0.0.1:9000;");
    assert LOCATION_ROOT + LOCATION_PHP + FASTCGI_PASS + (SCRIPT + SCRIPT_PATH) == Written().locations;
    TemplateContains(Written(), Redirect(spec), ExtraConfig(spec), HttpsParam(spec), ForwardedParam(spec), "listen 80;");
    TemplateContains(Written(), Redirect(spec), ExtraConfig(spec), HttpsParam(spec), ForwardedParam(spec),
                     "fastcgi_pass 127.0.0.1:9000;");
  }
}
