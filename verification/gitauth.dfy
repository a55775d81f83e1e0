/** Git credentials: from the Secret (resolveGitAuth) to the clone's authentication method (authMethod). */
module GitAuthentication {
  import opened Text

  type Secret = map<string, string>

  /** spec.auth.type; Unknown stands for every other string. */
  datatype Scheme = Basic | Bearer | Ssh | Unknown(text: string)

  datatype BasicAuth = BasicAuth(username: string, password: string)
  datatype SshAuth = SshAuth(user: string, privateKey: string, passphrase: string, knownHosts: string)

  /** GitAuth: at most one of these is meant to be populated. */
  datatype GitAuth = GitAuth(basic: Option<BasicAuth>, bearer: string, ssh: Option<SshAuth>)

  datatype Failure = NoSecret | MissingKey(key: string) | UnknownScheme

  /** No auth at all (nil), credentials, or an error. */
  datatype Resolution = Nil | Credentials(auth: GitAuth) | Failed(why: Failure)

  const USERNAME := "username"
  const PASSWORD := "password"
  const BEARER_TOKEN := "bearerToken"
  const IDENTITY := "identity"
  const KNOWN_HOSTS := "known_hosts"

  /** A key that is not there reads as empty. */
  function Value(sec: Secret, key: string): string {
    if key in sec then sec[key] else ""
  }

  /** Credentials lose trailing CR and LF only. */
  function RequireSecret(sec: Secret, key: string): string {
    TrimCrLf(Value(sec, key))
  }

  /** resolveGitAuth. secret is what the lookup of the referenced Secret yields. */
  function Resolve(spec: Option<Scheme>, secret: Option<Secret>): Resolution {
    if spec.None? then Nil
    else if secret.None? then Failed(NoSecret)
    else
      var sec := secret.value;
      match spec.value
      case Basic =>
        var username := TrimSpace(Value(sec, USERNAME));
        if username == "" then Failed(MissingKey(USERNAME))
        else
          var password := RequireSecret(sec, PASSWORD);
          if password == "" then Failed(MissingKey(PASSWORD))
          else Credentials(GitAuth(Some(BasicAuth(username, password)), "", None))
      case Bearer =>
        var token := RequireSecret(sec, BEARER_TOKEN);
        if token == "" then Failed(MissingKey(BEARER_TOKEN))
        else Credentials(GitAuth(None, token, None))
      case Ssh =>
        var identity, knownHosts := Value(sec, IDENTITY), Value(sec, KNOWN_HOSTS);
        if |TrimSpace(identity)| == 0 then Failed(MissingKey(IDENTITY))
        else if |TrimSpace(knownHosts)| == 0 then Failed(MissingKey(KNOWN_HOSTS))
        else Credentials(GitAuth(None, "", Some(SshAuth("", identity, TrimCrLf(Value(sec, PASSWORD)), knownHosts))))
      case Unknown(_) => Failed(UnknownScheme)
  }

  /** How go-git is told to authenticate; Anonymous is a nil AuthMethod. */
  datatype Method =
    | Anonymous
    | HttpBasic(username: string, password: string)
    | HttpToken(token: string)
    | PublicKeys(user: string, privateKey: string, passphrase: string, knownHosts: string)

  datatype AuthResult = Ok(how: Method) | BadKey | BadKnownHosts

  /** The SSH library: which keys parse under which passphrase, which known_hosts files parse. */
  datatype SshLibrary = SshLibrary(keyParses: (string, string) -> bool, hostsParse: string -> bool)

  /** authMethod; None is a nil GitAuth. */
  function AuthMethod(lib: SshLibrary, auth: Option<GitAuth>): AuthResult {
    if auth.None? then Ok(Anonymous)
    else
      var a := auth.value;
      if a.basic.Some? then Ok(HttpBasic(a.basic.value.username, a.basic.value.password))
      else if a.bearer != "" then Ok(HttpToken(a.bearer))
      else if a.ssh.Some? then
        var s := a.ssh.value;
        if !lib.keyParses(s.privateKey, s.passphrase) then BadKey
        else if |s.knownHosts| == 0 || !lib.hostsParse(s.knownHosts) then BadKnownHosts
        else Ok(PublicKeys(if s.user == "" then "git" else s.user, s.privateKey, s.passphrase, s.knownHosts))
      else Ok(Anonymous)
  }

  // ---- properties

  /** What authMethod does with any GitAuth: the first scheme populated counts; SSH needs a key and a
      known_hosts that is there and parses, and logs in as git if no user is named. */
  lemma AuthMethodExactly(lib: SshLibrary, basic: BasicAuth, bearer: string, ssh: SshAuth, any: Option<SshAuth>)
    ensures AuthMethod(lib, None) == AuthMethod(lib, Some(GitAuth(None, "", None))) == Ok(Anonymous)
    ensures AuthMethod(lib, Some(GitAuth(Some(basic), bearer, any))) == Ok(HttpBasic(basic.username, basic.password))
    ensures bearer != "" ==> AuthMethod(lib, Some(GitAuth(None, bearer, any))) == Ok(HttpToken(bearer))
    ensures var r := AuthMethod(lib, Some(GitAuth(None, "", Some(ssh))));
            if !lib.keyParses(ssh.privateKey, ssh.passphrase) then r == BadKey
            else if ssh.knownHosts == "" || !lib.hostsParse(ssh.knownHosts) then r == BadKnownHosts
            else
              && r.Ok? && r.how.PublicKeys?
              && r.how.user == (if ssh.user == "" then "git" else ssh.user)
              && r.how.privateKey == ssh.privateKey && r.how.passphrase == ssh.passphrase
              && r.how.knownHosts == ssh.knownHosts
  {
  }

  /** Nothing but CR and LF. */
  predicate OnlyCrLf(s: string) {
    forall c | c in s :: IsCrLf(c)
  }

  lemma TrimsToNothing(s: string)
    ensures TrimCrLf(s) == "" <==> OnlyCrLf(s)
  {
    var r := TrimCrLf(s);
    assert s == r + s[|r|..];
    if r != "" {
      assert r[|r| - 1] in s && !IsCrLf(r[|r| - 1]);
    }
  }

  /** A Secret's entry, and that an absent one reads as empty. */
  lemma ValueReads(sec: Secret, key: string)
    ensures key in sec ==> Value(sec, key) == sec[key]
    ensures key !in sec ==> Value(sec, key) == ""
  {
  }

  /** The first key the scheme requires and the Secret does not fill. */
  function Missing(scheme: Scheme, sec: Secret): Option<string> {
    match scheme
    case Basic =>
      if Blank(Value(sec, "username")) then Some("username")
      else if OnlyCrLf(Value(sec, "password")) then Some("password")
      else None
    case Bearer => if OnlyCrLf(Value(sec, "bearerToken")) then Some("bearerToken") else None
    case Ssh =>
      if Blank(Value(sec, "identity")) then Some("identity")
      else if Blank(Value(sec, "known_hosts")) then Some("known_hosts")
      else None
    case Unknown(_) => None
  }

  /** A declared auth resolves exactly when its Secret is there and fills every key the scheme requires,
      else the first key missing is named; an absent auth always resolves, to nothing. */
  lemma ResolvesExactly(spec: Option<Scheme>, secret: Option<Secret>)
    ensures Resolve(spec, secret).Nil? <==> spec.None?
    ensures spec.Some? && secret.None? ==> Resolve(spec, secret) == Failed(NoSecret)
    ensures spec.Some? && secret.Some? ==>
              match Missing(spec.value, secret.value)
              case Some(key) => Resolve(spec, secret) == Failed(MissingKey(key))
              case None => if spec.value.Unknown? then Resolve(spec, secret) == Failed(UnknownScheme)
                           else Resolve(spec, secret).Credentials?
  {
    if spec.Some? && secret.Some? {
      hide Missing, Resolve;
      match spec.value
      case Basic => BasicExactly(secret.value);
      case Bearer => BearerExactly(secret.value);
      case Ssh => SshExactly(secret.value);
      case Unknown(text) => UnknownFails(text, secret.value);
    }
  }

  predicate ResolvesTo(scheme: Scheme, sec: Secret, missing: Option<string>) {
    match missing
    case Some(key) => Resolve(Some(scheme), Some(sec)) == Failed(MissingKey(key))
    case None => Resolve(Some(scheme), Some(sec)).Credentials?
  }

  lemma BasicExactly(sec: Secret)
    ensures ResolvesTo(Basic, sec, Missing(Basic, sec))
  {
    hide IsSpace, IsCrLf, TrimSpace, TrimCrLf, Blank, OnlyCrLf, Value;
    TrimSpaceTrims(Value(sec, USERNAME));
    TrimsToNothing(Value(sec, PASSWORD));
  }

  lemma BearerExactly(sec: Secret)
    ensures ResolvesTo(Bearer, sec, Missing(Bearer, sec))
  {
    hide IsSpace, IsCrLf, TrimSpace, TrimCrLf, Blank, OnlyCrLf, Value;
    TrimsToNothing(Value(sec, BEARER_TOKEN));
  }

  lemma SshExactly(sec: Secret)
    ensures ResolvesTo(Ssh, sec, Missing(Ssh, sec))
  {
    hide IsSpace, IsCrLf, TrimSpace, TrimCrLf, Blank, OnlyCrLf, Value;
    TrimSpaceTrims(Value(sec, IDENTITY));
    TrimSpaceTrims(Value(sec, KNOWN_HOSTS));
  }

  lemma UnknownFails(text: string, sec: Secret)
    ensures Resolve(Some(Unknown(text)), Some(sec)) == Failed(UnknownScheme) && Missing(Unknown(text), sec) == None
  {
  }

  predicate OneScheme(a: GitAuth) {
    || (a.basic.Some? && a.bearer == "" && a.ssh.None?)
    || (a.basic.None? && a.bearer != "" && a.ssh.None?)
    || (a.basic.None? && a.bearer == "" && a.ssh.Some?)
  }

  /** What a clone is told, given a resolution that is not an error. */
  function Told(lib: SshLibrary, r: Resolution): AuthResult
    requires !r.Failed?
  {
    AuthMethod(lib, if r.Nil? then None else Some(r.auth))
  }

  /** Declared auth is never dropped: what resolves has one scheme populated, the declared one, and the
      clone either uses it or fails; it is anonymous exactly when no auth was declared. */
  lemma NeverAnonymous(lib: SshLibrary, spec: Option<Scheme>, secret: Option<Secret>)
    requires !Resolve(spec, secret).Failed?
    ensures var r := Resolve(spec, secret);
            && (r.Credentials? ==> OneScheme(r.auth))
            && (Told(lib, r) == Ok(Anonymous) <==> spec.None?)
            && (spec == Some(Basic) ==> Told(lib, r).Ok? && Told(lib, r).how.HttpBasic?)
            && (spec == Some(Bearer) ==> Told(lib, r).Ok? && Told(lib, r).how.HttpToken?)
            && (spec == Some(Ssh) ==> Told(lib, r).Ok? ==> Told(lib, r).how.PublicKeys?)
  {
    hide TrimSpace, TrimCrLf;
  }

  /** Host keys are always checked: an SSH clone runs only with a known_hosts file that is not blank
      and parses, and with the key it was given, byte for byte. */
  lemma SshFailsClosed(lib: SshLibrary, secret: Secret)
    requires !Resolve(Some(Ssh), Some(secret)).Failed?
    ensures var told := Told(lib, Resolve(Some(Ssh), Some(secret)));
            var identity, knownHosts := Value(secret, "identity"), Value(secret, "known_hosts");
            var passphrase := TrimCrLf(Value(secret, "password"));
            && !Blank(identity) && !Blank(knownHosts)
            && told == if !lib.keyParses(identity, passphrase) then BadKey
                       else if !lib.hostsParse(knownHosts) then BadKnownHosts
                       else Ok(PublicKeys("git", identity, passphrase, knownHosts))
  {
    hide IsSpace, IsCrLf, TrimSpace, TrimCrLf, LosesSpace, Value;
    TrimSpaceTrims(Value(secret, "identity"));
    TrimSpaceTrims(Value(secret, "known_hosts"));
    assert Value(secret, "known_hosts") == "" ==> Blank(Value(secret, "known_hosts"));
  }

  /** kept is all of whole, but for the CR and LF characters at its end. */
  predicate LosesLineEnds(kept: string, whole: string) {
    kept != "" && kept <= whole && OnlyCrLf(whole[|kept|..]) && !IsCrLf(kept[|kept| - 1])
  }

  lemma TrimCrLfKeeps(s: string)
    requires |TrimCrLf(s)| != 0
    ensures LosesLineEnds(TrimCrLf(s), s)
  {
  }

  predicate NoSpaceAtEnds(s: string) {
    s != "" && !IsSpace(s[0]) && !IsSpace(s[|s| - 1])
  }

  /** Trimming: the user name loses white space at both ends; a password keeps every character but CR
      and LF at its end, spaces included. */
  lemma BasicKept(lib: SshLibrary, secret: Secret)
    requires !Resolve(Some(Basic), Some(secret)).Failed?
    ensures var how := Told(lib, Resolve(Some(Basic), Some(secret))).how;
            && NoSpaceAtEnds(how.username) && LosesSpace(how.username, Value(secret, "username"))
            && LosesLineEnds(how.password, Value(secret, "password"))
  {
    hide LosesSpace, IsSpace, IsCrLf, TrimSpace, TrimCrLf, Blank, LosesLineEnds, Value;
    TrimSpaceTrims(Value(secret, "username"));
    TrimCrLfKeeps(Value(secret, "password"));
  }

  /** The same for a bearer token. */
  lemma BearerKept(lib: SshLibrary, secret: Secret)
    requires !Resolve(Some(Bearer), Some(secret)).Failed?
    ensures LosesLineEnds(Told(lib, Resolve(Some(Bearer), Some(secret))).how.token, Value(secret, "bearerToken"))
  {
    hide IsSpace, IsCrLf, TrimSpace, TrimCrLf, Blank, LosesLineEnds, Value;
    TrimCrLfKeeps(Value(secret, "bearerToken"));
  }
}
