/** The earlier single-binary revision in main.go ("gatekeeper"): the same
    vault idea with a stricter interceptor, a watchdog that never stops, no
    expiration, and a client whose config is the random string alone.

    Every `log.Fatal` ends the process; here it is an `Err` carrying the
    message, and the server object records that it has `halted`. */
module Legacy {
  import opened Bytes
  import opened Outcomes
  import opened Cipher
  import opened Rpc
  import Base64

  const GetMethod: string := "/gateproto.Vault/Get"
  const SetMethod: string := "/gateproto.Vault/Set"

  /** Length of the random string the client draws. */
  const RandomLength: nat := 30

  /** The package variables of the server side. */
  datatype Vault = Vault(
    masterPassword: Bytes,
    salt: Bytes,
    encPass: Bytes,
    clientAuth: Bytes,
    passwordSet: bool,
    watchDogRunning: bool)

  /** After `main` drew the first salt and key (main.go:233-234). */
  function Started(k: KeyDraw): Vault {
    Vault([], k.salt, k.encPass, [], false, false)
  }

  /** What `Get` returns; `auth` is the package variable of that name, which
      nothing on the server assigns. */
  datatype Payload = Payload(password: Bytes, auth: Bytes)

  // ---------------------------------------------------------------------
  // Server steps (main.go:51-94)

  /** `encryptPass`: under the current salt and key; on failure nothing changes. */
  function EncryptStep(v: Vault, c: Cipher, password: Bytes): Vault {
    match c.encrypt(password, v.salt, v.encPass)
    case Ok(data) => v.(masterPassword := data)
    case Err(_) => v
  }

  /** `decryptPass`; the error is the fatal message, printed verbatim
      because `log.Fatal` does not expand the format verb. */
  function DecryptResult(v: Vault, c: Cipher): Result<Bytes, string> {
    match c.decrypt(v.masterPassword, v.salt, v.encPass)
    case Ok(data) => Ok(data)
    case Err(_) => Err("unable to decrypt password data: %v\n")
  }

  /** `vault.Get`: no check for an empty vault. */
  function GetResult(v: Vault, c: Cipher): Result<Payload, string> {
    match DecryptResult(v, c)
    case Ok(p) => Ok(Payload(p, []))
    case Err(e) => Err(e)
  }

  /** `vault.Set`. */
  function SetStep(v: Vault, c: Cipher, payload: Bytes): Vault {
    var w := EncryptStep(v, c, payload);
    if !w.watchDogRunning then w.(watchDogRunning := true) else w
  }

  /** One iteration of `watchDog`: decrypt, draw a new salt and key, encrypt. */
  function WatchdogStep(v: Vault, c: Cipher, k: KeyDraw): Result<Vault, string>
    requires v.watchDogRunning
  {
    match DecryptResult(v, c)
    case Err(e) => Err(e)
    case Ok(current) => Ok(EncryptStep(v.(salt := k.salt, encPass := k.encPass), c, current))
  }

  datatype Verdict = Admit(after: Vault) | Reject(error: RpcError)

  /** `AuthInterceptor` (main.go:177-196) up to the call of the handler. */
  function Admission(v: Vault, md: Metadata, fullMethod: string): Verdict {
    if md.None? then Reject(RpcError(Unauthenticated, "missing context header"))
    else if |AuthValues(md.value)| != 1 then Reject(RpcError(Unauthenticated, "invalid auth token"))
    else
      var value := AuthValues(md.value)[0];
      if v.passwordSet && value != v.clientAuth then Reject(RpcError(Unauthenticated, "invalid auth token"))
      else if fullMethod == SetMethod then Admit(v.(clientAuth := value, passwordSet := true))
      else Admit(v)
  }

  /** A `Get` call: rejected, served, or the server process ends. */
  datatype GetOutcome = Served(payload: Payload) | Denied(error: RpcError) | ServerFatal(message: string)

  function GetReply(v: Vault, c: Cipher, md: Metadata): GetOutcome {
    match Admission(v, md, GetMethod)
    case Reject(e) => Denied(e)
    case Admit(w) =>
      match GetResult(w, c)
      case Ok(p) => Served(p)
      case Err(m) => ServerFatal(m)
  }

  datatype SetReply = SetReply(after: Vault, error: Option<RpcError>)

  function SetCall(v: Vault, c: Cipher, md: Metadata, payload: Bytes): SetReply {
    match Admission(v, md, SetMethod)
    case Reject(e) => SetReply(v, Some(e))
    case Admit(w) => SetReply(SetStep(w, c, payload), None)
  }

  // ---------------------------------------------------------------------
  // Client steps (main.go:118-175, 222-228)

  /** The config file: its contents, or the reason it cannot be read. */
  type ConfigFile = Result<Bytes, string>

  /** How a client run ends when it does not succeed: its own `log.Fatal`,
      or the server process ending during the call. */
  datatype Failure = ClientFatal(message: string) | ServerExited(message: string)

  /** Salt and key are the two halves of the config. */
  function SaltHalf(config: Bytes): Bytes {
    config[..|config| / 2]
  }

  function KeyHalf(config: Bytes): Bytes {
    config[|config| / 2..]
  }

  /** `readConfig`; its fatal message says "create", as the source does. */
  function ReadConfig(path: string, file: ConfigFile): Result<Bytes, Failure> {
    match file
    case Ok(data) => Ok(data)
    case Err(cause) => Err(ClientFatal("unable to create " + path + ": " + cause + "\n"))
  }

  /** `getMetaContext`: the token is the base64 of the first half of the config. */
  function MetaContext(path: string, file: ConfigFile): Result<Metadata, Failure> {
    match ReadConfig(path, file)
    case Err(f) => Err(f)
    case Ok(data) => Ok(AuthHeader(Base64.Encode(SaltHalf(data))))
  }

  datatype Prepared = Prepared(file: ConfigFile, result: Result<Bytes, Failure>)

  /** `readPasswordFromUser`, given the prompt's answer, the random string
      and whether `os.Create` fails (and why). */
  function ReadPassword(path: string, file: ConfigFile, prompt: Result<Bytes, string>, random: Bytes,
                        create: Option<string>, c: Cipher): Prepared {
    match prompt
    case Err(e) => Prepared(file, Err(ClientFatal("unable to get password from user: " + e + "\n")))
    case Ok(pass) =>
      match c.encrypt(pass, SaltHalf(random), KeyHalf(random))
      case Err(e) => Prepared(file, Err(ClientFatal("unable to encrypt password: " + e + "\n")))
      case Ok(data) =>
        if create.Some? then Prepared(file, Err(ClientFatal("unable to create " + path + ": " + create.value + "\n")))
        else Prepared(Ok(random), Ok(data))
  }

  /** `getPassword` against a server in state `v`. */
  function GetPasswordResult(path: string, file: ConfigFile, c: Cipher, v: Vault, sc: Cipher): Result<Bytes, Failure> {
    match MetaContext(path, file)
    case Err(f) => Err(f)
    case Ok(md) =>
      match GetReply(v, sc, md)
      case Denied(e) => Err(ClientFatal("unable to GET: " + Text(e) + "\n"))
      case ServerFatal(m) => Err(ServerExited(m))
      case Served(p) =>
        match ReadConfig(path, file)
        case Err(f) => Err(f)
        case Ok(config) =>
          match c.decrypt(p.password, SaltHalf(config), KeyHalf(config))
          case Err(e) => Err(ClientFatal(e))
          case Ok(password) => Ok(password)
  }

  datatype SetOutcome = SetOutcome(file: ConfigFile, vault: Vault, failure: Option<Failure>)

  /** The `-set` branch of `main` against a server in state `v`. */
  function SetPasswordResult(path: string, file: ConfigFile, prompt: Result<Bytes, string>, random: Bytes,
                             create: Option<string>, c: Cipher, v: Vault, sc: Cipher): SetOutcome {
    var prep := ReadPassword(path, file, prompt, random, create, c);
    match prep.result
    case Err(f) => SetOutcome(prep.file, v, Some(f))
    case Ok(data) =>
      match MetaContext(path, prep.file)
      case Err(f) => SetOutcome(prep.file, v, Some(f))
      case Ok(md) =>
        var reply := SetCall(v, sc, md, data);
        SetOutcome(prep.file, reply.after,
          if reply.error.Some? then Some(ClientFatal("unable to set password: " + Text(reply.error.value) + "\n")) else None)
  }

  // ---------------------------------------------------------------------
  // Properties

  /** The interceptor's error conditions. */
  lemma AdmissionErrors(v: Vault, md: Metadata, m: string)
    ensures md.None? ==> Admission(v, md, m) == Reject(RpcError(Unauthenticated, "missing context header"))
    ensures md.Some? && |AuthValues(md.value)| != 1 ==>
      Admission(v, md, m) == Reject(RpcError(Unauthenticated, "invalid auth token"))
  {
  }

  /** Once claimed, every call, `Set` included, is admitted exactly when it
      presents the owner's token; a `Set` that passes binds its token. */
  lemma ClaimedGate(v: Vault, token: Bytes, m: string)
    ensures v.passwordSet ==>
      (Admission(v, AuthHeader(token), m).Admit? <==> token == v.clientAuth)
    ensures v.passwordSet && token != v.clientAuth ==>
      Admission(v, AuthHeader(token), m) == Reject(RpcError(Unauthenticated, "invalid auth token"))
    ensures Admission(v, AuthHeader(token), SetMethod).Admit? ==>
      Admission(v, AuthHeader(token), SetMethod).after == v.(clientAuth := token, passwordSet := true)
    ensures m != SetMethod && Admission(v, AuthHeader(token), m).Admit? ==>
      Admission(v, AuthHeader(token), m).after == v
  {
  }

  /** Ownership is never cleared and never changes hands once claimed: no
      step of this revision touches it afterwards. */
  lemma OwnershipPermanent(v: Vault, c: Cipher, p: Bytes, k: KeyDraw, md: Metadata, m: string)
    requires v.passwordSet
    ensures SetStep(v, c, p).passwordSet && SetStep(v, c, p).clientAuth == v.clientAuth
    ensures Admission(v, md, m).Admit? ==>
      Admission(v, md, m).after.passwordSet && Admission(v, md, m).after.clientAuth == v.clientAuth
    ensures SetCall(v, c, md, p).after.passwordSet && SetCall(v, c, md, p).after.clientAuth == v.clientAuth
    ensures v.watchDogRunning && WatchdogStep(v, c, k).Ok? ==>
      WatchdogStep(v, c, k).value.passwordSet && WatchdogStep(v, c, k).value.clientAuth == v.clientAuth
  {
  }

  /** A watchdog tick installs the new salt and key and, when decryption and
      re-encryption succeed, `Get` returns the same plaintext as before. */
  lemma RotationKeepsSecret(v: Vault, c: Cipher, k: KeyDraw, x: Bytes)
    requires Sound(c) && v.watchDogRunning
    requires GetResult(v, c) == Ok(Payload(x, []))
    requires c.encrypt(x, k.salt, k.encPass).Ok?
    ensures WatchdogStep(v, c, k).Ok?
    ensures var w := WatchdogStep(v, c, k).value;
      w.salt == k.salt && w.encPass == k.encPass && GetResult(w, c) == Ok(Payload(x, []))
  {
    RoundTrip(c, x, k.salt, k.encPass);
  }

  /** `Set` leaves the flag raised, and no step lowers it once raised, so a
      later `Set` never starts a second watchdog. */
  lemma WatchdogStartedOnce(v: Vault, c: Cipher, p: Bytes, k: KeyDraw, md: Metadata, m: string)
    ensures SetStep(v, c, p).watchDogRunning
    ensures v.watchDogRunning ==> EncryptStep(v, c, p).watchDogRunning
    ensures v.watchDogRunning && Admission(v, md, m).Admit? ==> Admission(v, md, m).after.watchDogRunning
    ensures v.watchDogRunning && WatchdogStep(v, c, k).Ok? ==> WatchdogStep(v, c, k).value.watchDogRunning
    ensures v.watchDogRunning ==> SetCall(v, c, md, p).after.watchDogRunning
  {
  }

  /** `Get` has no empty check: it succeeds exactly when the stored bytes
      decrypt, and otherwise ends the process; the `auth` field is empty. */
  lemma GetWithoutEmptyCheck(v: Vault, c: Cipher)
    ensures GetResult(v, c).Ok? <==> c.decrypt(v.masterPassword, v.salt, v.encPass).Ok?
    ensures GetResult(v, c).Ok? ==> GetResult(v, c).value == Payload(c.decrypt(v.masterPassword, v.salt, v.encPass).value, [])
    ensures GetResult(v, c).Err? ==> GetResult(v, c).error == "unable to decrypt password data: %v\n"
  {
  }

  /** The salt and key used to encrypt are the halves of what is written,
      so reading the config back yields the same pair. */
  lemma HalvesAgree(path: string, file: ConfigFile, prompt: Result<Bytes, string>, random: Bytes,
                    create: Option<string>, c: Cipher)
    requires |random| == RandomLength
    ensures var prep := ReadPassword(path, file, prompt, random, create, c);
      prep.result.Ok? ==>
        && prep.file == Ok(random)
        && ReadConfig(path, prep.file) == Ok(random)
        && prompt.Ok?
        && c.encrypt(prompt.value, SaltHalf(random), KeyHalf(random)) == Ok(prep.result.value)
        && SaltHalf(random) == random[..15] && KeyHalf(random) == random[15..]
    ensures ReadPassword(path, file, prompt, random, create, c).result.Err? ==>
      ReadPassword(path, file, prompt, random, create, c).file == file
  {
  }

  /** The token is the base64 of the encryption salt itself: decoding the
      header sent after a `Set` gives back the salt of the client layer. */
  lemma TokenRevealsSalt(path: string, random: Bytes)
    ensures MetaContext(path, Ok(random)) == Ok(AuthHeader(Base64.Encode(SaltHalf(random))))
    ensures Base64.Decode(AuthValues(MetaContext(path, Ok(random)).value.value)[0]) == SaltHalf(random)
  {
    Base64.DecodeEncode(SaltHalf(random));
  }

  /** Set then Get through the legacy client: the typed password comes back. */
  lemma SetThenGet(path: string, file: ConfigFile, prompt: Result<Bytes, string>, random: Bytes,
                   c: Cipher, v: Vault, sc: Cipher)
    requires Sound(c) && Sound(sc)
    requires |random| == RandomLength && prompt.Ok?
    requires !v.passwordSet
    requires c.encrypt(prompt.value, SaltHalf(random), KeyHalf(random)).Ok?
    requires sc.encrypt(c.encrypt(prompt.value, SaltHalf(random), KeyHalf(random)).value, v.salt, v.encPass).Ok?
    ensures var s := SetPasswordResult(path, file, prompt, random, None, c, v, sc);
      && s.failure.None?
      && GetPasswordResult(path, s.file, c, s.vault, sc) == Ok(prompt.value)
  {
    var data := c.encrypt(prompt.value, SaltHalf(random), KeyHalf(random)).value;
    RoundTrip(c, prompt.value, SaltHalf(random), KeyHalf(random));
    RoundTrip(sc, data, v.salt, v.encPass);
  }

  // ---------------------------------------------------------------------
  // The two processes

  /** The server side of main.go: its package variables, and whether a
      `log.Fatal` has ended it. */
  class Gatekeeper {
    const cipher: Cipher
    var masterPassword: Bytes
    var salt: Bytes
    var encPass: Bytes
    var clientAuth: Bytes
    var passwordSet: bool
    var watchDogRunning: bool
    var halted: bool

    function Model(): Vault
      reads this
    {
      Vault(masterPassword, salt, encPass, clientAuth, passwordSet, watchDogRunning)
    }

    ghost predicate Valid()
      reads this
    {
      Sound(cipher)
    }

    /** The `-server` branch of `main` up to serving, with its first draw. */
    constructor (cipher: Cipher, k: KeyDraw)
      requires Sound(cipher) && IsDraw(k)
      ensures Valid() && !halted && Model() == Started(k) && this.cipher == cipher
    {
      this.cipher := cipher;
      masterPassword := [];
      salt, encPass := k.salt, k.encPass;
      clientAuth, passwordSet := [], false;
      watchDogRunning := false;
      halted := false;
    }

    /** `encryptPass`. */
    method EncryptPass(password: Bytes) returns (err: Option<string>)
      requires Valid() && !halted
      modifies this
      ensures Valid() && !halted
      ensures Model() == EncryptStep(old(Model()), cipher, password)
      ensures err.Some? <==> cipher.encrypt(password, old(salt), old(encPass)).Err?
    {
      var data := cipher.encrypt(password, salt, encPass);
      if data.Err? {
        return Some(data.error);
      }
      masterPassword := data.value;
      err := None;
    }

    /** `decryptPass`; a failure ends the process. */
    method DecryptPass() returns (r: Result<Bytes, string>)
      requires Valid() && !halted
      modifies this`halted
      ensures Model() == old(Model())
      ensures r == DecryptResult(Model(), cipher) && halted == r.Err?
    {
      var data := cipher.decrypt(masterPassword, salt, encPass);
      if data.Err? {
        halted := true;
        return Err("unable to decrypt password data: %v\n");
      }
      r := Ok(data.value);
    }

    /** One iteration of `watchDog`. */
    method WatchDogTick(k: KeyDraw) returns (r: Result<(), string>)
      requires Valid() && !halted && IsDraw(k) && watchDogRunning
      modifies this
      ensures Valid()
      ensures match WatchdogStep(old(Model()), cipher, k)
              case Err(e) => r == Err(e) && halted && Model() == old(Model())
              case Ok(w) => r.Ok? && !halted && Model() == w
    {
      var current := DecryptPass();
      if current.Err? {
        return Err(current.error);
      }
      salt := k.salt;
      encPass := k.encPass;
      var _ := EncryptPass(current.value);
      r := Ok(());
    }

    /** `AuthInterceptor` up to the call of the handler. */
    method AuthInterceptor(md: Metadata, fullMethod: string) returns (err: Option<RpcError>)
      requires Valid() && !halted
      modifies this
      ensures Valid() && !halted
      ensures match Admission(old(Model()), md, fullMethod)
              case Reject(e) => err == Some(e) && Model() == old(Model())
              case Admit(w) => err.None? && Model() == w
    {
      if md.None? {
        return Some(RpcError(Unauthenticated, "missing context header"));
      }
      var values := AuthValues(md.value);
      if |values| != 1 {
        return Some(RpcError(Unauthenticated, "invalid auth token"));
      }
      var value := values[0];
      if passwordSet {
        if value != clientAuth {
          return Some(RpcError(Unauthenticated, "invalid auth token"));
        }
      }
      if fullMethod == SetMethod {
        clientAuth := value;
        passwordSet := true;
      }
      err := None;
    }

    /** The `Get` RPC. */
    method Get(md: Metadata) returns (r: GetOutcome)
      requires Valid() && !halted
      modifies this
      ensures Valid() && Model() == old(Model())
      ensures r == GetReply(Model(), cipher, md) && halted == r.ServerFatal?
    {
      var err := AuthInterceptor(md, GetMethod);
      if err.Some? {
        return Denied(err.value);
      }
      var password := DecryptPass();
      if password.Err? {
        return ServerFatal(password.error);
      }
      r := Served(Payload(password.value, []));
    }

    /** The `Set` RPC. */
    method Set(md: Metadata, payload: Bytes) returns (err: Option<RpcError>)
      requires Valid() && !halted
      modifies this
      ensures Valid() && !halted
      ensures SetReply(Model(), err) == SetCall(old(Model()), cipher, md, payload)
    {
      err := AuthInterceptor(md, SetMethod);
      if err.Some? {
        return;
      }
      var _ := EncryptPass(payload);
      if !watchDogRunning {
        watchDogRunning := true;
      }
    }
  }

  /** The client side of main.go: its config file and the server it reaches. */
  class GatekeeperClient {
    const path: string
    const cipher: Cipher
    const server: Gatekeeper
    var config: ConfigFile

    ghost predicate Valid()
      reads this, server
    {
      Sound(cipher) && server.Valid()
    }

    constructor (path: string, cipher: Cipher, server: Gatekeeper, config: ConfigFile)
      requires Sound(cipher) && server.Valid()
      ensures Valid() && this.path == path && this.cipher == cipher
      ensures this.server == server && this.config == config
    {
      this.path := path;
      this.cipher := cipher;
      this.server := server;
      this.config := config;
    }

    /** `getMetaContext`. */
    method GetMetaContext() returns (r: Result<Metadata, Failure>)
      ensures r == MetaContext(path, config)
      ensures r.Ok? ==> r.value.Some? && |AuthValues(r.value.value)| == 1
    {
      if config.Err? {
        return Err(ClientFatal("unable to create " + path + ": " + config.error + "\n"));
      }
      var data := config.value;
      r := Ok(AuthHeader(Base64.Encode(data[..|data| / 2])));
    }

    /** `readPasswordFromUser`. */
    method ReadPasswordFromUser(prompt: Result<Bytes, string>, random: Bytes, create: Option<string>)
      returns (r: Result<Bytes, Failure>)
      requires |random| == RandomLength
      modifies this`config
      ensures Prepared(config, r) == ReadPassword(path, old(config), prompt, random, create, cipher)
    {
      if prompt.Err? {
        return Err(ClientFatal("unable to get password from user: " + prompt.error + "\n"));
      }
      var salt := random[..|random| / 2];
      var encPass := random[|random| / 2..];
      var data := cipher.encrypt(prompt.value, salt, encPass);
      if data.Err? {
        return Err(ClientFatal("unable to encrypt password: " + data.error + "\n"));
      }
      if create.Some? {
        return Err(ClientFatal("unable to create " + path + ": " + create.value + "\n"));
      }
      config := Ok(random);
      r := Ok(data.value);
    }

    /** `getPassword`. */
    method GetPassword() returns (r: Result<Bytes, Failure>)
      requires Valid() && !server.halted
      modifies server
      ensures Valid() && server.Model() == old(server.Model())
      ensures r == GetPasswordResult(path, config, cipher, server.Model(), server.cipher)
      ensures server.halted <==> r.Err? && r.error.ServerExited?
    {
      var ctx := GetMetaContext();
      if ctx.Err? {
        return Err(ctx.error);
      }
      var result := server.Get(ctx.value);
      match result {
        case Denied(e) => return Err(ClientFatal("unable to GET: " + Text(e) + "\n"));
        case ServerFatal(m) => return Err(ServerExited(m));
        case Served(p) =>
          var configString: Bytes;
          match config {
            case Err(cause) => return Err(ClientFatal("unable to create " + path + ": " + cause + "\n"));
            case Ok(data) => configString := data;
          }
          var salt := configString[..|configString| / 2];
          var encPass := configString[|configString| / 2..];
          var password := cipher.decrypt(p.password, salt, encPass);
          if password.Err? {
            return Err(ClientFatal(password.error));
          }
          r := Ok(password.value);
      }
    }

    /** The `-set` branch of `main`. */
    method SetPassword(prompt: Result<Bytes, string>, random: Bytes, create: Option<string>)
      returns (failure: Option<Failure>)
      requires Valid() && !server.halted && |random| == RandomLength
      modifies this`config, server
      ensures Valid() && !server.halted
      ensures SetOutcome(config, server.Model(), failure)
           == SetPasswordResult(path, old(config), prompt, random, create, cipher, old(server.Model()), server.cipher)
    {
      var data := ReadPasswordFromUser(prompt, random, create);
      if data.Err? {
        return Some(data.error);
      }
      var ctx := GetMetaContext();
      if ctx.Err? {
        return Some(ctx.error);
      }
      var e := server.Set(ctx.value, data.value);
      if e.Some? {
        return Some(ClientFatal("unable to set password: " + Text(e.value) + "\n"));
      }
      failure := None;
    }
  }
}
