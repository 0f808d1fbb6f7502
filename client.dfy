/** The command-line client of client/client.go: it keeps a config file
    `"<auth>:<random>"`, derives its own salt and key from the random part,
    encrypts the password before `Set`, decrypts what `Get` returns, and
    sends the base64 of the auth part as its token on every call.

    Pure functions give the config format, its parse and the outcome of each
    operation; class `StashClient` holds the config file as a field and
    calls a `Server.Stash` in place of the gRPC stub. */
module Client {
  import opened Bytes
  import opened Outcomes
  import opened Cipher
  import opened Rpc
  import Base64
  import Server

  /** Lengths of the two strings `readPasswordFromUser` draws. */
  const AuthLength: nat := 10
  const RandomLength: nat := 30

  /** The config file: its contents, or the reason it cannot be read. */
  datatype ConfigFile = Present(data: Bytes) | Unreadable(cause: string)

  /** What `authDetails` returns. */
  datatype Details = Details(auth: Bytes, salt: Bytes, encPass: Bytes)

  /** The client's errors, one per `fmt.Errorf` of the source, and
      `Panicked` for a runtime panic of the slicing in `authDetails`, which
      ends the process. */
  datatype ClientError =
    | ReadFailed(path: string, cause: string)
    | CreateFailed(path: string, cause: string)
    | PromptFailed(cause: string)
    | EncryptFailed(cause: string)
    | Panicked(reason: string)
    | GetFailed(rpc: RpcError)
    | DecryptFailed(cause: string)
    | SetFailed(rpc: RpcError)

  /** The text of each error, as the format strings of the source write it. */
  function Message(e: ClientError): string {
    match e
    case ReadFailed(path, cause) => "unable to read " + path + ": " + cause + "\n"
    case CreateFailed(path, cause) => "unable to create " + path + ": " + cause + "\n"
    case PromptFailed(cause) => "unable to get password from user: " + cause
    case EncryptFailed(cause) => "unable to encrypt password: " + cause
    case Panicked(reason) => "panic: runtime error: " + reason
    case GetFailed(rpc) => "unable to get password: " + Text(rpc) + "\n"
    case DecryptFailed(cause) => "error decrypting password: " + cause + "\n"
    case SetFailed(rpc) => "unable to set password: " + Text(rpc)
  }

  // ---------------------------------------------------------------------
  // Config format and parse (client/client.go:44-65, 81-89)

  /** What `readPasswordFromUser` writes: `fmt.Sprintf("%s:%s", auth, random)`. */
  function FormatConfig(auth: Bytes, random: Bytes): Bytes {
    auth + [Colon] + random
  }

  /** The salt taken from a random part: `r[:len(r)/2][:8]`. */
  function SaltOf(r: Bytes): Bytes
    requires |r| >= 16
  {
    r[..|r| / 2][..8]
  }

  /** The key taken from a random part: `r[len(r)/2:]`. */
  function KeyOf(r: Bytes): Bytes {
    r[|r| / 2..]
  }

  /** The slicing in `authDetails` does not panic: there is a second field,
      and it is long enough for its first half to hold 8 characters. */
  predicate ParseSafe(data: Bytes) {
    |Split(data)| >= 2 && |Split(data)[1]| >= 16
  }

  /** The body of `authDetails` after the file was read. */
  function ParseConfig(data: Bytes): Result<Details, ClientError> {
    var spl := Split(data);
    if |spl| < 2 then Err(Panicked("index out of range [1] with length 1"))
    else
      var saltPass := spl[1];
      if |saltPass| / 2 < 8 then Err(Panicked("slice bounds out of range [:8]"))
      else Ok(Details(spl[0], SaltOf(saltPass), KeyOf(saltPass)))
  }

  /** `authDetails`: a read error is passed on unchanged. */
  function DetailsOf(path: string, file: ConfigFile): Result<Details, ClientError> {
    match file
    case Unreadable(cause) => Err(ReadFailed(path, cause))
    case Present(data) => ParseConfig(data)
  }

  /** `getMetaContext`: the header carries the base64 of the auth field. */
  function MetaContext(path: string, file: ConfigFile): Result<Metadata, ClientError> {
    match DetailsOf(path, file)
    case Err(e) => Err(e)
    case Ok(d) => Ok(AuthHeader(Base64.Encode(d.auth)))
  }

  // ---------------------------------------------------------------------
  // Operations (client/client.go:67-130)

  /** The password used: `TestPass` when it is non-empty, else the prompt's answer. */
  function Chosen(testPass: Bytes, prompt: Result<Bytes, string>): Result<Bytes, string> {
    if |testPass| != 0 then Ok(testPass) else prompt
  }

  datatype Prepared = Prepared(file: ConfigFile, result: Result<Bytes, ClientError>)

  /** `readPasswordFromUser`, given the prompt's answer, the two random
      strings and whether `os.Create` fails (and why). */
  function ReadPassword(path: string, file: ConfigFile, testPass: Bytes, prompt: Result<Bytes, string>,
                        auth: Bytes, random: Bytes, create: Option<string>, c: Cipher): Prepared
    requires |random| == RandomLength
  {
    match Chosen(testPass, prompt)
    case Err(e) => Prepared(file, Err(PromptFailed(e)))
    case Ok(pass) =>
      match c.encrypt(pass, SaltOf(random), KeyOf(random))
      case Err(e) => Prepared(file, Err(EncryptFailed(e)))
      case Ok(data) =>
        if create.Some? then Prepared(file, Err(CreateFailed(path, create.value)))
        else Prepared(Present(FormatConfig(auth, random)), Ok(data))
  }

  /** `GetPassword` against a server in state `v`. */
  function GetPasswordResult(path: string, file: ConfigFile, c: Cipher,
                             v: Server.Vault, sc: Cipher, touchID: bool, touch: Result<bool, string>): Result<Bytes, ClientError>
  {
    match MetaContext(path, file)
    case Err(e) => Err(e)
    case Ok(md) =>
      match Server.GetReply(v, sc, touchID, md, touch)
      case Err(e) => Err(GetFailed(e))
      case Ok(payload) =>
        match DetailsOf(path, file)
        case Err(e) => Err(e)
        case Ok(d) =>
          match c.decrypt(payload, d.salt, d.encPass)
          case Err(e) => Err(DecryptFailed(e))
          case Ok(p) => Ok(p)
  }

  datatype SetOutcome = SetOutcome(file: ConfigFile, vault: Server.Vault, error: Option<ClientError>)

  /** `SetPassword` against a server in state `v`; `k` is the server's draw. */
  function SetPasswordResult(path: string, file: ConfigFile, testPass: Bytes, prompt: Result<Bytes, string>,
                             auth: Bytes, random: Bytes, create: Option<string>, c: Cipher,
                             v: Server.Vault, sc: Cipher, k: KeyDraw): SetOutcome
    requires |random| == RandomLength
  {
    var prep := ReadPassword(path, file, testPass, prompt, auth, random, create, c);
    match prep.result
    case Err(e) => SetOutcome(prep.file, v, Some(e))
    case Ok(data) =>
      match MetaContext(path, prep.file)
      case Err(e) => SetOutcome(prep.file, v, Some(e))
      case Ok(md) =>
        var reply := Server.SetCall(v, sc, md, data, k);
        SetOutcome(prep.file, reply.after, if reply.error.Some? then Some(SetFailed(reply.error.value)) else None)
  }

  // ---------------------------------------------------------------------
  // Properties

  /** `authDetails` returns the first field as auth, and salt and key by the
      slicing rule applied to the second field alone. */
  lemma ParseFields(data: Bytes, auth: Bytes, r: Bytes, rest: Bytes)
    requires NoColon(auth) && NoColon(r)
    requires data == auth + [Colon] + r || data == (auth + [Colon] + r) + [Colon] + rest
    ensures ParseConfig(data).Ok? <==> |r| >= 16
    ensures |r| >= 16 ==> ParseConfig(data) == Ok(Details(auth, r[..|r| / 2][..8], r[|r| / 2..]))
  {
    if data == auth + [Colon] + r {
      SplitJoin(auth, r);
    } else {
      assert data == auth + [Colon] + (r + [Colon] + rest);
      SplitPrefix(auth, r + [Colon] + rest);
      SplitPrefix(r, rest);
    }
  }

  /** `authDetails` panics exactly when the config has no colon or its
      second field is shorter than 16 characters; a read error is passed on. */
  lemma AuthDetailsSafety(path: string, file: ConfigFile)
    ensures file.Unreadable? ==> DetailsOf(path, file) == Err(ReadFailed(path, file.cause))
    ensures file.Present? ==> (DetailsOf(path, file).Err? <==> !ParseSafe(file.data))
    ensures file.Present? && !ParseSafe(file.data) ==> DetailsOf(path, file).error.Panicked?
  {
  }

  /** Format then parse: the config written by `readPasswordFromUser` gives
      back its auth field and the same 8-character salt and 15-character key
      it encrypted with. */
  lemma FormatParse(auth: Bytes, random: Bytes)
    requires NoColon(auth) && NoColon(random) && |random| == RandomLength
    ensures ParseConfig(FormatConfig(auth, random)) == Ok(Details(auth, SaltOf(random), KeyOf(random)))
    ensures |SaltOf(random)| == 8 && |KeyOf(random)| == 15
    ensures SaltOf(random) == random[..8] && KeyOf(random) == random[15..]
  {
    SplitJoin(auth, random);
  }

  /** Two readable, well-formed configs give the same header exactly when
      their auth fields are equal. */
  lemma HeaderDeterminedByAuth(path: string, f1: ConfigFile, f2: ConfigFile)
    requires DetailsOf(path, f1).Ok? && DetailsOf(path, f2).Ok?
    ensures MetaContext(path, f1) == MetaContext(path, f2) <==>
      DetailsOf(path, f1).value.auth == DetailsOf(path, f2).value.auth
  {
    var a1, a2 := DetailsOf(path, f1).value.auth, DetailsOf(path, f2).value.auth;
    Base64.EncodeInjective(a1, a2);
    if MetaContext(path, f1) == MetaContext(path, f2) {
      assert AuthValues(MetaContext(path, f1).value.value) == [Base64.Encode(a1)];
      assert AuthValues(MetaContext(path, f2).value.value) == [Base64.Encode(a2)];
    }
  }

  /** A decryption failure of `GetPassword` reports the cipher's own error
      inside its message, right after "error decrypting password: ". */
  lemma DecryptMessageCarriesCause(e: string)
    ensures var msg := Message(DecryptFailed(e));
      && msg[..26] == "error decrypting password:"
      && |msg| == 27 + |e| + 1
      && msg[27..27 + |e|] == e
  {
  }

  /** A non-empty `TestPass` replaces the prompt, whatever the prompt would
      have answered. */
  lemma TestPassWins(testPass: Bytes, prompt: Result<Bytes, string>)
    requires |testPass| != 0
    ensures Chosen(testPass, prompt) == Ok(testPass)
  {
  }

  /** `readPasswordFromUser` on success overwrites the config with exactly
      `auth:random` and returns the password encrypted under the salt and
      key that config yields; on any failure the config is untouched. */
  lemma ReadPasswordWrites(path: string, file: ConfigFile, testPass: Bytes, prompt: Result<Bytes, string>,
                           auth: Bytes, random: Bytes, create: Option<string>, c: Cipher)
    requires |random| == RandomLength && |auth| == AuthLength
    requires NoColon(auth) && NoColon(random)
    ensures var prep := ReadPassword(path, file, testPass, prompt, auth, random, create, c);
      && (prep.result.Ok? ==>
            && prep.file == Present(FormatConfig(auth, random))
            && |prep.file.data| == AuthLength + 1 + RandomLength
            && ParseConfig(prep.file.data) == Ok(Details(auth, SaltOf(random), KeyOf(random)))
            && Chosen(testPass, prompt).Ok?
            && c.encrypt(Chosen(testPass, prompt).value, SaltOf(random), KeyOf(random)) == Ok(prep.result.value))
      && (prep.result.Err? ==> prep.file == file)
  {
    FormatParse(auth, random);
  }

  /** `GetPassword`'s failures: a failed RPC is reported as "unable to get
      password", a failed client-side decryption as "error decrypting
      password" wrapping the cipher's error, and no value is returned. */
  lemma GetPasswordErrors(path: string, file: ConfigFile, c: Cipher,
                          v: Server.Vault, sc: Cipher, touchID: bool, touch: Result<bool, string>)
    requires MetaContext(path, file).Ok?
    ensures var md := MetaContext(path, file).value;
      var r := GetPasswordResult(path, file, c, v, sc, touchID, touch);
      && (Server.GetReply(v, sc, touchID, md, touch).Err? ==>
            r == Err(GetFailed(Server.GetReply(v, sc, touchID, md, touch).error)))
      && (Server.GetReply(v, sc, touchID, md, touch).Ok? ==>
            var d := DetailsOf(path, file).value;
            var dec := c.decrypt(Server.GetReply(v, sc, touchID, md, touch).value, d.salt, d.encPass);
            (dec.Err? ==> r == Err(DecryptFailed(dec.error))) && (dec.Ok? ==> r == Ok(dec.value)))
  {
  }

  /** On an empty vault `GetPassword` fails, and the failure wraps the
      server's NotFound "password not set". */
  lemma GetPasswordOnEmptyVault(path: string, file: ConfigFile, c: Cipher,
                                v: Server.Vault, sc: Cipher, touchID: bool, touch: Result<bool, string>)
    requires MetaContext(path, file).Ok? && |v.masterPassword| == 0
    requires !v.passwordSet && (!touchID || touch == Ok(true))
    ensures GetPasswordResult(path, file, c, v, sc, touchID, touch)
         == Err(GetFailed(RpcError(NotFound, "password not set")))
  {
  }

  /** Set then Get through the client: the password typed (or `TestPass`)
      comes back, through both layers of encryption and the interceptor. */
  lemma SetThenGet(path: string, file: ConfigFile, testPass: Bytes, prompt: Result<Bytes, string>,
                   auth: Bytes, random: Bytes, c: Cipher,
                   v: Server.Vault, sc: Cipher, k: KeyDraw, touchID: bool, touch: Result<bool, string>)
    requires Sound(c) && Sound(sc)
    requires |auth| == AuthLength && |random| == RandomLength && NoColon(auth) && NoColon(random)
    requires Chosen(testPass, prompt).Ok?
    requires c.encrypt(Chosen(testPass, prompt).value, SaltOf(random), KeyOf(random)).Ok?
    requires sc.encrypt(c.encrypt(Chosen(testPass, prompt).value, SaltOf(random), KeyOf(random)).value,
                        k.salt, k.encPass).Ok?
    requires !touchID || touch == Ok(true)
    ensures var s := SetPasswordResult(path, file, testPass, prompt, auth, random, None, c, v, sc, k);
      && s.error.None?
      && GetPasswordResult(path, s.file, c, s.vault, sc, touchID, touch) == Ok(Chosen(testPass, prompt).value)
  {
    var pass := Chosen(testPass, prompt).value;
    var data := c.encrypt(pass, SaltOf(random), KeyOf(random)).value;
    var cfg := Present(FormatConfig(auth, random));
    FormatParse(auth, random);
    var token := Base64.Encode(auth);
    assert MetaContext(path, cfg) == Ok(AuthHeader(token));
    Server.Takeover(v, sc, data, k, token + [0], token, touchID, touch);
    RoundTrip(c, pass, SaltOf(random), KeyOf(random));
  }

  // ---------------------------------------------------------------------
  // The client object

  /** A client process: its config file, the package variable `TestPass`,
      and the server its connection reaches. */
  class StashClient {
    const path: string
    const cipher: Cipher
    const server: Server.Stash
    var config: ConfigFile
    var testPass: Bytes

    ghost predicate Valid()
      reads this, server
    {
      Sound(cipher) && server.Valid()
    }

    /** `New(port, configFile, certFile)` without the dial. */
    constructor (path: string, cipher: Cipher, server: Server.Stash, config: ConfigFile)
      requires Sound(cipher) && server.Valid()
      ensures Valid()
      ensures this.path == path && this.cipher == cipher && this.server == server
      ensures this.config == config && testPass == []
    {
      this.path := path;
      this.cipher := cipher;
      this.server := server;
      this.config := config;
      testPass := [];
    }

    /** `authDetails`. */
    method AuthDetails() returns (r: Result<Details, ClientError>)
      ensures r == DetailsOf(path, config)
    {
      if config.Unreadable? {
        return Err(ReadFailed(path, config.cause));
      }
      r := ParseConfig(config.data);
    }

    /** `getMetaContext`. */
    method GetMetaContext() returns (r: Result<Metadata, ClientError>)
      ensures r == MetaContext(path, config)
      ensures r.Ok? ==> r.value.Some? && |AuthValues(r.value.value)| == 1
    {
      var d := AuthDetails();
      if d.Err? {
        return Err(d.error);
      }
      r := Ok(AuthHeader(Base64.Encode(d.value.auth)));
    }

    /** `readPasswordFromUser`: `prompt` is the terminal's answer, `auth` and
        `random` the two random strings, `create` the error of `os.Create`
        if it fails. */
    method ReadPasswordFromUser(prompt: Result<Bytes, string>, auth: Bytes, random: Bytes, create: Option<string>)
      returns (r: Result<Bytes, ClientError>)
      requires |auth| == AuthLength && |random| == RandomLength
      modifies this`config
      ensures Prepared(config, r) == ReadPassword(path, old(config), testPass, prompt, auth, random, create, cipher)
    {
      var pass: Bytes;
      if |testPass| != 0 {
        pass := testPass;
      } else {
        if prompt.Err? {
          return Err(PromptFailed(prompt.error));
        }
        pass := prompt.value;
      }
      var salt := random[..|random| / 2][..8];
      var encPass := random[|random| / 2..];
      var data := cipher.encrypt(pass, salt, encPass);
      if data.Err? {
        return Err(EncryptFailed(data.error));
      }
      if create.Some? {
        return Err(CreateFailed(path, create.value));
      }
      config := Present(FormatConfig(auth, random));
      r := Ok(data.value);
    }

    /** `GetPassword`. */
    method GetPassword(touch: Result<bool, string>) returns (r: Result<Bytes, ClientError>)
      requires Valid()
      modifies server
      ensures Valid() && server.Model() == old(server.Model())
      ensures r == GetPasswordResult(path, config, cipher, server.Model(), server.cipher, server.touchID, touch)
    {
      var ctx := GetMetaContext();
      if ctx.Err? {
        return Err(ctx.error);
      }
      var result := server.Get(ctx.value, touch);
      if result.Err? {
        return Err(GetFailed(result.error));
      }
      var d := AuthDetails();
      var details: Details;
      match d {
        case Err(e) => return Err(e);
        case Ok(x) => details := x;
      }
      var password := cipher.decrypt(result.value, details.salt, details.encPass);
      if password.Err? {
        return Err(DecryptFailed(password.error));
      }
      r := Ok(password.value);
    }

    /** `SetPassword`; `k` is the salt and key the server draws. */
    method SetPassword(prompt: Result<Bytes, string>, auth: Bytes, random: Bytes, create: Option<string>, k: KeyDraw)
      returns (err: Option<ClientError>)
      requires Valid() && IsDraw(k)
      requires |auth| == AuthLength && |random| == RandomLength
      modifies this`config, server
      ensures Valid()
      ensures SetOutcome(config, server.Model(), err)
           == SetPasswordResult(path, old(config), testPass, prompt, auth, random, create, cipher,
                                old(server.Model()), server.cipher, k)
    {
      var data := ReadPasswordFromUser(prompt, auth, random, create);
      if data.Err? {
        return Some(data.error);
      }
      var ctx := GetMetaContext();
      if ctx.Err? {
        return Some(ctx.error);
      }
      var e := server.Set(ctx.value, data.value, k);
      if e.Some? {
        return Some(SetFailed(e.value));
      }
      err := None;
    }
  }
}
