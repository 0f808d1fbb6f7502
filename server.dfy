/** The vault daemon of server/server.go: one password held encrypted under
    a rotating salt and key, a watchdog that rotates them, an expiration
    timer that wipes the vault, and an interceptor that ties `Get` to the
    token of the last `Set`.

    The package variables `masterPassword`, `salt`, `encPass`,
    `watchDogRunning` and the `Server` fields `clientAuth`, `passwordSet`
    form one state, `Vault`. Each operation is a function from the old state
    to the new one (`EncryptStep`, `SetStep`, `WatchdogStep`, ...), and class
    `Stash` performs the same updates in place, proved against them. Ticks of
    the two background loops are atomic steps. */
module Server {
  import opened Bytes
  import opened Outcomes
  import opened Cipher
  import opened Rpc

  const GetMethod: string := "/stashproto.Stash/Get"
  const SetMethod: string := "/stashproto.Stash/Set"

  /** The vault's state. `watchDogAlive` is whether the watchdog goroutine
      still exists; `watchDogRunning` is the source's flag, which only says
      that one was started. */
  datatype Vault = Vault(
    masterPassword: Bytes,
    salt: Bytes,
    encPass: Bytes,
    watchDogRunning: bool,
    watchDogAlive: bool,
    clientAuth: Bytes,
    passwordSet: bool)

  /** The state of a freshly started process. */
  const Fresh: Vault := Vault([], [], [], false, false, [], false)

  /** A watchdog goroutine exists only after the flag was raised. */
  predicate Consistent(v: Vault) {
    v.watchDogAlive ==> v.watchDogRunning
  }

  // ---------------------------------------------------------------------
  // Handlers and helpers (server/server.go:33-117)

  /** `encryptPass`: installs the new salt and key first, then replaces the
      ciphertext only if encryption succeeds. */
  function EncryptStep(v: Vault, c: Cipher, password: Bytes, k: KeyDraw): Vault {
    var w := v.(salt := k.salt, encPass := k.encPass);
    match c.encrypt(password, k.salt, k.encPass)
    case Ok(data) => w.(masterPassword := data)
    case Err(_) => w
  }

  /** `decryptPass`. */
  function DecryptResult(v: Vault, c: Cipher): Result<Bytes, RpcError> {
    match c.decrypt(v.masterPassword, v.salt, v.encPass)
    case Ok(data) => Ok(data)
    case Err(e) => Err(RpcError(Unknown, "unable to decrypt password data: " + e + "\n"))
  }

  /** `vault.Get`; `touch` is what the local-device check answers when
      `touchID` is on. */
  function GetResult(v: Vault, c: Cipher, touchID: bool, touch: Result<bool, string>): Result<Bytes, RpcError> {
    if touchID && touch.Err? then
      Err(RpcError(NotFound, "unable to authenticate using local device: " + touch.error))
    else if touchID && !touch.value then
      Err(RpcError(NotFound, "unable to authenticate using local device"))
    else if |v.masterPassword| == 0 then
      Err(RpcError(NotFound, "password not set"))
    else
      DecryptResult(v, c)
  }

  /** `vault.Set`: store the payload, then start the watchdog unless the
      flag says one was started. */
  function SetStep(v: Vault, c: Cipher, payload: Bytes, k: KeyDraw): Vault {
    var w := EncryptStep(v, c, payload, k);
    if !w.watchDogRunning then w.(watchDogRunning := true, watchDogAlive := true) else w
  }

  /** One iteration of `watchDog`: stop when the vault is empty, otherwise
      decrypt (a failure yields the empty slice) and encrypt again. */
  function WatchdogStep(v: Vault, c: Cipher, k: KeyDraw): Vault
    requires v.watchDogAlive
  {
    if |v.masterPassword| == 0 then v.(watchDogAlive := false)
    else
      var current := if DecryptResult(v, c).Ok? then DecryptResult(v, c).value else [];
      EncryptStep(v, c, current, k)
  }

  /** One tick of the expiration loop in `Start`. */
  function ExpireStep(v: Vault): Vault {
    v.(clientAuth := [], passwordSet := false, masterPassword := [])
  }

  // ---------------------------------------------------------------------
  // The interceptor and the two RPCs (server/server.go:119-140)

  datatype Verdict = Admit(after: Vault) | Reject(error: RpcError)

  /** `Server.AuthInterceptor` up to the call of the handler. */
  function Admission(v: Vault, md: Metadata, fullMethod: string): Verdict {
    if md.None? then Reject(RpcError(Unauthenticated, "missing context header"))
    else if |AuthValues(md.value)| != 1 then Reject(RpcError(Unauthenticated, "invalid auth token"))
    else
      var value := AuthValues(md.value)[0];
      if fullMethod == GetMethod && v.passwordSet && value != v.clientAuth then
        Reject(RpcError(Unauthenticated, "invalid auth token"))
      else if fullMethod == SetMethod then
        Admit(v.(clientAuth := value, passwordSet := true))
      else
        Admit(v)
  }

  /** A `Get` call: the interceptor, then the handler. */
  function GetReply(v: Vault, c: Cipher, touchID: bool, md: Metadata, touch: Result<bool, string>): Result<Bytes, RpcError> {
    match Admission(v, md, GetMethod)
    case Reject(e) => Err(e)
    case Admit(w) => GetResult(w, c, touchID, touch)
  }

  datatype SetReply = SetReply(after: Vault, error: Option<RpcError>)

  /** A `Set` call: the interceptor, then the handler (which always succeeds). */
  function SetCall(v: Vault, c: Cipher, md: Metadata, payload: Bytes, k: KeyDraw): SetReply {
    match Admission(v, md, SetMethod)
    case Reject(e) => SetReply(v, Some(e))
    case Admit(w) => SetReply(SetStep(w, c, payload, k), None)
  }

  // ---------------------------------------------------------------------
  // Expiration interval (server/server.go:143, 173)

  newtype int64 = x: int | -0x8000_0000_0000_0000 <= x < 0x8000_0000_0000_0000

  /** `time.Hour` in nanoseconds. */
  const Hour: int := 3_600_000_000_000

  /** The largest number of hours whose duration fits in an `int64`. */
  const MaxHours: int := 2_562_047

  /** Two's-complement truncation of an integer to 64 bits. */
  function Wrap64(x: int): (r: int64)
    ensures -0x8000_0000_0000_0000 <= x < 0x8000_0000_0000_0000 ==> r as int == x
    ensures (r as int - x) % 0x1_0000_0000_0000_0000 == 0
  {
    var m := x % 0x1_0000_0000_0000_0000;
    (if m >= 0x8000_0000_0000_0000 then m - 0x1_0000_0000_0000_0000 else m) as int64
  }

  /** `time.Hour * time.Duration(expiration)`, an `int64` product that wraps. */
  function ExpirationDuration(hours: int64): int64 {
    Wrap64(Hour * hours as int)
  }

  // ---------------------------------------------------------------------
  // Properties

  /** `Get` on a vault holding no ciphertext fails with NotFound "password
      not set" once the local-device check (if any) passed. */
  lemma GetEmptyFails(v: Vault, c: Cipher, touchID: bool, touch: Result<bool, string>)
    requires |v.masterPassword| == 0
    requires !touchID || touch == Ok(true)
    ensures GetResult(v, c, touchID, touch) == Err(RpcError(NotFound, "password not set"))
  {
  }

  /** `encryptPass` installs exactly the drawn salt and key; on success the
      vault then decrypts to its input, on failure the old ciphertext stays
      (now under the new key). Nothing else changes. */
  lemma EncryptInstalls(v: Vault, c: Cipher, p: Bytes, k: KeyDraw)
    requires Sound(c)
    ensures var w := EncryptStep(v, c, p, k);
      && w.salt == k.salt && w.encPass == k.encPass
      && w.watchDogRunning == v.watchDogRunning && w.watchDogAlive == v.watchDogAlive
      && w.clientAuth == v.clientAuth && w.passwordSet == v.passwordSet
      && (c.encrypt(p, k.salt, k.encPass).Ok? ==>
            |w.masterPassword| > 0 && DecryptResult(w, c) == Ok(p))
      && (c.encrypt(p, k.salt, k.encPass).Err? ==> w.masterPassword == v.masterPassword)
  {
    if c.encrypt(p, k.salt, k.encPass).Ok? {
      RoundTrip(c, p, k.salt, k.encPass);
    }
  }

  /** Get after Set returns exactly the payload. */
  lemma GetAfterSet(v: Vault, c: Cipher, p: Bytes, k: KeyDraw, touchID: bool, touch: Result<bool, string>)
    requires Sound(c)
    requires c.encrypt(p, k.salt, k.encPass).Ok?
    requires !touchID || touch == Ok(true)
    ensures GetResult(SetStep(v, c, p, k), c, touchID, touch) == Ok(p)
  {
    EncryptInstalls(v, c, p, k);
  }

  /** A watchdog tick on a vault that holds `x` re-encrypts it under the new
      draw; when that encryption succeeds the vault still holds `x`. */
  lemma RotationKeepsSecret(v: Vault, c: Cipher, k: KeyDraw, x: Bytes, touchID: bool, touch: Result<bool, string>)
    requires Sound(c) && v.watchDogAlive
    requires GetResult(v, c, touchID, touch) == Ok(x)
    requires c.encrypt(x, k.salt, k.encPass).Ok?
    ensures var w := WatchdogStep(v, c, k);
      GetResult(w, c, touchID, touch) == Ok(x) && w.salt == k.salt && w.encPass == k.encPass
      && w.watchDogAlive
  {
    EncryptInstalls(v, c, x, k);
  }

  /** A tick that cannot decrypt a non-empty vault encrypts the empty slice
      `decryptPass` returned instead: the stored secret becomes empty. */
  lemma WatchdogDecryptFailureEmpties(v: Vault, c: Cipher, k: KeyDraw)
    requires Sound(c) && v.watchDogAlive && |v.masterPassword| > 0
    requires DecryptResult(v, c).Err? && c.encrypt([], k.salt, k.encPass).Ok?
    ensures GetResult(WatchdogStep(v, c, k), c, false, Ok(true)) == Ok([])
  {
    RoundTrip(c, [], k.salt, k.encPass);
  }

  /** A tick on an empty vault ends the watchdog and changes nothing else. */
  lemma WatchdogStopsWhenEmpty(v: Vault, c: Cipher, k: KeyDraw)
    requires v.watchDogAlive && |v.masterPassword| == 0
    ensures WatchdogStep(v, c, k) == v.(watchDogAlive := false)
  {
  }

  /** The watchdog is started at most once: `Set` raises the flag, a `Set`
      that finds it raised starts nothing, and no step ever lowers it. */
  lemma WatchdogStartedOnce(v: Vault, c: Cipher, p: Bytes, k: KeyDraw)
    ensures SetStep(v, c, p, k).watchDogRunning
    ensures !v.watchDogRunning ==> SetStep(v, c, p, k).watchDogAlive
    ensures v.watchDogRunning ==> SetStep(v, c, p, k).watchDogAlive == v.watchDogAlive
    ensures ExpireStep(v).watchDogRunning == v.watchDogRunning
    ensures v.watchDogAlive ==> WatchdogStep(v, c, k).watchDogRunning == v.watchDogRunning
    ensures forall md: Metadata, m: string {:trigger Admission(v, md, m)} ::
      Admission(v, md, m).Admit? ==> Admission(v, md, m).after.watchDogRunning == v.watchDogRunning
  {
  }

  /** Every step keeps `Consistent`. */
  lemma StepsConsistent(v: Vault, c: Cipher, p: Bytes, k: KeyDraw, md: Metadata, m: string)
    requires Consistent(v)
    ensures Consistent(EncryptStep(v, c, p, k)) && Consistent(SetStep(v, c, p, k))
    ensures Consistent(ExpireStep(v))
    ensures v.watchDogAlive ==> Consistent(WatchdogStep(v, c, k))
    ensures Admission(v, md, m).Admit? ==> Consistent(Admission(v, md, m).after)
    ensures Consistent(SetCall(v, c, md, p, k).after)
  {
  }

  /** Once the watchdog has stopped, a later `Set` does not restart it:
      after an expiration the secret is no longer rotated. */
  lemma NoRotationAfterRestart(v: Vault, c: Cipher, p: Bytes, k: KeyDraw)
    requires v.watchDogRunning && !v.watchDogAlive
    ensures !SetStep(v, c, p, k).watchDogAlive
  {
  }

  /** Expiration wipes ciphertext and ownership; afterwards `Get` fails
      "password not set" and any single token passes the interceptor. */
  lemma ExpirationWipes(v: Vault, c: Cipher, touchID: bool, token: Bytes, touch: Result<bool, string>)
    requires !touchID || touch == Ok(true)
    ensures var w := ExpireStep(v);
      && w.masterPassword == [] && w.clientAuth == [] && !w.passwordSet
      && w.salt == v.salt && w.encPass == v.encPass
      && GetReply(w, c, touchID, AuthHeader(token), touch) == Err(RpcError(NotFound, "password not set"))
  {
  }

  /** The interceptor's error conditions; a rejection leaves the state as it was. */
  lemma AdmissionErrors(v: Vault, md: Metadata, m: string)
    ensures md.None? ==>
      Admission(v, md, m) == Reject(RpcError(Unauthenticated, "missing context header"))
    ensures md.Some? && |AuthValues(md.value)| != 1 ==>
      Admission(v, md, m) == Reject(RpcError(Unauthenticated, "invalid auth token"))
  {
  }

  /** `Get` is admitted exactly when one token is presented and, if the vault
      is claimed, it is the owner's; admission changes nothing. */
  lemma GetAdmission(v: Vault, md: Metadata)
    ensures Admission(v, md, GetMethod).Admit? <==>
      md.Some? && |AuthValues(md.value)| == 1 &&
      (!v.passwordSet || AuthValues(md.value)[0] == v.clientAuth)
    ensures Admission(v, md, GetMethod).Admit? ==> Admission(v, md, GetMethod).after == v
    ensures Admission(v, md, GetMethod).Reject? && md.Some? && |AuthValues(md.value)| == 1 ==>
      Admission(v, md, GetMethod).error == RpcError(Unauthenticated, "invalid auth token")
  {
  }

  /** `Set` is admitted with any single token, whoever owns the vault, and
      binds that token as the new owner. */
  lemma SetRebinds(v: Vault, token: Bytes)
    ensures Admission(v, AuthHeader(token), SetMethod)
         == Admit(v.(clientAuth := token, passwordSet := true))
  {
  }

  /** Ownership takeover: after a `Set` with token `t2`, a `Get` with any
      other token fails, and a `Get` with `t2` returns the new payload. */
  lemma Takeover(v: Vault, c: Cipher, p: Bytes, k: KeyDraw, t1: Bytes, t2: Bytes, touchID: bool, touch: Result<bool, string>)
    requires Sound(c) && t1 != t2
    requires c.encrypt(p, k.salt, k.encPass).Ok?
    requires !touchID || touch == Ok(true)
    ensures var w := SetCall(v, c, AuthHeader(t2), p, k);
      && w.error.None?
      && GetReply(w.after, c, touchID, AuthHeader(t1), touch) == Err(RpcError(Unauthenticated, "invalid auth token"))
      && GetReply(w.after, c, touchID, AuthHeader(t2), touch) == Ok(p)
  {
    var u := v.(clientAuth := t2, passwordSet := true);
    SetRebinds(v, t2);
    GetAfterSet(u, c, p, k, touchID, touch);
  }

  /** The expiration timer runs exactly when the configured hours give a
      positive duration: for 1 to `MaxHours` hours it is that many hours,
      for zero or fewer it never runs. */
  lemma ExpirationInterval(hours: int64)
    ensures 0 < hours as int <= MaxHours ==> ExpirationDuration(hours) as int == hours as int * Hour > 0
    ensures -MaxHours <= hours as int <= 0 ==> ExpirationDuration(hours) <= 0
  {
  }

  /** Every setting from one hour more than `MaxHours` up to
      `2 * MaxHours + 1` hours overflows to a negative duration, so the
      expiration timer silently never runs. */
  lemma ExpirationOverflow(hours: int64)
    requires MaxHours < hours as int <= 2 * MaxHours + 1
    ensures ExpirationDuration(hours) < 0
  {
    var x := Hour * hours as int;
    assert 0x8000_0000_0000_0000 <= x < 0x1_0000_0000_0000_0000;
    assert x % 0x1_0000_0000_0000_0000 == x;
  }

  /** Past that band the sign flips again: `2 * MaxHours + 2` hours, and
      `-MaxHours - 1` hours, give a positive interval that is not the
      configured one, so the timer does run. The sign keeps flipping every
      2^63 nanoseconds for larger settings. */
  lemma ExpirationWrapsBack()
    ensures ExpirationDuration((2 * MaxHours + 2) as int64) > 0
    ensures ExpirationDuration((2 * MaxHours + 2) as int64) as int != (2 * MaxHours + 2) * Hour
    ensures ExpirationDuration((-MaxHours - 1) as int64) > 0
  {
  }

  // ---------------------------------------------------------------------
  // The process state, updated in place

  /** One server process: the package variables of server/server.go and the
      fields of its `Server`, with the cipher, the Touch ID option and the
      expiration interval it was built with. */
  class Stash {
    const cipher: Cipher
    const touchID: bool
    const expiration: int64

    var masterPassword: Bytes
    var salt: Bytes
    var encPass: Bytes
    var watchDogRunning: bool
    var watchDogAlive: bool
    var clientAuth: Bytes
    var passwordSet: bool

    function Model(): Vault
      reads this
    {
      Vault(masterPassword, salt, encPass, watchDogRunning, watchDogAlive, clientAuth, passwordSet)
    }

    ghost predicate Valid()
      reads this
    {
      Sound(cipher) && Consistent(Model())
    }

    /** `New(host, port, certFile, keyFile, expiration, WithTouchID(touchID))`
        without the listener. */
    constructor (hours: int64, touchID: bool, cipher: Cipher)
      requires Sound(cipher)
      ensures Valid() && Model() == Fresh
      ensures this.cipher == cipher && this.touchID == touchID
      ensures expiration == ExpirationDuration(hours)
    {
      this.cipher := cipher;
      this.touchID := touchID;
      expiration := ExpirationDuration(hours);
      masterPassword, salt, encPass := [], [], [];
      watchDogRunning, watchDogAlive := false, false;
      clientAuth, passwordSet := [], false;
    }

    /** `encryptPass`, with the salt and key `cipher.RandomString` drew. */
    method EncryptPass(password: Bytes, k: KeyDraw) returns (err: Option<string>)
      requires Valid() && IsDraw(k)
      modifies this
      ensures Valid()
      ensures Model() == EncryptStep(old(Model()), cipher, password, k)
      ensures err.Some? <==> cipher.encrypt(password, k.salt, k.encPass).Err?
    {
      salt := k.salt;
      encPass := k.encPass;
      var data := cipher.encrypt(password, salt, encPass);
      if data.Err? {
        return Some(data.error);
      }
      masterPassword := data.value;
      err := None;
    }

    /** `decryptPass`. */
    method DecryptPass() returns (r: Result<Bytes, RpcError>)
      requires Valid()
      ensures r == DecryptResult(Model(), cipher)
      ensures r.Ok? <==> cipher.decrypt(masterPassword, salt, encPass).Ok?
    {
      var data := cipher.decrypt(masterPassword, salt, encPass);
      if data.Err? {
        return Err(RpcError(Unknown, "unable to decrypt password data: " + data.error + "\n"));
      }
      r := Ok(data.value);
    }

    /** `vault.Get`; `touch` is the local-device answer. */
    method VaultGet(touch: Result<bool, string>) returns (r: Result<Bytes, RpcError>)
      requires Valid()
      ensures r == GetResult(Model(), cipher, touchID, touch)
      ensures |masterPassword| == 0 && (!touchID || touch == Ok(true)) ==>
        r == Err(RpcError(NotFound, "password not set"))
    {
      if touchID {
        if touch.Err? {
          return Err(RpcError(NotFound, "unable to authenticate using local device: " + touch.error));
        }
        if !touch.value {
          return Err(RpcError(NotFound, "unable to authenticate using local device"));
        }
      }
      if |masterPassword| == 0 {
        return Err(RpcError(NotFound, "password not set"));
      }
      r := DecryptPass();
    }

    /** `vault.Set`. */
    method VaultSet(payload: Bytes, k: KeyDraw)
      requires Valid() && IsDraw(k)
      modifies this
      ensures Valid()
      ensures Model() == SetStep(old(Model()), cipher, payload, k)
    {
      var _ := EncryptPass(payload, k);
      if !watchDogRunning {
        watchDogAlive := true;
        watchDogRunning := true;
      }
    }

    /** One iteration of the `watchDog` loop, run only while it is alive. */
    method WatchDogTick(k: KeyDraw)
      requires Valid() && IsDraw(k) && watchDogAlive
      modifies this
      ensures Valid()
      ensures Model() == WatchdogStep(old(Model()), cipher, k)
    {
      if |masterPassword| == 0 {
        watchDogAlive := false;
        return;
      }
      var current := DecryptPass();
      var _ := EncryptPass(if current.Ok? then current.value else [], k);
    }

    /** One tick of the expiration loop in `Start`, which exists only for a
        positive interval. */
    method ExpirationTick()
      requires Valid() && expiration > 0
      modifies this
      ensures Valid()
      ensures Model() == ExpireStep(old(Model()))
    {
      clientAuth := [];
      passwordSet := false;
      masterPassword := [];
    }

    /** `AuthInterceptor` up to the call of the handler. */
    method AuthInterceptor(md: Metadata, fullMethod: string) returns (err: Option<RpcError>)
      requires Valid()
      modifies this
      ensures Valid()
      ensures match Admission(old(Model()), md, fullMethod)
              case Reject(e) => err == Some(e) && Model() == old(Model())
              case Admit(w) => err.None? && Model() == w
    {
      if md.None? {
        return Some(RpcError(Unauthenticated, "missing context header"));
      }
      var values := AuthValues(md.value);
      if |values| != 1 {
        return Some(RpcError(Unauthenticated, "invalid auth token"));
      }
      var value := values[0];
      if fullMethod == GetMethod {
        if passwordSet {
          if value != clientAuth {
            return Some(RpcError(Unauthenticated, "invalid auth token"));
          }
        }
      }
      if fullMethod == SetMethod {
        clientAuth := value;
        passwordSet := true;
      }
      err := None;
    }

    /** The `Get` RPC as the server runs it: interceptor, then handler. */
    method Get(md: Metadata, touch: Result<bool, string>) returns (r: Result<Bytes, RpcError>)
      requires Valid()
      modifies this
      ensures Valid() && Model() == old(Model())
      ensures r == GetReply(Model(), cipher, touchID, md, touch)
    {
      var err := AuthInterceptor(md, GetMethod);
      if err.Some? {
        return Err(err.value);
      }
      r := VaultGet(touch);
    }

    /** The `Set` RPC as the server runs it: interceptor, then handler. */
    method Set(md: Metadata, payload: Bytes, k: KeyDraw) returns (err: Option<RpcError>)
      requires Valid() && IsDraw(k)
      modifies this
      ensures Valid()
      ensures SetReply(Model(), err) == SetCall(old(Model()), cipher, md, payload, k)
    {
      err := AuthInterceptor(md, SetMethod);
      if err.Some? {
        return;
      }
      VaultSet(payload, k);
    }
  }
}
