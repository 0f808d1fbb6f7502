# stash: a verified model of a single-secret password vault

`stash` keeps one password in the memory of a local daemon. The daemon holds
it encrypted under a salt and key that a watchdog redraws every few seconds,
and can wipe it after a configured number of hours. A gRPC interceptor lets
only the client that stored the secret read it back. The client keeps a
config file `"<auth>:<random>"`. From the random part it derives its own
salt and key, so the daemon only ever sees ciphertext. It proves its
identity by sending the base64 of the auth part as a token.

The model covers three source files:

- `server/server.go` is modelled in `server.dfy`, module `Server`. Datatype
  `Vault` is the process state: the package variables plus the `Server` fields.
  Pure step functions give each operation: `EncryptStep`, `DecryptResult`,
  `GetResult`, `SetStep`, `WatchdogStep`, `ExpireStep`, `Admission`,
  `GetReply` and `SetCall`. Class `Server.Stash` performs the same updates
  in place, and each of its methods is proved against the matching step
  function. A ticker iteration of each background loop is one atomic
  method. The expiration interval is an `int64` product that wraps.
- `client/client.go` is modelled in `client.dfy`, module `Client`. Pure
  functions give the config format (`FormatConfig`), its parse
  (`ParseConfig`, `DetailsOf`), the header (`MetaContext`) and the outcome
  of each operation against a server state. Class `Client.StashClient`
  holds the config file as a field. It calls a `Server.Stash` object where
  the source calls the gRPC stub.
- `main.go` is the earlier single-binary revision, modelled in
  `legacy.dfy`, module `Legacy`. Its interceptor is stricter: once the
  vault is claimed, every call with a foreign token is refused, `Set`
  included. Its watchdog never stops. Its config holds only the random
  string, cut into two halves. A `log.Fatal` is an `Err` carrying the
  message, and the server object records in `halted` that the process ended.

Shared modules:

- `bytes.dfy` has Go strings as bytes and `strings.Split` on `':'`.
- `base64.dfy` implements standard base64 (section 4 of RFC 4648) with its
  inverse.
- `cipher.dfy` holds the abstract cipher. Its ghost predicate `Sound` is
  the one assumption about it: decrypting under the same salt and key
  gives the plaintext back, and a successful ciphertext is never empty.
- `rpc.dfy` has gRPC status errors and metadata.
- `outcomes.dfy` has `Option` and `Result`.

`cipher.RandomString`, the terminal prompt, the Touch ID answer and a failure
of `os.Create` become parameters of the operations. A failure of
`ioutil.ReadFile` is a state of the config-file field: it holds either the
file's contents or the reason it cannot be read. A drawn salt and key are
checked only for their lengths.

Behaviours of the source that the model keeps (the lemma that states each is named where there is one):

- In server/server.go the watchdog stops for good once it finds the vault
  empty, whether after an expiration tick or after a first `Set` whose
  encryption failed and left the vault empty. The
  flag `watchDogRunning` is never lowered, so a later `Set` does not start
  another watchdog, and the secret is no longer rotated
  (`Server.NoRotationAfterRestart`).
- When a watchdog tick cannot decrypt, server/server.go ignores the error
  and encrypts the empty slice that `decryptPass` returned, which replaces
  the secret with an empty one (`Server.WatchdogDecryptFailureEmpties`).
  The model follows the code here. It does not skip the tick.
- `Set` ignores the error of `encryptPass`. When encryption fails, the old
  ciphertext stays in place under the already replaced salt and key.
- `time.Hour * time.Duration(expiration)` wraps modulo 2^64. For every
  setting from 2,562,048 to 5,124,095 hours the interval is negative and the
  timer never fires (`Server.ExpirationOverflow`). 5,124,096 hours and
  -2,562,048 hours give a positive interval that is not the configured one,
  so the timer fires after that interval (`Server.ExpirationWrapsBack`). For
  larger settings the sign keeps flipping, every 2^63 nanoseconds of the
  product.
- In main.go, `readConfig` reports a read failure as "unable to create".
  `decryptPass` passes its format string to `log.Fatal`, which prints the
  `%v` verb literally. `Get` returns the package variable `auth`, which nothing
  assigns, so that field is always empty. The model keeps all three as written.

## Model

| member | source | states |
|---|---|---|
| `Bytes.Split` | client/client.go:49 | at least one field, and a second field exactly when the string contains a colon |
| `Bytes.SplitJoin` | client/client.go:49 | splitting `a:b` with colon-free `a`, `b` gives exactly `[a, b]` |
| `Bytes.SplitPrefix` | client/client.go:49 | splitting `a:t` with colon-free `a` gives `a` followed by the fields of `t` |
| `Base64.Encode` | client/client.go:62 | every started group of three bytes becomes four characters |
| `Base64.DecodeEncode` | client/client.go:62 | decoding the encoding gives back the original bytes |
| `Base64.EncodeInjective` | client/client.go:62 | two byte strings have the same encoding exactly when they are equal |
| `Cipher.RoundTrip` | server/server.go:101-112 | under a sound cipher a successful ciphertext is non-empty and decrypts, under the same salt and key, to its plaintext |
| `Rpc.AuthValues` | server/server.go:124-127 | `meta["auth"]`: the values of the `auth` header, none when it is absent |
| `Rpc.Text` | client/client.go:103 | the status text `err.Error()` that the client wraps: "rpc error: code = <code> desc = <message>" |
| `Rpc.AuthHeader` | client/client.go:63 | the metadata built from a token carries exactly that one `auth` value |
| `Server.Wrap64` | server/server.go:143 | in-range values are kept; any value is congruent to its result modulo 2^64 |
| `Server.EncryptStep` | server/server.go:96-107 | `encryptPass`: installs the drawn salt and key, then replaces the ciphertext only when encryption succeeds |
| `Server.DecryptResult` | server/server.go:109-117 | `decryptPass`: the plaintext under the current salt and key, or Unknown "unable to decrypt password data: <cause>\n" |
| `Server.GetResult` | server/server.go:33-55 | `vault.Get`: the Touch ID refusals (NotFound), then NotFound "password not set" on an empty vault, then the decryption |
| `Server.SetStep` | server/server.go:57-67 | `vault.Set`: encrypts the payload, ignoring its error, then starts the watchdog unless the flag is raised |
| `Server.WatchdogStep` | server/server.go:82-94 | one watchdog iteration: an empty vault ends it; otherwise the decryption (or the empty slice on failure) is encrypted again under a new draw |
| `Server.ExpireStep` | server/server.go:176-182 | one expiration tick: clears owner, claim and ciphertext |
| `Server.Admission` | server/server.go:119-140 | the interceptor's verdict: its two Unauthenticated errors, the owner check on `Get` only, and the rebinding on `Set` |
| `Server.GetReply` | server/server.go:119-140 | a `Get` call: the interceptor's rejection, or `GetResult` on the admitted state |
| `Server.SetCall` | server/server.go:135-139 | a `Set` call: the interceptor's rejection with the state kept, or `SetStep` on the admitted state |
| `Server.ExpirationDuration` | server/server.go:143 | `time.Hour * time.Duration(expiration)` as an `int64` product that wraps |
| `Server.GetEmptyFails` | server/server.go:47-49 | once the device check (if any) passed, `Get` on an empty vault fails with NotFound "password not set" |
| `Server.EncryptInstalls` | server/server.go:96-107 | `encryptPass` installs exactly the drawn salt and key. On success the vault decrypts to the input and holds a non-empty ciphertext; on failure the old ciphertext stays; nothing else changes |
| `Server.GetAfterSet` | server/server.go:57-65 | after `Set(p)` with a successful encryption, `Get` returns exactly `p` |
| `Server.RotationKeepsSecret` | server/server.go:82-93 | a watchdog tick on a vault that returns `x` installs the new salt and key, keeps the watchdog alive, and `Get` still returns `x` |
| `Server.WatchdogDecryptFailureEmpties` | server/server.go:91-92 | a tick that cannot decrypt a non-empty vault stores the encryption of the empty slice, so `Get` then returns the empty password |
| `Server.WatchdogStopsWhenEmpty` | server/server.go:86-90 | a tick on an empty vault ends the watchdog and changes nothing else |
| `Server.WatchdogStartedOnce` | server/server.go:62-65 | `Set` always leaves the flag raised. It starts a watchdog only when the flag was down. No expiration tick, watchdog tick or interceptor admission changes the flag |
| `Server.StepsConsistent` | server/server.go:62-65 | every step keeps the invariant that a live watchdog implies the flag is raised |
| `Server.NoRotationAfterRestart` | server/server.go:62-65 | once the watchdog has stopped, a later `Set` does not start another one |
| `Server.ExpirationWipes` | server/server.go:176-182 | an expiration tick clears the ciphertext and the owner but keeps salt and key; afterwards `Get` with any token fails "password not set" |
| `Server.AdmissionErrors` | server/server.go:120-126 | no metadata gives Unauthenticated "missing context header"; other than one `auth` value gives "invalid auth token" |
| `Server.GetAdmission` | server/server.go:127-134 | `Get` is admitted iff one token is presented and, when the vault is claimed, it is the owner's; admission changes nothing; a refused single token gives "invalid auth token" |
| `Server.SetRebinds` | server/server.go:135-138 | `Set` is admitted with any single token, whoever owns the vault, and makes that token the owner |
| `Server.Takeover` | server/server.go:128-138 | after a `Set` with token `t2`, `Get` with any other token fails "invalid auth token" and `Get` with `t2` returns the new payload |
| `Server.ExpirationInterval` | server/server.go:172-175 | for 1 to 2,562,047 hours the interval is that many hours and positive; for zero or fewer down to the negative bound it is not positive, so no timer runs |
| `Server.ExpirationOverflow` | server/server.go:143 | every setting from 2,562,048 to 5,124,095 hours wraps to a negative duration |
| `Server.ExpirationWrapsBack` | server/server.go:143 | 5,124,096 hours, and -2,562,048 hours, wrap back to a positive duration, which for the former differs from the configured hours |
| `Server.Stash.constructor` | server/server.go:142-146 | a new server holds the empty state, the given cipher and Touch ID option, and the wrapped expiration interval |
| `Server.Stash.EncryptPass` | server/server.go:96-107 | the new state is `EncryptStep` of the old one, and an error is returned exactly when encryption fails |
| `Server.Stash.DecryptPass` | server/server.go:109-117 | returns `DecryptResult` of the state; it succeeds exactly when the cipher decrypts |
| `Server.Stash.VaultGet` | server/server.go:33-55 | returns `GetResult` of the state; an empty vault past the device check gives "password not set" |
| `Server.Stash.VaultSet` | server/server.go:57-67 | the new state is `SetStep` of the old one |
| `Server.Stash.WatchDogTick` | server/server.go:82-94 | the new state is `WatchdogStep` of the old one |
| `Server.Stash.ExpirationTick` | server/server.go:172-183 | runs only for a positive interval; the new state is `ExpireStep` of the old one |
| `Server.Stash.AuthInterceptor` | server/server.go:119-140 | a rejection returns the verdict's error and leaves the state unchanged; an admission installs the verdict's state |
| `Server.Stash.Get` | server/server.go:33-55 | leaves the vault unchanged and returns `GetReply` of it |
| `Server.Stash.Set` | server/server.go:57-67 | new state and error are those of `SetCall` on the old state |
| `Client.Message` | client/client.go:26-130 | the text of each client error, as the `fmt.Errorf` calls at lines 29, 37, 78, 87, 103, 111 and 127 write it |
| `Client.FormatConfig` | client/client.go:89 | the config text `auth:random` |
| `Client.SaltOf` | client/client.go:83 | the salt `r[:len(r)/2][:8]` |
| `Client.KeyOf` | client/client.go:84 | the key `r[len(r)/2:]` |
| `Client.ParseConfig` | client/client.go:49-53 | `authDetails` after the read: the two panics of the slicing, else auth, salt and key from the first two fields |
| `Client.DetailsOf` | client/client.go:44-55 | `authDetails`: the read error passed on, else `ParseConfig` |
| `Client.MetaContext` | client/client.go:57-65 | `getMetaContext`: the error of `authDetails`, else a header with the base64 of the auth field |
| `Client.Chosen` | client/client.go:72-80 | the password: `TestPass` when non-empty, else the prompt's answer or its error |
| `Client.ReadPassword` | client/client.go:67-94 | `readPasswordFromUser`: its three failures in source order with the config kept, else the config `auth:random` and the ciphertext |
| `Client.GetPasswordResult` | client/client.go:96-114 | `GetPassword` against a server state: each failure in source order, else the client-side decryption |
| `Client.SetPasswordResult` | client/client.go:116-130 | `SetPassword` against a server state: new config, new vault and error |
| `Client.ParseFields` | client/client.go:49-53 | on `A:R` or `A:R:rest` with colon-free `A`, `R`: the parse succeeds iff `R` has at least 16 characters, and then it gives auth `A`, salt `R[:len/2][:8]` and key `R[len/2:]` |
| `Client.AuthDetailsSafety` | client/client.go:44-55 | a read error is passed on unchanged; a readable config fails iff it has no second field or one shorter than 16, and that failure is a panic |
| `Client.FormatParse` | client/client.go:81-89 | parsing the written `auth:random` gives back `auth` and the same 8-character salt and 15-character key used to encrypt |
| `Client.HeaderDeterminedByAuth` | client/client.go:57-65 | two well-formed configs give the same header iff their auth fields are equal |
| `Client.DecryptMessageCarriesCause` | client/client.go:109-112 | the decryption error message starts with "error decrypting password:" and carries the cipher's error right after it |
| `Client.TestPassWins` | client/client.go:72-80 | a non-empty `TestPass` is the password, whatever the prompt answers |
| `Client.ReadPasswordWrites` | client/client.go:67-94 | on success the config becomes exactly `auth:random` (41 bytes), which parses back to the salt and key the returned ciphertext was made with; on failure the config is untouched |
| `Client.GetPasswordErrors` | client/client.go:96-114 | a failed RPC gives "unable to get password" wrapping its status; a failed decryption gives "error decrypting password" wrapping the cipher error; otherwise the plaintext is returned |
| `Client.GetPasswordOnEmptyVault` | client/client.go:101-104 | against an empty, unclaimed vault `GetPassword` fails with the server's NotFound "password not set" |
| `Client.SetThenGet` | client/client.go:116-130 | `SetPassword` followed by `GetPassword` returns the password typed (or `TestPass`), through both layers of encryption and the interceptor |
| `Client.StashClient.constructor` | client/client.go:132-147 | a new client holds the given config path, file and server, with no `TestPass` |
| `Client.StashClient.AuthDetails` | client/client.go:44-55 | returns `DetailsOf` the config file |
| `Client.StashClient.GetMetaContext` | client/client.go:57-65 | returns `MetaContext` of the config file; a success carries exactly one `auth` value |
| `Client.StashClient.ReadPasswordFromUser` | client/client.go:67-94 | new config and result are those of `ReadPassword` on the old config |
| `Client.StashClient.GetPassword` | client/client.go:96-114 | leaves the server's vault unchanged and returns `GetPasswordResult` of it |
| `Client.StashClient.SetPassword` | client/client.go:116-130 | new config, new vault and error are those of `SetPasswordResult` on the old config and vault |
| `Legacy.Started` | main.go:233-234 | the server state after the startup draw: that salt and key, and nothing stored or claimed |
| `Legacy.EncryptStep` | main.go:64-73 | `encryptPass`: encrypts under the current salt and key; a failure changes nothing |
| `Legacy.DecryptResult` | main.go:86-94 | `decryptPass`: the plaintext, or the fatal literal "unable to decrypt password data: %v\n" |
| `Legacy.GetResult` | main.go:51-53 | `vault.Get`: the decryption with an empty `auth`, with no empty check |
| `Legacy.SetStep` | main.go:55-62 | `vault.Set`: encrypts the payload, ignoring its error, then raises the watchdog flag |
| `Legacy.WatchdogStep` | main.go:75-84 | one watchdog iteration: decrypt (fatal on failure), install a new draw, encrypt again |
| `Legacy.Admission` | main.go:177-196 | the stricter verdict: two Unauthenticated errors, the owner check on every method once claimed, the binding on `Set` |
| `Legacy.GetReply` | main.go:51-53 | a `Get` call: rejected, served, or fatal to the server |
| `Legacy.SetCall` | main.go:55-62 | a `Set` call: the interceptor's rejection with the state kept, or `SetStep` on the admitted state |
| `Legacy.SaltHalf` | main.go:142 | the salt: the first half of the config |
| `Legacy.KeyHalf` | main.go:143 | the key: the second half of the config |
| `Legacy.ReadConfig` | main.go:127-133 | the config contents, or the fatal "unable to create <path>: <cause>\n" |
| `Legacy.MetaContext` | main.go:169-175 | `getMetaContext`: the header with the base64 of the first half of the config |
| `Legacy.ReadPassword` | main.go:135-151 | `readPasswordFromUser`: its three fatal failures in source order with the config kept, else the config `random` and the ciphertext |
| `Legacy.GetPasswordResult` | main.go:153-167 | `getPassword` against a server state: each fatal failure in source order, else the decrypted password |
| `Legacy.SetPasswordResult` | main.go:222-228 | the `-set` flow against a server state: new config, new vault and failure |
| `Legacy.AdmissionErrors` | main.go:178-184 | no metadata gives Unauthenticated "missing context header"; other than one `auth` value gives "invalid auth token" |
| `Legacy.ClaimedGate` | main.go:185-195 | on a claimed vault any call, `Set` included, is admitted iff it presents the owner's token, and a foreign token gives "invalid auth token"; an admitted `Set` binds its token; other methods change nothing |
| `Legacy.OwnershipPermanent` | main.go:191-194 | once claimed, no interceptor call, `Set` or watchdog tick clears the claim or changes the owner |
| `Legacy.RotationKeepsSecret` | main.go:75-84 | a tick installs the new salt and key and, when re-encryption succeeds, `Get` returns the same plaintext |
| `Legacy.WatchdogStartedOnce` | main.go:55-62 | `Set` leaves the flag raised, and once raised no encryption, interceptor call, watchdog tick or `Set` lowers it, so no second watchdog is started |
| `Legacy.GetWithoutEmptyCheck` | main.go:51-53 | `Get` succeeds iff the stored bytes decrypt and then returns them with an empty `auth`; otherwise the process ends with the literal "unable to decrypt password data: %v\n" |
| `Legacy.HalvesAgree` | main.go:141-149 | on success the config becomes `random`, reads back unchanged, and its halves are the salt and key the returned ciphertext was made with; on failure the config is untouched |
| `Legacy.TokenRevealsSalt` | main.go:169-175 | the token is the base64 of the first half of the config, so decoding it yields the client's encryption salt |
| `Legacy.SetThenGet` | main.go:222-228 | the `-set` flow on an unclaimed vault followed by `getPassword` returns the typed password |
| `Legacy.Gatekeeper.constructor` | main.go:232-234 | a new server holds the startup salt and key and nothing else, and has not halted |
| `Legacy.Gatekeeper.EncryptPass` | main.go:64-73 | the new state is `EncryptStep` of the old one; an error is returned exactly when encryption fails |
| `Legacy.Gatekeeper.DecryptPass` | main.go:86-94 | leaves the vault unchanged, returns `DecryptResult` of it, and halts exactly when that fails |
| `Legacy.Gatekeeper.WatchDogTick` | main.go:75-84 | a fatal `WatchdogStep` halts the process with the state unchanged; otherwise the new state is the step's |
| `Legacy.Gatekeeper.AuthInterceptor` | main.go:177-196 | a rejection returns the verdict's error and leaves the state unchanged; an admission installs the verdict's state |
| `Legacy.Gatekeeper.Get` | main.go:51-53 | leaves the vault unchanged, returns `GetReply` of it, and halts exactly when that is fatal |
| `Legacy.Gatekeeper.Set` | main.go:55-62 | new state and error are those of `SetCall` on the old state |
| `Legacy.GatekeeperClient.constructor` | main.go:218 | a new client holds the given path, cipher, server and config file |
| `Legacy.GatekeeperClient.GetMetaContext` | main.go:169-175 | returns `MetaContext` of the config file; a success carries exactly one `auth` value |
| `Legacy.GatekeeperClient.ReadPasswordFromUser` | main.go:135-151 | new config and result are those of `ReadPassword` on the old config |
| `Legacy.GatekeeperClient.GetPassword` | main.go:153-167 | leaves the server's vault unchanged and returns `GetPasswordResult` of it; the server halts exactly when its decryption was fatal |
| `Legacy.GatekeeperClient.SetPassword` | main.go:222-228 | new config, new vault and failure are those of `SetPasswordResult` on the old config and vault |

## Left out

- gRPC plumbing is not modelled: listeners, `grpc.NewServer`, `Serve`, `Stop`, `grpc.Dial`, TLS credentials, flag parsing and `setConfig`. A call is a direct method call. Transport failures of a call are not modelled, and a client's server is always reachable.
- Goroutines, tickers and `sync.Mutex` are not modelled. Each loop iteration is one atomic method. Interleavings are not modelled, such as the unlocked length check in the watchdog or a `Get` between its decrypt and encrypt.
- The cipher library's internals are not modelled. The cipher is any pair of functions that meets `Sound`, which includes the assumption that a successful ciphertext is non-empty.
- `cipher.RandomString` is not modelled. Its results are parameters constrained only by their lengths, and randomness itself is not modelled.
- Logging, the `peer` address in debug lines and the printing of the password are not modelled.
- Touch ID is an answer passed to `Get`: success, refusal or an error.
- The gopass prompt is an answer passed in: a password or an error.
- File I/O is a config-file field. It is either readable contents or a read error, and `os.Create` failing is a parameter. Partial writes and `WriteString` errors, which the source ignores, are not modelled.
- The processes around a `log.Fatal` are not modelled. In main.go the client's fatal outcome is returned as a `Failure`, and the server's sets `halted`. The model does not show the process ending.
- Go panics in `authDetails` are the outcome `Panicked`. Its message names the failed index or slice bound. For the slice panic, the model leaves out the " with length N" that Go's runtime appends.
- The server state is per object here. In server/server.go, `masterPassword`, `salt`, `encPass` and `watchDogRunning` are package variables (server/server.go:21-27), so every `Server` built by `New` in one process shares them. `Server.Stash.constructor` instead starts each object from the empty state, and the model does not capture that sharing. Likewise `TestPass` is one package variable (client/client.go:19), but each `Client.StashClient` has its own copy.
- `Client.SetThenGet`: stated for colon-free `auth` and `random` strings. With a colon inside either, `authDetails` would read other fields than those written.
- The `-get` and `-set` flags of main.go both being given in one run are not modelled as one operation, only as the two operations in sequence.
