# AutoTickets core, modelled in Dafny

AutoTickets is a small dashboard. It mirrors the open-ticket queue of an
Autotask helpdesk to live browser viewers over websockets. It keeps the API
credentials encrypted on disk under a password. This project models its core
and proves properties of that model:

- the **ticket cache** (`tickets.dfy`, module `Tickets`): the ticket list, the
  unassigned-ticket filter, and the fingerprint that decides whether viewers
  get a new snapshot;
- the **credential vault** (`secrets.dfy`, module `Secrets`): the in-memory
  triple (username, integration code, secret) and the vault file, laid out as
  `salt[16] ‖ nonce[12] ‖ ciphertext`;
- the **poll cycle** (`sync.dfy`, module `Sync`): the active-hours window and
  the outcomes of one poll, as a function of its inputs;
- the **web application** (`web.dfy`, module `Web`): the class `WebApp`, which
  carries out the poll cycle step by step, keeps the registry of live viewer
  connections with its fan-out, and decides the secrets routes;
- **flag validation** (`flags.dfy`, module `Flags`): the defaults and the range
  checks applied to the command-line flags.

`wrappers.dfy` holds the `Option` and `Result` datatypes.

The structs that the Go code updates in place are classes with the same
fields: `TicketCollection`, `SecretsCollection`, `ApiStatus`, `WebApp` and the
flag variables (`CommandLine`). Their methods state the whole new state.
Properties that relate several calls are lemmas about the specification
functions (`Unassigned`, `Fingerprint`, `Split`, `EncryptedFile`,
`DecryptedTriple`, `Poll`).

Foreign code and the environment are parameters:

- SHA-256 with hex encoding is the `digest` function a `TicketCollection` is
  built with.
- Argon2id, AES-GCM and gob are the fields of a `Suite`. `Sound(suite)` states
  what they promise: a 32-byte key, open undoes seal, and decode undoes encode.
  Lemmas that need these promises take `Sound` as a precondition.
- `aes.NewCipher` fails exactly for keys that are not 16, 24 or 32 bytes long
  (`CipherAccepts`). `cipher.NewGCM` never fails on an AES block.
- The vault file is the field `disk` (None when it is absent or unreadable).
  The random salt and nonce are parameters (None when `crypto/rand` fails).
  The success of `os.WriteFile` is a boolean parameter.
- The current hour and the current time are parameters. The upstream call
  `api.GetOpenTickets` is a parameter of type `Api`.
- Each websocket write is decided by a `WriteOracle`. A connection is a number,
  and a websocket upgrade yields `Option<ConnId>`.
- A successful gob decode replaces the whole in-memory triple, and a failed one
  leaves it unchanged (see "Left out" for what gob does differently).
- `main` is `Web.Startup`. It validates the flags with `validateFlags` as
  written and builds the `WebApp` from them, so a bad poll rate reaches the
  application. `Web.StartupIntended` does the same with the corrected
  poll-rate check (see "Findings").

## Model

| member | source | states |
|---|---|---|
| `Tickets.TicketCollection.GetUnassignedTickets` | tickets/tickets.go:45-55 | returns `Unassigned(tickets)`: the loop keeps exactly the tickets with a blank assigned resource id, in list order |
| `Tickets.UnassignedMembers` | tickets/tickets.go:49-53 | a ticket is in the result iff it is in the list and unassigned; the result is no longer than the list |
| `Tickets.UnassignedAppend` | tickets/tickets.go:49-53 | the filter distributes over concatenation, so relative order is kept |
| `Tickets.UnassignedSelection` | tickets/tickets.go:45-55 | the result is the subsequence at strictly increasing positions, and those positions are exactly the unassigned ones |
| `Tickets.TitlesAppend` | tickets/tickets.go:29-32 | concatenating titles distributes over concatenating lists |
| `Tickets.FingerprintInputOnlySeesUnassignedTitles` | tickets/tickets.go:28-34 | two lists that agree position by position on which tickets are unassigned and on their titles have the same fingerprint input |
| `Tickets.TitlesAgree` | tickets/tickets.go:28-31 | two lists whose titles agree position by position give the same concatenated titles text |
| `Tickets.SameUnassignedTitlesKeepsFingerprint` | tickets/tickets.go:27-34 | two lists whose unassigned tickets agree in number and, in order, in their titles have the same fingerprint, however their assigned tickets differ |
| `Tickets.RemovingAssignedTicketKeepsFingerprint` | tickets/tickets.go:27-34 | dropping an assigned ticket from the list leaves the unassigned tickets, and so the fingerprint, exactly as they were; read backwards, so does adding one |
| `Tickets.ChangingAssignedTicketKeepsFingerprint` | tickets/tickets.go:28-34 | replacing an assigned ticket by another assigned one leaves the fingerprint unchanged |
| `Tickets.ChangingOtherFieldsKeepsFingerprint` | tickets/tickets.go:28-34 | changing the fields other than the title of an unassigned ticket leaves the fingerprint unchanged |
| `Tickets.ResplitTitlesKeepsFingerprint` | tickets/tickets.go:29-33 | titles are joined without separator: two unassigned tickets titled A and B fingerprint like one titled AB |
| `Tickets.SingleTicket` | tickets/tickets.go:28-32 | a one-ticket list keeps the ticket iff it is unassigned, and its titles are that ticket's title |
| `Tickets.SingleUnassignedFingerprint` | tickets/tickets.go:28-34 | a list of one unassigned ticket is fingerprinted by the digest of its title |
| `Tickets.TicketCollection.constructor` | web/webApp.go:46-51 | a collection holds the given list and the empty hash |
| `Tickets.TicketCollection.CheckForNewHash` | tickets/tickets.go:27-42 | afterwards the stored hash is the fingerprint of the list; the result is true iff that differs from the hash stored before; the list is unchanged |
| `Tickets.TicketCollection.GetCurrentHash` | tickets/tickets.go:58-62 | returns the stored hash without changing anything |
| `Tickets.TicketCollection.SetTickets` | tickets/tickets.go:65-69 | the list becomes the given list; the stored hash is unchanged |
| `Tickets.CheckForNewHashTwice` | tickets/tickets.go:37-41 | two checks with no SetTickets in between: the second returns false and the list and hash stay as the first check left them |
| `Secrets.Split` | secrets/secrets.go:78-83 | None iff the file is shorter than 28 bytes; otherwise a 16-byte salt and a 12-byte nonce that, framed again with the ciphertext, give back the file |
| `Secrets.SplitFrame` | secrets/secrets.go:81-83 | splitting a framed file at 16 and 28 recovers exactly the salt, nonce and ciphertext, and the file is 28 bytes longer than the ciphertext |
| `Secrets.EncryptedFileLayout` | secrets/secrets.go:150-153 | a written file is 16 + 12 + the ciphertext length long and splits into the drawn salt, the drawn nonce and the sealed encoding of the triple |
| `Secrets.EncryptSucceeds` | secrets/secrets.go:114-150 | with sound primitives, encryption fails only when gob encoding or crypto/rand fails |
| `Secrets.DecryptAfterEncrypt` | secrets/secrets.go:68-111 | round trip: with sound primitives, decrypting the written file with the same password restores the triple that was encrypted |
| `Secrets.ShortFileIsRefused` | secrets/secrets.go:78-80 | a file shorter than salt plus nonce fails with TooShort, whatever the password |
| `Secrets.WrongPasswordFailsClosed` | secrets/secrets.go:88-101 | if a tag made with one key never verifies under another, a password deriving a different key fails with AuthenticationError |
| `Secrets.SecretsCollection.constructor` | web/webApp.go:50 | the vault starts with the empty triple over the existing file |
| `Secrets.SecretsCollection.SetSecrets` | secrets/secrets.go:36-42 | stores the triple from arguments given as integration code, secret, username; the file is untouched |
| `Secrets.SecretsCollection.GetSecrets` | secrets/secrets.go:45-49 | returns the stored triple as integration code, secret, username |
| `Secrets.SecretsCollection.SecretsAreLoaded` | secrets/secrets.go:51-55 | true iff secret, integration code and username are all non-empty |
| `Secrets.SecretsCollection.EncFilePresent` | secrets/secrets.go:57-65 | true iff the vault file exists; it picks the unlock branch or the entry branch of `HandleSecrets` and `HandleReceiveSecrets`, whose contracts state both cases |
| `Secrets.SecretsCollection.DecryptSecrets` | secrets/secrets.go:68-111 | on success the triple becomes the decrypted one; on a read, length, cipher, tag or decode failure it returns that error and leaves the triple unchanged; the file is never changed |
| `Secrets.SecretsCollection.EncryptToDisk` | secrets/secrets.go:114-157 | never changes the triple; on success the file becomes `salt ++ nonce ++ ciphertext`; on any failure it returns that error and leaves the file as it was |
| `Secrets.SetThenGet` | secrets/secrets.go:36-49 | SetSecrets(ic, s, u) followed by GetSecrets returns (ic, s, u) |
| `Secrets.EncryptThenDecrypt` | secrets/secrets.go:68-157 | with sound primitives, EncryptToDisk then DecryptSecrets with the same password both succeed, and the triple is the one that was in memory |
| `Flags.ValidActiveHoursIsWindow` | main.go:63-75 | the three active-hours checks accept exactly the windows 0 <= start < end <= 23 |
| `Flags.CommandLine.constructor` | main.go:42-48 | the flag variables hold the parsed values |
| `Flags.CommandLine.ValidateFlags` | main.go:50-76 | as written: the port ends in [1, 65535]; it is reset to 8880 when the port or the poll rate is out of range; the poll rate is never changed; afterwards 0 <= start < end <= 23; a valid pair is kept and a rejected one becomes (6, 18) |
| `Flags.CommandLine.ValidateFlagsIntended` | main.go:50-76 | as intended: the port depends on the port flag alone and an invalid poll rate becomes 30; the active hours are handled as in ValidateFlags |
| `Flags.CommandLine.ValidateActiveHours` | main.go:63-75 | the if/else-if chain: afterwards 0 <= start < end <= 23, a valid pair is kept and any rejected pair becomes exactly (6, 18) |
| `Flags.PollRateResetsPort` | main.go:53-61 | port 8080 with poll rate 0 comes out as port 8880 and poll rate 0 |
| `Flags.PollRateResetIntended` | main.go:53-61 | the corrected checks turn the same input into port 8080 and poll rate 30 |
| `Sync.ServerParams.GetActive` | web/webApp.go:173-179 | true iff apiStartHour <= hour < apiEndHour, the half-open window |
| `Sync.DefaultActiveHours` | main.go:39-40 | with the defaults 6 and 18, hours 5 and 18 are inactive and exactly the hours 6 to 17 are active |
| `Sync.PollTickKeepsCacheInvariant` | web/webApp.go:102-154 | every tick keeps "hash is the fingerprint of the list, or the initial empty state"; outside a successful fetch (out of hours, no credentials, fetch error) the state is unchanged |
| `Sync.RepeatedPollDoesNotBroadcast` | web/webApp.go:132-154 | two successful polls fetching the same list: the second never requests a broadcast |
| `Sync.UnseenChurnDoesNotBroadcast` | web/webApp.go:138-154 | from a consistent cache (the stored hash is the list's fingerprint), a fetch whose unassigned tickets agree with the cached ones in number and, in order, in their titles requests no broadcast: assigned tickets may come, go or change, and non-title fields may change |
| `Sync.AssignedTicketClosedDoesNotBroadcast` | web/webApp.go:138-154 | from a consistent cache, a fetch that only drops one assigned ticket requests no broadcast |
| `Sync.BroadcastIffTitlesChanged` | web/webApp.go:138-154 | from a consistent cache (the stored hash is the list's fingerprint) and assuming the digest never collides, a successful poll broadcasts iff the concatenated unassigned titles changed; the initial state (no tickets, empty hash) is not consistent, and its first successful poll broadcasts even when the titles text stays empty |
| `Sync.ThreePollScenario` | web/webApp.go:148-154 | from the initial state, polls returning [A], [A], [B] broadcast on the first and third poll only, if the digest is never empty and tells A from B |
| `Web.FanOutRemovesOnlyTheDead` | web/webSockets.go:61-70 | with N members of which exactly one fails its write, the fan-out keeps the other N - 1 |
| `Web.ApiStatus.constructor` | web/webApp.go:183-186 | the last good API time starts as the zero time |
| `Web.ApiStatus.SetGood` | web/webApp.go:189-193 | the last good API time becomes the current time |
| `Web.ApiStatus.GetTime` | web/webApp.go:196-200 | returns the last good API time |
| `Web.WebApp.constructor` | web/webApp.go:36-61 | a new application has the empty triple, an empty ticket list with an empty hash, the zero time and no viewers |
| `Web.WebApp.PollApi` | web/webApp.go:120-157 | without loaded credentials, NotAuthenticated and nothing changes; on a fetch failure, nothing changes; on success the last good time is now, the list is the fetched one, the hash is its fingerprint and a broadcast is requested iff the hash changed; the final state is `Poll` of the old one |
| `Web.WebApp.PeriodicPollTick` | web/webApp.go:102-116 | outside the active window nothing changes; otherwise pollApi runs, and a requested ticket broadcast removes exactly the viewers whose write fails |
| `Web.WebApp.HandleWsTickets` | web/webSockets.go:19-42 | the ticket snapshot is sent first and the status only if that worked; the new connection stays a member iff both sends succeed; other members are untouched; a failed upgrade changes nothing |
| `Web.WebApp.ReadLoop` | web/webSockets.go:43-54 | the first read error removes this connection and no other; removing an absent connection changes nothing |
| `Web.WebApp.BroadcastTickets` | web/webSockets.go:61-70 | every member is written once; the members afterwards are the old ones minus exactly those whose write failed |
| `Web.WebApp.SendStatusMessage` | web/webSockets.go:73-82 | the message has type "status", the last good API time, and isActive iff the hour is in the window; success is the write's result |
| `Web.WebApp.SendTicketMessage` | web/webSockets.go:102-108 | writes the current unassigned snapshot; success is the write's result |
| `Web.WebApp.BroadcastStatus` | web/webSockets.go:110-116 | every member is written the heartbeat once; membership cannot change, even for the members whose write failed |
| `Web.Startup` | main.go:12-35 | `validateFlags` as written runs first: the port is valid, and it is the given port only when both the port and the poll rate were valid, otherwise 8880; the poll rate is passed on unchanged, even an invalid one; the active window is valid; the application holds exactly these values, no viewers, no tickets and no credentials |
| `Web.StartupIntended` | main.go:12-35 | the corrected startup: the application is built from a valid port, a valid poll rate and a valid active window, with no viewers, no tickets and no credentials |
| `Web.WebApp.HandleRoot` | web/routes.go:19-32 | redirects to /secrets iff the credentials are not loaded; otherwise renders index.html |
| `Web.WebApp.HandleSecrets` | web/routes.go:35-44 | renders the unlock page iff not loaded and the file exists; renders the entry page iff not loaded and there is no file; redirects to / iff loaded |
| `Web.WebApp.HandleReceiveSecrets` | web/routes.go:47-77 | an unbindable body is 400. In unlock mode an empty password is 400, a failed decrypt is 500 with the triple unchanged, and other submitted fields are ignored. In entry mode a missing field is 400 with nothing changed. Otherwise the triple is set and loaded before encryption, so it stays loaded when the save fails with 500 |

## Left out

- The HTTP client of `api/api.go`, its headers and the JSON mapping: the fetch is the `Api` parameter.
- Argon2id, AES-256-GCM, `crypto/rand`, gob, SHA-256 and hex encoding are foreign. They are parameters whose promises are stated by `Sound`. Tamper detection cannot be proved. `WrongPasswordFailsClosed` assumes the needed property of the cipher as a precondition.
- The Argon2id cost parameters (time 1, 64 MiB, 4 threads) are not modelled. Only the 32-byte key length is.
- Secrets.SecretsCollection.DecryptSecrets: gob's decoder writes straight into the stored triple, so a decode that fails midway could leave it partly written. Gob also leaves zero-valued fields out of the stream, and the decoder leaves a field missing from the stream as it was, so even a successful decode of a triple with an empty field keeps the old in-memory value of that field. The model treats decoding as all-or-nothing: on success the decoded triple replaces the stored one. Only a file not written by the entry route can carry an empty field, since that route refuses empty fields.
- Secrets.SecretsCollection.EncryptToDisk: `os.WriteFile` can leave a truncated file when it fails. The model treats a failed write as leaving the file unchanged.
- `EncFilePresent` (`os.Stat`) and `os.ReadFile` both look at the field `disk`. A file that exists but cannot be read is not modelled.
- Passwords are modelled as bytes. The `[]byte(string)` UTF-8 conversion is not modelled, and an empty password is the empty byte sequence.
- Concurrency is not modelled: goroutines, `sync.Mutex` and `RWMutex`, and tickers. Everything is sequential. This leaves out `SetSecrets` writing under a read lock, and the cache changing between the per-client snapshot reads of `broadcastTickets`.
- `go w.pollApi()` in `handleReceiveSecrets` is reported as `pollStarted`. The `go w.broadcastTickets()` of `pollApi` is run to completion inside `PeriodicPollTick`.
- `periodicallyPollApi` is an endless ticker loop. Only its body is modelled (`PeriodicPollTick`). The ticker itself is not modelled, so neither is what `time.NewTicker` does with the non-positive poll rate that `Web.Startup` can pass on (web/webApp.go:99): the Go documentation says it panics.
- `periodicStatusBroadcast` is not modelled. `Start` starts a `periodicallyBroadcastStatus` that is not defined in these files, so only `broadcastStatus` is modelled.
- Websocket plumbing is not modelled: upgrade details, `Close`, echo routing, middleware, template rendering, static files, `os.Executable` and the index page data. Only the response kind, status, template or location, and error text are kept.
- RFC 3339 formatting of the last good API time is not modelled (for the format, see section 5.6 of RFC 3339). The status message carries the time itself.
- Logging and printing are not modelled, nor the hash-prefix slicing used only for log lines (web/webApp.go:139-151).
- `flag.Parse` and the development version string of `main` are not modelled; the version string is a parameter of `Web.Startup`.
- Injectivity of SHA-256 cannot be proved. "A title change causes a broadcast" is stated under an explicit no-collision precondition (`Sync.BroadcastIffTitlesChanged`). `Sync.ThreePollScenario` only assumes that the digest is never empty and that it tells "A" from "B".

## Findings

| source | as written | input that shows it | evidently intended | confidence | as-written member | corrected member |
|---|---|---|---|---|---|---|
| main.go:58-61 | an out-of-range poll rate resets `*port` to 8880 and keeps the poll rate | port 8080, poll rate 0: the result is port 8880 and poll rate 0 | reset `*pollRate` to 30 and leave the port alone | high (not executed) | `Flags.CommandLine.ValidateFlags`, `Flags.PollRateResetsPort`, `Web.Startup` | `Flags.CommandLine.ValidateFlagsIntended`, `Flags.PollRateResetIntended`, `Web.StartupIntended` |
