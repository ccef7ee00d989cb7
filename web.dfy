/**
 * The web application of web/webApp.go, web/webSockets.go and web/routes.go:
 * the poll cycle over the vault and the ticket cache, the registry of live
 * viewer connections with its fan-out, and the secrets routes.
 */
module Web {
  import opened Wrappers
  import opened Tickets
  import opened Secrets
  import opened Sync
  import Flags

  /** A viewer's websocket connection. */
  type ConnId = nat

  const StatusType := "status"

  /** What is written to a viewer: the unassigned-ticket snapshot, or a
      status heartbeat (the last good API time, still unformatted). */
  datatype Message =
    | TicketsMessage(tickets: seq<Ticket>)
    | StatusMessage(kind: string, lastApiCheck: Time, isActive: bool)

  /** Whether writing a message to a connection succeeds. */
  type WriteOracle = (ConnId, Message) -> bool

  /** The connections of `cs` whose write of `m` fails. */
  function FailedWrites(cs: set<ConnId>, ok: WriteOracle, m: Message): set<ConnId> {
    set c | c in cs && !ok(c, m)
  }

  /** One dead connection among live ones: a ticket fan-out removes only it. */
  lemma FanOutRemovesOnlyTheDead(cs: set<ConnId>, ok: WriteOracle, m: Message, dead: ConnId)
    requires dead in cs && !ok(dead, m)
    requires forall c :: c in cs && c != dead ==> ok(c, m)
    ensures cs - FailedWrites(cs, ok, m) == cs - {dead}
    ensures |cs - FailedWrites(cs, ok, m)| == |cs| - 1
  {
    assert FailedWrites(cs, ok, m) == {dead};
  }

  const StatusOK := 200
  const StatusSeeOther := 303
  const StatusBadRequest := 400
  const StatusInternalServerError := 500

  /** An HTTP response of the routes: a rendered page, a redirect, or a JSON error. */
  datatype Response =
    | Render(status: int, template: string)
    | Redirect(status: int, location: string)
    | JsonError(status: int, error: string)

  /** The JSON body posted to /submitSecrets. */
  datatype Submission = Submission(username: string, integrationCode: string, secret: string, password: Bytes)

  /** A submission in entry mode needs all four fields. */
  predicate MissingField(s: Submission) {
    s.username == "" || s.integrationCode == "" || s.secret == "" || |s.password| == 0
  }

  /** How handleWsTickets ended. */
  datatype WsOutcome =
    | UpgradeFailed  // the websocket upgrade was refused
    | Dropped        // an initial send failed: the connection was removed
    | Listening      // both initial sends succeeded: the read loop runs

  /** The time of the last successful API call (apiStatus). */
  class ApiStatus {
    var time: Time

    constructor ()
      ensures time == ZeroTime
    {
      time := ZeroTime;
    }

    /** Stamps the current time `now`. */
    method SetGood(now: Time)
      modifies this
      ensures time == now
    {
      time := now;
    }

    method GetTime() returns (t: Time)
      ensures t == time
    {
      t := time;
    }
  }

  class WebApp {
    const sc: SecretsCollection
    const tc: TicketCollection
    const lastGoodApi: ApiStatus
    const serverParams: ServerParams
    /** The live viewer connections (the keys of wsClients.clients). */
    var clients: set<ConnId>

    /** NewWebApp: an empty vault over the file at `saveFilePath`, an empty
        ticket list with an empty hash, no viewers. */
    constructor (params: ServerParams, saveFilePath: string, suite: Suite, disk: Option<Bytes>, digest: Digest)
      ensures fresh(sc) && fresh(tc) && fresh(lastGoodApi)
      ensures sc.secrets == NoCredentials && sc.disk == disk && sc.suite == suite
      ensures tc.tickets == [] && tc.hash == "" && tc.digest == digest
      ensures lastGoodApi.time == ZeroTime && clients == {} && serverParams == params
    {
      sc := new SecretsCollection(saveFilePath, suite, disk);
      tc := new TicketCollection(digest, []);
      lastGoodApi := new ApiStatus();
      serverParams := params;
      clients := {};
    }

    /** The state a poll cycle reads and writes. */
    function State(): SyncState
      reads tc, lastGoodApi
    {
      SyncState(tc.tickets, tc.hash, lastGoodApi.time)
    }

    // ---- web/webApp.go: the poll cycle ----

    /** pollApi: without credentials no fetch is made; a failed fetch changes
        nothing; a successful one stamps `now`, replaces the list and
        refreshes the fingerprint, and asks for a broadcast iff it changed. */
    method PollApi(now: Time, api: Api) returns (outcome: PollOutcome)
      modifies tc, lastGoodApi
      ensures (State(), outcome) == Poll(tc.digest, old(State()), sc.secrets, api, now)
      ensures outcome == NotAuthenticated <==> !sc.SecretsAreLoaded()
      ensures !outcome.Fetched? ==> State() == old(State())
      ensures outcome.Fetched? ==>
                && lastGoodApi.time == now
                && api(sc.secrets.integrationCode, sc.secrets.secret, sc.secrets.username) == Success(tc.tickets)
                && tc.hash == Fingerprint(tc.digest, tc.tickets)
                && (outcome.broadcast <==> tc.hash != old(tc.hash))
    {
      var loaded := sc.SecretsAreLoaded();
      if !loaded {
        return NotAuthenticated;
      }
      var integrationCode, secret, username := sc.GetSecrets();
      var freshTickets := api(integrationCode, secret, username);
      if freshTickets.Failure? {
        return FetchFailed;
      }
      lastGoodApi.SetGood(now);
      tc.SetTickets(freshTickets.value);
      var changed := tc.CheckForNewHash();
      return Fetched(changed);
    }

    /** The body of the periodicallyPollApi loop for one tick at `hour` and
        `now`. The broadcast pollApi starts in a goroutine is run to
        completion here, with `ok` deciding each write. */
    method PeriodicPollTick(hour: int, now: Time, api: Api, ok: WriteOracle) returns (outcome: PollOutcome)
      modifies tc, lastGoodApi, this`clients
      ensures (State(), outcome) == PollTick(serverParams, tc.digest, old(State()), sc.secrets, api, hour, now)
      ensures outcome == OutOfHours <==> !serverParams.GetActive(hour)
      ensures clients == if outcome == Fetched(true)
                         then old(clients) - FailedWrites(old(clients), ok, TicketsMessage(Unassigned(tc.tickets)))
                         else old(clients)
    {
      if !serverParams.GetActive(hour) {
        return OutOfHours;
      }
      outcome := PollApi(now, api);
      if outcome == Fetched(true) {
        var _ := BroadcastTickets(ok);
      }
    }

    // ---- web/webSockets.go: the connection registry ----

    /** handleWsTickets: register the upgraded connection, send it the ticket
        snapshot and then (only if that worked) the status; drop it if either
        send fails. `upgrade` is the new connection, None when the upgrade
        fails; `sent` lists the messages written to it, in order. */
    method HandleWsTickets(upgrade: Option<ConnId>, hour: int, ok: WriteOracle) returns (outcome: WsOutcome, sent: seq<Message>)
      requires upgrade.Some? ==> upgrade.value !in clients
      modifies this`clients
      ensures upgrade.None? ==> outcome == UpgradeFailed && sent == [] && clients == old(clients)
      ensures upgrade.Some? ==>
                var c := upgrade.value;
                var snapshot := TicketsMessage(Unassigned(tc.tickets));
                var status := StatusMessage(StatusType, lastGoodApi.time, serverParams.GetActive(hour));
                && sent == (if ok(c, snapshot) then [snapshot, status] else [snapshot])
                && (outcome == Listening <==> ok(c, snapshot) && ok(c, status))
                && outcome != UpgradeFailed
                && clients == if outcome == Listening then old(clients) + {c} else old(clients)
    {
      if upgrade.None? {
        return UpgradeFailed, [];
      }
      var conn := upgrade.value;
      clients := clients + {conn};
      var snapshot, sentTickets := SendTicketMessage(conn, ok);
      sent := [snapshot];
      if !sentTickets {
        clients := clients - {conn};
        return Dropped, sent;
      }
      var status, sentStatus := SendStatusMessage(conn, hour, ok);
      sent := sent + [status];
      if !sentStatus {
        clients := clients - {conn};
        return Dropped, sent;
      }
      return Listening, sent;
    }

    /** The read loop started for a listening connection: `results` holds the
        outcomes of successive ReadMessage calls (false for an error). The
        first error removes this connection and nothing else. */
    method ReadLoop(conn: ConnId, results: seq<bool>) returns (closed: bool)
      modifies this`clients
      ensures closed <==> false in results
      ensures clients == if closed then old(clients) - {conn} else old(clients)
    {
      for i := 0 to |results|
        invariant forall j :: 0 <= j < i ==> results[j]
        invariant clients == old(clients)
      {
        if !results[i] {
          clients := clients - {conn};
          return true;
        }
      }
      return false;
    }

    /** broadcastTickets: write the unassigned snapshot to every connection
        and remove exactly those whose write fails. */
    method BroadcastTickets(ok: WriteOracle) returns (attempted: set<ConnId>)
      modifies this`clients
      ensures attempted == old(clients)
      ensures clients == old(clients) - FailedWrites(old(clients), ok, TicketsMessage(Unassigned(tc.tickets)))
    {
      ghost var snapshot := TicketsMessage(Unassigned(tc.tickets));
      var pending := clients;
      attempted := {};
      while pending != {}
        invariant pending <= old(clients)
        invariant attempted == old(clients) - pending
        invariant clients == old(clients) - FailedWrites(attempted, ok, snapshot)
        decreases pending
      {
        var c :| c in pending;
        var unassigned := tc.GetUnassignedTickets();
        if !ok(c, TicketsMessage(unassigned)) {
          clients := clients - {c};
        }
        pending := pending - {c};
        attempted := attempted + {c};
      }
    }

    /** sendStatusMessage: the heartbeat written to `c` at hour `hour`. */
    method SendStatusMessage(c: ConnId, hour: int, ok: WriteOracle) returns (msg: Message, success: bool)
      ensures msg.StatusMessage? && msg.kind == StatusType && msg.lastApiCheck == lastGoodApi.time
      ensures msg.isActive <==> serverParams.apiStartHour <= hour < serverParams.apiEndHour
      ensures success == ok(c, msg)
    {
      var t := lastGoodApi.GetTime();
      msg := StatusMessage(StatusType, t, serverParams.GetActive(hour));
      success := ok(c, msg);
    }

    /** sendTicketMessage: the unassigned snapshot written to `conn`. */
    method SendTicketMessage(conn: ConnId, ok: WriteOracle) returns (msg: Message, success: bool)
      ensures msg == TicketsMessage(Unassigned(tc.tickets))
      ensures success == ok(conn, msg)
    {
      var unassigned := tc.GetUnassignedTickets();
      msg := TicketsMessage(unassigned);
      success := ok(conn, msg);
    }

    /** broadcastStatus: every connection is written the heartbeat, and none
        is removed, not even those in `failed` whose write failed. */
    method BroadcastStatus(hour: int, ok: WriteOracle) returns (attempted: set<ConnId>, failed: set<ConnId>)
      ensures attempted == clients
      ensures failed == FailedWrites(clients, ok, StatusMessage(StatusType, lastGoodApi.time, serverParams.GetActive(hour)))
    {
      var pending := clients;
      attempted, failed := {}, {};
      while pending != {}
        invariant pending <= clients
        invariant attempted == clients - pending
        invariant failed == FailedWrites(attempted, ok, StatusMessage(StatusType, lastGoodApi.time, serverParams.GetActive(hour)))
        decreases pending
      {
        var c :| c in pending;
        var _, success := SendStatusMessage(c, hour, ok);
        if !success {
          failed := failed + {c};
        }
        pending := pending - {c};
        attempted := attempted + {c};
      }
    }

    // ---- web/routes.go: the secrets routes ----

    /** handleRoot: without loaded credentials, send the viewer to /secrets. */
    function HandleRoot(): (r: Response)
      reads sc
      ensures r == Redirect(StatusSeeOther, "/secrets") <==> !sc.SecretsAreLoaded()
      ensures sc.SecretsAreLoaded() ==> r == Render(StatusOK, "index.html")
    {
      if !sc.SecretsAreLoaded() then Redirect(StatusSeeOther, "/secrets")
      else Render(StatusOK, "index.html")
    }

    /** handleSecrets: unlock an existing vault file, enter new credentials,
        or go back to / when they are already loaded. */
    function HandleSecrets(): (r: Response)
      reads sc
      ensures r == Render(StatusOK, "unlockSecrets.html") <==> !sc.SecretsAreLoaded() && sc.EncFilePresent()
      ensures r == Render(StatusOK, "enterSecrets.html") <==> !sc.SecretsAreLoaded() && !sc.EncFilePresent()
      ensures r == Redirect(StatusSeeOther, "/") <==> sc.SecretsAreLoaded()
    {
      if !sc.SecretsAreLoaded() then
        if sc.EncFilePresent() then Render(StatusOK, "unlockSecrets.html")
        else Render(StatusOK, "enterSecrets.html")
      else Redirect(StatusSeeOther, "/")
    }

    /** handleReceiveSecrets. `submission` is the bound JSON body (None when
        binding fails); `salt`, `nonce` and `writeOk` feed EncryptToDisk;
        `pollStarted` says whether a pollApi goroutine was started. */
    method HandleReceiveSecrets(submission: Option<Submission>, salt: Option<Bytes>, nonce: Option<Bytes>, writeOk: bool)
      returns (r: Response, pollStarted: bool)
      requires salt.Some? ==> |salt.value| == SaltLength
      requires nonce.Some? ==> |nonce.value| == NonceLength
      modifies sc
      ensures submission.None? ==>
                && r == JsonError(StatusBadRequest, "Invalid JSON") && !pollStarted
                && sc.secrets == old(sc.secrets) && sc.disk == old(sc.disk)
      // unlock mode: only the password is used
      ensures submission.Some? && old(sc.disk).Some? ==>
                var password := submission.value.password;
                var decrypted := DecryptedTriple(sc.suite, old(sc.disk), password);
                && sc.disk == old(sc.disk)
                && (|password| == 0 ==>
                      r == JsonError(StatusBadRequest, "Password is required") && !pollStarted && sc.secrets == old(sc.secrets))
                && (|password| != 0 && decrypted.Failure? ==>
                      r == JsonError(StatusInternalServerError, "Failed to decrypt API Key") && !pollStarted && sc.secrets == old(sc.secrets))
                && (|password| != 0 && decrypted.Success? ==>
                      r == Redirect(StatusSeeOther, "/") && pollStarted && sc.secrets == decrypted.value)
      // entry mode: all four fields are needed
      ensures submission.Some? && old(sc.disk).None? ==>
                var s := submission.value;
                var saved := EncryptedFile(sc.suite, sc.secrets, s.password, salt, nonce);
                && (MissingField(s) ==>
                      && r == JsonError(StatusBadRequest, "API Key and Password are required") && !pollStarted
                      && sc.secrets == old(sc.secrets) && sc.disk == old(sc.disk))
                && (!MissingField(s) ==>
                      && sc.secrets == Credentials(s.username, s.integrationCode, s.secret)
                      && sc.SecretsAreLoaded() && pollStarted
                      && (saved.Success? && writeOk ==> r == Redirect(StatusSeeOther, "/") && sc.disk == Some(saved.value))
                      && (!(saved.Success? && writeOk) ==>
                            r == JsonError(StatusInternalServerError, "Failed to save secrets") && sc.disk == old(sc.disk)))
    {
      if submission.None? {
        return JsonError(StatusBadRequest, "Invalid JSON"), false;
      }
      var s := submission.value;
      if sc.EncFilePresent() {
        if |s.password| == 0 {
          return JsonError(StatusBadRequest, "Password is required"), false;
        }
        var err := sc.DecryptSecrets(s.password, 1024);
        if err.Some? {
          return JsonError(StatusInternalServerError, "Failed to decrypt API Key"), false;
        }
        return Redirect(StatusSeeOther, "/"), true;
      }
      if MissingField(s) {
        return JsonError(StatusBadRequest, "API Key and Password are required"), false;
      }
      sc.SetSecrets(s.integrationCode, s.secret, s.username);
      pollStarted := true;
      var err := sc.EncryptToDisk(s.password, salt, nonce, writeOk);
      if err.Some? {
        return JsonError(StatusInternalServerError, "Failed to save secrets"), pollStarted;
      }
      return Redirect(StatusSeeOther, "/"), pollStarted;
    }
  }

  /** main as written: validate the parsed flags with validateFlags, whose
      poll-rate check resets the port and keeps the bad poll rate, then build
      the application from them. */
  method Startup(flags: Flags.CommandLine, saveFilePath: string, verboseApi: bool, versionStr: string,
                 suite: Suite, disk: Option<Bytes>, digest: Digest) returns (w: WebApp)
    modifies flags
    ensures fresh(w) && w.clients == {} && w.tc.tickets == [] && w.sc.secrets == NoCredentials
    ensures Flags.ValidPort(w.serverParams.port)
    ensures w.serverParams.port ==
              if Flags.ValidPort(old(flags.port)) && Flags.ValidPollRate(old(flags.pollRate)) then old(flags.port)
              else Flags.DefaultPort
    ensures w.serverParams.pollRate == old(flags.pollRate)
    ensures 0 <= w.serverParams.apiStartHour < w.serverParams.apiEndHour <= 23
    ensures w.serverParams.port == flags.port && w.serverParams.pollRate == flags.pollRate
    ensures w.serverParams.apiStartHour == flags.apiStart && w.serverParams.apiEndHour == flags.apiEnd
  {
    flags.ValidateFlags();
    var params := ServerParams(flags.pollRate, flags.port, verboseApi, flags.apiStart, flags.apiEnd, versionStr);
    w := new WebApp(params, saveFilePath, suite, disk, digest);
  }

  /** main with the corrected poll-rate check: the application is built only
      from a valid port, a valid poll rate and a valid active window. */
  method StartupIntended(flags: Flags.CommandLine, saveFilePath: string, verboseApi: bool, versionStr: string,
                         suite: Suite, disk: Option<Bytes>, digest: Digest) returns (w: WebApp)
    modifies flags
    ensures fresh(w) && w.clients == {} && w.tc.tickets == [] && w.sc.secrets == NoCredentials
    ensures Flags.ValidPort(w.serverParams.port) && Flags.ValidPollRate(w.serverParams.pollRate)
    ensures 0 <= w.serverParams.apiStartHour < w.serverParams.apiEndHour <= 23
    ensures w.serverParams.port == flags.port && w.serverParams.pollRate == flags.pollRate
    ensures w.serverParams.apiStartHour == flags.apiStart && w.serverParams.apiEndHour == flags.apiEnd
  {
    flags.ValidateFlagsIntended();
    var params := ServerParams(flags.pollRate, flags.port, verboseApi, flags.apiStart, flags.apiEnd, versionStr);
    w := new WebApp(params, saveFilePath, suite, disk, digest);
  }
}
