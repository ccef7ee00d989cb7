/**
 * The poll cycle of web/webApp.go as a function of its inputs: the active-hours
 * window, the three outcomes of pollApi, and the facts about when a ticket
 * broadcast is requested. The WebApp class carries this out step by step.
 */
module Sync {
  import opened Wrappers
  import opened Tickets
  import Secrets
  import Flags

  /** An instant, standing for Go's time.Time; ZeroTime is its zero value. */
  type Time = int
  const ZeroTime: Time := 0

  /** The server parameters fixed when the application is built (serverParams). */
  datatype ServerParams = ServerParams(
    pollRate: int,
    port: int,
    verboseApi: bool,
    apiStartHour: int,
    apiEndHour: int,
    versionStr: string)
  {
    /** Whether `hour` (the current hour of the day) lies in the half-open
        active window. */
    function GetActive(hour: int): (active: bool)
      ensures active <==> apiStartHour <= hour < apiEndHour
    {
      !(hour < apiStartHour || hour >= apiEndHour)
    }
  }

  /** With the default window 6-18, hours 5 and 18 are inactive and exactly
      the hours 6 to 17 are active. */
  lemma DefaultActiveHours(p: ServerParams)
    requires p.apiStartHour == Flags.DefaultApiStart && p.apiEndHour == Flags.DefaultApiEnd
    ensures !p.GetActive(5) && !p.GetActive(18)
    ensures forall hour :: p.GetActive(hour) <==> 6 <= hour <= 17
  {
  }

  /** The upstream call api.GetOpenTickets(integrationCode, secret, username). */
  type Api = (string, string, string) -> Result<seq<Ticket>, string>

  /** The state a poll cycle reads and writes: the cached list, its stored
      fingerprint, and the time of the last successful fetch. */
  datatype SyncState = SyncState(tickets: seq<Ticket>, hash: string, lastGoodApi: Time)

  /** How a poll tick ended. */
  datatype PollOutcome =
    | OutOfHours                // the tick fell outside the active window
    | NotAuthenticated          // no credentials loaded: no fetch attempted
    | FetchFailed               // the fetch returned an error
    | Fetched(broadcast: bool)  // the cache was replaced; broadcast if the fingerprint changed

  /** pollApi: check the vault, fetch with its credentials, and on success
      stamp the time, replace the list and refresh the fingerprint. */
  function Poll(digest: Digest, st: SyncState, creds: Secrets.Credentials, api: Api, now: Time): (SyncState, PollOutcome)
  {
    if !Secrets.Loaded(creds) then (st, NotAuthenticated)
    else
      match api(creds.integrationCode, creds.secret, creds.username)
      case Failure(_) => (st, FetchFailed)
      case Success(fetched) =>
        var fingerprint := Fingerprint(digest, fetched);
        (SyncState(fetched, fingerprint, now), Fetched(fingerprint != st.hash))
  }

  /** One tick of periodicallyPollApi: outside the window nothing happens. */
  function PollTick(params: ServerParams, digest: Digest, st: SyncState, creds: Secrets.Credentials, api: Api, hour: int, now: Time): (SyncState, PollOutcome)
  {
    if !params.GetActive(hour) then (st, OutOfHours) else Poll(digest, st, creds, api, now)
  }

  /** The cache invariant: the stored fingerprint is that of the stored list,
      except in the initial state (no tickets, empty hash). */
  predicate CacheInvariant(digest: Digest, st: SyncState) {
    st.hash == Fingerprint(digest, st.tickets) || (st.tickets == [] && st.hash == "")
  }

  /** Every poll tick keeps the cache invariant, and after a successful fetch
      the stored fingerprint is that of the new list. */
  lemma PollTickKeepsCacheInvariant(params: ServerParams, digest: Digest, st: SyncState, creds: Secrets.Credentials, api: Api, hour: int, now: Time)
    requires CacheInvariant(digest, st)
    ensures var (st', outcome) := PollTick(params, digest, st, creds, api, hour, now);
            && CacheInvariant(digest, st')
            && (outcome.Fetched? ==> st'.hash == Fingerprint(digest, st'.tickets))
            && (!outcome.Fetched? ==> st' == st)
  {
  }

  /** Fetching the same list twice in a row broadcasts at most once: the
      second poll never requests a broadcast. */
  lemma RepeatedPollDoesNotBroadcast(digest: Digest, st: SyncState, creds: Secrets.Credentials, api1: Api, api2: Api, now1: Time, now2: Time)
    requires Secrets.Loaded(creds)
    requires api1(creds.integrationCode, creds.secret, creds.username).Success?
    requires api2(creds.integrationCode, creds.secret, creds.username) == api1(creds.integrationCode, creds.secret, creds.username)
    ensures Poll(digest, Poll(digest, st, creds, api1, now1).0, creds, api2, now2).1 == Fetched(false)
  {
  }

  /** From a consistent cache, churn that the fingerprint does not see
      (assigned tickets coming, going or changing; fields other than the
      title) never triggers a broadcast. */
  lemma UnseenChurnDoesNotBroadcast(digest: Digest, st: SyncState, creds: Secrets.Credentials, api: Api, now: Time)
    requires st.hash == Fingerprint(digest, st.tickets)
    requires Secrets.Loaded(creds)
    requires api(creds.integrationCode, creds.secret, creds.username).Success?
    requires SameUnassignedTitles(st.tickets, api(creds.integrationCode, creds.secret, creds.username).value)
    ensures Poll(digest, st, creds, api, now).1 == Fetched(false)
  {
    SameUnassignedTitlesKeepsFingerprint(digest, st.tickets, api(creds.integrationCode, creds.secret, creds.username).value);
  }

  /** From a consistent cache, a fetch that only drops an assigned ticket
      (closed upstream) requests no broadcast. */
  lemma AssignedTicketClosedDoesNotBroadcast(digest: Digest, st: SyncState, creds: Secrets.Credentials, api: Api, now: Time, i: int)
    requires st.hash == Fingerprint(digest, st.tickets)
    requires Secrets.Loaded(creds)
    requires 0 <= i < |st.tickets| && !IsUnassigned(st.tickets[i])
    requires api(creds.integrationCode, creds.secret, creds.username) == Success(st.tickets[..i] + st.tickets[i + 1..])
    ensures Poll(digest, st, creds, api, now).1 == Fetched(false)
  {
    RemovingAssignedTicketKeepsFingerprint(digest, st.tickets, i);
  }

  /** From a consistent cache (the stored hash is the fingerprint of the
      stored list) and assuming the digest has no collisions, a successful poll
      broadcasts exactly when the concatenated unassigned titles changed. The
      initial state (no tickets, empty hash) is not consistent: its first
      successful poll broadcasts even when the titles text stays empty. */
  lemma BroadcastIffTitlesChanged(digest: Digest, st: SyncState, creds: Secrets.Credentials, api: Api, now: Time)
    requires forall x, y :: digest(x) == digest(y) ==> x == y
    requires st.hash == Fingerprint(digest, st.tickets)
    requires Secrets.Loaded(creds)
    requires api(creds.integrationCode, creds.secret, creds.username).Success?
    ensures var fetched := api(creds.integrationCode, creds.secret, creds.username).value;
            Poll(digest, st, creds, api, now).1 == Fetched(FingerprintInput(fetched) != FingerprintInput(st.tickets))
  {
  }

  /** From the initial state, successful polls returning [A], [A], [B]
      broadcast on the first and third poll only, provided the digest is never
      empty and tells "A" from "B". */
  lemma ThreePollScenario(digest: Digest, creds: Secrets.Credentials, api1: Api, api2: Api, api3: Api, a: Ticket, b: Ticket, t0: Time, t1: Time, t2: Time, t3: Time)
    requires forall x :: digest(x) != ""
    requires digest("A") != digest("B")
    requires IsUnassigned(a) && a.title == "A" && IsUnassigned(b) && b.title == "B"
    requires Secrets.Loaded(creds)
    requires api1(creds.integrationCode, creds.secret, creds.username) == Success([a])
    requires api2(creds.integrationCode, creds.secret, creds.username) == Success([a])
    requires api3(creds.integrationCode, creds.secret, creds.username) == Success([b])
    ensures var (s1, o1) := Poll(digest, SyncState([], "", t0), creds, api1, t1);
            var (s2, o2) := Poll(digest, s1, creds, api2, t2);
            var (s3, o3) := Poll(digest, s2, creds, api3, t3);
            o1 == Fetched(true) && o2 == Fetched(false) && o3 == Fetched(true) && s3 == SyncState([b], digest("B"), t3)
  {
    SingleUnassignedFingerprint(digest, a);
    SingleUnassignedFingerprint(digest, b);
  }
}
