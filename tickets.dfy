/**
 * The ticket cache of tickets/tickets.go: the current ticket list and the
 * fingerprint (a digest of the titles of the unassigned tickets) that decides
 * whether viewers are sent a new snapshot.
 */
module Tickets {

  /** One helpdesk ticket as fetched from the API (AutotaskTicket). */
  datatype Ticket = Ticket(
    id: int,
    assignedResourceId: string,
    createDate: string,
    description: string,
    title: string,
    from: string)

  /** SHA-256 followed by hex encoding; left uninterpreted. */
  type Digest = string -> string

  /** A ticket nobody has picked up: its assigned resource id is blank. */
  predicate IsUnassigned(t: Ticket) {
    t.assignedResourceId == ""
  }

  /** The unassigned tickets of `ts`, in their original order. */
  function Unassigned(ts: seq<Ticket>): seq<Ticket> {
    if ts == [] then []
    else
      var last := ts[|ts| - 1];
      Unassigned(ts[..|ts| - 1]) + (if IsUnassigned(last) then [last] else [])
  }

  /** The titles of `ts` concatenated in order. */
  function Titles(ts: seq<Ticket>): string {
    if ts == [] then "" else Titles(ts[..|ts| - 1]) + ts[|ts| - 1].title
  }

  /** The text the fingerprint is computed over. */
  function FingerprintInput(ts: seq<Ticket>): string {
    Titles(Unassigned(ts))
  }

  /** The fingerprint of a ticket list. */
  function Fingerprint(digest: Digest, ts: seq<Ticket>): string {
    digest(FingerprintInput(ts))
  }

  /** Every kept ticket is unassigned and comes from `ts`, every unassigned
      ticket of `ts` is kept, and nothing is added. */
  lemma {:induction false} UnassignedMembers(ts: seq<Ticket>)
    ensures |Unassigned(ts)| <= |ts|
    ensures forall t :: t in Unassigned(ts) <==> t in ts && IsUnassigned(t)
  {
    if ts != [] {
      var init := ts[..|ts| - 1];
      UnassignedMembers(init);
      assert ts == init + [ts[|ts| - 1]];
    }
  }

  /** Filtering distributes over concatenation, so the result keeps the
      relative order of the input. */
  lemma {:induction false} UnassignedAppend(a: seq<Ticket>, b: seq<Ticket>)
    ensures Unassigned(a + b) == Unassigned(a) + Unassigned(b)
  {
    if b == [] {
      assert a + b == a;
    } else {
      var init := b[..|b| - 1];
      assert (a + b)[..|a + b| - 1] == a + init;
      UnassignedAppend(a, init);
    }
  }

  /** The result is exactly the subsequence of `ts` at the positions of the
      unassigned tickets: `idx` lists those positions in increasing order. */
  lemma {:induction false} UnassignedSelection(ts: seq<Ticket>) returns (idx: seq<int>)
    ensures |idx| == |Unassigned(ts)|
    ensures forall k :: 0 <= k < |idx| ==> 0 <= idx[k] < |ts| && Unassigned(ts)[k] == ts[idx[k]]
    ensures forall k, l :: 0 <= k < l < |idx| ==> idx[k] < idx[l]
    ensures forall j :: 0 <= j < |ts| ==> (IsUnassigned(ts[j]) <==> j in idx)
  {
    if ts == [] {
      idx := [];
    } else {
      var n := |ts| - 1;
      var init := ts[..n];
      var prev := UnassignedSelection(init);
      var u := Unassigned(init);
      assert forall j :: 0 <= j < n ==> init[j] == ts[j];
      if IsUnassigned(ts[n]) {
        assert Unassigned(ts) == u + [ts[n]];
        idx := prev + [n];
        SelectionExtend(ts, prev, u, idx, u + [ts[n]]);
      } else {
        assert Unassigned(ts) == u;
        idx := prev;
      }
    }
  }

  /** The step of UnassignedSelection that appends an unassigned last ticket. */
  lemma SelectionExtend(ts: seq<Ticket>, prev: seq<int>, u: seq<Ticket>, idx: seq<int>, v: seq<Ticket>)
    requires ts != [] && |prev| == |u|
    requires forall k :: 0 <= k < |prev| ==> 0 <= prev[k] < |ts| - 1 && u[k] == ts[prev[k]]
    requires idx == prev + [|ts| - 1] && v == u + [ts[|ts| - 1]]
    ensures forall k :: 0 <= k < |idx| ==> 0 <= idx[k] < |ts| && v[k] == ts[idx[k]]
  {
  }

  /** Concatenating titles distributes over concatenating lists. */
  lemma {:induction false} TitlesAppend(a: seq<Ticket>, b: seq<Ticket>)
    ensures Titles(a + b) == Titles(a) + Titles(b)
  {
    if b == [] {
      assert a + b == a;
    } else {
      var init := b[..|b| - 1];
      assert (a + b)[..|a + b| - 1] == a + init;
      TitlesAppend(a, init);
    }
  }

  /** Two lists look the same to the fingerprint when they agree, position by
      position, on which tickets are unassigned and on the titles of those. */
  predicate SameTitleView(a: seq<Ticket>, b: seq<Ticket>) {
    && |a| == |b|
    && forall i :: 0 <= i < |a| ==>
         && IsUnassigned(a[i]) == IsUnassigned(b[i])
         && (IsUnassigned(a[i]) ==> a[i].title == b[i].title)
  }

  /** The fingerprint depends only on the titles of the unassigned tickets. */
  lemma {:induction false} FingerprintInputOnlySeesUnassignedTitles(a: seq<Ticket>, b: seq<Ticket>)
    requires SameTitleView(a, b)
    ensures FingerprintInput(a) == FingerprintInput(b)
  {
    if a != [] {
      var n := |a| - 1;
      assert SameTitleView(a[..n], b[..n]);
      FingerprintInputOnlySeesUnassignedTitles(a[..n], b[..n]);
      var ua, ub := Unassigned(a[..n]), Unassigned(b[..n]);
      if IsUnassigned(a[n]) {
        assert Unassigned(a) == ua + [a[n]] && Unassigned(b) == ub + [b[n]];
        assert (ua + [a[n]])[..|ua|] == ua && (ub + [b[n]])[..|ub|] == ub;
        assert Titles(ua + [a[n]]) == Titles(ua) + a[n].title;
        assert Titles(ub + [b[n]]) == Titles(ub) + b[n].title;
      } else {
        assert Unassigned(a) == ua && Unassigned(b) == ub;
      }
    }
  }

  /** Two lists look the same to the fingerprint when their unassigned
      tickets, taken in order, agree position by position on their titles;
      the assigned tickets may differ in number, place and content. */
  predicate SameUnassignedTitles(a: seq<Ticket>, b: seq<Ticket>) {
    && |Unassigned(a)| == |Unassigned(b)|
    && forall k :: 0 <= k < |Unassigned(a)| ==> Unassigned(a)[k].title == Unassigned(b)[k].title
  }

  /** Lists whose titles agree position by position have the same titles text. */
  lemma {:induction false} TitlesAgree(u: seq<Ticket>, v: seq<Ticket>)
    requires |u| == |v|
    requires forall k :: 0 <= k < |u| ==> u[k].title == v[k].title
    ensures Titles(u) == Titles(v)
  {
    if u != [] {
      var n := |u| - 1;
      TitlesAgree(u[..n], v[..n]);
    }
  }

  /** The fingerprint input depends only on the titles of the unassigned
      tickets, in order: assigned tickets may come, go or change. */
  lemma SameUnassignedTitlesKeepsFingerprint(digest: Digest, a: seq<Ticket>, b: seq<Ticket>)
    requires SameUnassignedTitles(a, b)
    ensures FingerprintInput(a) == FingerprintInput(b)
    ensures Fingerprint(digest, a) == Fingerprint(digest, b)
  {
    TitlesAgree(Unassigned(a), Unassigned(b));
  }

  /** Dropping an assigned ticket from the list (closed upstream, say) leaves
      the unassigned view, and so the fingerprint, unchanged; read backwards,
      so does adding one. */
  lemma RemovingAssignedTicketKeepsFingerprint(digest: Digest, ts: seq<Ticket>, i: int)
    requires 0 <= i < |ts| && !IsUnassigned(ts[i])
    ensures Unassigned(ts[..i] + ts[i + 1..]) == Unassigned(ts)
    ensures Fingerprint(digest, ts[..i] + ts[i + 1..]) == Fingerprint(digest, ts)
  {
    var pre, post := ts[..i], ts[i + 1..];
    assert ts == (pre + [ts[i]]) + post;
    SingleTicket(ts[i]);
    UnassignedAppend(pre, [ts[i]]);
    assert Unassigned(pre + [ts[i]]) == Unassigned(pre);
    UnassignedAppend(pre + [ts[i]], post);
    UnassignedAppend(pre, post);
  }

  /** Editing a ticket that is assigned before and after leaves the fingerprint alone. */
  lemma ChangingAssignedTicketKeepsFingerprint(digest: Digest, ts: seq<Ticket>, i: int, t: Ticket)
    requires 0 <= i < |ts|
    requires !IsUnassigned(ts[i]) && !IsUnassigned(t)
    ensures Fingerprint(digest, ts[i := t]) == Fingerprint(digest, ts)
  {
    FingerprintInputOnlySeesUnassignedTitles(ts[i := t], ts);
  }

  /** Editing any field but the title of an unassigned ticket (keeping it
      unassigned) leaves the fingerprint alone. */
  lemma ChangingOtherFieldsKeepsFingerprint(digest: Digest, ts: seq<Ticket>, i: int, t: Ticket)
    requires 0 <= i < |ts|
    requires IsUnassigned(ts[i]) && IsUnassigned(t) && t.title == ts[i].title
    ensures Fingerprint(digest, ts[i := t]) == Fingerprint(digest, ts)
  {
    FingerprintInputOnlySeesUnassignedTitles(ts[i := t], ts);
  }

  /** Titles are concatenated without separator: two unassigned tickets hash
      like one whose title is the two titles joined ("A","B" versus "AB"). */
  lemma ResplitTitlesKeepsFingerprint(digest: Digest, t1: Ticket, t2: Ticket, t: Ticket)
    requires IsUnassigned(t1) && IsUnassigned(t2) && IsUnassigned(t)
    requires t.title == t1.title + t2.title
    ensures Fingerprint(digest, [t1, t2]) == Fingerprint(digest, [t])
  {
    SingleTicket(t1);
    SingleTicket(t2);
    SingleTicket(t);
    assert [t1, t2] == [t1] + [t2];
    UnassignedAppend([t1], [t2]);
    TitlesAppend([t1], [t2]);
  }

  /** How a one-ticket list is filtered and how its titles read. */
  lemma SingleTicket(t: Ticket)
    ensures Unassigned([t]) == if IsUnassigned(t) then [t] else []
    ensures Titles([t]) == t.title
  {
    assert [t][..0] == [];
  }

  /** A one-ticket list of an unassigned ticket is fingerprinted by its title. */
  lemma SingleUnassignedFingerprint(digest: Digest, t: Ticket)
    requires IsUnassigned(t)
    ensures Fingerprint(digest, [t]) == digest(t.title)
  {
    SingleTicket(t);
  }

  /** The ticket list and its stored fingerprint (TicketCollection). */
  class TicketCollection {
    var tickets: seq<Ticket>
    var hash: string
    const digest: Digest

    /** The collection NewWebApp builds: the given list and the empty hash. */
    constructor (digest: Digest, tickets: seq<Ticket>)
      ensures this.digest == digest && this.tickets == tickets && hash == ""
    {
      this.digest := digest;
      this.tickets := tickets;
      hash := "";
    }

    /** Recomputes the fingerprint of the current list and stores it; reports
        whether it differs from the one stored before. */
    method CheckForNewHash() returns (changed: bool)
      modifies this`hash
      ensures tickets == old(tickets)
      ensures hash == Fingerprint(digest, tickets)
      ensures changed <==> Fingerprint(digest, tickets) != old(hash)
    {
      var unassigned := GetUnassignedTickets();
      var titles := "";
      for i := 0 to |unassigned|
        invariant titles == Titles(unassigned[..i])
      {
        assert unassigned[..i + 1][..i] == unassigned[..i];
        titles := titles + unassigned[i].title;
      }
      assert unassigned[..|unassigned|] == unassigned;
      var newHash := digest(titles);
      if newHash != hash {
        hash := newHash;
        return true;
      }
      return false;
    }

    /** The tickets whose assigned resource id is blank, in list order. */
    method GetUnassignedTickets() returns (unassigned: seq<Ticket>)
      ensures unassigned == Unassigned(tickets)
    {
      unassigned := [];
      for i := 0 to |tickets|
        invariant unassigned == Unassigned(tickets[..i])
      {
        assert tickets[..i + 1][..i] == tickets[..i];
        if tickets[i].assignedResourceId == "" {
          unassigned := unassigned + [tickets[i]];
        }
      }
      assert tickets[..|tickets|] == tickets;
    }

    /** The stored fingerprint. */
    method GetCurrentHash() returns (h: string)
      ensures h == hash
    {
      h := hash;
    }

    /** Replaces the ticket list; the stored fingerprint is not recomputed. */
    method SetTickets(newTickets: seq<Ticket>)
      modifies this`tickets
      ensures tickets == newTickets
      ensures hash == old(hash)
    {
      tickets := newTickets;
    }
  }

  /** A second check with no SetTickets in between reports no change and
      leaves the collection as the first check left it. */
  method CheckForNewHashTwice(tc: TicketCollection) returns (first: bool, second: bool)
    modifies tc`hash
    ensures first <==> Fingerprint(tc.digest, tc.tickets) != old(tc.hash)
    ensures !second
    ensures tc.tickets == old(tc.tickets) && tc.hash == Fingerprint(tc.digest, tc.tickets)
  {
    first := tc.CheckForNewHash();
    second := tc.CheckForNewHash();
  }
}
