/**
 * The lease page: a list of lease agreements, each with the action buttons
 * its status allows, and the two handlers that rewrite the list (approve,
 * and the tenant's signature). The page has no transition into `active` or
 * `terminated` and no rejection of an unexpected status: the buttons are
 * the only guard.
 */
module Leases {
  import opened Rental

  /** The badge variants `getStatusColor` picks from. */
  datatype BadgeVariant = Default | Secondary | Destructive

  /** `getStatusColor`: terminated leases are marked destructive, drafts secondary, the rest default. */
  function StatusColor(s: LeaseStatus): (v: BadgeVariant)
    ensures v == Destructive <==> s == Terminated
    ensures v == Secondary <==> s == Draft
    ensures v == Default <==> s in {PendingApproval, Approved, Signed, Active}
  {
    match s
    case Draft => Secondary
    case PendingApproval => Default
    case Approved => Default
    case Signed => Default
    case Active => Default
    case Terminated => Destructive
  }

  /** `getStatusText`: the label shown for each status. */
  function StatusText(s: LeaseStatus): (text: string)
    ensures text != []
  {
    match s
    case Draft => "Draft"
    case PendingApproval => "Pending Approval"
    case Approved => "Approved"
    case Signed => "Signed"
    case Active => "Active"
    case Terminated => "Terminated"
  }

  /** Each of the six statuses has its own label, so the label identifies the status. */
  lemma StatusTextDistinct(s: LeaseStatus, t: LeaseStatus)
    ensures StatusText(s) == StatusText(t) <==> s == t
  {
    if s != t {
      assert StatusText(s)[0] != StatusText(t)[0] || |StatusText(s)| != |StatusText(t)|;
    }
  }

  /** The tenant signature written by signing at time `now`. */
  function TenantSignature(now: string): Signature {
    Signature(true, Some(now), None)
  }

  /**
   * `handleApproveLease`: every lease with the given id gets status
   * `approved`; nothing else in the list changes.
   */
  function ApproveLease(ls: seq<LeaseAgreement>, id: string): (r: seq<LeaseAgreement>)
    ensures |r| == |ls|
    ensures forall i :: 0 <= i < |ls| && ls[i].id != id ==> r[i] == ls[i]
    ensures forall i :: 0 <= i < |ls| && ls[i].id == id ==>
      r[i].status == Approved && r[i].(status := ls[i].status) == ls[i]
  {
    seq(|ls|, i requires 0 <= i < |ls| => if ls[i].id == id then ls[i].(status := Approved) else ls[i])
  }

  /**
   * `handleSignLease`: every lease with the given id gets status `signed`
   * and the tenant signature `{signed: true, signedAt: now}` in one update;
   * the landlord's signature, every other field and every other lease stay
   * as they were.
   */
  function SignLease(ls: seq<LeaseAgreement>, id: string, now: string): (r: seq<LeaseAgreement>)
    ensures |r| == |ls|
    ensures forall i :: 0 <= i < |ls| && ls[i].id != id ==> r[i] == ls[i]
    ensures forall i :: 0 <= i < |ls| && ls[i].id == id ==>
      && r[i].status == Signed
      && r[i].signatures.tenant == Some(TenantSignature(now))
      && r[i].signatures.landlord == ls[i].signatures.landlord
      && r[i].(status := ls[i].status, signatures := ls[i].signatures) == ls[i]
  {
    seq(|ls|, i requires 0 <= i < |ls| =>
      if ls[i].id == id then
        ls[i].(status := Signed, signatures := ls[i].signatures.(tenant := Some(TenantSignature(now))))
      else ls[i])
  }

  /** An id that no lease carries is not an error: both handlers give the list back unchanged. */
  lemma UnknownIdChangesNothing(ls: seq<LeaseAgreement>, id: string, now: string)
    requires forall i :: 0 <= i < |ls| ==> ls[i].id != id
    ensures ApproveLease(ls, id) == ls
    ensures SignLease(ls, id, now) == ls
  {
  }

  /** The buttons on a lease card. */
  datatype LeaseAction = View | Edit | Approve | Sign | Download

  /**
   * Which buttons a lease card shows: View always, Edit for drafts, Approve
   * while pending approval, Sign when approved and the tenant has not yet
   * signed, Download once signed.
   */
  predicate Offered(l: LeaseAgreement, a: LeaseAction): (shown: bool)
    ensures a == View ==> shown
    ensures shown && a != View ==> l.status != Active && l.status != Terminated
    ensures shown && a == Sign ==> !TenantSigned(l)
  {
    match a
    case View => true
    case Edit => l.status == Draft
    case Approve => l.status == PendingApproval
    case Sign => l.status == Approved && !TenantSigned(l)
    case Download => l.status == Signed
  }

  /** What pressing a button on the card of `l` does to the list; view, edit and download only log. */
  function Perform(ls: seq<LeaseAgreement>, l: LeaseAgreement, a: LeaseAction, now: string): (r: seq<LeaseAgreement>)
    ensures |r| == |ls|
  {
    match a
    case View => ls
    case Edit => ls
    case Download => ls
    case Approve => ApproveLease(ls, l.id)
    case Sign => SignLease(ls, l.id, now)
  }

  /** View, edit and download leave the list as it was. */
  lemma LoggingActionsChangeNothing(ls: seq<LeaseAgreement>, l: LeaseAgreement, now: string)
    ensures Perform(ls, l, View, now) == ls
    ensures Perform(ls, l, Edit, now) == ls
    ensures Perform(ls, l, Download, now) == ls
  {
  }

  /** No two leases share an id. */
  predicate UniqueIds(ls: seq<LeaseAgreement>) {
    forall i, j :: 0 <= i < j < |ls| ==> ls[i].id != ls[j].id
  }

  /** The status moves that the buttons allow, including none at all. */
  predicate CanReach(from: LeaseStatus, to: LeaseStatus) {
    || from == to
    || (from == PendingApproval && (to == Approved || to == Signed))
    || (from == Approved && to == Signed)
  }

  /** A lease the tenant has signed through the page: it is signed and shows the tenant's signature. */
  predicate Settled(l: LeaseAgreement) {
    l.status == Signed && TenantSigned(l)
  }

  /**
   * Whatever button is pressed, guarded or not, no lease becomes `active`
   * or `terminated`: the code has no path that writes either status.
   */
  lemma NoActivationOrTermination(ls: seq<LeaseAgreement>, l: LeaseAgreement, a: LeaseAction, now: string, j: int)
    requires 0 <= j < |ls|
    ensures Perform(ls, l, a, now)[j].status == Active ==> ls[j].status == Active
    ensures Perform(ls, l, a, now)[j].status == Terminated ==> ls[j].status == Terminated
  {
  }

  /**
   * One press of a button that the card of lease `i` shows, with unique
   * ids: only lease `i` can change, ids stay put, and its status moves at
   * most one step, pending approval to approved or approved to signed. A
   * settled lease stays settled, and a sign press settles its lease.
   */
  lemma GuardedPress(ls: seq<LeaseAgreement>, i: int, a: LeaseAction, now: string)
    requires UniqueIds(ls) && 0 <= i < |ls| && Offered(ls[i], a)
    ensures var r := Perform(ls, ls[i], a, now);
      && UniqueIds(r)
      && (forall j :: 0 <= j < |ls| ==> r[j].id == ls[j].id)
      && (forall j :: 0 <= j < |ls| && j != i ==> r[j] == ls[j])
      && (r[i].status == ls[i].status
          || (ls[i].status == PendingApproval && r[i].status == Approved)
          || (ls[i].status == Approved && r[i].status == Signed))
      && (Settled(ls[i]) ==> Settled(r[i]))
      && (a == Sign ==> Settled(r[i]))
  {
    var r := Perform(ls, ls[i], a, now);
    forall j | 0 <= j < |ls| && j != i ensures r[j] == ls[j] {
      assert ls[j].id != ls[i].id;
    }
  }

  /** A press on a card: the lease at `index` and the button pressed there. */
  datatype Press = Press(index: int, action: LeaseAction, now: string)

  /**
   * A session of presses, in order. A press on a button the card does not
   * show cannot happen, so it leaves the list alone.
   */
  function Replay(ls: seq<LeaseAgreement>, presses: seq<Press>): (r: seq<LeaseAgreement>)
    ensures |r| == |ls|
    decreases |presses|
  {
    if presses == [] then ls
    else
      var p := presses[0];
      var next := if 0 <= p.index < |ls| && Offered(ls[p.index], p.action)
                  then Perform(ls, ls[p.index], p.action, p.now) else ls;
      Replay(next, presses[1..])
  }

  lemma CanReachTransitive(a: LeaseStatus, b: LeaseStatus, c: LeaseStatus)
    requires CanReach(a, b) && CanReach(b, c)
    ensures CanReach(a, c)
  {
  }

  /**
   * Over any session with unique ids, every lease only moves forward along
   * pending approval, approved, signed; ids never change; and a settled
   * lease stays settled, so its Sign button never comes back.
   */
  lemma {:induction false} ReplayOnlyAdvances(ls: seq<LeaseAgreement>, presses: seq<Press>)
    requires UniqueIds(ls)
    ensures var r := Replay(ls, presses);
      && UniqueIds(r)
      && (forall j :: 0 <= j < |ls| ==> r[j].id == ls[j].id)
      && (forall j :: 0 <= j < |ls| ==> CanReach(ls[j].status, r[j].status))
      && (forall j :: 0 <= j < |ls| && Settled(ls[j]) ==> Settled(r[j]) && !Offered(r[j], Sign))
    decreases |presses|
  {
    if presses != [] {
      var p := presses[0];
      var next := if 0 <= p.index < |ls| && Offered(ls[p.index], p.action)
                  then Perform(ls, ls[p.index], p.action, p.now) else ls;
      if 0 <= p.index < |ls| && Offered(ls[p.index], p.action) {
        GuardedPress(ls, p.index, p.action, p.now);
      }
      assert forall j :: 0 <= j < |ls| ==> CanReach(ls[j].status, next[j].status);
      ReplayOnlyAdvances(next, presses[1..]);
      var r := Replay(ls, presses);
      assert r == Replay(next, presses[1..]);
      forall j | 0 <= j < |ls| ensures CanReach(ls[j].status, r[j].status) {
        CanReachTransitive(ls[j].status, next[j].status, r[j].status);
      }
    }
  }

  /**
   * Without unique ids the guards do not confine the changes: approving a
   * pending lease also approves a draft that shares its id.
   */
  lemma SharedIdApprovesDraft(draft: LeaseAgreement, pending: LeaseAgreement)
    requires draft.status == Draft && pending.status == PendingApproval && draft.id == pending.id
    ensures Offered([draft, pending][1], Approve)
    ensures Perform([draft, pending], pending, Approve, "")[0].status == Approved
  {
    assert [draft, pending][0].id == pending.id;
  }

  /**
   * The lease page's state: the list of agreements. The handlers replace it
   * with a rewritten copy.
   */
  class LeasesPage {
    var leases: seq<LeaseAgreement>

    /** The page loads the lease list once. */
    constructor(initial: seq<LeaseAgreement>)
      ensures leases == initial
    {
      leases := initial;
    }

    /** `handleApproveLease(lease)`. */
    method HandleApproveLease(lease: LeaseAgreement)
      modifies this
      ensures leases == ApproveLease(old(leases), lease.id)
    {
      leases := ApproveLease(leases, lease.id);
    }

    /** `handleSignLease(lease)`, with the clock reading passed in as `now`. */
    method HandleSignLease(lease: LeaseAgreement, now: string)
      modifies this
      ensures leases == SignLease(old(leases), lease.id, now)
    {
      leases := SignLease(leases, lease.id, now);
    }
  }
}
