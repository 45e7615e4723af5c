/**
 * The user's tenant-status lifecycle as the command preconditions enforce it:
 * UNCONFIRMED may become CONFIRMED or REJECTED, CONFIRMED may become DELETED,
 * and REJECTED and DELETED are final.
 */
module Lifecycle {
  import opened Types
  import opened Events
  import opened Commands
  import opened Snapshots

  /** The permitted tenant-status transitions. */
  predicate Edge(from: TenantStatus, to: TenantStatus) {
    || (from == Unconfirmed && (to == Confirmed || to == Rejected))
    || (from == Confirmed && to == Deleted)
  }

  /** A status no transition leaves. */
  predicate Final(s: TenantStatus) {
    forall t :: !Edge(s, t)
  }

  /** REJECTED and DELETED are the final statuses. */
  lemma FinalStatuses(s: TenantStatus)
    ensures Final(s) <==> s == Rejected || s == Deleted
  {
    if s == Unconfirmed {
      assert Edge(s, Confirmed);
    } else if s == Confirmed {
      assert Edge(s, Deleted);
    }
  }

  /**
   * A command that passes its preconditions (other than create, which makes
   * no event here) is for an ACTIVE user, and its event moves the user along
   * a permitted transition.
   */
  lemma AcceptedCommandFollowsAnEdge(c: UserCommand, u: User, adminCount: Id -> int, stamp: Stamp)
    requires !c.kind.CreateCommand? && CheckPreConditions(c, u, adminCount).Pass?
    ensures u.providerStatus == Active
    ensures Edge(u.tenantStatus, StatusAfter(CreateUserEvent(c, u, stamp).value.kind))
  {
  }

  /** The command kind that makes each status. */
  function CommandKindFor(to: TenantStatus): (k: CommandKind)
    ensures k.CreateCommand? <==> to == Unconfirmed
  {
    match to
    case Unconfirmed => CreateCommand
    case Confirmed => ConfirmCommand(None)
    case Rejected => RejectCommand
    case Deleted => DeleteCommand
  }

  /**
   * Conversely every permitted transition is available: an ACTIVE user that
   * is not its tenancy's only admin passes the matching command's checks, and
   * that command's event leads to the transition's target.
   */
  lemma EveryEdgeHasACommand(
    to: TenantStatus, u: User, adminCount: Id -> int, userId: Id, commandId: Id, time: Instant, stamp: Stamp)
    requires Edge(u.tenantStatus, to) && u.providerStatus == Active
    requires !(u.isAdminUser && adminCount(u.tenancyId) == 1)
    ensures var c := UserCommand(userId, commandId, time, CommandKindFor(to));
      && CheckPreConditions(c, u, adminCount).Pass?
      && StatusAfter(CreateUserEvent(c, u, stamp).value.kind) == to
  {
  }

  /** A user in a final status refuses every command except create. */
  lemma FinalStatusRefusesEveryChange(c: UserCommand, u: User, adminCount: Id -> int)
    requires Final(u.tenantStatus) && !c.kind.CreateCommand?
    ensures CheckPreConditions(c, u, adminCount).Fail?
  {
    FinalStatuses(u.tenantStatus);
  }

  /**
   * A snapshot's status after an accepted event is the event's target: once
   * the event has been replayed, no further event of the same command kind
   * is accepted.
   */
  lemma AcceptedEventIsNotRepeatable(
    c: UserCommand, d: SnapshotDoc, adminCount: Id -> int, stamp: Stamp, e: StoredEvent)
    requires !c.kind.CreateCommand? && CheckPreConditions(c, Project(d), adminCount).Pass?
    requires e.kind == CreateUserEvent(c, Project(d), stamp).value.kind
    ensures CheckPreConditions(c, Project(Step(d, e)), adminCount).Fail?
  {
  }
}
