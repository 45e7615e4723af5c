/**
 * Snapshots and the state transforms of the stored events
 * (UserSnapshot, MongoDBUserEvent and its subclasses).
 *
 * A stored snapshot or event is a document, i.e. a value; reading one
 * from the store decodes it into a fresh mutable object. UserSnapshot is
 * that object: its setters and the events' `applyToUserSnapshot` change it
 * in place.
 */
module Snapshots {
  import opened Types
  import opened Events

  /** A document of the user_snapshots collection. */
  datatype SnapshotDoc = SnapshotDoc(
    snapshotId: Id,
    userId: Id,
    tenancyId: Id,
    firstName: string,
    lastName: string,
    emailAddress: string,
    isAdminUser: bool,
    fromVersion: int,
    toVersion: int,
    lastUpdate: Instant,
    tenantStatus: TenantStatus,
    providerStatus: ProviderStatus,
    domain: string,
    confirmUuid: Uuid,
    expiryTime: Instant,
    userCreationTime: Instant)

  /** A document of the user_events collection; its version is set when it is stored. */
  datatype StoredEvent = StoredEvent(
    eventId: Id,
    userId: Id,
    eventTime: Instant,
    userVersionNumber: int,
    commandId: Id,
    kind: EventKind)

  /**
   * `asUser()` on a snapshot's values: the version is `toVersion` and the
   * creation time `userCreationTime`.
   */
  function Project(d: SnapshotDoc): User {
    User(d.userId, d.tenancyId, d.firstName, d.lastName, d.emailAddress, d.isAdminUser,
         d.toVersion, d.lastUpdate, d.tenantStatus, d.providerStatus, d.domain,
         d.confirmUuid, d.userCreationTime, d.expiryTime)
  }

  /** The snapshot a projection came from, given the two fields it drops. */
  function SnapshotOf(u: User, snapshotId: Id, fromVersion: int): SnapshotDoc {
    SnapshotDoc(snapshotId, u.userId, u.tenancyId, u.firstName, u.lastName, u.emailAddress,
                u.isAdminUser, fromVersion, u.version, u.lastUpdate, u.tenantStatus,
                u.providerStatus, u.domain, u.confirmUuid, u.expiryTime, u.creationTime)
  }

  /**
   * The projection exposes exactly the snapshot's values: all that it loses
   * is the snapshot's own id and its `fromVersion`.
   */
  lemma ProjectionLosesOnlySnapshotRange(d: SnapshotDoc)
    ensures SnapshotOf(Project(d), d.snapshotId, d.fromVersion) == d
    ensures Project(d).version == d.toVersion && Project(d).creationTime == d.userCreationTime
  {
  }

  /** The tenant status each event kind's transform writes. */
  function StatusAfter(k: EventKind): TenantStatus {
    match k
    case CreatedKind(_) => Unconfirmed
    case ConfirmedKind => Confirmed
    case RejectedKind => Rejected
    case DeletedKind => Deleted
  }

  /**
   * `applyToUserSnapshot` on a snapshot's values. The confirmed, rejected and
   * deleted events set the tenant status and nothing else. The created event
   * class declares no transform; it is taken to reset both statuses and
   * record its expiry.
   */
  function Transform(k: EventKind, d: SnapshotDoc): (r: SnapshotDoc)
    ensures r.tenantStatus == StatusAfter(k) && SameIdentity(d, r)
    ensures r.toVersion == d.toVersion && r.lastUpdate == d.lastUpdate
    ensures k.CreatedKind? ==> r.providerStatus == Active && r.expiryTime == k.expiryTime
    ensures !k.CreatedKind? ==> r.providerStatus == d.providerStatus && r.expiryTime == d.expiryTime
  {
    match k
    case CreatedKind(expiry) => d.(tenantStatus := Unconfirmed, providerStatus := Active, expiryTime := expiry)
    case _ => d.(tenantStatus := StatusAfter(k))
  }

  /** Apart from a created event, a transform touches nothing but the tenant status. */
  lemma TransformSetsOnlyTenantStatus(k: EventKind, d: SnapshotDoc)
    ensures !k.CreatedKind? ==> Transform(k, d).(tenantStatus := d.tenantStatus) == d
  {
  }

  /** Applying the same event twice gives the same snapshot as applying it once. */
  lemma TransformIdempotent(k: EventKind, d: SnapshotDoc)
    ensures Transform(k, Transform(k, d)) == Transform(k, d)
  {
  }

  /**
   * `e.updateUser(snap)`, one step of the replay: the event's transform, then
   * the snapshot's `toVersion` and `lastUpdate` advance to the event's.
   */
  function Step(d: SnapshotDoc, e: StoredEvent): (r: SnapshotDoc)
    ensures r.tenantStatus == StatusAfter(e.kind) && SameIdentity(d, r)
    ensures r.toVersion == e.userVersionNumber && r.lastUpdate == e.eventTime
  {
    Transform(e.kind, d).(toVersion := e.userVersionNumber, lastUpdate := e.eventTime)
  }

  /**
   * The replay: the events folded over the snapshot, first to last. It never
   * changes who the user is, only statuses, expiry, version and update time.
   */
  function Replay(d: SnapshotDoc, es: seq<StoredEvent>): (r: SnapshotDoc)
    ensures SameIdentity(d, r)
    decreases |es|
  {
    if es == [] then d else Step(Replay(d, es[..|es| - 1]), es[|es| - 1])
  }

  /** One more event is one more step. */
  lemma ReplayAppend(d: SnapshotDoc, es: seq<StoredEvent>, e: StoredEvent)
    ensures Replay(d, es + [e]) == Step(Replay(d, es), e)
  {
    assert (es + [e])[..|es|] == es;
  }

  /**
   * Replaying in two parts is replaying the whole: a snapshot taken after
   * some events and then replayed with the rest gives the same projection.
   */
  lemma {:induction false} ReplaySplit(d: SnapshotDoc, a: seq<StoredEvent>, b: seq<StoredEvent>)
    ensures Replay(Replay(d, a), b) == Replay(d, a + b)
    decreases |b|
  {
    if b == [] {
      assert a + b == a;
    } else {
      var front, last := b[..|b| - 1], b[|b| - 1];
      assert b == front + [last];
      assert a + b == (a + front) + [last];
      ReplaySplit(d, a, front);
      ReplayAppend(d, a + front, last);
    }
  }

  /** The fields no transform writes are those of the snapshot replayed from. */
  predicate SameIdentity(d: SnapshotDoc, d': SnapshotDoc) {
    && d'.snapshotId == d.snapshotId && d'.userId == d.userId && d'.tenancyId == d.tenancyId
    && d'.firstName == d.firstName && d'.lastName == d.lastName && d'.emailAddress == d.emailAddress
    && d'.isAdminUser == d.isAdminUser && d'.fromVersion == d.fromVersion && d'.domain == d.domain
    && d'.confirmUuid == d.confirmUuid && d'.userCreationTime == d.userCreationTime
  }

  /** The events carry the versions just after the snapshot's, in order and without gaps. */
  predicate GapFree(d: SnapshotDoc, es: seq<StoredEvent>) {
    forall i :: 0 <= i < |es| ==> es[i].userVersionNumber == d.toVersion + i + 1
  }

  /**
   * The replayed version is the last event's version; when the events are
   * gap-free, it is the snapshot's version plus the number of events.
   */
  lemma ReplayVersion(d: SnapshotDoc, es: seq<StoredEvent>)
    ensures Replay(d, es).toVersion == if es == [] then d.toVersion else es[|es| - 1].userVersionNumber
    ensures GapFree(d, es) ==> Replay(d, es).toVersion == d.toVersion + |es|
  {
  }

  /** When every event lies above the snapshot's version, so does the replayed version. */
  lemma {:induction false} ReplayVersionNotBelowSnapshot(d: SnapshotDoc, es: seq<StoredEvent>)
    requires forall i :: 0 <= i < |es| ==> es[i].userVersionNumber > d.toVersion
    ensures Replay(d, es).toVersion >= d.toVersion
  {
    ReplayVersion(d, es);
  }

  /** The replayed tenant status is the one the last event writes. */
  lemma ReplayStatus(d: SnapshotDoc, es: seq<StoredEvent>)
    ensures Replay(d, es).tenantStatus == if es == [] then d.tenantStatus else StatusAfter(es[|es| - 1].kind)
  {
  }

  /** The in-memory snapshot object, with Lombok setters. */
  class UserSnapshot {
    var snapshotId: Id
    var userId: Id
    var tenancyId: Id
    var firstName: string
    var lastName: string
    var emailAddress: string
    var isAdminUser: bool
    var fromVersion: int
    var toVersion: int
    var lastUpdate: Instant
    var tenantStatus: TenantStatus
    var providerStatus: ProviderStatus
    var domain: string
    var confirmUuid: Uuid
    var expiryTime: Instant
    var userCreationTime: Instant

    /** The values this object holds, as a document. */
    function Doc(): SnapshotDoc
      reads this
    {
      SnapshotDoc(snapshotId, userId, tenancyId, firstName, lastName, emailAddress, isAdminUser,
                  fromVersion, toVersion, lastUpdate, tenantStatus, providerStatus, domain,
                  confirmUuid, expiryTime, userCreationTime)
    }

    /** Decoding a stored document into a new object. */
    constructor FromDocument(d: SnapshotDoc)
      ensures Doc() == d
    {
      snapshotId, userId, tenancyId := d.snapshotId, d.userId, d.tenancyId;
      firstName, lastName, emailAddress := d.firstName, d.lastName, d.emailAddress;
      isAdminUser, fromVersion, toVersion := d.isAdminUser, d.fromVersion, d.toVersion;
      lastUpdate, tenantStatus, providerStatus := d.lastUpdate, d.tenantStatus, d.providerStatus;
      domain, confirmUuid := d.domain, d.confirmUuid;
      expiryTime, userCreationTime := d.expiryTime, d.userCreationTime;
    }

    /** The copy constructor: a new object holding every value of `source`. */
    constructor Copy(source: UserSnapshot)
      ensures Doc() == source.Doc()
    {
      snapshotId, userId, tenancyId := source.snapshotId, source.userId, source.tenancyId;
      firstName, lastName, emailAddress := source.firstName, source.lastName, source.emailAddress;
      isAdminUser, fromVersion, toVersion := source.isAdminUser, source.fromVersion, source.toVersion;
      lastUpdate, tenantStatus, providerStatus := source.lastUpdate, source.tenantStatus, source.providerStatus;
      domain, confirmUuid := source.domain, source.confirmUuid;
      expiryTime, userCreationTime := source.expiryTime, source.userCreationTime;
    }

    method SetTenantStatus(s: TenantStatus)
      modifies this
      ensures Doc() == old(Doc()).(tenantStatus := s)
    {
      tenantStatus := s;
    }

    method SetProviderStatus(s: ProviderStatus)
      modifies this
      ensures Doc() == old(Doc()).(providerStatus := s)
    {
      providerStatus := s;
    }

    method SetExpiryTime(t: Instant)
      modifies this
      ensures Doc() == old(Doc()).(expiryTime := t)
    {
      expiryTime := t;
    }

    method SetToVersion(v: int)
      modifies this
      ensures Doc() == old(Doc()).(toVersion := v)
    {
      toVersion := v;
    }

    method SetLastUpdate(t: Instant)
      modifies this
      ensures Doc() == old(Doc()).(lastUpdate := t)
    {
      lastUpdate := t;
    }

    /** getVersion() */
    function GetVersion(): int
      reads this
    {
      toVersion
    }

    /** getCreationTime() */
    function GetCreationTime(): Instant
      reads this
    {
      userCreationTime
    }

    /** asUser(): the projection agrees with the snapshot's own accessors. */
    function AsUser(): (u: User)
      reads this
      ensures u.version == GetVersion() && u.creationTime == GetCreationTime()
      ensures u.userId == userId && u.tenantStatus == tenantStatus && u.providerStatus == providerStatus
      ensures SnapshotOf(u, snapshotId, fromVersion) == Doc()
    {
      Project(Doc())
    }
  }

  /** MongoDBUserConfirmedEvent.applyToUserSnapshot: the same object, now CONFIRMED. */
  method ApplyConfirmed(snap: UserSnapshot) returns (r: UserSnapshot)
    modifies snap
    ensures r == snap && snap.Doc() == Transform(ConfirmedKind, old(snap.Doc()))
  {
    snap.SetTenantStatus(Confirmed);
    r := snap;
  }

  /** MongoDBUserRejectedEvent.applyToUserSnapshot: the same object, now REJECTED. */
  method ApplyRejected(snap: UserSnapshot) returns (r: UserSnapshot)
    modifies snap
    ensures r == snap && snap.Doc() == Transform(RejectedKind, old(snap.Doc()))
  {
    snap.SetTenantStatus(Rejected);
    r := snap;
  }

  /** MongoDBUserDeletedEvent.applyToUserSnapshot: the same object, now DELETED. */
  method ApplyDeleted(snap: UserSnapshot) returns (r: UserSnapshot)
    modifies snap
    ensures r == snap && snap.Doc() == Transform(DeletedKind, old(snap.Doc()))
  {
    snap.SetTenantStatus(Deleted);
    r := snap;
  }

  /** The created event's transform (the class declares none; see Transform). */
  method ApplyCreated(expiry: Instant, snap: UserSnapshot) returns (r: UserSnapshot)
    modifies snap
    ensures r == snap && snap.Doc() == Transform(CreatedKind(expiry), old(snap.Doc()))
  {
    snap.SetTenantStatus(Unconfirmed);
    snap.SetProviderStatus(Active);
    snap.SetExpiryTime(expiry);
    r := snap;
  }

  /** `applyToUserSnapshot`, dispatched on the stored event's class. */
  method ApplyToUserSnapshot(e: StoredEvent, snap: UserSnapshot) returns (r: UserSnapshot)
    modifies snap
    ensures r == snap && snap.Doc() == Transform(e.kind, old(snap.Doc()))
  {
    match e.kind
    case CreatedKind(expiry) => r := ApplyCreated(expiry, snap);
    case ConfirmedKind => r := ApplyConfirmed(snap);
    case RejectedKind => r := ApplyRejected(snap);
    case DeletedKind => r := ApplyDeleted(snap);
  }

  /** `e.updateUser(snap)`: transform, then advance the version and update time. */
  method UpdateUser(e: StoredEvent, snap: UserSnapshot) returns (r: UserSnapshot)
    modifies snap
    ensures r == snap && snap.Doc() == Step(old(snap.Doc()), e)
  {
    r := ApplyToUserSnapshot(e, snap);
    r.SetToVersion(e.userVersionNumber);
    r.SetLastUpdate(e.eventTime);
  }
}
