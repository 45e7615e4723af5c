/**
 * The MongoDB user repository (MongoDBUserRepository, MongoDBPatchUserCommand):
 * the snapshot, event and command collections, the replay that reads a user,
 * and the writes that add a user, an event or a command record.
 */
module Repository {
  import opened Types
  import opened Events
  import opened Commands
  import opened Snapshots

  // ----- command records -----

  /** The persisted command classes (MongoDBConfirmUserCommand, MongoDBRejectUserCommand). */
  datatype RecordKind = ConfirmRecord | RejectRecord

  /**
   * A document of user_commands. Its id and time stamp come from the record's
   * own constructor; `commandType` is never assigned there, so it stays null.
   */
  datatype CommandRecord = CommandRecord(
    commandId: Id,
    timeStamp: Instant,
    commandType: Option<TenantCommandType>,
    userId: Id,
    kind: RecordKind)

  /**
   * MongoDBPatchUserCommand.getMongoDBPatchUserCommand: a confirm or reject
   * record for the command's user; any other command is an illegal argument.
   */
  function ToCommandRecord(c: UserCommand, stamp: Stamp): (r: Result<CommandRecord, Failure>)
    ensures r.Success? <==> IsPatchCommand(c)
    ensures r.Failure? ==> r.error == IllegalArgument
    ensures r.Success? ==> r.value.userId == c.userId && r.value.commandType.None?
    ensures r.Success? ==> r.value.commandId == stamp.id && r.value.timeStamp == stamp.time
    ensures c.kind.ConfirmCommand? ==> r.value.kind == ConfirmRecord
    ensures c.kind.RejectCommand? ==> r.value.kind == RejectRecord
  {
    match c.kind
    case ConfirmCommand(_) => Success(CommandRecord(stamp.id, stamp.time, None, c.userId, ConfirmRecord))
    case RejectCommand => Success(CommandRecord(stamp.id, stamp.time, None, c.userId, RejectRecord))
    case _ => Failure(IllegalArgument)
  }

  /** The record's id and time are its own: the command's id and time stamp do not reach it. */
  lemma RecordIgnoresCommandIdentity(c: UserCommand, otherId: Id, otherTime: Instant, stamp: Stamp)
    ensures ToCommandRecord(c.(commandId := otherId, timeStamp := otherTime), stamp) == ToCommandRecord(c, stamp)
  {
  }

  // ----- reading a user -----

  /** The latest of user `id`'s snapshots by update time; the earliest stored wins a tie. */
  function LatestSnapshot(snaps: seq<SnapshotDoc>, id: Id): (r: Option<SnapshotDoc>)
    ensures r.Some? ==> r.value in snaps && r.value.userId == id
    decreases |snaps|
  {
    if snaps == [] then None
    else
      var best := LatestSnapshot(snaps[..|snaps| - 1], id);
      var last := snaps[|snaps| - 1];
      if last.userId == id && (best.None? || best.value.lastUpdate < last.lastUpdate) then Some(last) else best
  }

  /**
   * There is a latest snapshot exactly when the user has a snapshot, and it
   * is one of the user's snapshots with no later update time than it.
   */
  lemma {:induction false} LatestSnapshotIsLatest(snaps: seq<SnapshotDoc>, id: Id)
    ensures LatestSnapshot(snaps, id).None? <==> forall i :: 0 <= i < |snaps| ==> snaps[i].userId != id
    ensures LatestSnapshot(snaps, id).Some? ==>
      var d := LatestSnapshot(snaps, id).value;
      && d in snaps && d.userId == id
      && forall i :: 0 <= i < |snaps| && snaps[i].userId == id ==> snaps[i].lastUpdate <= d.lastUpdate
    decreases |snaps|
  {
    if snaps != [] {
      var front := snaps[..|snaps| - 1];
      LatestSnapshotIsLatest(front, id);
      assert forall i :: 0 <= i < |front| ==> snaps[i] == front[i];
    }
  }

  /**
   * The identity a stored snapshot document holds under a field name. The
   * codec persists `_id`, `userId` and `tenancyId`; the `userIdentity` and
   * `tenancyIdentity` getters are excluded from the document, so no stored
   * document holds those names.
   */
  function DocumentId(d: SnapshotDoc, field: string): Option<Id> {
    if field == "_id" then Some(d.snapshotId)
    else if field == "userId" then Some(d.userId)
    else if field == "tenancyId" then Some(d.tenancyId)
    else None
  }

  /**
   * getLatestSnapshot as written: the same query, but filtering on the
   * document field `userIdentity` rather than `userId`.
   */
  function LatestSnapshotAsWritten(snaps: seq<SnapshotDoc>, id: Id): Option<SnapshotDoc>
    decreases |snaps|
  {
    if snaps == [] then None
    else
      var best := LatestSnapshotAsWritten(snaps[..|snaps| - 1], id);
      var last := snaps[|snaps| - 1];
      if DocumentId(last, "userIdentity") == Some(id) && (best.None? || best.value.lastUpdate < last.lastUpdate)
      then Some(last) else best
  }

  /** As written, the snapshot query matches no document at all. */
  lemma {:induction false} AsWrittenQueryMatchesNothing(snaps: seq<SnapshotDoc>, id: Id)
    ensures LatestSnapshotAsWritten(snaps, id).None?
    decreases |snaps|
  {
    if snaps != [] {
      AsWrittenQueryMatchesNothing(snaps[..|snaps| - 1], id);
    }
  }

  /** The events of user `id` whose version lies above `fromVersion`, in stored order. */
  function EventRange(evs: seq<StoredEvent>, id: Id, fromVersion: int): (r: seq<StoredEvent>)
    ensures |r| <= |evs|
    ensures forall i :: 0 <= i < |r| ==> r[i].userId == id && r[i].userVersionNumber > fromVersion
    decreases |evs|
  {
    if evs == [] then []
    else
      var last := evs[|evs| - 1];
      EventRange(evs[..|evs| - 1], id, fromVersion)
        + (if last.userId == id && last.userVersionNumber > fromVersion then [last] else [])
  }

  /** The range holds exactly the user's events above the version. */
  lemma {:induction false} EventRangeSelects(evs: seq<StoredEvent>, id: Id, fromVersion: int)
    ensures forall e :: e in EventRange(evs, id, fromVersion) <==>
      e in evs && e.userId == id && e.userVersionNumber > fromVersion
    decreases |evs|
  {
    if evs != [] {
      var front := evs[..|evs| - 1];
      EventRangeSelects(front, id, fromVersion);
      assert evs == front + [evs[|evs| - 1]];
    }
  }

  /** A user no stored event refers to has an empty range. */
  lemma {:induction false} EventRangeOfUnknownUser(evs: seq<StoredEvent>, id: Id, fromVersion: int)
    requires forall i :: 0 <= i < |evs| ==> evs[i].userId != id
    ensures EventRange(evs, id, fromVersion) == []
    decreases |evs|
  {
    if evs != [] {
      EventRangeOfUnknownUser(evs[..|evs| - 1], id, fromVersion);
    }
  }

  /** Storing one more event extends the range by that event when it belongs to it. */
  lemma EventRangeAppend(evs: seq<StoredEvent>, e: StoredEvent, id: Id, fromVersion: int)
    ensures EventRange(evs + [e], id, fromVersion) ==
      EventRange(evs, id, fromVersion) + (if e.userId == id && e.userVersionNumber > fromVersion then [e] else [])
  {
    assert (evs + [e])[..|evs|] == evs;
  }

  /**
   * `getUser(id)`: the latest snapshot replayed with its user's later events
   * and projected; with no snapshot the source dereferences null.
   */
  function UserView(snaps: seq<SnapshotDoc>, evs: seq<StoredEvent>, id: Id): (r: Result<User, Failure>)
    ensures r.Success? ==> r.value.userId == id
    ensures r.Failure? ==> r.error == NullPointer
  {
    match LatestSnapshot(snaps, id)
    case None => Failure(NullPointer)
    case Some(d) => Success(Project(Replay(d, EventRange(evs, d.userId, d.toVersion))))
  }

  /** A read finds a user exactly when the user has a snapshot, and finds that user. */
  lemma UserViewFindsTheUser(snaps: seq<SnapshotDoc>, evs: seq<StoredEvent>, id: Id)
    ensures UserView(snaps, evs, id).Success? <==> exists i :: 0 <= i < |snaps| && snaps[i].userId == id
    ensures UserView(snaps, evs, id).Success? ==> UserView(snaps, evs, id).value.userId == id
  {
    LatestSnapshotIsLatest(snaps, id);
  }

  /** getUser as written: the as-written query, then the same replay. */
  function UserViewAsWritten(snaps: seq<SnapshotDoc>, evs: seq<StoredEvent>, id: Id): Result<User, Failure> {
    match LatestSnapshotAsWritten(snaps, id)
    case None => Failure(NullPointer)
    case Some(d) => Success(Project(Replay(d, EventRange(evs, d.userId, d.toVersion))))
  }

  /**
   * The counterexample: a user with a stored snapshot, read under its own
   * id, is not found as written (the read dereferences null), while the
   * query on `userId` finds it.
   */
  lemma StoredUserIsLostAsWritten(snaps: seq<SnapshotDoc>, evs: seq<StoredEvent>, id: Id)
    requires exists i :: 0 <= i < |snaps| && snaps[i].userId == id
    ensures UserViewAsWritten(snaps, evs, id) == Failure(NullPointer)
    ensures UserView(snaps, evs, id).Success? && UserView(snaps, evs, id).value.userId == id
  {
    AsWrittenQueryMatchesNothing(snaps, id);
    UserViewFindsTheUser(snaps, evs, id);
  }

  /**
   * The read after storing an event numbered one above the user's version
   * sees the user moved by that event: its status, version and update time
   * are the event's, and nothing else changed.
   */
  lemma StoredEventIsSeenByNextRead(snaps: seq<SnapshotDoc>, evs: seq<StoredEvent>, id: Id, e: StoredEvent)
    requires UserView(snaps, evs, id).Success?
    requires e.userId == id && !e.kind.CreatedKind?
    requires e.userVersionNumber == UserView(snaps, evs, id).value.version + 1
    ensures UserView(snaps, evs + [e], id) == Success(UserView(snaps, evs, id).value.(
      tenantStatus := StatusAfter(e.kind), version := e.userVersionNumber, lastUpdate := e.eventTime))
  {
    var d := LatestSnapshot(snaps, id).value;
    var range := EventRange(evs, d.userId, d.toVersion);
    LatestSnapshotIsLatest(snaps, id);
    EventRangeSelects(evs, d.userId, d.toVersion);
    assert forall i :: 0 <= i < |range| ==> range[i] in range;
    ReplayVersionNotBelowSnapshot(d, range);
    EventRangeAppend(evs, e, d.userId, d.toVersion);
    ReplayAppend(d, range, e);
  }

  /**
   * Storing the next event the way addUserEvent numbers it (the user's
   * version as read, plus one) keeps the user's range gap-free.
   */
  lemma StoredEventKeepsRangeGapFree(snaps: seq<SnapshotDoc>, evs: seq<StoredEvent>, id: Id, e: StoredEvent)
    requires LatestSnapshot(snaps, id).Some?
    requires var d := LatestSnapshot(snaps, id).value; GapFree(d, EventRange(evs, id, d.toVersion))
    requires e.userId == id && e.userVersionNumber == UserView(snaps, evs, id).value.version + 1
    ensures var d := LatestSnapshot(snaps, id).value; GapFree(d, EventRange(evs + [e], id, d.toVersion))
  {
    var d := LatestSnapshot(snaps, id).value;
    var range := EventRange(evs, id, d.toVersion);
    ReplayVersion(d, range);
    EventRangeAppend(evs, e, id, d.toVersion);
  }

  /** A user just added, under an identity nothing refers to yet, reads back as added. */
  lemma AddedUserReadsBack(snaps: seq<SnapshotDoc>, evs: seq<StoredEvent>, d: SnapshotDoc)
    requires forall i :: 0 <= i < |snaps| ==> snaps[i].userId != d.userId
    requires forall i :: 0 <= i < |evs| ==> evs[i].userId != d.userId
    ensures UserView(snaps + [d], evs, d.userId) == Success(Project(d))
  {
    LatestSnapshotIsLatest(snaps, d.userId);
    assert (snaps + [d])[..|snaps|] == snaps;
    EventRangeOfUnknownUser(evs, d.userId, d.toVersion);
  }

  // ----- writing -----

  /** The recipient of a confirmation email: the new user's name and address. */
  datatype EmailRecipient = EmailRecipient(firstName: string, lastName: string, emailAddress: string)

  /**
   * The snapshot `addUser` writes: unconfirmed and active, versions 1 to 1,
   * created and updated now, expiring `expiryHours` hours later.
   */
  function InitialSnapshot(
    userId: Id, snapshotId: Id, tenancyId: Id, domain: string, who: EmailRecipient,
    isAdmin: bool, nonce: Uuid, now: Instant, expiryHours: int): (d: SnapshotDoc)
    ensures d.tenantStatus == Unconfirmed && d.providerStatus == Active
    ensures d.fromVersion == 1 && d.toVersion == 1
    ensures d.lastUpdate == now && d.userCreationTime == now
    ensures d.expiryTime == now + expiryHours * SecondsPerHour
    ensures d.userId == userId && d.tenancyId == tenancyId && d.domain == domain && d.isAdminUser == isAdmin
    ensures d.firstName == who.firstName && d.lastName == who.lastName && d.emailAddress == who.emailAddress
    ensures d.snapshotId == snapshotId && d.confirmUuid == nonce
  {
    SnapshotDoc(snapshotId, userId, tenancyId, who.firstName, who.lastName, who.emailAddress, isAdmin,
                1, 1, now, Unconfirmed, Active, domain, nonce, now + expiryHours * SecondsPerHour, now)
  }

  /**
   * The event document `addUserEvent` builds: a created event is version 1
   * and carries the user's expiry, a confirmed or rejected one is the
   * user's version plus one; any other type is an illegal state.
   */
  function NewStoredEvent(commandId: Id, t: EventType, user: User, stamp: Stamp): (r: Result<StoredEvent, Failure>)
    ensures r.Success? <==> t != UserDeleted
    ensures r.Failure? ==> r.error == IllegalState
    ensures r.Success? ==> TypeOf(r.value.kind) == t && r.value.userId == user.userId && r.value.commandId == commandId
    ensures r.Success? ==> r.value.eventId == stamp.id && r.value.eventTime == stamp.time
    ensures t == UserCreated ==> r.value.userVersionNumber == 1 && r.value.kind == CreatedKind(user.expiryTime)
    ensures t == UserConfirmed || t == UserRejected ==> r.value.userVersionNumber == user.version + 1
  {
    match t
    case UserCreated => Success(StoredEvent(stamp.id, user.userId, stamp.time, 1, commandId, CreatedKind(user.expiryTime)))
    case UserConfirmed => Success(StoredEvent(stamp.id, user.userId, stamp.time, user.version + 1, commandId, ConfirmedKind))
    case UserRejected => Success(StoredEvent(stamp.id, user.userId, stamp.time, user.version + 1, commandId, RejectedKind))
    case UserDeleted => Failure(IllegalState)
  }

  /** `asUserEvent(commandId, user, repo)`: the generated event of the stored event's kind. */
  function AsUserEvent(e: StoredEvent, commandId: Id, user: User, stamp: Stamp): (r: UserEvent)
    ensures r.kind == e.kind && r.commandId == commandId && r.userId == user.userId && r.eventId == stamp.id
    ensures r.eventTime == stamp.time
  {
    match e.kind
    case CreatedKind(expiry) => NewUserCreatedEvent(commandId, user, stamp, expiry)
    case ConfirmedKind => NewUserConfirmedEvent(commandId, user, stamp)
    case RejectedKind => NewUserRejectedEvent(commandId, user, stamp)
    case DeletedKind => NewUserDeletedEvent(commandId, user, stamp)
  }

  /** One call to the identity provider's createUser. */
  datatype IamRequest = IamRequest(user: User, initialPassword: Option<string>)

  /**
   * MongoDBUserRepository. The three collections are sequences of documents
   * in insertion order; `iamRequests` records the calls made to the external
   * identity provider.
   */
  class UserRepository {
    var snapshots: seq<SnapshotDoc>
    var events: seq<StoredEvent>
    var commands: seq<CommandRecord>
    var iamRequests: seq<IamRequest>
    /** The configured confirmation window (user.expiryHours). */
    const expiryHours: int

    constructor(expiryHours: int)
      ensures snapshots == [] && events == [] && commands == [] && iamRequests == []
      ensures this.expiryHours == expiryHours
    {
      snapshots, events, commands, iamRequests := [], [], [], [];
      this.expiryHours := expiryHours;
    }

    /** getLatestSnapshot(id): the user's snapshots sorted by lastUpdate, descending, first. */
    method GetLatestSnapshot(id: Id) returns (r: Option<SnapshotDoc>)
      ensures r == LatestSnapshot(snapshots, id)
    {
      r := None;
      var i := 0;
      while i < |snapshots|
        invariant 0 <= i <= |snapshots|
        invariant r == LatestSnapshot(snapshots[..i], id)
      {
        var s := snapshots[i];
        assert snapshots[..i + 1][..i] == snapshots[..i];
        if s.userId == id && (r.None? || r.value.lastUpdate < s.lastUpdate) {
          r := Some(s);
        }
        i := i + 1;
      }
      assert snapshots[..i] == snapshots;
    }

    /** getEventRange(userId, fromVersion): the user's events above the version. */
    method GetEventRange(userId: Id, fromVersion: int) returns (r: seq<StoredEvent>)
      ensures r == EventRange(events, userId, fromVersion)
    {
      r := [];
      var i := 0;
      while i < |events|
        invariant 0 <= i <= |events|
        invariant r == EventRange(events[..i], userId, fromVersion)
      {
        var e := events[i];
        assert events[..i + 1][..i] == events[..i];
        if e.userId == userId && e.userVersionNumber > fromVersion {
          r := r + [e];
        }
        i := i + 1;
      }
      assert events[..i] == events;
    }

    /**
     * inflate(snap): the later events folded over a copy of the snapshot,
     * which is projected; `snap` itself is left as it was. A null snapshot
     * leaves the copy null, and projecting it dereferences null.
     */
    method Inflate(snap: UserSnapshot?) returns (r: Result<User, Failure>)
      ensures snap == null ==> r == Failure(NullPointer)
      ensures snap != null ==>
        r == Success(Project(Replay(snap.Doc(), EventRange(events, snap.userId, snap.toVersion))))
    {
      var snapCopy: UserSnapshot? := null;
      if snap != null {
        snapCopy := new UserSnapshot.Copy(snap);
        var evs := GetEventRange(snap.userId, snap.toVersion);
        var i := 0;
        while i < |evs|
          invariant 0 <= i <= |evs|
          invariant snapCopy != null && fresh(snapCopy)
          invariant snapCopy.Doc() == Replay(snap.Doc(), evs[..i])
        {
          assert evs[..i + 1] == evs[..i] + [evs[i]];
          ReplayAppend(snap.Doc(), evs[..i], evs[i]);
          snapCopy := Snapshots.UpdateUser(evs[i], snapCopy);
          i := i + 1;
        }
        assert evs[..i] == evs;
      }
      if snapCopy == null {
        r := Failure(NullPointer);
      } else {
        r := Success(snapCopy.AsUser());
      }
    }

    /** getUser(userId): decode the latest snapshot, if any, and inflate it. */
    method GetUser(userId: Id) returns (r: Result<User, Failure>)
      ensures r == UserView(snapshots, events, userId)
    {
      var latest := GetLatestSnapshot(userId);
      var snap: UserSnapshot? := null;
      if latest.Some? {
        snap := new UserSnapshot.FromDocument(latest.value);
      }
      r := Inflate(snap);
    }

    /**
     * confirmUser(user, initialPassword): one call to the identity provider,
     * whose outcome `providerAccepts` stands for; the user comes back as given.
     */
    method ConfirmUser(user: User, initialPassword: Option<string>, providerAccepts: bool)
      returns (r: Result<User, Failure>)
      modifies this`iamRequests
      ensures iamRequests == old(iamRequests) + [IamRequest(user, initialPassword)]
      ensures r == if providerAccepts then Success(user) else Failure(IamProviderFailed)
    {
      iamRequests := iamRequests + [IamRequest(user, initialPassword)];
      if providerAccepts {
        r := Success(user);
      } else {
        r := Failure(IamProviderFailed);
      }
    }

    /**
     * addUser: insert exactly one new snapshot and return its projection.
     * `userId`, `snapshotId` and `nonce` are the fresh identities and `now`
     * the clock reading the source obtains itself; `storeOk` stands for the
     * outcome of `insertOne`, whose failure stores nothing and propagates.
     */
    method AddUser(
      tenancyId: Id, domain: string, who: EmailRecipient, isAdmin: bool,
      userId: Id, snapshotId: Id, nonce: Uuid, now: Instant, storeOk: bool) returns (r: Result<User, Failure>)
      modifies this`snapshots
      ensures storeOk ==>
        var snap := InitialSnapshot(userId, snapshotId, tenancyId, domain, who, isAdmin, nonce, now, expiryHours);
        snapshots == old(snapshots) + [snap] && r == Success(Project(snap))
      ensures !storeOk ==> snapshots == old(snapshots) && r == Failure(StoreFailed)
    {
      var snap := InitialSnapshot(userId, snapshotId, tenancyId, domain, who, isAdmin, nonce, now, expiryHours);
      var u := Project(snap);
      if !storeOk {
        r := Failure(StoreFailed);
        return;
      }
      snapshots := snapshots + [snap];
      r := Success(u);
    }

    /**
     * addUserEvent: insert exactly one event document, or none when the type
     * has no branch or the insert fails (`storeOk` stands for the outcome of
     * `insertOne`); return the generated event it stands for.
     */
    method AddUserEvent(commandId: Id, t: EventType, user: User, stored: Stamp, generated: Stamp, storeOk: bool)
      returns (r: Result<UserEvent, Failure>)
      modifies this`events
      ensures NewStoredEvent(commandId, t, user, stored).Failure? ==>
        events == old(events) && r == Failure(IllegalState)
      ensures NewStoredEvent(commandId, t, user, stored).Success? && !storeOk ==>
        events == old(events) && r == Failure(StoreFailed)
      ensures NewStoredEvent(commandId, t, user, stored).Success? && storeOk ==>
        var e := NewStoredEvent(commandId, t, user, stored).value;
        events == old(events) + [e] && r == Success(AsUserEvent(e, commandId, user, generated))
    {
      var evt := NewStoredEvent(commandId, t, user, stored);
      if evt.Failure? {
        r := Failure(evt.error);
      } else if !storeOk {
        r := Failure(StoreFailed);
      } else {
        events := events + [evt.value];
        r := Success(AsUserEvent(evt.value, commandId, user, generated));
      }
    }

    /**
     * addPatchUserCommand: insert exactly one command record and return the
     * command unchanged; `storeOk` stands for the outcome of `insertOne`,
     * whose failure stores nothing and propagates.
     */
    method AddPatchUserCommand(t: TenantCommandType, cmd: UserCommand, stamp: Stamp, storeOk: bool)
      returns (r: Result<UserCommand, Failure>)
      modifies this`commands
      ensures ToCommandRecord(cmd, stamp).Success? && storeOk ==>
        commands == old(commands) + [ToCommandRecord(cmd, stamp).value] && r == Success(cmd)
      ensures ToCommandRecord(cmd, stamp).Success? && !storeOk ==>
        commands == old(commands) && r == Failure(StoreFailed)
      ensures ToCommandRecord(cmd, stamp).Failure? ==>
        commands == old(commands) && r == Failure(IllegalArgument)
    {
      var record := ToCommandRecord(cmd, stamp);
      if record.Failure? {
        r := Failure(record.error);
      } else if !storeOk {
        r := Failure(StoreFailed);
      } else {
        commands := commands + [record.value];
        r := Success(cmd);
      }
    }
  }
}
