# encity-user: the event-sourced user aggregate in Dafny

This project models the user aggregate of the encity user service. A user
belongs to a tenancy. Its tenant status moves from UNCONFIRMED to CONFIRMED
or REJECTED, and from CONFIRMED to DELETED. Only a user whose provider
status is ACTIVE may move.

The model covers:

- **Commands** (`commands.dfy`, module `Commands`): the action-string map,
  the command values, the precondition check and the event factory of the
  confirm, reject, delete and create commands, and the patch-command
  factory.
- **Generated events** (`events.dfy`, module `Events`): the event type and
  routing key of each event kind, and the base event built from a command
  id, a user, a fresh identity and the clock.
- **Snapshots and replay** (`snapshot.dfy`, module `Snapshots`): the
  snapshot document, and the mutable `UserSnapshot` object with its copy
  constructor and projection. It also holds the in-place
  `applyToUserSnapshot` transforms and the fold that replays stored events
  over a snapshot.
- **The MongoDB repository** (`repository.dfy`, module `Repository`): the
  snapshot, event and command collections as sequences in a class. The
  loops of `getLatestSnapshot`, `getEventRange` and `inflate` are proved
  against pure specification functions. The writes `addUser`,
  `addUserEvent`, `addPatchUserCommand` and `confirmUser` state the whole
  new state.
- **The service** (`service.dfy`, module `Service`): `applyCommand`
  fetches, checks, performs the side effect, stores one event and publishes
  one message. It is proved against a pure function of its effects.
- **The controller's decision** (`controller.dfy`, module `Controller`):
  the status code `getUnconfirmedUser` returns.
- **The lifecycle** (`lifecycle.dfy`, module `Lifecycle`): the transition
  relation the preconditions enforce, and its final statuses.

Fresh identities (`getIdentity`, `new ObjectId()`, `UUID.randomUUID()`) and
clock readings (`Instant.now()`) are parameters. A `Stamp` pairs one fresh
identity with one clock reading. Several parts of the system are inputs:
the admin-count query is a function `adminCount`, and the outcomes of the
identity provider, of each collection's insert (snapshots, events and
commands) and of the broker are booleans. Exceptions are the
`Failure` constructors of a `Result` or an `Outcome`.

Where the source is incomplete, the model states an assumption:

- `updateUser`, `applyToUserSnapshot` on the base stored event and
  `asUserEvent` are called by the repository, but `MongoDBUserEvent`
  (`repositories/mongodb/MongoDBUserEvent.java:15-25`) declares only its four
  fields. `Snapshots.UpdateUser`, `Snapshots.ApplyToUserSnapshot` and
  `Repository.AsUserEvent` assume the evident implementation. One replay step (`Snapshots.Step`) is taken to be the event's transform,
  followed by setting the snapshot's `toVersion` and `lastUpdate` to the
  event's version and time.
- The created event's transform is taken to reset both statuses and record
  the event's expiry. A created event has version 1, so it is never above a
  snapshot's version and is never replayed.
- `PatchUserCommand`'s constructor passes `(cmdType, repo)` to a base
  constructor that takes `(userId, cmdType, repo)`. The factory also calls a
  two-argument confirm constructor that does not exist. The model builds
  the evident command: the given user, the given type, a fresh command id,
  and no initial password for a confirm command built this way.
- `getLatestSnapshot` sorts by `lastUpdate`, descending, and takes the
  first. When several snapshots share the greatest `lastUpdate`, the model
  returns the earliest stored.
- `getEventRange` does not sort. The model keeps the stored order.
- The `User` interface declares, through `HasUser`, only ten getters
  (`components/HasUser.java:9-29`): no `getDomain`, `getConfirmUUID`,
  `getCreationTime` or `getExpiryTime`, though the controller calls
  `getConfirmUUID` and `getExpiryTime` (`service/UserController.java:101`,
  `:111`). The projection `UserSnapshot.asUser` defines `getUserIdentity`
  and `getTenancyIdentity` rather than `getUserId` and `getTenancyId`
  (`UserSnapshot.java:94-110`), and `UserSnapshot` marks `getUserIdentity`
  and `getTenancyIdentity` as overrides of methods `HasUser` does not have
  (`UserSnapshot.java:86-92`). `inflate` passes the `ObjectId` from
  `getUserId()` where `getEventRange` takes a `String`
  (`MongoDBUserRepository.java:115`, `:123`). The model's `Types.User` is
  the projection `asUser` builds: all fourteen values, with the user and
  tenancy ids read as the snapshot's `userId` and `tenancyId` in text form.
- `addUserEvent`'s builders set `userEventType`, `expiryTime` and
  `commandId` (`MongoDBUserRepository.java:208-210`, `218-219`, `227-228`),
  but `MongoDBUserEvent` declares only `eventId`, `userId`, `eventTime` and
  `userVersionNumber` (`MongoDBUserEvent.java:17-20`), and
  `MongoDBUserCreatedEvent` declares only `eventType`
  (`MongoDBUserCreatedEvent.java:13`). The stored event is read as if the
  base class declared `commandId` and the created event declared its expiry:
  `Snapshots.StoredEvent` carries the command id, and its created kind
  carries the expiry. The event type is the stored event's kind.
- `getLatestSnapshot` queries the field `userIdentity`
  (`MongoDBUserRepository.java:102`). The stored snapshot has a `userId`
  field (`UserSnapshot.java:33`), and its `getUserIdentity` getter is excluded
  from the document (`UserSnapshot.java:86-88`), so as written the query
  matches nothing. The model's `getUser` matches on `userId`; the query as
  written is modelled beside it and reported under Findings.
- `addUser` calls `setUserIdentity` and `setTenancyIdentity`
  (`MongoDBUserRepository.java:156-157`), which `UserSnapshot` does not
  declare. The model reads them as the Lombok setters `setUserId` and
  `setTenancyId`.
- `confirmUser` calls `createUser(user, initialPassword)`
  (`MongoDBUserRepository.java:147`), while the provider declares only
  `createUser(User)` (`Auth0IamProvider.java:210`). The model records one call
  with both arguments, as an `IamRequest`.

## Model

| member | source | states |
|---|---|---|
| Commands.LookupAction | src/main/java/uk/co/encity/user/commands/UserCommand.java:32-38 | "confirm" gives CONFIRM_USER and "reject" gives REJECT_USER, each iff; every other action string gives nothing |
| Commands.NewConfirmUserCommand | src/main/java/uk/co/encity/user/commands/ConfirmUserCommand.java:20-25 | a CONFIRM_USER patch command for the given user; its id is the fresh identity and its time stamp the clock; its initial password is the INITIAL_PASSWORD extra, or absent |
| Commands.NewRejectUserCommand | src/main/java/uk/co/encity/user/commands/RejectUserCommand.java:13-15 | a REJECT_USER patch command for the given user with a fresh id and the clock's time |
| Commands.NewDeleteUserCommand | src/main/java/uk/co/encity/user/commands/DeleteUserCommand.java:15-17 | a DELETE_USER command for the given user with a fresh id; it is not a patch command |
| Commands.NewCreateUserCommand | src/main/java/uk/co/encity/user/commands/CreateUserCommand.java:9-12 | a CREATE_USER command whose user id is the empty string |
| Commands.CreateCommandIgnoresItsArguments | src/main/java/uk/co/encity/user/commands/CreateUserCommand.java:9-12 | the name, email, domain, admin flag and id arguments leave no trace: any two calls with the same stamp build the same command |
| Commands.GetPatchUserCommand | src/main/java/uk/co/encity/user/commands/PatchUserCommand.java:23-40 | a command exists iff the type is CONFIRM_USER or REJECT_USER; it has the requested type and the given user, a fresh id and the clock's time stamp; a confirm built this way has no initial password |
| Commands.ActionsYieldPatchCommands | src/main/java/uk/co/encity/user/commands/UserCommand.java:34-38 | exactly "confirm" and "reject" map to a type, and through the factory each yields a patch command of that type for the requested user |
| Commands.CheckConfirmPreConditions | src/main/java/uk/co/encity/user/commands/ConfirmUserCommand.java:28-38 | passes iff UNCONFIRMED and ACTIVE; a non-UNCONFIRMED user fails with the tenant-status message whatever its provider status; an UNCONFIRMED non-ACTIVE user fails with the provider-status message |
| Commands.CheckRejectPreConditions | src/main/java/uk/co/encity/user/commands/RejectUserCommand.java:18-28 | passes iff UNCONFIRMED and ACTIVE; every failure is "cannot reject" for that user |
| Commands.CheckDeletePreConditions | src/main/java/uk/co/encity/user/commands/DeleteUserCommand.java:20-37 | passes iff CONFIRMED, ACTIVE and not an admin whose tenancy's admin count is exactly 1; each guard fails with its own message, in source order |
| Commands.CheckCreatePreConditions | src/main/java/uk/co/encity/user/commands/CreateUserCommand.java:14-17 | always passes |
| Commands.CheckPreConditions | src/main/java/uk/co/encity/user/service/UserService.java:44 | the check of the command's own class: create always passes; confirm and reject pass iff UNCONFIRMED and ACTIVE; delete passes iff CONFIRMED, ACTIVE and not the only admin; every failure is a PreConditionException |
| Commands.CreateUserEvent | src/main/java/uk/co/encity/user/commands/ConfirmUserCommand.java:40-43 | confirm, reject and delete build the event of their own type carrying the command's id, the user's id, a fresh event id and the clock's time; create builds none (null) |
| Commands.ConfirmAndRejectShareTheirSourceState | src/main/java/uk/co/encity/user/commands/RejectUserCommand.java:18-28 | confirm passes exactly when reject passes |
| Commands.InactiveUserIsRefused | src/main/java/uk/co/encity/user/commands/DeleteUserCommand.java:25-28 | a non-ACTIVE user fails every command except create |
| Commands.SoleAdminRule | src/main/java/uk/co/encity/user/commands/DeleteUserCommand.java:32-35 | for a CONFIRMED ACTIVE user: an admin is refused iff the count is exactly 1; a non-admin is never refused |
| Events.RoutingKey | src/main/java/uk/co/encity/user/events/generated/UserEvent.java:26-27 | every routing key lies under the "encity.user." topic prefix |
| Events.NewUserEvent | src/main/java/uk/co/encity/user/events/generated/UserEvent.java:19-24 | the base event: command id the argument, event id the fresh identity, user id the user's, event time the clock, and the given kind |
| Events.TypeOfIdentifiesClass | src/main/java/uk/co/encity/user/events/generated/UserConfirmedEvent.java:16 | the event type names the concrete class: same type iff same class, and apart from the created event's expiry the same kind |
| Events.RoutingKeyIdentifiesType | src/main/java/uk/co/encity/user/events/generated/UserEvent.java:26-27 | two events share a routing key iff they share an event type |
| Events.NewUserCreatedEvent | src/main/java/uk/co/encity/user/events/generated/UserCreatedEvent.java:12-25 | USER_CREATED, key "encity.user.created", the expiry unchanged; command id the argument, event id fresh, user id the user's, event time the clock |
| Events.NewUserConfirmedEvent | src/main/java/uk/co/encity/user/events/generated/UserConfirmedEvent.java:11-21 | USER_CONFIRMED, key "encity.user.confirmed"; command id the argument, event id fresh, user id the user's, event time the clock |
| Events.NewUserRejectedEvent | src/main/java/uk/co/encity/user/events/generated/UserRejectedEvent.java:10-20 | USER_REJECTED, key "encity.user.rejected"; command id the argument, event id fresh, user id the user's, event time the clock |
| Events.NewUserDeletedEvent | src/main/java/uk/co/encity/user/events/generated/UserDeletedEvent.java:9-19 | USER_DELETED, key "encity.user.deleted"; command id the argument, event id fresh, user id the user's, event time the clock |
| Snapshots.ProjectionLosesOnlySnapshotRange | src/main/java/uk/co/encity/user/repositories/mongodb/UserSnapshot.java:94-110 | the projection exposes every snapshot value (version = toVersion, creation time = userCreationTime): the snapshot is recovered from it and its own id and fromVersion |
| Snapshots.TransformSetsOnlyTenantStatus | src/main/java/uk/co/encity/user/repositories/mongodb/MongoDBUserConfirmedEvent.java:22-25 | confirmed, rejected and deleted change nothing but the tenant status |
| Snapshots.TransformIdempotent | src/main/java/uk/co/encity/user/repositories/mongodb/MongoDBUserRejectedEvent.java:23 | applying an event twice equals applying it once |
| Snapshots.ReplayAppend | src/main/java/uk/co/encity/user/repositories/mongodb/MongoDBUserRepository.java:116-118 | replaying one more event is one more step of the fold |
| Snapshots.ReplaySplit | src/main/java/uk/co/encity/user/repositories/mongodb/MongoDBUserRepository.java:116-118 | replaying a then b over a snapshot equals replaying a + b |
| Snapshots.Transform | src/main/java/uk/co/encity/user/repositories/mongodb/MongoDBUserConfirmedEvent.java:22-25 | writes its kind's tenant status and keeps the ids, names, email, admin flag, domain, nonce, creation time, toVersion and lastUpdate; confirmed, rejected and deleted keep the provider status and expiry; the created transform (assumed) sets ACTIVE and the event's expiry |
| Snapshots.Step | src/main/java/uk/co/encity/user/repositories/mongodb/MongoDBUserRepository.java:117 | one replay step: the event's tenant status, the event's version and time, the same identity |
| Snapshots.Replay | src/main/java/uk/co/encity/user/repositories/mongodb/MongoDBUserRepository.java:114-118 | folding the events never changes the ids, names, email, admin flag, domain, nonce, creation time or fromVersion |
| Snapshots.ReplayVersion | src/main/java/uk/co/encity/user/repositories/mongodb/MongoDBUserRepository.java:115-118 | the replayed version is the last event's; with gap-free versions it is the snapshot's version plus the number of events |
| Snapshots.ReplayVersionNotBelowSnapshot | src/main/java/uk/co/encity/user/repositories/mongodb/MongoDBUserRepository.java:115-118 | when every event lies above the snapshot's version, the replayed version does too |
| Snapshots.ReplayStatus | src/main/java/uk/co/encity/user/repositories/mongodb/MongoDBUserRepository.java:116-118 | the replayed tenant status is the one the last event writes, or the snapshot's with no events |
| Snapshots.UserSnapshot.FromDocument | src/main/java/uk/co/encity/user/repositories/mongodb/MongoDBUserRepository.java:101-102 | the decoded object holds exactly the stored document's values |
| Snapshots.UserSnapshot.Copy | src/main/java/uk/co/encity/user/repositories/mongodb/UserSnapshot.java:57-74 | a new object holding every value of the source |
| Snapshots.UserSnapshot.SetTenantStatus | src/main/java/uk/co/encity/user/repositories/mongodb/UserSnapshot.java:25 | the Lombok setter: the tenant status becomes the argument, nothing else changes |
| Snapshots.UserSnapshot.SetProviderStatus | src/main/java/uk/co/encity/user/repositories/mongodb/UserSnapshot.java:46 | the Lombok setter: the provider status becomes the argument, nothing else changes |
| Snapshots.UserSnapshot.SetExpiryTime | src/main/java/uk/co/encity/user/repositories/mongodb/UserSnapshot.java:49 | the Lombok setter: the expiry becomes the argument, nothing else changes |
| Snapshots.UserSnapshot.SetToVersion | src/main/java/uk/co/encity/user/repositories/mongodb/UserSnapshot.java:41 | the Lombok setter: toVersion becomes the argument, nothing else changes |
| Snapshots.UserSnapshot.SetLastUpdate | src/main/java/uk/co/encity/user/repositories/mongodb/UserSnapshot.java:43 | the Lombok setter: lastUpdate becomes the argument, nothing else changes |
| Snapshots.UserSnapshot.AsUser | src/main/java/uk/co/encity/user/repositories/mongodb/UserSnapshot.java:81-110 | reads only; version = getVersion() = toVersion, creation time = getCreationTime() = userCreationTime, and the object's values are recovered from the user |
| Snapshots.ApplyConfirmed | src/main/java/uk/co/encity/user/repositories/mongodb/MongoDBUserConfirmedEvent.java:22-25 | returns the same object, updated in place to CONFIRMED, nothing else changed |
| Snapshots.ApplyRejected | src/main/java/uk/co/encity/user/repositories/mongodb/MongoDBUserRejectedEvent.java:22-25 | returns the same object, updated in place to REJECTED, nothing else changed |
| Snapshots.ApplyDeleted | src/main/java/uk/co/encity/user/repositories/mongodb/MongoDBUserDeletedEvent.java:22-25 | returns the same object, updated in place to DELETED, nothing else changed |
| Snapshots.ApplyCreated | src/main/java/uk/co/encity/user/repositories/mongodb/MongoDBUserRepository.java:117 | the assumed created transform, in place: UNCONFIRMED, ACTIVE, the event's expiry |
| Snapshots.ApplyToUserSnapshot | src/main/java/uk/co/encity/user/repositories/mongodb/MongoDBUserRepository.java:117 | dispatches on the stored event's class; the same object, transformed in place |
| Snapshots.UpdateUser | src/main/java/uk/co/encity/user/repositories/mongodb/MongoDBUserRepository.java:117 | one replay step in place: transform, then toVersion and lastUpdate become the event's |
| Repository.ToCommandRecord | src/main/java/uk/co/encity/user/repositories/mongodb/MongoDBPatchUserCommand.java:20-33 | a confirm or reject record for the command's user; any other type is IllegalArgument; the record's id and time come from its own constructor and its type stays null |
| Repository.RecordIgnoresCommandIdentity | src/main/java/uk/co/encity/user/repositories/mongodb/MongoDBUserCommand.java:24-27 | the command's own id and time stamp do not reach the record |
| Repository.LatestSnapshot | src/main/java/uk/co/encity/user/repositories/mongodb/MongoDBUserRepository.java:99-105 | the snapshot found is one of the collection's and belongs to the requested user |
| Repository.AsWrittenQueryMatchesNothing | src/main/java/uk/co/encity/user/repositories/mongodb/MongoDBUserRepository.java:102 | as written, the query on `userIdentity` matches no stored snapshot, whatever the collection holds |
| Repository.StoredUserIsLostAsWritten | src/main/java/uk/co/encity/user/repositories/mongodb/MongoDBUserRepository.java:99-142 | as written, a user with a stored snapshot, read under its own id, fails with NullPointer, while the query on `userId` finds it |
| Repository.LatestSnapshotIsLatest | src/main/java/uk/co/encity/user/repositories/mongodb/MongoDBUserRepository.java:99-105 | a snapshot is found iff the user has one; it is one of the user's and no snapshot of the user has a later lastUpdate |
| Repository.EventRange | src/main/java/uk/co/encity/user/repositories/mongodb/MongoDBUserRepository.java:123-136 | the range is no longer than the collection and holds only the user's events above the given version |
| Repository.EventRangeSelects | src/main/java/uk/co/encity/user/repositories/mongodb/MongoDBUserRepository.java:123-136 | the range holds exactly the stored events of the user whose version is strictly above the given one |
| Repository.EventRangeOfUnknownUser | src/main/java/uk/co/encity/user/repositories/mongodb/MongoDBUserRepository.java:130 | a user no stored event refers to has an empty range |
| Repository.EventRangeAppend | src/main/java/uk/co/encity/user/repositories/mongodb/MongoDBUserRepository.java:130-134 | storing one more event adds it to the range exactly when it matches the query |
| Repository.UserView | src/main/java/uk/co/encity/user/repositories/mongodb/MongoDBUserRepository.java:139-142 | a read that succeeds returns the requested user; a read that fails fails with NullPointer |
| Repository.UserViewFindsTheUser | src/main/java/uk/co/encity/user/repositories/mongodb/MongoDBUserRepository.java:139-142 | a read succeeds iff the user has a snapshot, and then returns that user |
| Repository.StoredEventIsSeenByNextRead | src/main/java/uk/co/encity/user/repositories/mongodb/MongoDBUserRepository.java:199-238 | after storing a non-created event numbered one above the user's version, the next read shows the event's status, version and time, and nothing else changed |
| Repository.StoredEventKeepsRangeGapFree | src/main/java/uk/co/encity/user/repositories/mongodb/MongoDBUserRepository.java:217-226 | storing the next event at the user's version plus one keeps the versions after the snapshot gap-free |
| Repository.AddedUserReadsBack | src/main/java/uk/co/encity/user/repositories/mongodb/MongoDBUserRepository.java:152-196 | a user added under an unused identity reads back exactly as the snapshot written |
| Repository.InitialSnapshot | src/main/java/uk/co/encity/user/repositories/mongodb/MongoDBUserRepository.java:154-170 | UNCONFIRMED and ACTIVE, fromVersion = toVersion = 1, lastUpdate = creation time = now, expiry = now + expiryHours hours, the given user id, snapshot id, nonce, tenancy, domain, admin flag and name |
| Repository.NewStoredEvent | src/main/java/uk/co/encity/user/repositories/mongodb/MongoDBUserRepository.java:198-233 | created: version 1 with the user's expiry; confirmed or rejected: the user's version + 1; any other type: IllegalState |
| Repository.AsUserEvent | src/main/java/uk/co/encity/user/repositories/mongodb/MongoDBUserConfirmedEvent.java:27-30 | the generated event of the stored event's own kind, carrying the given command id, the user's id, a fresh event id and the clock's time |
| Repository.UserRepository.GetLatestSnapshot | src/main/java/uk/co/encity/user/repositories/mongodb/MongoDBUserRepository.java:99-105 | the scan returns LatestSnapshot of the snapshot collection and changes nothing |
| Repository.UserRepository.GetEventRange | src/main/java/uk/co/encity/user/repositories/mongodb/MongoDBUserRepository.java:123-136 | the loop returns EventRange of the event collection and changes nothing |
| Repository.UserRepository.Inflate | src/main/java/uk/co/encity/user/repositories/mongodb/MongoDBUserRepository.java:107-121 | folds the range over a copy (the given snapshot is left unchanged) and projects it; a null snapshot is NullPointer |
| Repository.UserRepository.GetUser | src/main/java/uk/co/encity/user/repositories/mongodb/MongoDBUserRepository.java:139-142 | returns UserView: the latest snapshot replayed and projected, or NullPointer for an unknown user |
| Repository.UserRepository.ConfirmUser | src/main/java/uk/co/encity/user/repositories/mongodb/MongoDBUserRepository.java:144-149 | one provider call with the user and the password; returns the same user, or fails when the provider fails |
| Repository.UserRepository.AddUser | src/main/java/uk/co/encity/user/repositories/mongodb/MongoDBUserRepository.java:151-196 | appends exactly the initial snapshot and returns its projection (version 1, creation time now); a failed insert appends nothing and fails |
| Repository.UserRepository.AddUserEvent | src/main/java/uk/co/encity/user/repositories/mongodb/MongoDBUserRepository.java:198-239 | appends exactly the event NewStoredEvent builds and returns its generated event; for any other type appends nothing and fails with IllegalState; a failed insert appends nothing and fails |
| Repository.UserRepository.AddPatchUserCommand | src/main/java/uk/co/encity/user/repositories/mongodb/MongoDBUserRepository.java:241-249 | appends exactly one command record and returns the command unchanged; a non-patch command appends nothing and is IllegalArgument; a failed insert appends nothing and fails |
| Service.ApplyEffects | src/main/java/uk/co/encity/user/service/UserService.java:40-77 | the order of effects: a provider call only for a read user that passed its check, an event only after the provider accepted (or was not needed) and the insert succeeded, a message only after its event, and success exactly when a message went out |
| Service.StoreAndPublish | src/main/java/uk/co/encity/user/service/UserService.java:61-77 | stores the command's event at the user's version + 1 with the command's id, then publishes it on the exchange under its key with the user and the generated event; a failed insert stores and publishes nothing, a failed publication leaves the event stored |
| Service.UserService.ApplyCommand | src/main/java/uk/co/encity/user/service/UserService.java:31-78 | the result, the provider calls, the stored events and the published messages are those ApplyEffects gives for the user as fetched |
| Service.SuccessStoresOneEventAndPublishesOneMessage | src/main/java/uk/co/encity/user/service/UserService.java:61-77 | success stores one event with the command's id, the user's id and version + 1, leading to the command's target status; publishes one message on "encity-exchange" under that event's key; returns the user as fetched |
| Service.FailurePublishesNothing | src/main/java/uk/co/encity/user/service/UserService.java:40-75 | a failed command publishes nothing, and stores an event only when publishing itself failed |
| Service.FailedFetchOrCheckHasNoEffects | src/main/java/uk/co/encity/user/service/UserService.java:40-47 | a failed read or precondition fails with that error before any provider call, event or message |
| Service.SideEffectByCommandType | src/main/java/uk/co/encity/user/service/UserService.java:49-59 | confirm calls the provider once with its password, and a provider failure stores nothing; reject calls nothing; any other command is UnsupportedOperation with no effect; a failed insert after the provider call leaves that call made with nothing stored or published |
| Service.StoredCommandIsSeenByNextRead | src/main/java/uk/co/encity/user/service/UserService.java:61-63 | after the command's event is stored, the next read shows the target status, version + 1 and the stored event's time |
| Service.SecondRejectIsRefused | src/main/java/uk/co/encity/user/service/UserService.java:40-44 | once a reject has stored its event, a second reject fails with "cannot reject" and has no effect |
| Service.ConfirmAfterAddUser | src/main/java/uk/co/encity/user/service/UserService.java:31-77 | a user just added and then confirmed reads back CONFIRMED at version 2 |
| Controller.ReadUser | src/main/java/uk/co/encity/user/service/UserController.java:66-78 | the controller receives the user iff the repository read succeeds, and then exactly the user read; otherwise exactly the exception thrown |
| Controller.NonceMatchesAsWritten | src/main/java/uk/co/encity/user/service/UserController.java:101 | as written, a UUID compared with a String is never equal |
| Controller.Decide | src/main/java/uk/co/encity/user/service/UserController.java:66-116 | for any nonce check: 200, with the user as read, iff the user was read, is UNCONFIRMED, ACTIVE, passes the check and now is not after the expiry; a read user failing a guard gets 409; a failed read never gets 409 |
| Controller.GetUnconfirmedUserAsWritten | src/main/java/uk/co/encity/user/service/UserController.java:56-145 | as written, no request is ever answered 200 |
| Controller.OwnNonceIsRefusedAsWritten | src/main/java/uk/co/encity/user/service/UserController.java:101-108 | as written, a pending, active, unexpired user asked for with its own nonce gets 409 |
| Controller.NonceMatches | src/main/java/uk/co/encity/user/service/UserController.java:101 | corrected: the nonce matches iff the UUID's text equals the request's |
| Controller.GetUnconfirmedUser | src/main/java/uk/co/encity/user/service/UserController.java:56-145 | 200 iff the user was read, is UNCONFIRMED, ACTIVE, holds the nonce and now is not after the expiry; the 200 carries the user as read; any other read user gets 409 |
| Controller.ReadFailuresAreReported | src/main/java/uk/co/encity/user/service/UserController.java:66-78 | an IOException gives 500 and a null user 404, each iff; any other exception escapes unchanged |
| Controller.UnknownUserEscapes | src/main/java/uk/co/encity/user/service/UserController.java:66-72 | through this repository, an unknown user gives an escaping NullPointer, never 404 |
| Controller.NewUserGetsConfirmationPage | src/main/java/uk/co/encity/user/service/UserController.java:82-145 | a user just added gets 200, carrying the user, for its own nonce before its expiry |
| Lifecycle.FinalStatuses | src/main/java/uk/co/encity/user/commands/DeleteUserCommand.java:20-24 | REJECTED and DELETED are exactly the statuses no transition leaves |
| Lifecycle.AcceptedCommandFollowsAnEdge | src/main/java/uk/co/encity/user/commands/ConfirmUserCommand.java:28-43 | a command that passes its check is for an ACTIVE user, and its event follows a permitted transition |
| Lifecycle.EveryEdgeHasACommand | src/main/java/uk/co/encity/user/commands/DeleteUserCommand.java:20-42 | every permitted transition is reachable: an ACTIVE user that is not its tenancy's only admin passes the matching command, whose event leads to the target |
| Lifecycle.FinalStatusRefusesEveryChange | src/main/java/uk/co/encity/user/commands/RejectUserCommand.java:18-28 | a REJECTED or DELETED user fails every command except create |
| Lifecycle.AcceptedEventIsNotRepeatable | src/main/java/uk/co/encity/user/commands/RejectUserCommand.java:19-22 | after an accepted command's event is replayed, the same command is refused |

## Left out

- The identity provider (Auth0): it makes HTTP calls and refreshes tokens in the background. Its outcome is the boolean `providerAccepts`, and the model records the call.
- Serialisation and messaging: JSON serialisers, deserialisers and the broker client are left out. A publication is a `Message` value, and its failure is the boolean `publishOk`.
- Spring wiring, security and HAL link building are left out. The controller's failure to build links, a 500, is not modelled.
- ObjectId hex conversion is left out. Ids are opaque strings, and an invalid hex id, which throws in the source, is not modelled.
- Concurrency is left out. Calls are sequential, so the race between reading a version and appending the next event is not modelled.
- Service.UserService.ApplyCommand: the source's `IllegalArgumentException` for a null user never arises, because `getUser` throws `NullPointerException` for an unknown user first. The model propagates that failure.
- Service.UserService.ApplyCommand: the source's parameter type admits only patch commands. The model accepts any command, so delete and create reach the UnsupportedOperation branch. Delete therefore cannot complete through this orchestration, as in the source.
- Service.UserService.ApplyCommand: a serialisation failure and a broker failure are both `PublishFailed`.
- Repository.UserRepository.GetEventRange: MongoDB returns the range in no guaranteed order. The model returns it in stored order; only `Snapshots.ReplayVersion` takes the versions to be gap-free, which `Repository.StoredEventKeepsRangeGapFree` shows the writes preserve.
- Repository.UserRepository.AddUser: the snapshot is built as one value, not field by field through setters. The result is the same.
- Java `int` overflow of version numbers is not modelled. Versions are unbounded integers.
- The `getAdminUserCount` query has no implementation in the source. It is the input `adminCount`.
- The provider command types (suspend, release, stop) have no code in the core and are not modelled.

## Findings

| source | as written | input that shows it | evidently intended | confidence | as-written member | corrected member |
|---|---|---|---|---|---|---|
| src/main/java/uk/co/encity/user/service/UserController.java:101 | `user.getConfirmUUID().equals(confirmUUID)` compares a `UUID` with a `String`, which is never equal, so every request gets 409 | an UNCONFIRMED, ACTIVE, unexpired user asked for with its own nonce as the `uuid` parameter | compare the UUID's text with the parameter, so that the matching nonce gets 200 | not executed | Controller.OwnNonceIsRefusedAsWritten | Controller.GetUnconfirmedUser |
| src/main/java/uk/co/encity/user/repositories/mongodb/MongoDBUserRepository.java:102 | `getLatestSnapshot` filters on `userIdentity`, a field no stored snapshot has (the document holds `userId`; `getUserIdentity` is excluded from it), so the query finds nothing and `inflate` dereferences null | any user added by `addUser`, read back with `getUser` under its own id | filter on `userId`, so that a stored user reads back | not executed | Repository.StoredUserIsLostAsWritten | Repository.AddedUserReadsBack |
