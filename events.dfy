/**
 * The generated user events (package events.generated): the base event
 * built from a command id, a user and a fresh identity, and its four
 * concrete kinds, each of which fixes one event type and one routing key.
 */
module Events {
  import opened Types

  /** The event types (UserEventType). */
  datatype EventType = UserCreated | UserConfirmed | UserRejected | UserDeleted

  /** The concrete event classes; only the created event carries a payload. */
  datatype EventKind =
    | CreatedKind(expiryTime: Instant)
    | ConfirmedKind
    | RejectedKind
    | DeletedKind

  /**
   * A generated event. It records no version number: the version is only
   * assigned when the repository stores the event.
   */
  datatype UserEvent = UserEvent(
    commandId: Id,
    eventId: Id,
    userId: Id,
    eventTime: Instant,
    kind: EventKind)

  /** Every routing key lives under this topic prefix. */
  const RoutingPrefix: string := "encity.user."

  /** `getUserEventType()` of each concrete event class. */
  function TypeOf(k: EventKind): EventType {
    match k
    case CreatedKind(_) => UserCreated
    case ConfirmedKind => UserConfirmed
    case RejectedKind => UserRejected
    case DeletedKind => UserDeleted
  }

  /** `getRoutingKey()` of each concrete event class. */
  function RoutingKey(k: EventKind): (key: string)
    ensures |RoutingPrefix| < |key| && key[..|RoutingPrefix|] == RoutingPrefix
  {
    match k
    case CreatedKind(_) => "encity.user.created"
    case ConfirmedKind => "encity.user.confirmed"
    case RejectedKind => "encity.user.rejected"
    case DeletedKind => "encity.user.deleted"
  }

  /**
   * The type names the class: two events of one type are of one class, and
   * apart from the created event's expiry they are the same kind.
   */
  lemma TypeOfIdentifiesClass(a: EventKind, b: EventKind)
    ensures TypeOf(a) == TypeOf(b) <==> a.CreatedKind? == b.CreatedKind? && (!a.CreatedKind? ==> a == b)
  {
  }

  /** Two events share a routing key exactly when they share an event type. */
  lemma RoutingKeyIdentifiesType(a: EventKind, b: EventKind)
    ensures RoutingKey(a) == RoutingKey(b) <==> TypeOf(a) == TypeOf(b)
  {
  }

  /**
   * The base constructor: the command id is the argument, the event id a
   * fresh identity, the user id the user's, and the event time the clock.
   */
  function NewUserEvent(commandId: Id, user: User, stamp: Stamp, kind: EventKind): (e: UserEvent)
    ensures e.commandId == commandId && e.eventId == stamp.id && e.userId == user.userId
    ensures e.eventTime == stamp.time && e.kind == kind
  {
    UserEvent(commandId, stamp.id, user.userId, stamp.time, kind)
  }

  /** new UserCreatedEvent(commandId, user, repo, expiry) */
  function NewUserCreatedEvent(commandId: Id, user: User, stamp: Stamp, expiry: Instant): (e: UserEvent)
    ensures TypeOf(e.kind) == UserCreated && RoutingKey(e.kind) == "encity.user.created"
    ensures e.kind.expiryTime == expiry
    ensures e.commandId == commandId && e.eventId == stamp.id && e.userId == user.userId
    ensures e.eventTime == stamp.time
  {
    NewUserEvent(commandId, user, stamp, CreatedKind(expiry))
  }

  /** new UserConfirmedEvent(commandId, u, repo) */
  function NewUserConfirmedEvent(commandId: Id, user: User, stamp: Stamp): (e: UserEvent)
    ensures TypeOf(e.kind) == UserConfirmed && RoutingKey(e.kind) == "encity.user.confirmed"
    ensures e.commandId == commandId && e.eventId == stamp.id && e.userId == user.userId
    ensures e.eventTime == stamp.time
  {
    NewUserEvent(commandId, user, stamp, ConfirmedKind)
  }

  /** new UserRejectedEvent(commandId, u, repo) */
  function NewUserRejectedEvent(commandId: Id, user: User, stamp: Stamp): (e: UserEvent)
    ensures TypeOf(e.kind) == UserRejected && RoutingKey(e.kind) == "encity.user.rejected"
    ensures e.commandId == commandId && e.eventId == stamp.id && e.userId == user.userId
    ensures e.eventTime == stamp.time
  {
    NewUserEvent(commandId, user, stamp, RejectedKind)
  }

  /** new UserDeletedEvent(commandId, u, repo) */
  function NewUserDeletedEvent(commandId: Id, user: User, stamp: Stamp): (e: UserEvent)
    ensures TypeOf(e.kind) == UserDeleted && RoutingKey(e.kind) == "encity.user.deleted"
    ensures e.commandId == commandId && e.eventId == stamp.id && e.userId == user.userId
    ensures e.eventTime == stamp.time
  {
    NewUserEvent(commandId, user, stamp, DeletedKind)
  }
}
