/**
 * Values shared by every part of the user aggregate: identities, clock
 * readings, the two status axes, the read-only User projection and the
 * exceptions the core can raise.
 */
module Types {

  datatype Option<T> = None | Some(value: T)

  datatype Result<T, E> = Success(value: T) | Failure(error: E)

  /** Pass or Fail, for the precondition checks that return normally or throw. */
  datatype Outcome<E> = Pass | Fail(error: E)

  /** Identities (ObjectId hex strings in the store) are opaque strings. */
  type Id = string

  /** A point on the wall clock, in seconds; only its order matters. */
  type Instant = int

  const SecondsPerHour: int := 3600

  /**
   * One fresh identity together with one reading of the clock: what a
   * constructor obtains from `getIdentity()` / `new ObjectId()` and
   * `Instant.now()`.
   */
  datatype Stamp = Stamp(id: Id, time: Instant)

  /** The business lifecycle of a user inside its tenancy. */
  datatype TenantStatus = Unconfirmed | Confirmed | Rejected | Deleted

  /** The account's standing with the identity provider. */
  datatype ProviderStatus = Active | Suspended | Stopped

  /** The confirmation nonce; `text` is its canonical string form. */
  datatype Uuid = Uuid(text: string)

  /**
   * The read-only view of a user: the projection `asUser` builds, with the
   * fields the service and the controller read from it.
   */
  datatype User = User(
    userId: Id,
    tenancyId: Id,
    firstName: string,
    lastName: string,
    emailAddress: string,
    isAdminUser: bool,
    version: int,
    lastUpdate: Instant,
    tenantStatus: TenantStatus,
    providerStatus: ProviderStatus,
    domain: string,
    confirmUuid: Uuid,
    creationTime: Instant,
    expiryTime: Instant)

  /** The message carried by a PreConditionException. */
  datatype PreconditionMessage =
    | TenantStatusShouldBeUnconfirmed
    | ProviderStatusShouldBeActive
    | CannotReject(rejectedId: Id)
    | NotConfirmed(deletedId: Id)
    | NotActive(inactiveId: Id)
    | OnlyAdmin(adminId: Id)

  /** The exceptions the core throws, one constructor per exception class. */
  datatype Failure =
    | PreConditionFailed(message: PreconditionMessage)
    | IllegalArgument
    | IllegalState
    | UnsupportedOperation
    | NullPointer
    | IamProviderFailed
    | StoreFailed      // a collection refused an insert
    | PublishFailed
}
