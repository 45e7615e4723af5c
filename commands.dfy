/**
 * The user commands (package commands): the action-string map, the command
 * value built once by its constructor, the precondition check and the event
 * factory of each concrete command, and the patch-command factory.
 */
module Commands {
  import opened Types
  import opened Events

  /** The commands that a tenant may perform on a user (UserTenantCommandType). */
  datatype TenantCommandType =
    | DemoteUser | PromoteUser | UpdateUser | RevokeUser | RestoreUser
    | ConfirmUser | RejectUser | ResetUser | DeleteUser | CreateUser

  /** The action strings a PATCH request may carry, filled once at class load. */
  const ActionMap: map<string, TenantCommandType> := map["confirm" := ConfirmUser, "reject" := RejectUser]

  /** `ACTION_MAP.get(action)`, with Java's null as None. */
  function LookupAction(action: string): (r: Option<TenantCommandType>)
    ensures r == Some(ConfirmUser) <==> action == "confirm"
    ensures r == Some(RejectUser) <==> action == "reject"
    ensures r.None? <==> action != "confirm" && action != "reject"
  {
    if action in ActionMap then Some(ActionMap[action]) else None
  }

  /** The keys of the `extras` map handed to a confirm command. */
  datatype Extra = InitialPassword

  /**
   * The concrete command classes. Only the confirm command holds a payload,
   * its initial password (null when the extras do not hold one).
   */
  datatype CommandKind =
    | ConfirmCommand(initialPassword: Option<string>)
    | RejectCommand
    | DeleteCommand
    | CreateCommand

  /**
   * A command: every field is set by the constructor and only read after,
   * so a command is a value.
   */
  datatype UserCommand = UserCommand(userId: Id, commandId: Id, timeStamp: Instant, kind: CommandKind)

  /** `getCmdType()`: the type each concrete class passes to the base constructor. */
  function CmdType(c: UserCommand): TenantCommandType {
    match c.kind
    case ConfirmCommand(_) => ConfirmUser
    case RejectCommand => RejectUser
    case DeleteCommand => DeleteUser
    case CreateCommand => CreateUser
  }

  /** The commands that are PatchUserCommand subclasses. */
  predicate IsPatchCommand(c: UserCommand) {
    c.kind.ConfirmCommand? || c.kind.RejectCommand?
  }

  /**
   * The base constructor UserCommand(userId, cmdType, repo): the command id
   * is the repository's fresh identity and the time stamp the clock.
   */
  function NewUserCommand(userId: Id, kind: CommandKind, stamp: Stamp): UserCommand {
    UserCommand(userId, stamp.id, stamp.time, kind)
  }

  /** new ConfirmUserCommand(userId, repo, extras) */
  function NewConfirmUserCommand(userId: Id, extras: map<Extra, string>, stamp: Stamp): (c: UserCommand)
    ensures CmdType(c) == ConfirmUser && IsPatchCommand(c)
    ensures c.userId == userId && c.commandId == stamp.id && c.timeStamp == stamp.time
    ensures c.kind.initialPassword == if InitialPassword in extras then Some(extras[InitialPassword]) else None
  {
    var password := if InitialPassword in extras then Some(extras[InitialPassword]) else None;
    NewUserCommand(userId, ConfirmCommand(password), stamp)
  }

  /** new RejectUserCommand(userId, repo) */
  function NewRejectUserCommand(userId: Id, stamp: Stamp): (c: UserCommand)
    ensures CmdType(c) == RejectUser && IsPatchCommand(c)
    ensures c.userId == userId && c.commandId == stamp.id && c.timeStamp == stamp.time
  {
    NewUserCommand(userId, RejectCommand, stamp)
  }

  /** new DeleteUserCommand(userId, repo) */
  function NewDeleteUserCommand(userId: Id, stamp: Stamp): (c: UserCommand)
    ensures CmdType(c) == DeleteUser && !IsPatchCommand(c)
    ensures c.userId == userId && c.commandId == stamp.id && c.timeStamp == stamp.time
  {
    NewUserCommand(userId, DeleteCommand, stamp)
  }

  /**
   * new CreateUserCommand(repo, firstName, lastName, email, domain, isAdmin, id):
   * the user id is the empty string and none of the other arguments is kept.
   */
  function NewCreateUserCommand(
    firstName: string, lastName: string, email: string, domain: string,
    isAdmin: bool, id: Id, stamp: Stamp): (c: UserCommand)
    ensures CmdType(c) == CreateUser && !IsPatchCommand(c)
    ensures c.userId == "" && c.commandId == stamp.id && c.timeStamp == stamp.time
  {
    NewUserCommand("", CreateCommand, stamp)
  }

  /** The arguments of a create command other than the stamp leave no trace in it. */
  lemma CreateCommandIgnoresItsArguments(
    f1: string, l1: string, e1: string, d1: string, a1: bool, i1: Id,
    f2: string, l2: string, e2: string, d2: string, a2: bool, i2: Id, stamp: Stamp)
    ensures NewCreateUserCommand(f1, l1, e1, d1, a1, i1, stamp) == NewCreateUserCommand(f2, l2, e2, d2, a2, i2, stamp)
  {
  }

  /** `getInitialPassword()` of a confirm command. */
  function InitialPasswordOf(c: UserCommand): Option<string>
    requires c.kind.ConfirmCommand?
  {
    c.kind.initialPassword
  }

  /**
   * PatchUserCommand.getPatchUserCommand: confirm and reject build their
   * command, every other type yields null. The source calls a confirm
   * constructor without extras, so that command has no initial password.
   */
  function GetPatchUserCommand(cmdType: TenantCommandType, userId: Id, stamp: Stamp): (r: Option<UserCommand>)
    ensures r.Some? <==> cmdType == ConfirmUser || cmdType == RejectUser
    ensures r.Some? ==> CmdType(r.value) == cmdType && IsPatchCommand(r.value)
    ensures r.Some? ==> r.value.userId == userId && r.value.commandId == stamp.id && r.value.timeStamp == stamp.time
    ensures cmdType == ConfirmUser ==> r.value.kind.initialPassword.None?
  {
    match cmdType
    case ConfirmUser => Some(NewConfirmUserCommand(userId, map[], stamp))
    case RejectUser => Some(NewRejectUserCommand(userId, stamp))
    case _ => None
  }

  /**
   * Every action string of the map yields, through the factory, a patch
   * command of the mapped type for the requested user; no other string does.
   */
  lemma ActionsYieldPatchCommands(action: string, userId: Id, stamp: Stamp)
    ensures LookupAction(action).Some? <==> action == "confirm" || action == "reject"
    ensures LookupAction(action).Some? ==>
      var c := GetPatchUserCommand(LookupAction(action).value, userId, stamp);
      c.Some? && CmdType(c.value) == LookupAction(action).value && c.value.userId == userId
  {
  }

  // ----- precondition checks -----

  /** ConfirmUserCommand.checkPreConditions: the tenant status is checked first. */
  function CheckConfirmPreConditions(u: User): (r: Outcome<Failure>)
    ensures r.Pass? <==> u.tenantStatus == Unconfirmed && u.providerStatus == Active
    ensures u.tenantStatus != Unconfirmed ==> r == Fail(PreConditionFailed(TenantStatusShouldBeUnconfirmed))
    ensures u.tenantStatus == Unconfirmed && u.providerStatus != Active ==>
      r == Fail(PreConditionFailed(ProviderStatusShouldBeActive))
  {
    if u.tenantStatus != Unconfirmed then Fail(PreConditionFailed(TenantStatusShouldBeUnconfirmed))
    else if u.providerStatus != Active then Fail(PreConditionFailed(ProviderStatusShouldBeActive))
    else Pass
  }

  /** RejectUserCommand.checkPreConditions: both guards throw the same message. */
  function CheckRejectPreConditions(u: User): (r: Outcome<Failure>)
    ensures r.Pass? <==> u.tenantStatus == Unconfirmed && u.providerStatus == Active
    ensures r.Fail? ==> r.error == PreConditionFailed(CannotReject(u.userId))
  {
    if u.tenantStatus != Unconfirmed then Fail(PreConditionFailed(CannotReject(u.userId)))
    else if u.providerStatus != Active then Fail(PreConditionFailed(CannotReject(u.userId)))
    else Pass
  }

  /**
   * DeleteUserCommand.checkPreConditions: confirmed, active, and not the only
   * admin of its tenancy (`adminCount` is the repository's admin-count query).
   */
  function CheckDeletePreConditions(u: User, adminCount: Id -> int): (r: Outcome<Failure>)
    ensures r.Pass? <==>
      u.tenantStatus == Confirmed && u.providerStatus == Active && !(u.isAdminUser && adminCount(u.tenancyId) == 1)
    ensures u.tenantStatus != Confirmed ==> r == Fail(PreConditionFailed(NotConfirmed(u.userId)))
    ensures u.tenantStatus == Confirmed && u.providerStatus != Active ==>
      r == Fail(PreConditionFailed(NotActive(u.userId)))
    ensures u.tenantStatus == Confirmed && u.providerStatus == Active && u.isAdminUser && adminCount(u.tenancyId) == 1 ==>
      r == Fail(PreConditionFailed(OnlyAdmin(u.userId)))
  {
    if u.tenantStatus != Confirmed then Fail(PreConditionFailed(NotConfirmed(u.userId)))
    else if u.providerStatus != Active then Fail(PreConditionFailed(NotActive(u.userId)))
    else if u.isAdminUser && adminCount(u.tenancyId) == 1 then Fail(PreConditionFailed(OnlyAdmin(u.userId)))
    else Pass
  }

  /** CreateUserCommand.checkPreConditions never throws. */
  function CheckCreatePreConditions(u: User): (r: Outcome<Failure>)
    ensures r.Pass?
  {
    Pass
  }

  /**
   * The precondition check of whichever concrete command `c` is: create always
   * passes, confirm and reject need a pending active user, delete a confirmed
   * active user that is not its tenancy's only admin.
   */
  function CheckPreConditions(c: UserCommand, u: User, adminCount: Id -> int): (r: Outcome<Failure>)
    ensures c.kind.CreateCommand? ==> r.Pass?
    ensures IsPatchCommand(c) ==> (r.Pass? <==> u.tenantStatus == Unconfirmed && u.providerStatus == Active)
    ensures c.kind.DeleteCommand? ==>
      (r.Pass? <==> u.tenantStatus == Confirmed && u.providerStatus == Active && !(u.isAdminUser && adminCount(u.tenancyId) == 1))
    ensures r.Fail? ==> r.error.PreConditionFailed?
  {
    match c.kind
    case ConfirmCommand(_) => CheckConfirmPreConditions(u)
    case RejectCommand => CheckRejectPreConditions(u)
    case DeleteCommand => CheckDeletePreConditions(u, adminCount)
    case CreateCommand => CheckCreatePreConditions(u)
  }

  /**
   * `createUserEvent` of whichever concrete command `c` is: an event of the
   * command's own kind carrying the command's id, or null for a create command.
   */
  function CreateUserEvent(c: UserCommand, u: User, stamp: Stamp): (r: Option<UserEvent>)
    ensures r.None? <==> c.kind.CreateCommand?
    ensures r.Some? ==> r.value.commandId == c.commandId && r.value.userId == u.userId && r.value.eventId == stamp.id
    ensures r.Some? ==> r.value.eventTime == stamp.time
    ensures c.kind.ConfirmCommand? ==> r.Some? && TypeOf(r.value.kind) == UserConfirmed
    ensures c.kind.RejectCommand? ==> r.Some? && TypeOf(r.value.kind) == UserRejected
    ensures c.kind.DeleteCommand? ==> r.Some? && TypeOf(r.value.kind) == UserDeleted
  {
    match c.kind
    case ConfirmCommand(_) => Some(NewUserConfirmedEvent(c.commandId, u, stamp))
    case RejectCommand => Some(NewUserRejectedEvent(c.commandId, u, stamp))
    case DeleteCommand => Some(NewUserDeletedEvent(c.commandId, u, stamp))
    case CreateCommand => None
  }

  // ----- properties of the validators -----

  /** Confirm and reject accept exactly the same users. */
  lemma ConfirmAndRejectShareTheirSourceState(u: User)
    ensures CheckConfirmPreConditions(u).Pass? <==> CheckRejectPreConditions(u).Pass?
  {
  }

  /** A user that is not active is refused by every command except create. */
  lemma InactiveUserIsRefused(c: UserCommand, u: User, adminCount: Id -> int)
    requires u.providerStatus != Active && !c.kind.CreateCommand?
    ensures CheckPreConditions(c, u, adminCount).Fail?
  {
  }

  /**
   * The sole-admin rule: an admin is refused exactly when the count is 1,
   * and a non-admin is never refused by it.
   */
  lemma SoleAdminRule(u: User, adminCount: Id -> int)
    requires u.tenantStatus == Confirmed && u.providerStatus == Active
    ensures u.isAdminUser ==> (CheckDeletePreConditions(u, adminCount).Fail? <==> adminCount(u.tenancyId) == 1)
    ensures !u.isAdminUser ==> CheckDeletePreConditions(u, adminCount).Pass?
  {
  }
}
