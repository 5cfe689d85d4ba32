/** tools/auth_tools.py: restoring a returning user's identity from the
    database when the session state is empty. */
module AuthTools {
  import opened Wrappers
  import opened SessionState
  import opened Connection
  import opened Models
  import EmailFormat
  import GreetingAgent

  /** The replies of `check_and_restore_user_tool`. */
  datatype RestoreReply =
    | InvalidEmail                   // status "invalid_email"
    | ExistingUser(userName: string) // status "existing_user"
    | Unregistered(email: string)    // status "new_user", email echoed

  /** `check_and_restore_user_tool`. Its `validate_email_format` has the
      same pattern as the greeting agent's, so both are EmailFormat.Matches. */
  method CheckAndRestoreUserTool(db: Database, ctx: ToolContext, email: string) returns (r: RestoreReply)
    requires db.Valid()
    modifies ctx
    ensures !EmailFormat.Pattern(email) ==> r == InvalidEmail && ctx.state == old(ctx.state)
    ensures EmailFormat.Pattern(email) && FindUserByEmail(db.users, email).None? ==>
      r == Unregistered(email) && ctx.state == old(ctx.state)
    ensures EmailFormat.Pattern(email) && FindUserByEmail(db.users, email).Some? ==>
      var user := FindUserByEmail(db.users, email).value;
      && r == ExistingUser(DisplayName(user.userName))
      && ctx.state == WithIdentity(old(ctx.state), user.email, user.userId, user.userName)
  {
    if !EmailFormat.Matches(email) {
      return InvalidEmail;
    }
    var user := FindUserByEmail(db.users, email);
    if user.Some? {
      ctx.state := WithIdentity(ctx.state, user.value.email, user.value.userId, user.value.userName);
      r := ExistingUser(DisplayName(user.value.userName));
    } else {
      r := Unregistered(email);
    }
  }

  /** Restoring a registered user leaves the same state as that user's
      token verification, except that verification also drops the pending
      name: the two tools agree on who is signed in. */
  lemma RestoreAgreesWithVerification(state: State, user: User)
    ensures var restored := WithIdentity(state, user.email, user.userId, user.userName);
      var verified := GreetingAgent.SignedIn(state, user.email, user);
      && restored - {PendingUserNameKey} == verified
      && SignedInUserId(restored) == SignedInUserId(verified) == Some(user.userId)
  {
    var restored := WithIdentity(state, user.email, user.userId, user.userName);
    var verified := GreetingAgent.SignedIn(state, user.email, user);
    assert (restored - {PendingUserNameKey}).Keys == verified.Keys;
  }
}
