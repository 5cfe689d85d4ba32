/** agents/greeting_agent.py: the sign-up tools. A visitor leaves a name,
    asks for a verification email, and redeems the token it carries. */
module GreetingAgent {
  import opened Wrappers
  import opened SessionState
  import opened Connection
  import opened Models
  import EmailFormat
  import Text

  /** `save_user_name_tool`: the stripped name goes under
      `temp:pending_user_name`, and no other entry changes. */
  method SaveUserNameTool(ctx: ToolContext, name: string)
    modifies ctx
    ensures ctx.state == old(ctx.state)[PendingUserNameKey := VStr(Text.Strip(name))]
  {
    ctx.state := ctx.state[PendingUserNameKey := VStr(Text.Strip(name))];
  }

  /** The replies of `request_verification_tool`. */
  datatype RequestReply =
    | InvalidFormat      // success False, error "invalid_format"
    | AlreadyRegistered  // success False, action "verify"
    | EmailSent          // success True, action "await_token"
    | SendFailed         // success False, error "send_failed"

  /** `request_verification_tool`. `token` is the `uuid4()` that
      `create_token` draws, and `delivered` is what `send_magic_link`
      reports. A colliding token makes the insert raise. */
  method RequestVerificationTool(db: Database, email: string, token: TokenId, now: int, delivered: bool)
    returns (r: Result<RequestReply, DbError>)
    requires db.Valid()
    modifies db
    ensures db.Valid()
    ensures db.users == old(db.users) && db.videos == old(db.videos) && db.scenes == old(db.scenes)
    ensures db.images == old(db.images) && db.checkpoints == old(db.checkpoints)
    ensures !EmailFormat.Pattern(email) ==> r == Success(InvalidFormat) && db.tokens == old(db.tokens)
    ensures EmailFormat.Pattern(email) && FindUserByEmail(old(db.users), email).Some? ==>
      r == Success(AlreadyRegistered) && db.tokens == old(db.tokens)
    ensures EmailFormat.Pattern(email) && FindUserByEmail(old(db.users), email).None? ==>
      var issued := IssueToken(old(db.tokens), token, email, now);
      && (issued.Failure? ==> r == Failure(IntegrityError) && db.tokens == old(db.tokens))
      && (issued.Success? ==> db.tokens == issued.value && r == Success(if delivered then EmailSent else SendFailed))
  {
    if !EmailFormat.Matches(email) {
      return Success(InvalidFormat);
    }
    var existingUser := FindUserByEmail(db.users, email);
    if existingUser.Some? {
      return Success(AlreadyRegistered);
    }
    var created := CreateToken(db, email, token, now);
    if created.Failure? {
      return Failure(IntegrityError);
    }
    // the email goes out with `created.value`; `delivered` is its outcome
    if delivered {
      r := Success(EmailSent);
    } else {
      r := Success(SendFailed);
    }
  }

  /** The replies of `verify_token_tool`. */
  datatype VerifyReply =
    | InvalidToken  // success False, error "invalid_token"
    | Verified(userName: Option<string>, userId: UserId, email: string)  // success True

  /** The state after a verification: the user's identity is recorded and
      the pending name is dropped. */
  function SignedIn(state: State, email: string, user: User): (s: State)
    ensures s.Keys == (state.Keys + {UserEmailKey, VerifiedUserIdKey, UserNameKey}) - {PendingUserNameKey}
    ensures s[UserEmailKey] == VStr(email) && s[VerifiedUserIdKey] == VStr(user.userId)
    ensures s[UserNameKey] == VStr(DisplayName(user.userName))
    ensures forall k ::
      (k in state && k != UserEmailKey && k != VerifiedUserIdKey && k != UserNameKey && k != PendingUserNameKey)
      ==> s[k] == state[k]
  {
    WithIdentity(state, email, user.userId, user.userName) - {PendingUserNameKey}
  }

  /** The user a verification signs in: the registered one, or a new row
      carrying the pending name. */
  function UserToSignIn(users: map<UserId, User>, state: State, email: string, userIdOf: string -> UserId)
    : (u: User)
    requires EmailsUnique(users)
    ensures u.email == email
    ensures FindUserByEmail(users, email).Some? ==> u in users.Values
    ensures FindUserByEmail(users, email).None? ==>
      u == NewUser(email, None, AsText(Get(state, PendingUserNameKey)), userIdOf)
  {
    var existing := FindUserByEmail(users, email);
    if existing.Some? then existing.value else NewUser(email, None, AsText(Get(state, PendingUserNameKey)), userIdOf)
  }

  /** `verify_token_tool` as evidently intended, with the lookup result
      bound to `user`. The rest of the model uses this version. */
  method VerifyTokenTool(db: Database, ctx: ToolContext, token: string, now: int)
    returns (r: Result<VerifyReply, DbError>)
    requires db.Valid()
    modifies db, ctx
    ensures db.Valid()
    ensures db.videos == old(db.videos) && db.scenes == old(db.scenes) && db.images == old(db.images)
    ensures db.checkpoints == old(db.checkpoints)
    ensures db.tokens == Redeem(old(db.tokens), Text.Strip(token), now).tokens
    // an unknown, used or expired token, or one whose row holds an empty
    // e-mail (`if not email`): nothing but the reply and the token's use
    ensures !Present(Redeem(old(db.tokens), Text.Strip(token), now).email) ==>
      r == Success(InvalidToken) && ctx.state == old(ctx.state) && db.users == old(db.users)
    // a redeemed token signs in the registered user, or registers one
    ensures Present(Redeem(old(db.tokens), Text.Strip(token), now).email) ==>
      var email := Redeem(old(db.tokens), Text.Strip(token), now).email.value;
      var registered := FindUserByEmail(old(db.users), email).Some?;
      var user := UserToSignIn(old(db.users), old(ctx.state), email, db.userIdOf);
      && (registered ==> db.users == old(db.users))
      && (!registered && InsertUser(old(db.users), user).Success? ==> db.users == InsertUser(old(db.users), user).value)
      && (!registered && InsertUser(old(db.users), user).Failure? ==>
            r == Failure(IntegrityError) && ctx.state == old(ctx.state) && db.users == old(db.users))
      && (registered || InsertUser(old(db.users), user).Success? ==>
            r == Success(Verified(user.userName, user.userId, email)) && ctx.state == SignedIn(old(ctx.state), email, user))
  {
    var email := VerifyToken(db, Text.Strip(token), now);
    if !Present(email) {
      return Success(InvalidToken);
    }
    var userName := AsText(Get(ctx.state, PendingUserNameKey));
    var existingUser := FindUserByEmail(db.users, email.value);
    var user: User;
    if existingUser.Some? {
      user := existingUser.value;
    } else {
      var created := CreateUser(db, email.value, None, userName);
      if created.Failure? {
        return Failure(IntegrityError);
      }
      user := created.value;
    }
    ctx.state := WithIdentity(ctx.state, email.value, user.userId, user.userName) - {PendingUserNameKey};
    r := Success(Verified(user.userName, user.userId, email.value));
  }

  /** How the code as written fails. */
  datatype RaisedError = UnboundLocalError

  /** `verify_token_tool` as written: `user` is tested before it is ever
      bound, so every redemption that yields a non-empty e-mail raises
      after the token was marked used, and no user row or state entry is
      written. A row with an empty e-mail is refused at `if not email`. */
  method VerifyTokenToolAsWritten(db: Database, ctx: ToolContext, token: string, now: int)
    returns (r: Result<VerifyReply, RaisedError>)
    requires db.Valid()
    modifies db
    ensures db.Valid()
    ensures db.users == old(db.users) && db.videos == old(db.videos) && db.scenes == old(db.scenes)
    ensures db.images == old(db.images) && db.checkpoints == old(db.checkpoints)
    ensures db.tokens == Redeem(old(db.tokens), Text.Strip(token), now).tokens
    ensures !Present(Redeem(old(db.tokens), Text.Strip(token), now).email) ==> r == Success(InvalidToken)
    ensures Present(Redeem(old(db.tokens), Text.Strip(token), now).email) ==> r == Failure(UnboundLocalError)
  {
    var email := VerifyToken(db, Text.Strip(token), now);
    if !Present(email) {
      return Success(InvalidToken);
    }
    var userName := Get(ctx.state, PendingUserNameKey);
    var existingUser := FindUserByEmail(db.users, email.value);
    // `if not user:` reads a local that was never assigned
    r := Failure(UnboundLocalError);
  }

  /** Preconditions of a first registration: a well-formed address nobody
      has registered, a fresh token without surrounding blanks, a derived id
      not yet taken, and a redemption within the hour. */
  ghost predicate FreshRegistration(db: Database, email: string, token: TokenId, now: int, later: int)
    reads db
  {
    && db.Valid()
    && EmailFormat.Pattern(email)
    && FindUserByEmail(db.users, email).None?
    && token !in db.tokens && Text.Strip(token) == token
    && db.userIdOf(email) !in db.users
    && now <= later < now + TokenLifetime
  }

  /** The first two steps of a registration: the visitor's name is kept as
      pending, and the one new token is mailed. The only change to the
      database is that token, which redeems at `later` for the address. */
  method GiveNameAndRequest(db: Database, ctx: ToolContext, name: string, email: string, token: TokenId, now: int, later: int)
    returns (request: Result<RequestReply, DbError>)
    requires FreshRegistration(db, email, token, now, later)
    modifies db, ctx
    ensures FreshRegistrationPending(db, email, token, later)
    ensures db.users == old(db.users)
    ensures request == Success(EmailSent)
    ensures ctx.state == old(ctx.state)[PendingUserNameKey := VStr(Text.Strip(name))]
  {
    SaveUserNameTool(ctx, name);
    request := RequestVerificationTool(db, email, token, now, true);
    assert db.tokens[token] == TokenRow(email, now, now + TokenLifetime, false);
    EmailFormat.MatchedIsNonEmpty(email);
  }

  /** Between request and verification: the token redeems for the
      (non-empty) address, which nobody has registered and whose derived id
      is free. */
  ghost predicate FreshRegistrationPending(db: Database, email: string, token: TokenId, later: int)
    reads db
  {
    && db.Valid()
    && FindUserByEmail(db.users, email).None?
    && db.userIdOf(email) !in db.users
    && Text.Strip(token) == token
    && Redeem(db.tokens, token, later).email == Some(email)
    && email != ""
  }

  /** The third step of a registration: the mailed token is redeemed, the
      account is created under the derived id with the pending name, the
      visitor is signed in, and the token is spent. */
  method RedeemFreshToken(db: Database, ctx: ToolContext, name: string, email: string, token: TokenId, later: int)
    returns (verify: Result<VerifyReply, DbError>)
    requires FreshRegistrationPending(db, email, token, later)
    requires PendingUserNameKey in ctx.state && ctx.state[PendingUserNameKey] == VStr(Text.Strip(name))
    modifies db, ctx
    ensures db.Valid()
    ensures verify == Success(Verified(Some(Text.Strip(name)), db.userIdOf(email), email))
    ensures FindUserByEmail(db.users, email) == Some(User(db.userIdOf(email), email, Some(Text.Strip(name)), 0.0))
    ensures UserEmailKey in ctx.state && ctx.state[UserEmailKey] == VStr(email)
    ensures VerifiedUserIdKey in ctx.state && ctx.state[VerifiedUserIdKey] == VStr(db.userIdOf(email))
    ensures PendingUserNameKey !in ctx.state
    ensures token in db.tokens && db.tokens[token].used
  {
    var user := NewUser(email, None, Some(Text.Strip(name)), db.userIdOf);
    assert UserToSignIn(db.users, ctx.state, email, db.userIdOf) == user;
    verify := VerifyTokenTool(db, ctx, token, later);
  }

  /** A new visitor gives a name, asks for the email, and redeems its token
      in time: the account is created with the stripped name, the visitor
      is signed in, and the same token is refused afterwards. */
  method RegisterNewUser(db: Database, ctx: ToolContext, name: string, email: string, token: TokenId, now: int, later: int)
    returns (request: Result<RequestReply, DbError>, verify: Result<VerifyReply, DbError>,
             retry: Result<VerifyReply, DbError>)
    requires FreshRegistration(db, email, token, now, later)
    modifies db, ctx
    ensures db.Valid()
    ensures request == Success(EmailSent)
    ensures verify == Success(Verified(Some(Text.Strip(name)), db.userIdOf(email), email))
    ensures retry == Success(InvalidToken)
    ensures FindUserByEmail(db.users, email) == Some(User(db.userIdOf(email), email, Some(Text.Strip(name)), 0.0))
    ensures UserEmailKey in ctx.state && ctx.state[UserEmailKey] == VStr(email)
    ensures VerifiedUserIdKey in ctx.state && ctx.state[VerifiedUserIdKey] == VStr(db.userIdOf(email))
    ensures PendingUserNameKey !in ctx.state
  {
    request := GiveNameAndRequest(db, ctx, name, email, token, now, later);
    verify := RedeemFreshToken(db, ctx, name, email, token, later);
    InertTokensNeverRedeem(db.tokens, token, later);
    retry := VerifyTokenTool(db, ctx, token, later);
  }

  /** The same visit against the code as written: the redemption raises,
      the token is spent, no account exists and the visitor is not signed
      in, so the retry with the same token is refused. */
  method RegisterNewUserAsWritten(db: Database, ctx: ToolContext, name: string, email: string, token: TokenId, now: int, later: int)
    returns (request: Result<RequestReply, DbError>, verify: Result<VerifyReply, RaisedError>,
             retry: Result<VerifyReply, RaisedError>)
    requires FreshRegistration(db, email, token, now, later)
    modifies db, ctx
    ensures db.Valid()
    ensures request == Success(EmailSent)
    ensures verify == Failure(UnboundLocalError)
    ensures retry == Success(InvalidToken)
    ensures FindUserByEmail(db.users, email).None?
    ensures ctx.state == old(ctx.state)[PendingUserNameKey := VStr(Text.Strip(name))]
  {
    request := GiveNameAndRequest(db, ctx, name, email, token, now, later);
    verify := VerifyTokenToolAsWritten(db, ctx, token, later);
    retry := VerifyTokenToolAsWritten(db, ctx, token, later);
  }
}
