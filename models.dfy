/** The data-access layer of database/models.py: UserModel, VideoModel and
    VerificationTokenModel. Each static method becomes a method on the
    `Database`; the token table's rules are also stated as functions on the
    table, which the methods are proved to follow. */
module Models {
  import opened Wrappers
  import opened Connection

  // ---------------------------------------------------------------- users

  /** `UserModel.find_by_email`: the row whose email is `email`, if any;
      there is at most one, since emails are unique. */
  function FindUserByEmail(users: map<UserId, User>, email: string): (r: Option<User>)
    requires EmailsUnique(users)
    ensures r.Some? <==> exists k :: k in users && users[k].email == email
    ensures r.Some? ==> r.value.email == email && r.value in users.Values
  {
    if exists k :: k in users && users[k].email == email then
      var k :| k in users && users[k].email == email;
      Some(users[k])
    else
      None
  }

  /** `UserModel.find_by_id`: the row with primary key `userId`, if any. */
  function FindUserById(users: map<UserId, User>, userId: UserId): (r: Option<User>)
    requires UsersKeyed(users)
    ensures r.Some? <==> userId in users
    ensures r.Some? ==> r.value.userId == userId && r.value in users.Values
  {
    if userId in users then Some(users[userId]) else None
  }

  /** The row `UserModel.create` inserts: the given id, or the one derived
      from the email when none is given; `current_month_cost` takes its
      default 0.0. */
  function NewUser(email: string, userId: Option<UserId>, userName: Option<string>, userIdOf: string -> UserId): (u: User)
    ensures u.email == email && u.userName == userName && u.currentMonthCost == 0.0
    ensures userId.None? ==> u.userId == userIdOf(email)
    ensures userId.Some? ==> u.userId == userId.value
  {
    User(userId.GetOr(userIdOf(email)), email, userName, 0.0)
  }

  /** The INSERT into `users` succeeds unless it repeats a primary key or an
      email. A successful insert adds exactly the new row and keeps the
      table's invariant. */
  function InsertUser(users: map<UserId, User>, row: User): (r: Result<map<UserId, User>, DbError>)
    ensures r.Success? <==> row.userId !in users && forall k :: k in users ==> users[k].email != row.email
    ensures r.Success? ==> r.value.Keys == users.Keys + {row.userId} && r.value[row.userId] == row
    ensures r.Success? ==> forall k :: k in users ==> r.value[k] == users[k]
    ensures r.Success? && UsersKeyed(users) && EmailsUnique(users) ==> UsersKeyed(r.value) && EmailsUnique(r.value)
  {
    if row.userId in users || exists k :: k in users && users[k].email == row.email then
      Failure(IntegrityError)
    else
      Success(users[row.userId := row])
  }

  /** Without an explicit id, the same email always yields the same user id. */
  lemma DerivedIdDependsOnlyOnEmail(email: string, name1: Option<string>, name2: Option<string>, userIdOf: string -> UserId)
    ensures NewUser(email, None, name1, userIdOf).userId == NewUser(email, None, name2, userIdOf).userId
  {
  }

  /** `UserModel.create`: inserts the row and returns its fields, or raises
      on a duplicate email or id, leaving the table unchanged. */
  method CreateUser(db: Database, email: string, userId: Option<UserId>, userName: Option<string>)
    returns (r: Result<User, DbError>)
    requires db.Valid()
    modifies db
    ensures db.Valid()
    ensures var row := NewUser(email, userId, userName, db.userIdOf);
      && (r.Success? <==> InsertUser(old(db.users), row).Success?)
      && (r.Success? ==> r.value == row && db.users == InsertUser(old(db.users), row).value)
      && (r.Failure? ==> db.users == old(db.users))
    ensures db.videos == old(db.videos) && db.scenes == old(db.scenes) && db.images == old(db.images)
    ensures db.tokens == old(db.tokens) && db.checkpoints == old(db.checkpoints)
  {
    var row := NewUser(email, userId, userName, db.userIdOf);
    var inserted := InsertUser(db.users, row);
    if inserted.Success? {
      db.users := inserted.value;
      r := Success(row);
    } else {
      r := Failure(IntegrityError);
    }
  }

  // --------------------------------------------------------------- videos

  /** The row `VideoModel.create` inserts: status 'in_progress', no session
      bound yet, and no script. */
  function NewVideo(videoId: VideoId, userId: UserId, title: string, now: int): (v: Video)
    ensures v.videoId == videoId && v.userId == userId && v.title == title
    ensures v.status == "in_progress" && v.lastSessionId.None? && v.script.None?
    ensures v.createdAt == now && v.updatedAt == now
  {
    Video(videoId, userId, None, title, None, "in_progress", now, now)
  }

  /** `VideoModel.create`. `freshId` is the `uuid4()` used when no id is
      given. The insert raises on a duplicate id. The `user_id` foreign key
      is not checked, since SQLite does not enforce foreign keys unless the
      connection enables them, and connection.py does not. */
  method CreateVideo(db: Database, userId: UserId, title: string, videoId: Option<VideoId>, freshId: VideoId, now: int)
    returns (r: Result<Video, DbError>)
    requires db.Valid()
    modifies db
    ensures db.Valid()
    ensures var row := NewVideo(videoId.GetOr(freshId), userId, title, now);
      && (r.Success? <==> row.videoId !in old(db.videos))
      && (r.Success? ==> r.value == row && db.videos == old(db.videos)[row.videoId := row])
      && (r.Failure? ==> db.videos == old(db.videos))
    ensures db.users == old(db.users) && db.scenes == old(db.scenes) && db.images == old(db.images)
    ensures db.tokens == old(db.tokens) && db.checkpoints == old(db.checkpoints)
  {
    var row := NewVideo(videoId.GetOr(freshId), userId, title, now);
    if row.videoId in db.videos {
      r := Failure(IntegrityError);
    } else {
      db.videos := db.videos[row.videoId := row];
      r := Success(row);
    }
  }

  // --------------------------------------------------- verification tokens

  type TokenTable = map<TokenId, TokenRow>

  /** `timedelta(hours=1)`, in seconds. */
  const TokenLifetime := 3600

  /** The SELECT of `verify_token`: unused and `expires_at > now`. */
  predicate Redeemable(row: TokenRow, now: int) {
    !row.used && row.expiresAt > now
  }

  /** The WHERE clause of `cleanup_expired_tokens`: `expires_at < now OR used = 1`. */
  predicate Sweepable(row: TokenRow, now: int) {
    row.expiresAt < now || row.used
  }

  /** `create_token`'s INSERT: one new unused row expiring an hour from
      now, or IntegrityError when the token already exists. */
  function IssueToken(tokens: TokenTable, token: TokenId, email: string, now: int): (r: Result<TokenTable, DbError>)
    ensures r.Success? <==> token !in tokens
    ensures r.Success? ==> r.value.Keys == tokens.Keys + {token}
    ensures r.Success? ==> r.value[token] == TokenRow(email, now, now + TokenLifetime, false)
    ensures r.Success? ==> Redeemable(r.value[token], now)
    ensures r.Success? ==> forall k :: k in tokens ==> r.value[k] == tokens[k]
  {
    if token in tokens then Failure(IntegrityError)
    else Success(tokens[token := TokenRow(email, now, now + TokenLifetime, false)])
  }

  datatype Redemption = Redemption(tokens: TokenTable, email: Option<string>)

  /** `verify_token`: the bound email exactly when the token exists, is
      unused and has not expired; the row is then marked used and nothing
      else changes. Otherwise None, and nothing changes at all. */
  function Redeem(tokens: TokenTable, token: TokenId, now: int): (r: Redemption)
    ensures r.email.Some? <==> token in tokens && Redeemable(tokens[token], now)
    ensures r.email.Some? ==> r.email.value == tokens[token].email
    ensures r.email.Some? ==> r.tokens.Keys == tokens.Keys && r.tokens[token] == tokens[token].(used := true)
    ensures r.email.Some? ==> forall k :: k in tokens && k != token ==> r.tokens[k] == tokens[k]
    ensures r.email.None? ==> r.tokens == tokens
  {
    if token in tokens && Redeemable(tokens[token], now) then
      Redemption(tokens[token := tokens[token].(used := true)], Some(tokens[token].email))
    else
      Redemption(tokens, None)
  }

  /** The rows `cleanup_expired_tokens` keeps. */
  function Sweep(tokens: TokenTable, now: int): (r: TokenTable)
    ensures forall k :: k in r <==> k in tokens && !Sweepable(tokens[k], now)
    ensures forall k :: k in r ==> r[k] == tokens[k]
  {
    map k | k in tokens && !Sweepable(tokens[k], now) :: tokens[k]
  }

  /** The number of rows `cleanup_expired_tokens` deletes (`rowcount`). */
  function SweptCount(tokens: TokenTable, now: int): nat {
    |set k | k in tokens && Sweepable(tokens[k], now)|
  }

  /** The reported count is exactly the number of rows that disappear. */
  lemma SweepCountIsRemoved(tokens: TokenTable, now: int)
    ensures |tokens| == |Sweep(tokens, now)| + SweptCount(tokens, now)
  {
    var kept := Sweep(tokens, now).Keys;
    var gone := set k | k in tokens && Sweepable(tokens[k], now);
    assert tokens.Keys == kept + gone;
    assert kept * gone == {};
    assert |Sweep(tokens, now)| == |kept|;
  }

  /** Single use: once a redemption succeeds, redeeming the same token
      again fails, at any later or earlier time. */
  lemma RedeemIsSingleUse(tokens: TokenTable, token: TokenId, now: int, again: int)
    requires Redeem(tokens, token, now).email.Some?
    ensures Redeem(Redeem(tokens, token, now).tokens, token, again) == Redemption(Redeem(tokens, token, now).tokens, None)
  {
  }

  /** Neither a used nor an expired token is ever redeemed. */
  lemma InertTokensNeverRedeem(tokens: TokenTable, token: TokenId, now: int)
    requires token in tokens && (tokens[token].used || tokens[token].expiresAt <= now)
    ensures Redeem(tokens, token, now).email.None?
  {
  }

  /** A token issued now can be redeemed for the hour that follows, and
      not from the instant it expires. */
  lemma IssuedTokenLifetime(tokens: TokenTable, token: TokenId, email: string, now: int, later: int)
    requires token !in tokens && now <= later
    ensures var t := IssueToken(tokens, token, email, now).value;
      Redeem(t, token, later).email == if later < now + TokenLifetime then Some(email) else None
  {
  }

  /** At the instant `expires_at == now`, an unused token is neither
      redeemable (strict `>`) nor swept (strict `<`). */
  lemma ExpiryInstant(row: TokenRow, now: int)
    requires row.expiresAt == now && !row.used
    ensures !Redeemable(row, now) && !Sweepable(row, now)
  {
  }

  /** The sweep removes only inert rows: every redemption at the sweep's
      time or later gives the same email with or without the sweep. */
  lemma SweepSparesRedeemable(tokens: TokenTable, token: TokenId, now: int, later: int)
    requires now <= later
    ensures Redeem(Sweep(tokens, now), token, later).email == Redeem(tokens, token, later).email
  {
  }

  /** `VerificationTokenModel.create_token`. `token` is the `uuid4()` value
      and `now` the current time in seconds. */
  method CreateToken(db: Database, email: string, token: TokenId, now: int) returns (r: Result<TokenId, DbError>)
    requires db.Valid()
    modifies db
    ensures db.Valid()
    ensures r.Success? <==> IssueToken(old(db.tokens), token, email, now).Success?
    ensures r.Success? ==> r.value == token && db.tokens == IssueToken(old(db.tokens), token, email, now).value
    ensures r.Failure? ==> db.tokens == old(db.tokens)
    ensures db.users == old(db.users) && db.videos == old(db.videos) && db.scenes == old(db.scenes)
    ensures db.images == old(db.images) && db.checkpoints == old(db.checkpoints)
  {
    var issued := IssueToken(db.tokens, token, email, now);
    if issued.Success? {
      db.tokens := issued.value;
      r := Success(token);
    } else {
      r := Failure(IntegrityError);
    }
  }

  /** `VerificationTokenModel.verify_token`. */
  method VerifyToken(db: Database, token: TokenId, now: int) returns (email: Option<string>)
    requires db.Valid()
    modifies db
    ensures db.Valid()
    ensures email == Redeem(old(db.tokens), token, now).email
    ensures db.tokens == Redeem(old(db.tokens), token, now).tokens
    ensures db.users == old(db.users) && db.videos == old(db.videos) && db.scenes == old(db.scenes)
    ensures db.images == old(db.images) && db.checkpoints == old(db.checkpoints)
  {
    if token in db.tokens && !db.tokens[token].used && db.tokens[token].expiresAt > now {
      email := Some(db.tokens[token].email);
      db.tokens := db.tokens[token := db.tokens[token].(used := true)];
    } else {
      email := None;
    }
  }

  /** `VerificationTokenModel.cleanup_expired_tokens`. */
  method CleanupExpiredTokens(db: Database, now: int) returns (deleted: nat)
    requires db.Valid()
    modifies db
    ensures db.Valid()
    ensures db.tokens == Sweep(old(db.tokens), now)
    ensures deleted == SweptCount(old(db.tokens), now)
    ensures db.users == old(db.users) && db.videos == old(db.videos) && db.scenes == old(db.scenes)
    ensures db.images == old(db.images) && db.checkpoints == old(db.checkpoints)
  {
    deleted := SweptCount(db.tokens, now);
    db.tokens := Sweep(db.tokens, now);
  }
}
