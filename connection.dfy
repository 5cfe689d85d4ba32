/** The relational store of database/connection.py: one map per table,
    keyed by the table's primary key, held in a `Database` object whose
    invariant is the schema's uniqueness constraints. */
module Connection {
  import opened Wrappers
  import opened SessionState

  type UserId = string
  type VideoId = string
  type SceneId = string
  type ImageId = string
  type TokenId = string

  /** A `users` row (the primary key `user_id` is also kept in the row,
      because lookups return it). `plan_tier` and `created_at` are not read
      by the core and are left out. */
  datatype User = User(userId: UserId, email: string, userName: Option<string>, currentMonthCost: real)

  /** A `videos` row. Timestamps are whole seconds, the resolution of
      SQLite's CURRENT_TIMESTAMP. Asset paths, costs and counters are not
      read or written by the core and are left out. */
  datatype Video = Video(
    videoId: VideoId,
    userId: UserId,
    lastSessionId: Option<string>,
    title: string,
    script: Option<string>,
    status: string,
    createdAt: int,
    updatedAt: int)

  /** A `scenes` row, keyed by `scene_id`. */
  datatype Scene = Scene(videoId: VideoId, sceneNumber: int, visualDescription: string)

  /** An `images` row, keyed by `image_id`; `status` is 'pending',
      'approved' or 'rejected'. */
  datatype Image = Image(sceneId: SceneId, imagePath: string, status: string)

  /** A `verification_tokens` row, keyed by `token`. `expires_at` is
      compared by SQLite's `datetime()`, at whole seconds. */
  datatype TokenRow = TokenRow(email: string, createdAt: int, expiresAt: int, used: bool)

  /** A `checkpoints` row, keyed by `video_id`. Each column holds the state
      value that was bound, without SQLite's conversion to the column type. */
  datatype Checkpoint = Checkpoint(
    nextScene: Value,
    currentBatch: Value,
    characterReferencePath: Value,
    sessionCost: Value,
    lastUpdatedAt: Value)

  /** The exception an INSERT raises when it breaks a PRIMARY KEY or UNIQUE
      constraint (`sqlite3.IntegrityError`). */
  datatype DbError = IntegrityError

  /** Each user row carries its own key. */
  ghost predicate UsersKeyed(users: map<UserId, User>) {
    forall k :: k in users ==> users[k].userId == k
  }

  /** `email TEXT UNIQUE NOT NULL` (database/connection.py:16). */
  ghost predicate EmailsUnique(users: map<UserId, User>) {
    forall a, b :: a in users && b in users && users[a].email == users[b].email ==> a == b
  }

  /** Each video row carries its own key. */
  ghost predicate VideosKeyed(videos: map<VideoId, Video>) {
    forall k :: k in videos ==> videos[k].videoId == k
  }

  /** `UNIQUE(video_id, scene_number)` (database/connection.py:48). */
  ghost predicate SceneNumbersUnique(scenes: map<SceneId, Scene>) {
    forall a, b ::
      a in scenes && b in scenes &&
      scenes[a].videoId == scenes[b].videoId && scenes[a].sceneNumber == scenes[b].sceneNumber
      ==> a == b
  }

  /** The database file. The primary keys of `verification_tokens` and
      `checkpoints` (connection.py:66 and :74) are the keys of their maps,
      so they are unique by construction. */
  class Database {
    var users: map<UserId, User>
    var videos: map<VideoId, Video>
    var scenes: map<SceneId, Scene>
    var images: map<ImageId, Image>
    var tokens: map<TokenId, TokenRow>
    var checkpoints: map<VideoId, Checkpoint>
    /** The user id derived from an email: the first 12 hex digits of its
        SHA-256 digest, left uninterpreted. */
    const userIdOf: string -> UserId

    ghost predicate Valid()
      reads this
    {
      UsersKeyed(users) && EmailsUnique(users) && VideosKeyed(videos) && SceneNumbersUnique(scenes)
    }

    /** Opens a database file with the given contents. */
    constructor Open(
      users: map<UserId, User>,
      videos: map<VideoId, Video>,
      scenes: map<SceneId, Scene>,
      images: map<ImageId, Image>,
      tokens: map<TokenId, TokenRow>,
      checkpoints: map<VideoId, Checkpoint>,
      userIdOf: string -> UserId)
      requires UsersKeyed(users) && EmailsUnique(users) && VideosKeyed(videos) && SceneNumbersUnique(scenes)
      ensures Valid()
      ensures this.users == users && this.videos == videos && this.scenes == scenes
      ensures this.images == images && this.tokens == tokens && this.checkpoints == checkpoints
      ensures this.userIdOf == userIdOf
    {
      this.users := users;
      this.videos := videos;
      this.scenes := scenes;
      this.images := images;
      this.tokens := tokens;
      this.checkpoints := checkpoints;
      this.userIdOf := userIdOf;
    }
  }
}
