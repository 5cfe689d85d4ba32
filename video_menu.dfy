/** The video-menu tools shared by tools/video_tools.py and
    agents/menu_agent.py: listing the signed-in user's videos, selecting
    one they own, and creating a new one. The two files differ only in the
    wording of the listing's refusal and in the current-video file that
    tools/video_tools.py also writes; those are in VideoTools and MenuAgent. */
module VideoMenu {
  import opened Wrappers
  import opened SessionState
  import opened Connection
  import opened Models
  import SessionHelpers

  /** How a tool fails: a refusal reply (`success` False with an `error`
      text), or an exception from the database. */
  datatype ToolError = Refused(error: string) | Raised(dbError: DbError)

  const NotAuthenticated := "User not authenticated"
  const NotYours := "Video not found or doesn't belong to you"

  // --------------------------------------------------------------- listing

  /** A row of the listing query. */
  datatype VideoListing = VideoListing(videoId: VideoId, title: string, status: string, createdAt: int, sceneCount: nat)

  /** `LIMIT 10` */
  const ListLimit := 10

  /** The listing row of a video; `scene_count` is the correlated count of
      its scenes. */
  function ListingOf(video: Video, scenes: map<SceneId, Scene>): VideoListing {
    VideoListing(video.videoId, video.title, video.status, video.createdAt,
                 |SessionHelpers.ScenesOfVideo(scenes, video.videoId)|)
  }

  /** `WHERE user_id = ?` */
  function OwnedBy(videos: map<VideoId, Video>, userId: UserId): (owned: set<VideoId>)
    ensures forall k :: k in owned <==> k in videos && videos[k].userId == userId
  {
    set k | k in videos && videos[k].userId == userId
  }

  function ListedIds(rows: seq<VideoListing>): set<VideoId> {
    set i | 0 <= i < |rows| :: rows[i].videoId
  }

  /** What `... WHERE user_id = ? ORDER BY updated_at DESC LIMIT 10` may
      return: only the user's videos, each once with its listing row, in
      non-increasing `updated_at`, as many as the user owns up to ten, and
      no unlisted video of the user more recent than a listed one. SQLite
      leaves the order of equal `updated_at` open, and so does this. */
  ghost predicate IsUserListing(rows: seq<VideoListing>, videos: map<VideoId, Video>, scenes: map<SceneId, Scene>, userId: UserId) {
    var owned := OwnedBy(videos, userId);
    && |rows| == (if |owned| < ListLimit then |owned| else ListLimit)
    && (forall i :: 0 <= i < |rows| ==> rows[i].videoId in owned && rows[i] == ListingOf(videos[rows[i].videoId], scenes))
    && (forall i, j :: 0 <= i < j < |rows| ==> rows[i].videoId != rows[j].videoId)
    && (forall i, j :: 0 <= i < j < |rows| ==> videos[rows[i].videoId].updatedAt >= videos[rows[j].videoId].updatedAt)
    && (forall k, i :: k in owned && k !in ListedIds(rows) && 0 <= i < |rows| ==>
          videos[k].updatedAt <= videos[rows[i].videoId].updatedAt)
  }

  lemma LatestExists(videos: map<VideoId, Video>, ks: set<VideoId>)
    requires ks != {} && ks <= videos.Keys
    ensures exists k :: k in ks && forall k' :: k' in ks ==> videos[k'].updatedAt <= videos[k].updatedAt
  {
    var k := LatestOf(videos, ks);
  }

  lemma LatestOf(videos: map<VideoId, Video>, ks: set<VideoId>) returns (k: VideoId)
    requires ks != {} && ks <= videos.Keys
    ensures k in ks && forall k' :: k' in ks ==> videos[k'].updatedAt <= videos[k].updatedAt
    decreases |ks|
  {
    var k0 :| k0 in ks;
    var rest := ks - {k0};
    if rest == {} {
      k := k0;
      assert forall k' :: k' in ks ==> k' in rest || k' == k0;
    } else {
      var k1 := LatestOf(videos, rest);
      k := if videos[k1].updatedAt <= videos[k0].updatedAt then k0 else k1;
      forall k' | k' in ks ensures videos[k'].updatedAt <= videos[k].updatedAt {
        if k' != k0 { assert k' in rest; }
      }
    }
  }

  /** The invariant of the listing loop: `rows` lists, most recent first,
      the user's videos that are not `remaining`, and none of `remaining`
      is more recent than a listed one. */
  ghost predicate ListingSoFar(
    rows: seq<VideoListing>, remaining: set<VideoId>, owned: set<VideoId>,
    videos: map<VideoId, Video>, scenes: map<SceneId, Scene>)
  {
    ListedSplit(rows, remaining, owned, videos) && ListedInOrder(rows, remaining, owned, videos, scenes)
  }

  /** The owned videos are split between the listed and the remaining ones. */
  ghost predicate ListedSplit(rows: seq<VideoListing>, remaining: set<VideoId>, owned: set<VideoId>, videos: map<VideoId, Video>) {
    && |rows| <= ListLimit
    && owned <= videos.Keys
    && remaining !! ListedIds(rows) && remaining + ListedIds(rows) == owned
    && |ListedIds(rows)| == |rows|
  }

  /** The listed rows are distinct owned videos, most recent first, and
      no less recent than any remaining one. */
  ghost predicate ListedInOrder(
    rows: seq<VideoListing>, remaining: set<VideoId>, owned: set<VideoId>,
    videos: map<VideoId, Video>, scenes: map<SceneId, Scene>)
    requires owned <= videos.Keys && remaining <= owned
  {
    && (forall i :: 0 <= i < |rows| ==> rows[i].videoId in owned && rows[i] == ListingOf(videos[rows[i].videoId], scenes))
    && (forall i, j :: 0 <= i < j < |rows| ==> rows[i].videoId != rows[j].videoId)
    && (forall i, j :: 0 <= i < j < |rows| ==> videos[rows[i].videoId].updatedAt >= videos[rows[j].videoId].updatedAt)
    && (forall k, i :: k in remaining && 0 <= i < |rows| ==> videos[k].updatedAt <= videos[rows[i].videoId].updatedAt)
  }

  lemma ListedIdsAppend(rows: seq<VideoListing>, row: VideoListing)
    ensures ListedIds(rows + [row]) == ListedIds(rows) + {row.videoId}
  {
    var longer := rows + [row];
    forall x ensures x in ListedIds(longer) <==> x in ListedIds(rows) || x == row.videoId {
      if x in ListedIds(longer) {
        var i :| 0 <= i < |longer| && longer[i].videoId == x;
        if i < |rows| { assert rows[i].videoId == x; }
      }
      if x in ListedIds(rows) {
        var i :| 0 <= i < |rows| && rows[i].videoId == x;
        assert longer[i].videoId == x;
      }
      if x == row.videoId { assert longer[|rows|].videoId == x; }
    }
  }

  /** Listing a most recent remaining video keeps the invariant. */
  lemma ListingStep(
    rows: seq<VideoListing>, remaining: set<VideoId>, owned: set<VideoId>,
    videos: map<VideoId, Video>, scenes: map<SceneId, Scene>, k: VideoId)
    requires VideosKeyed(videos)
    requires ListingSoFar(rows, remaining, owned, videos, scenes) && |rows| < ListLimit
    requires k in remaining && forall k' :: k' in remaining ==> videos[k'].updatedAt <= videos[k].updatedAt
    ensures ListingSoFar(rows + [ListingOf(videos[k], scenes)], remaining - {k}, owned, videos, scenes)
  {
    ListingStepSplit(rows, remaining, owned, videos, scenes, k);
    ListingStepOrder(rows, remaining, owned, videos, scenes, k);
  }

  lemma ListingStepSplit(
    rows: seq<VideoListing>, remaining: set<VideoId>, owned: set<VideoId>,
    videos: map<VideoId, Video>, scenes: map<SceneId, Scene>, k: VideoId)
    requires VideosKeyed(videos)
    requires ListedSplit(rows, remaining, owned, videos) && |rows| < ListLimit && k in remaining
    ensures ListedSplit(rows + [ListingOf(videos[k], scenes)], remaining - {k}, owned, videos)
  {
    var row := ListingOf(videos[k], scenes);
    ListedIdsAppend(rows, row);
    assert row.videoId == k;
    assert k !in ListedIds(rows);
  }

  lemma ListingStepOrder(
    rows: seq<VideoListing>, remaining: set<VideoId>, owned: set<VideoId>,
    videos: map<VideoId, Video>, scenes: map<SceneId, Scene>, k: VideoId)
    requires VideosKeyed(videos)
    requires ListingSoFar(rows, remaining, owned, videos, scenes)
    requires k in remaining && forall k' :: k' in remaining ==> videos[k'].updatedAt <= videos[k].updatedAt
    ensures ListedInOrder(rows + [ListingOf(videos[k], scenes)], remaining - {k}, owned, videos, scenes)
  {
    var longer := rows + [ListingOf(videos[k], scenes)];
    var rest := remaining - {k};
    assert longer[|rows|].videoId == k;
    forall i | 0 <= i < |longer|
      ensures longer[i].videoId in owned && longer[i] == ListingOf(videos[longer[i].videoId], scenes)
    {
      if i < |rows| { assert longer[i] == rows[i]; }
    }
    forall i, j | 0 <= i < j < |longer| ensures longer[i].videoId != longer[j].videoId {
      assert longer[i] == rows[i];
      if j < |rows| {
        assert longer[j] == rows[j];
      } else {
        assert rows[i].videoId in ListedIds(rows);
      }
    }
    forall i, j | 0 <= i < j < |longer|
      ensures videos[longer[i].videoId].updatedAt >= videos[longer[j].videoId].updatedAt
    {
      assert longer[i] == rows[i];
      if j < |rows| { assert longer[j] == rows[j]; }
    }
    forall k', i | k' in rest && 0 <= i < |longer|
      ensures videos[k'].updatedAt <= videos[longer[i].videoId].updatedAt
    {
      if i < |rows| { assert longer[i] == rows[i]; }
    }
  }

  /** When the loop stops, the rows are a listing of the user's videos. */
  lemma ListingDone(
    rows: seq<VideoListing>, remaining: set<VideoId>, videos: map<VideoId, Video>,
    scenes: map<SceneId, Scene>, userId: UserId)
    requires ListingSoFar(rows, remaining, OwnedBy(videos, userId), videos, scenes)
    requires |rows| >= ListLimit || remaining == {}
    ensures IsUserListing(rows, videos, scenes, userId)
  {
    var owned := OwnedBy(videos, userId);
    assert |owned| == |remaining| + |ListedIds(rows)|;
    forall k, i | k in owned && k !in ListedIds(rows) && 0 <= i < |rows|
      ensures videos[k].updatedAt <= videos[rows[i].videoId].updatedAt
    {
      assert k in remaining;
    }
  }

  /** The listing query, run by repeatedly taking a most recently updated
      video among those not yet listed. */
  method QueryUserVideos(db: Database, userId: UserId) returns (rows: seq<VideoListing>)
    requires db.Valid()
    ensures IsUserListing(rows, db.videos, db.scenes, userId)
  {
    var owned := OwnedBy(db.videos, userId);
    var remaining := owned;
    rows := [];
    assert ListedIds(rows) == {};
    while |rows| < ListLimit && remaining != {}
      invariant ListingSoFar(rows, remaining, owned, db.videos, db.scenes)
      decreases ListLimit - |rows|
    {
      LatestExists(db.videos, remaining);
      var k :| k in remaining && forall k' :: k' in remaining ==> db.videos[k'].updatedAt <= db.videos[k].updatedAt;
      ListingStep(rows, remaining, owned, db.videos, db.scenes, k);
      rows := rows + [ListingOf(db.videos[k], db.scenes)];
      remaining := remaining - {k};
    }
    ListingDone(rows, remaining, db.videos, db.scenes, userId);
  }

  /** The reply of a listing. `count` is left out when there are no videos. */
  datatype Listing = Listing(videos: seq<VideoListing>, count: Option<nat>)

  /** What `list_user_videos_tool` replies, given the refusal text its file
      uses: a refusal without a signed-in user, otherwise the user's
      listing, with a count exactly when it is not empty. */
  ghost predicate ListReply(r: Result<Listing, ToolError>, state: State, db: Database, refusal: string)
    reads db
  {
    var userId := SignedInUserId(state);
    && (!Present(userId) ==> r == Failure(Refused(refusal)))
    && (Present(userId) ==>
          && r.Success?
          && IsUserListing(r.value.videos, db.videos, db.scenes, userId.value)
          && (r.value.count.None? <==> r.value.videos == [])
          && (r.value.count.Some? ==> r.value.count.value == |r.value.videos|))
  }

  /** `list_user_videos_tool`; reads the state and the database only. */
  method ListUserVideos(db: Database, ctx: ToolContext, refusal: string) returns (r: Result<Listing, ToolError>)
    requires db.Valid()
    ensures ListReply(r, ctx.state, db, refusal)
  {
    var userId := SignedInUserId(ctx.state);
    if !Present(userId) {
      return Failure(Refused(refusal));
    }
    var videos := QueryUserVideos(db, userId.value);
    if videos == [] {
      r := Success(Listing([], None));
    } else {
      r := Success(Listing(videos, Some(|videos|)));
    }
  }

  /** A user who owns no video gets an empty listing, a user who owns some
      gets a non-empty one. */
  lemma EmptyListingIffNoVideos(rows: seq<VideoListing>, videos: map<VideoId, Video>, scenes: map<SceneId, Scene>, userId: UserId)
    requires IsUserListing(rows, videos, scenes, userId)
    ensures rows == [] <==> forall k :: k in videos ==> videos[k].userId != userId
  {
    var owned := OwnedBy(videos, userId);
    assert forall k :: k in videos && videos[k].userId == userId ==> k in owned;
    if rows == [] {
      assert |owned| == 0;
    } else {
      assert rows[0].videoId in owned;
    }
  }

  // ------------------------------------------------------------- selection

  /** `SELECT * FROM videos WHERE video_id = ? AND user_id = ?`. A missing
      user id is NULL, which equals nothing. */
  function OwnedVideo(videos: map<VideoId, Video>, videoId: VideoId, userId: Option<UserId>): (v: Option<Video>)
    ensures v.Some? <==> userId.Some? && videoId in videos && videos[videoId].userId == userId.value
    ensures v.Some? ==> v.value == videos[videoId]
  {
    if userId.Some? && videoId in videos && videos[videoId].userId == userId.value then Some(videos[videoId]) else None
  }

  /** The reply of a selection. */
  datatype Selection = Selection(videoId: VideoId, title: string, status: string)

  /** What `select_video_tool` does to the state: on success only
      `temp:selected_video_id` changes, on failure nothing does. */
  ghost predicate SelectReply(r: Result<Selection, ToolError>, before: State, after: State, videos: map<VideoId, Video>, videoId: VideoId) {
    var owned := OwnedVideo(videos, videoId, SignedInUserId(before));
    && (owned.None? ==> r == Failure(Refused(NotYours)) && after == before)
    && (owned.Some? ==>
          r == Success(Selection(videoId, owned.value.title, owned.value.status)) &&
          after == before[SelectedVideoKey := VStr(videoId)])
  }

  /** `select_video_tool`, without the current-video file. */
  method SelectVideo(db: Database, ctx: ToolContext, videoId: VideoId) returns (r: Result<Selection, ToolError>)
    requires db.Valid()
    modifies ctx
    ensures SelectReply(r, old(ctx.state), ctx.state, db.videos, videoId)
  {
    var video := OwnedVideo(db.videos, videoId, SignedInUserId(ctx.state));
    if video.None? {
      return Failure(Refused(NotYours));
    }
    ctx.state := ctx.state[SelectedVideoKey := VStr(videoId)];
    r := Success(Selection(videoId, video.value.title, video.value.status));
  }

  /** Only a signed-in owner can select a video. */
  lemma SelectNeedsOwner(videos: map<VideoId, Video>, videoId: VideoId, state: State)
    requires OwnedVideo(videos, videoId, SignedInUserId(state)).Some?
    ensures VerifiedUserIdKey in state && state[VerifiedUserIdKey] == VStr(videos[videoId].userId)
  {
  }

  // -------------------------------------------------------------- creation

  /** The reply of a creation. */
  datatype Creation = Creation(videoId: VideoId, title: string)

  /** What `create_new_video_tool` does: refuses without a signed-in user;
      otherwise inserts one `in_progress` video owned by the user under the
      fresh id and selects it, or raises when the id is taken. */
  ghost predicate CreateReply(
    r: Result<Creation, ToolError>, before: State, after: State,
    videosBefore: map<VideoId, Video>, videosAfter: map<VideoId, Video>,
    title: string, freshId: VideoId, now: int)
  {
    var userId := SignedInUserId(before);
    && (!Present(userId) ==>
          r == Failure(Refused(NotAuthenticated)) && after == before && videosAfter == videosBefore)
    && (Present(userId) && freshId in videosBefore ==>
          r == Failure(Raised(IntegrityError)) && after == before && videosAfter == videosBefore)
    && (Present(userId) && freshId !in videosBefore ==>
          && r == Success(Creation(freshId, title))
          && videosAfter == videosBefore[freshId := NewVideo(freshId, userId.value, title, now)]
          && after == before[SelectedVideoKey := VStr(freshId)])
  }

  /** `create_new_video_tool`, without the current-video file. `freshId` is the
      `uuid4()` and `now` the insert's CURRENT_TIMESTAMP. */
  method CreateNewVideo(db: Database, ctx: ToolContext, title: string, freshId: VideoId, now: int)
    returns (r: Result<Creation, ToolError>)
    requires db.Valid()
    modifies db, ctx
    ensures db.Valid()
    ensures CreateReply(r, old(ctx.state), ctx.state, old(db.videos), db.videos, title, freshId, now)
    ensures db.users == old(db.users) && db.scenes == old(db.scenes) && db.images == old(db.images)
    ensures db.tokens == old(db.tokens) && db.checkpoints == old(db.checkpoints)
  {
    var userId := SignedInUserId(ctx.state);
    if !Present(userId) {
      return Failure(Refused(NotAuthenticated));
    }
    var video := CreateVideo(db, userId.value, title, Some(freshId), freshId, now);
    if video.Failure? {
      return Failure(Raised(IntegrityError));
    }
    ctx.state := ctx.state[SelectedVideoKey := VStr(freshId)];
    r := Success(Creation(freshId, title));
  }

  /** A created video is owned by its creator, so it can be selected right
      away. */
  lemma CreatedVideoIsSelectable(
    r: Result<Creation, ToolError>, before: State, after: State,
    videosBefore: map<VideoId, Video>, videosAfter: map<VideoId, Video>,
    title: string, freshId: VideoId, now: int)
    requires CreateReply(r, before, after, videosBefore, videosAfter, title, freshId, now)
    requires r.Success?
    ensures OwnedVideo(videosAfter, freshId, SignedInUserId(after)).Some?
    ensures videosAfter[freshId].status == "in_progress"
  {
    assert SignedInUserId(after) == SignedInUserId(before);
  }
}
