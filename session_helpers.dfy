/** database/session_helpers.py: rebuilding a workflow session's state from
    the database, resuming or recreating the session bound to a video, and
    checkpointing progress back to the database. */
module SessionHelpers {
  import opened Wrappers
  import opened SessionState
  import opened Connection
  import opened Models
  import Text

  datatype SessionError =
    | VideoNotFound  // the video row is missing
    | SessionNotFound  // the session service has no such session
    | SessionExists  // the session service already holds that id

  // ------------------------------------------------------------ readers

  /** `get_video`: the row with that primary key, if any. (`get_user` is
      `UserModel.find_by_id`, modelled by Models.FindUserById.) */
  function GetVideo(videos: map<VideoId, Video>, videoId: VideoId): (r: Option<Video>)
    requires VideosKeyed(videos)
    ensures r.Some? <==> videoId in videos
    ensures r.Some? ==> r.value.videoId == videoId && r.value in videos.Values
  {
    if videoId in videos then Some(videos[videoId]) else None
  }

  /** The scenes of one video, keyed by scene id. */
  function ScenesOfVideo(scenes: map<SceneId, Scene>, videoId: VideoId): (m: map<SceneId, Scene>)
    ensures forall k :: k in m <==> k in scenes && scenes[k].videoId == videoId
    ensures forall k :: k in m ==> m[k] == scenes[k]
  {
    map k | k in scenes && scenes[k].videoId == videoId :: scenes[k]
  }

  /** No two rows share a scene number. */
  ghost predicate NumbersDistinct(m: map<SceneId, Scene>) {
    forall a, b :: a in m && b in m && m[a].sceneNumber == m[b].sceneNumber ==> a == b
  }

  ghost predicate StrictlyAscending(s: seq<Scene>) {
    forall i, j :: 0 <= i < j < |s| ==> s[i].sceneNumber < s[j].sceneNumber
  }

  lemma LowestOf(m: map<SceneId, Scene>) returns (k: SceneId)
    requires |m| > 0
    ensures k in m && forall k' :: k' in m ==> m[k].sceneNumber <= m[k'].sceneNumber
    decreases |m|
  {
    var k0 :| k0 in m;
    var rest := m - {k0};
    assert rest.Keys == m.Keys - {k0};
    if |rest| == 0 {
      k := k0;
      assert forall k' :: k' in m ==> k' == k0;
    } else {
      var k1 := LowestOf(rest);
      k := if m[k0].sceneNumber < m[k1].sceneNumber then k0 else k1;
      forall k' | k' in m ensures m[k].sceneNumber <= m[k'].sceneNumber {
        if k' != k0 { assert k' in rest; }
      }
    }
  }

  lemma LowestNumberExists(m: map<SceneId, Scene>)
    requires |m| > 0
    ensures exists k :: k in m && forall k' :: k' in m ==> m[k].sceneNumber <= m[k'].sceneNumber
  {
    var k := LowestOf(m);
  }

  /** A row with the lowest scene number; with distinct numbers it is the
      only one. */
  function LowestKey(m: map<SceneId, Scene>): (k: SceneId)
    requires |m| > 0 && NumbersDistinct(m)
    ensures k in m && forall k' :: k' in m ==> m[k].sceneNumber <= m[k'].sceneNumber
  {
    LowestNumberExists(m);
    var k :| k in m && forall k' :: k' in m ==> m[k].sceneNumber <= m[k'].sceneNumber;
    k
  }

  lemma RemoveLowest(m: map<SceneId, Scene>, k: SceneId)
    requires k in m && NumbersDistinct(m)
    requires forall k' :: k' in m ==> m[k].sceneNumber <= m[k'].sceneNumber
    ensures |m - {k}| == |m| - 1
    ensures NumbersDistinct(m - {k})
    ensures forall x :: x in m.Values <==> x == m[k] || x in (m - {k}).Values
    ensures forall x :: x in (m - {k}).Values ==> m[k].sceneNumber < x.sceneNumber
  {
    var rest := m - {k};
    assert rest.Keys == m.Keys - {k};
    forall x | x in m.Values ensures x == m[k] || x in rest.Values {
      var j :| j in m && m[j] == x;
      if j != k { assert j in rest; }
    }
    forall x | x in rest.Values ensures m[k].sceneNumber < x.sceneNumber {
      var j :| j in rest && rest[j] == x;
      assert j in m && j != k;
    }
  }

  /** `ORDER BY scene_number` over rows with distinct scene numbers. */
  function OrderByNumber(m: map<SceneId, Scene>): (r: seq<Scene>)
    requires NumbersDistinct(m)
    ensures |r| == |m|
    ensures StrictlyAscending(r)
    ensures forall x :: x in r <==> x in m.Values
    decreases |m|
  {
    if |m| == 0 then []
    else
      var k := LowestKey(m);
      RemoveLowest(m, k);
      var rest := OrderByNumber(m - {k});
      PrependLowest(m[k], rest);
      [m[k]] + rest
  }

  /** A scene numbered below every scene of an ascending list can go in
      front of it. */
  lemma PrependLowest(first: Scene, rest: seq<Scene>)
    requires StrictlyAscending(rest)
    requires forall x :: x in rest ==> first.sceneNumber < x.sceneNumber
    ensures StrictlyAscending([first] + rest)
    ensures forall x :: x in [first] + rest <==> x == first || x in rest
  {
    var r := [first] + rest;
    forall i, j | 0 <= i < j < |r| ensures r[i].sceneNumber < r[j].sceneNumber {
      assert r[j] == rest[j - 1];
      if i > 0 { assert r[i] == rest[i - 1]; }
      else { assert rest[j - 1] in rest; }
    }
  }

  /** `get_scenes_for_video`: the video's scenes in ascending scene number,
      each exactly once. */
  function GetScenesForVideo(scenes: map<SceneId, Scene>, videoId: VideoId): (r: seq<Scene>)
    requires SceneNumbersUnique(scenes)
    ensures |r| == |ScenesOfVideo(scenes, videoId)|
    ensures StrictlyAscending(r)
    ensures forall i :: 0 <= i < |r| ==> r[i].videoId == videoId && r[i] in scenes.Values
    ensures forall k :: k in scenes && scenes[k].videoId == videoId ==> scenes[k] in r
  {
    var mine := ScenesOfVideo(scenes, videoId);
    assert NumbersDistinct(mine);
    var r := OrderByNumber(mine);
    assert forall i :: 0 <= i < |r| ==> r[i] in mine.Values;
    r
  }

  /** A row of `get_approved_images_for_video`. */
  datatype ApprovedImage = ApprovedImage(sceneNumber: int, imagePath: string)

  /** `get_approved_images_for_video`: the approved images joined with the
      video's scenes. The query orders them by scene number; its only
      caller turns them into a set, so the model returns the set. */
  function GetApprovedImagesForVideo(scenes: map<SceneId, Scene>, images: map<ImageId, Image>, videoId: VideoId)
    : (r: set<ApprovedImage>)
    ensures forall i :: (i in images && images[i].status == "approved" &&
                         images[i].sceneId in scenes && scenes[images[i].sceneId].videoId == videoId)
                        ==> ApprovedImage(scenes[images[i].sceneId].sceneNumber, images[i].imagePath) in r
    ensures forall a :: a in r ==>
      (exists i :: i in images && images[i].status == "approved" &&
                   images[i].sceneId in scenes && scenes[images[i].sceneId].videoId == videoId &&
                   a == ApprovedImage(scenes[images[i].sceneId].sceneNumber, images[i].imagePath))
  {
    set i | i in images && images[i].status == "approved" &&
      images[i].sceneId in scenes && scenes[images[i].sceneId].videoId == videoId
      :: ApprovedImage(scenes[images[i].sceneId].sceneNumber, images[i].imagePath)
  }

  /** `{img['scene_number'] for img in approved_images}` */
  function ApprovedSceneNumbers(approved: set<ApprovedImage>): (r: set<int>)
    ensures forall n :: n in r <==> exists a :: a in approved && a.sceneNumber == n
  {
    set a | a in approved :: a.sceneNumber
  }

  // --------------------------------------------------------- next scene

  /** Position of the first scene without an approved image, or |scenes|
      when every scene has one. */
  function FirstUnapprovedIndex(scenes: seq<Scene>, approved: set<int>): (i: nat)
    ensures i <= |scenes|
    ensures forall j :: 0 <= j < i ==> scenes[j].sceneNumber in approved
    ensures i < |scenes| ==> scenes[i].sceneNumber !in approved
  {
    if scenes == [] || scenes[0].sceneNumber !in approved then 0
    else 1 + FirstUnapprovedIndex(scenes[1..], approved)
  }

  /** The `for ... else` of `build_state_from_db`: the number of the first
      scene lacking an approved image, else `total_scenes + 1`. */
  function NextScene(scenes: seq<Scene>, approved: set<int>): (next: int)
    ensures (forall i :: 0 <= i < |scenes| ==> scenes[i].sceneNumber in approved) ==>
      next == |scenes| + 1
    ensures forall i :: (0 <= i < |scenes| && scenes[i].sceneNumber !in approved &&
                         (forall j :: 0 <= j < i ==> scenes[j].sceneNumber in approved)) ==>
                        next == scenes[i].sceneNumber
  {
    var i := FirstUnapprovedIndex(scenes, approved);
    if i < |scenes| then scenes[i].sceneNumber else |scenes| + 1
  }

  /** The scan itself, with its `break` and its `else`. */
  method ScanNextScene(scenes: seq<Scene>, approved: set<int>) returns (next: int)
    ensures next == NextScene(scenes, approved)
  {
    next := 1;
    label scan: {
      for i := 0 to |scenes|
        invariant forall j :: 0 <= j < i ==> scenes[j].sceneNumber in approved
      {
        if scenes[i].sceneNumber !in approved {
          next := scenes[i].sceneNumber;
          break scan;
        }
      }
      // all scenes approved
      next := |scenes| + 1;
    }
  }

  /** With scenes numbered exactly 1..n, the next scene is one more than
      the number of leading approved scenes, everything before it is
      approved, it lies in 1..n+1, and it is unapproved unless it is n+1. */
  lemma {:induction false} NextSceneWhenDense(scenes: seq<Scene>, approved: set<int>)
    requires forall i :: 0 <= i < |scenes| ==> scenes[i].sceneNumber == i + 1
    ensures 1 <= NextScene(scenes, approved) <= |scenes| + 1
    ensures NextScene(scenes, approved) == FirstUnapprovedIndex(scenes, approved) + 1
    ensures forall n :: 1 <= n < NextScene(scenes, approved) ==> n in approved
    ensures NextScene(scenes, approved) <= |scenes| ==> NextScene(scenes, approved) !in approved
  {
    var i := FirstUnapprovedIndex(scenes, approved);
    forall n | 1 <= n < NextScene(scenes, approved) ensures n in approved {
      assert scenes[n - 1].sceneNumber == n;
    }
  }

  function SceneNumbered(videoId: VideoId, n: int): Scene {
    Scene(videoId, n, "")
  }

  /** Scenes numbered 1..n. */
  function Numbered(videoId: VideoId, n: nat): (s: seq<Scene>)
    ensures |s| == n && forall i :: 0 <= i < n ==> s[i].sceneNumber == i + 1
  {
    seq(n, i => SceneNumbered(videoId, i + 1))
  }

  /** Scenes 1..5 with {1, 2, 4} approved resume at 3. */
  lemma NextSceneSkipsToGap(v: VideoId)
    ensures NextScene(Numbered(v, 5), {1, 2, 4}) == 3
  {
    var s := Numbered(v, 5);
    assert s[0].sceneNumber == 1 && s[1].sceneNumber == 2 && s[2].sceneNumber == 3;
    assert forall j :: 0 <= j < 2 ==> s[j].sceneNumber in {1, 2, 4};
  }

  /** With all five approved, the scan falls through to 6. */
  lemma NextSceneAfterLast(v: VideoId)
    ensures NextScene(Numbered(v, 5), {1, 2, 3, 4, 5}) == 6
  {
    var s := Numbered(v, 5);
    assert forall i :: 0 <= i < |s| ==> s[i].sceneNumber in {1, 2, 3, 4, 5};
  }

  // ------------------------------------------------------------ snapshot

  /** Characters of each scene prompt kept in the summary. */
  const ShortPromptLength := 120

  /** `temp:scenes_summary`. `visual_description` is NOT NULL, so the
      source's `or ""` never applies. */
  function ScenesSummary(scenes: seq<Scene>): (r: seq<SceneSummary>)
    ensures |r| == |scenes|
    ensures forall i :: 0 <= i < |r| ==> r[i].sceneNumber == scenes[i].sceneNumber
    ensures forall i :: 0 <= i < |r| ==>
      r[i].shortPrompt <= scenes[i].visualDescription &&
      |r[i].shortPrompt| == if |scenes[i].visualDescription| <= ShortPromptLength
                            then |scenes[i].visualDescription| else ShortPromptLength
  {
    seq(|scenes|, i requires 0 <= i < |scenes| =>
      SceneSummary(scenes[i].sceneNumber, Text.Take(scenes[i].visualDescription, ShortPromptLength)))
  }

  function OptionalText(t: Option<string>): Value {
    if t.Some? then VStr(t.value) else VNull
  }

  /** The keys `build_state_from_db` writes: all but the tools' two
      scratch keys. */
  const BuilderKeys: set<Key> := {
    WorkflowIdKey, VideoIdKey, CurrentPhaseKey, NextSceneKey, TotalScenesKey,
    ImagesInProgressKey, CurrentBatchKey, ScriptCompletedKey, ScenesCompletedKey,
    CharacterReferenceKey, SessionCostKey, LifetimeCostKey, LastUpdatedKey, ScenesSummaryKey,
    UserEmailKey, VerifiedUserIdKey, UserNameKey
  }

  /** The value `build_state_from_db` stores under each key. The videos
      table has no `character_reference_path` column, so `video.get` yields
      None for it; a missing user row gives None and a cost of 0.0. */
  function SnapshotValue(
    k: Key, videoId: VideoId, video: Video, user: Option<User>, scenes: seq<Scene>,
    nextScene: int, workflowSuffix: string, nowIso: string): Value
  {
    match k
    case WorkflowIdKey => VStr("wf_" + workflowSuffix)
    case VideoIdKey => VStr(videoId)
    case CurrentPhaseKey => VStr(video.status)
    case NextSceneKey => VInt(nextScene)
    case TotalScenesKey => VInt(|scenes|)
    case ImagesInProgressKey => VList([])
    case CurrentBatchKey => VInt(0)
    case ScriptCompletedKey => VBool(Present(video.script))
    case ScenesCompletedKey => VBool(|scenes| > 0)
    case CharacterReferenceKey => VNull
    case SessionCostKey => VCost(0.0)
    case LifetimeCostKey => if user.Some? then VCost(user.value.currentMonthCost) else VCost(0.0)
    case LastUpdatedKey => VStr(nowIso + "Z")
    case ScenesSummaryKey => VSummaries(ScenesSummary(scenes))
    case UserEmailKey => if user.Some? then VStr(user.value.email) else VNull
    case VerifiedUserIdKey => if user.Some? then VStr(user.value.userId) else VNull
    case UserNameKey => if user.Some? then OptionalText(user.value.userName) else VNull
    case PendingUserNameKey => VNull
    case SelectedVideoKey => VNull
  }

  /** The dictionary `build_state_from_db` returns, once `next_scene` is
      known. */
  function Snapshot(
    videoId: VideoId, video: Video, user: Option<User>, scenes: seq<Scene>,
    nextScene: int, workflowSuffix: string, nowIso: string): (s: State)
    ensures s.Keys == BuilderKeys
  {
    map k | k in BuilderKeys :: SnapshotValue(k, videoId, video, user, scenes, nextScene, workflowSuffix, nowIso)
  }

  /** The progress the snapshot records: which video, its phase, the next
      scene to generate, how many scenes there are, and whether the script
      and the scenes are done. */
  lemma SnapshotProgress(
    videoId: VideoId, video: Video, user: Option<User>, scenes: seq<Scene>,
    nextScene: int, workflowSuffix: string, nowIso: string)
    ensures var s := Snapshot(videoId, video, user, scenes, nextScene, workflowSuffix, nowIso);
      && s[VideoIdKey] == VStr(videoId) && s[CurrentPhaseKey] == VStr(video.status)
      && s[NextSceneKey] == VInt(nextScene) && s[TotalScenesKey] == VInt(|scenes|)
      && s[ScenesCompletedKey] == VBool(|scenes| > 0)
      && s[ScriptCompletedKey] == VBool(video.script.Some? && video.script.value != "")
      && s[ScenesSummaryKey] == VSummaries(ScenesSummary(scenes))
  {
  }

  /** The per-session fields start afresh: a new workflow id, the current
      time, no images or batch in progress, no session cost and no
      character reference. */
  lemma SnapshotFreshFields(
    videoId: VideoId, video: Video, user: Option<User>, scenes: seq<Scene>,
    nextScene: int, workflowSuffix: string, nowIso: string)
    ensures var s := Snapshot(videoId, video, user, scenes, nextScene, workflowSuffix, nowIso);
      && s[WorkflowIdKey] == VStr("wf_" + workflowSuffix) && s[LastUpdatedKey] == VStr(nowIso + "Z")
      && s[ImagesInProgressKey] == VList([]) && s[CurrentBatchKey] == VInt(0)
      && s[SessionCostKey] == VCost(0.0) && s[CharacterReferenceKey] == VNull
  {
  }

  /** Without a user row the identity entries are None and the lifetime
      cost is zero. */
  lemma SnapshotWithoutUser(
    videoId: VideoId, video: Video, scenes: seq<Scene>,
    nextScene: int, workflowSuffix: string, nowIso: string)
    ensures var s := Snapshot(videoId, video, None, scenes, nextScene, workflowSuffix, nowIso);
      && s[UserEmailKey] == VNull && s[VerifiedUserIdKey] == VNull
      && s[UserNameKey] == VNull && s[LifetimeCostKey] == VCost(0.0)
  {
  }

  /** With a user row, the identity entries and the lifetime cost come
      from it. */
  lemma SnapshotWithUser(
    videoId: VideoId, video: Video, user: User, scenes: seq<Scene>,
    nextScene: int, workflowSuffix: string, nowIso: string)
    ensures var s := Snapshot(videoId, video, Some(user), scenes, nextScene, workflowSuffix, nowIso);
      && s[UserEmailKey] == VStr(user.email) && s[VerifiedUserIdKey] == VStr(user.userId)
      && s[UserNameKey] == OptionalText(user.userName) && s[LifetimeCostKey] == VCost(user.currentMonthCost)
  {
  }

  /** `build_state_from_db` as a function of the tables. `workflowSuffix`
      stands for `uuid4().hex[:8]` and `nowIso` for `utcnow().isoformat()`.
      A missing video makes the source raise (`video.get` on None). */
  function BuildState(
    videos: map<VideoId, Video>, users: map<UserId, User>, scenes: map<SceneId, Scene>,
    images: map<ImageId, Image>, videoId: VideoId, userId: UserId,
    workflowSuffix: string, nowIso: string): (r: Result<State, SessionError>)
    requires VideosKeyed(videos) && UsersKeyed(users) && SceneNumbersUnique(scenes)
    ensures r.Failure? <==> videoId !in videos
    ensures r.Failure? ==> r.error == VideoNotFound
    ensures r.Success? ==>
      var s := r.value;
      var sc := GetScenesForVideo(scenes, videoId);
      var video := videos[videoId];
      && s.Keys == BuilderKeys
      && s[VideoIdKey] == VStr(videoId)
      && s[CurrentPhaseKey] == VStr(video.status)
      && s[NextSceneKey] == VInt(NextScene(sc, ApprovedSceneNumbers(GetApprovedImagesForVideo(scenes, images, videoId))))
      && s[TotalScenesKey] == VInt(|ScenesOfVideo(scenes, videoId)|)
      && s[WorkflowIdKey] == VStr("wf_" + workflowSuffix)
      && s[LastUpdatedKey] == VStr(nowIso + "Z")
      && s[ScenesCompletedKey] == VBool(|ScenesOfVideo(scenes, videoId)| > 0)
      && s[ScriptCompletedKey] == VBool(video.script.Some? && video.script.value != "")
      && s[ImagesInProgressKey] == VList([])
      && s[CurrentBatchKey] == VInt(0)
      && s[SessionCostKey] == VCost(0.0)
      && s[CharacterReferenceKey] == VNull
      && s[ScenesSummaryKey] == VSummaries(ScenesSummary(sc))
      && (userId !in users ==>
            s[UserEmailKey] == VNull && s[VerifiedUserIdKey] == VNull &&
            s[UserNameKey] == VNull && s[LifetimeCostKey] == VCost(0.0))
      && (userId in users ==>
            s[UserEmailKey] == VStr(users[userId].email) && s[VerifiedUserIdKey] == VStr(userId) &&
            s[UserNameKey] == OptionalText(users[userId].userName) &&
            s[LifetimeCostKey] == VCost(users[userId].currentMonthCost))
  {
    var video := GetVideo(videos, videoId);
    if video.None? then Failure(VideoNotFound)
    else
      var user := FindUserById(users, userId);
      var sc := GetScenesForVideo(scenes, videoId);
      var approved := ApprovedSceneNumbers(GetApprovedImagesForVideo(scenes, images, videoId));
      var next := NextScene(sc, approved);
      SnapshotProgress(videoId, video.value, user, sc, next, workflowSuffix, nowIso);
      SnapshotFreshFields(videoId, video.value, user, sc, next, workflowSuffix, nowIso);
      if user.None? then
        (SnapshotWithoutUser(videoId, video.value, sc, next, workflowSuffix, nowIso);
         Success(Snapshot(videoId, video.value, user, sc, next, workflowSuffix, nowIso)))
      else
        (SnapshotWithUser(videoId, video.value, user.value, sc, next, workflowSuffix, nowIso);
         Success(Snapshot(videoId, video.value, user, sc, next, workflowSuffix, nowIso)))
  }

  /** Rebuilding twice with no write in between gives the same state, apart
      from the fresh workflow id and the timestamp. */
  lemma RebuildIsDeterministic(
    videos: map<VideoId, Video>, users: map<UserId, User>, scenes: map<SceneId, Scene>,
    images: map<ImageId, Image>, videoId: VideoId, userId: UserId,
    suffix1: string, now1: string, suffix2: string, now2: string)
    requires VideosKeyed(videos) && UsersKeyed(users) && SceneNumbersUnique(scenes)
    requires videoId in videos
    ensures var r1 := BuildState(videos, users, scenes, images, videoId, userId, suffix1, now1).value;
      var r2 := BuildState(videos, users, scenes, images, videoId, userId, suffix2, now2).value;
      && r1.Keys == r2.Keys
      && forall k :: k in r1 && k != WorkflowIdKey && k != LastUpdatedKey ==> r1[k] == r2[k]
  {
    var video := GetVideo(videos, videoId).value;
    var user := FindUserById(users, userId);
    var sc := GetScenesForVideo(scenes, videoId);
    var next := NextScene(sc, ApprovedSceneNumbers(GetApprovedImagesForVideo(scenes, images, videoId)));
    var s1 := Snapshot(videoId, video, user, sc, next, suffix1, now1);
    var s2 := Snapshot(videoId, video, user, sc, next, suffix2, now2);
    assert BuildState(videos, users, scenes, images, videoId, userId, suffix1, now1) == Success(s1);
    assert BuildState(videos, users, scenes, images, videoId, userId, suffix2, now2) == Success(s2);
    forall k | k in s1 && k != WorkflowIdKey && k != LastUpdatedKey
      ensures s1[k] == s2[k]
    {
      SnapshotValueIgnoresFreshInputs(k, videoId, video, user, sc, next, suffix1, now1, suffix2, now2);
    }
  }

  /** Only the workflow id and the timestamp depend on the fresh inputs. */
  lemma SnapshotValueIgnoresFreshInputs(
    k: Key, videoId: VideoId, video: Video, user: Option<User>, scenes: seq<Scene>,
    nextScene: int, suffix1: string, now1: string, suffix2: string, now2: string)
    requires k != WorkflowIdKey && k != LastUpdatedKey
    ensures SnapshotValue(k, videoId, video, user, scenes, nextScene, suffix1, now1)
         == SnapshotValue(k, videoId, video, user, scenes, nextScene, suffix2, now2)
  {
  }

  /** `build_state_from_db`, reading the database and running the scan. */
  method BuildStateFromDb(db: Database, videoId: VideoId, userId: UserId, workflowSuffix: string, nowIso: string)
    returns (r: Result<State, SessionError>)
    requires db.Valid()
    ensures r == BuildState(db.videos, db.users, db.scenes, db.images, videoId, userId, workflowSuffix, nowIso)
  {
    var video := GetVideo(db.videos, videoId);
    var user := FindUserById(db.users, userId);
    var scenes := GetScenesForVideo(db.scenes, videoId);
    var approvedImages := GetApprovedImagesForVideo(db.scenes, db.images, videoId);
    var approved := ApprovedSceneNumbers(approvedImages);
    if video.None? {
      return Failure(VideoNotFound);
    }
    var next := ScanNextScene(scenes, approved);
    r := Success(Snapshot(videoId, video.value, user, scenes, next, workflowSuffix, nowIso));
  }

  // ----------------------------------------------------- session service

  /** Sessions are addressed by application, user and session id. */
  datatype SessionKey = SessionKey(appName: string, userId: string, sessionId: string)

  datatype Session = Session(id: string, appName: string, userId: string, state: State) {
    function Key(): SessionKey {
      SessionKey(appName, userId, id)
    }
  }

  /** The ADK session service, as a sequential store of sessions. */
  class SessionService {
    var sessions: map<SessionKey, Session>

    ghost predicate Valid()
      reads this
    {
      forall k :: k in sessions ==> sessions[k].Key() == k
    }

    constructor (initial: map<SessionKey, Session>)
      requires forall k :: k in initial ==> initial[k].Key() == k
      ensures Valid() && sessions == initial
    {
      sessions := initial;
    }

    /** `get_session`; a missing session is an exception. */
    method GetSession(appName: string, userId: string, sessionId: string) returns (r: Result<Session, SessionError>)
      requires Valid()
      ensures r.Success? <==> SessionKey(appName, userId, sessionId) in sessions
      ensures r.Success? ==> r.value == sessions[SessionKey(appName, userId, sessionId)] && r.value.id == sessionId
      ensures r.Failure? ==> r.error == SessionNotFound
    {
      var key := SessionKey(appName, userId, sessionId);
      if key in sessions {
        r := Success(sessions[key]);
      } else {
        r := Failure(SessionNotFound);
      }
    }

    /** `create_session`; an id already in use is an exception. */
    method CreateSession(appName: string, userId: string, sessionId: string, state: State)
      returns (r: Result<Session, SessionError>)
      requires Valid()
      modifies this
      ensures Valid()
      ensures var key := SessionKey(appName, userId, sessionId);
        && (r.Success? <==> key !in old(sessions))
        && (r.Success? ==> r.value == Session(sessionId, appName, userId, state) && sessions == old(sessions)[key := r.value])
        && (r.Failure? ==> r.error == SessionExists && sessions == old(sessions))
    {
      var key := SessionKey(appName, userId, sessionId);
      if key in sessions {
        r := Failure(SessionExists);
      } else {
        r := Success(Session(sessionId, appName, userId, state));
        sessions := sessions[key := r.value];
      }
    }
  }

  // ----------------------------------------------------- session binding

  /** The `UPDATE videos SET last_session_id`: only that video's binding
      changes, and nothing happens when the video is missing. */
  function BindSession(videos: map<VideoId, Video>, videoId: VideoId, sessionId: string): (r: map<VideoId, Video>)
    ensures r.Keys == videos.Keys
    ensures videoId in videos ==> r[videoId] == videos[videoId].(lastSessionId := Some(sessionId))
    ensures forall k :: k in videos && k != videoId ==> r[k] == videos[k]
    ensures VideosKeyed(videos) ==> VideosKeyed(r)
  {
    if videoId in videos then videos[videoId := videos[videoId].(lastSessionId := Some(sessionId))] else videos
  }

  /** `update_video_last_session`. */
  method UpdateVideoLastSession(db: Database, videoId: VideoId, sessionId: string)
    requires db.Valid()
    modifies db
    ensures db.Valid()
    ensures db.videos == BindSession(old(db.videos), videoId, sessionId)
    ensures db.users == old(db.users) && db.scenes == old(db.scenes) && db.images == old(db.images)
    ensures db.tokens == old(db.tokens) && db.checkpoints == old(db.checkpoints)
  {
    db.videos := BindSession(db.videos, videoId, sessionId);
  }

  /** `f"video_{video_id}__{uuid4().hex[:8]}"`, with the hex digits given. */
  function NewSessionId(videoId: VideoId, suffix: string): (id: string)
    ensures id != ""
  {
    "video_" + videoId + "__" + suffix
  }

  /** The resume path applies: the video is bound to a (non-empty) session
      id that the service holds for this application and user. */
  ghost predicate Resumable(video: Video, appName: string, userId: UserId, sessions: map<SessionKey, Session>) {
    Present(video.lastSessionId) && SessionKey(appName, userId, video.lastSessionId.value) in sessions
  }

  /** `get_or_create_adk_session_for_video`. */
  method GetOrCreateSessionForVideo(
    svc: SessionService, db: Database, videoId: VideoId, userId: UserId, appName: string,
    sessionSuffix: string, workflowSuffix: string, nowIso: string)
    returns (r: Result<Session, SessionError>)
    requires db.Valid() && svc.Valid()
    modifies svc, db
    ensures db.Valid() && svc.Valid()
    ensures db.users == old(db.users) && db.scenes == old(db.scenes) && db.images == old(db.images)
    ensures db.tokens == old(db.tokens) && db.checkpoints == old(db.checkpoints)
    // missing video: an error, nothing changes
    ensures videoId !in old(db.videos) ==>
      r == Failure(VideoNotFound) && db.videos == old(db.videos) && svc.sessions == old(svc.sessions)
    // resume: the bound session, nothing created or rebound
    ensures videoId in old(db.videos) && Resumable(old(db.videos)[videoId], appName, userId, old(svc.sessions)) ==>
      && r == Success(old(svc.sessions)[SessionKey(appName, userId, old(db.videos)[videoId].lastSessionId.value)])
      && db.videos == old(db.videos) && svc.sessions == old(svc.sessions)
    // rebuild: one new session seeded from the database, and the video rebound to it
    ensures videoId in old(db.videos) && !Resumable(old(db.videos)[videoId], appName, userId, old(svc.sessions)) ==>
      var id := NewSessionId(videoId, sessionSuffix);
      var key := SessionKey(appName, userId, id);
      var seed := BuildState(old(db.videos), old(db.users), old(db.scenes), old(db.images), videoId, userId, workflowSuffix, nowIso);
      && seed.Success?
      && (key in old(svc.sessions) ==>
            r == Failure(SessionExists) && db.videos == old(db.videos) && svc.sessions == old(svc.sessions))
      && (key !in old(svc.sessions) ==>
            && r == Success(Session(id, appName, userId, seed.value))
            && svc.sessions == old(svc.sessions)[key := r.value]
            && db.videos == BindSession(old(db.videos), videoId, id))
    // whenever a session is returned, the video is bound to it and the service holds it
    ensures r.Success? ==>
      && videoId in db.videos && db.videos[videoId].lastSessionId == Some(r.value.id) && r.value.id != ""
      && r.value.Key() == SessionKey(appName, userId, r.value.id)
      && r.value.Key() in svc.sessions && svc.sessions[r.value.Key()] == r.value
  {
    var video := GetVideo(db.videos, videoId);
    if video.None? {
      return Failure(VideoNotFound);
    }
    var lastSessionId := video.value.lastSessionId;
    if Present(lastSessionId) {
      var resumed := svc.GetSession(appName, userId, lastSessionId.value);
      if resumed.Success? {
        return resumed;
      }
      // could not resume: rebuild from the database
    }
    var initialState := BuildStateFromDb(db, videoId, userId, workflowSuffix, nowIso);
    var newSessionId := NewSessionId(videoId, sessionSuffix);
    r := svc.CreateSession(appName, userId, newSessionId, initialState.value);
    if r.Failure? {
      return;
    }
    UpdateVideoLastSession(db, videoId, newSessionId);
  }

  /** Two acquisitions in a row return the same session: the first binds
      the video to a session the service holds, so the second resumes it. */
  method AcquireTwice(
    svc: SessionService, db: Database, videoId: VideoId, userId: UserId, appName: string,
    sessionSuffix1: string, workflowSuffix1: string, now1: string,
    sessionSuffix2: string, workflowSuffix2: string, now2: string)
    returns (first: Result<Session, SessionError>, second: Result<Session, SessionError>)
    requires db.Valid() && svc.Valid()
    modifies svc, db
    ensures first.Success? ==> second == first
  {
    first := GetOrCreateSessionForVideo(svc, db, videoId, userId, appName, sessionSuffix1, workflowSuffix1, now1);
    second := GetOrCreateSessionForVideo(svc, db, videoId, userId, appName, sessionSuffix2, workflowSuffix2, now2);
  }

  // ---------------------------------------------------------- checkpoints

  /** The dictionary `persist_state_checkpoint` hands to `save_checkpoint`. */
  function CheckpointDict(videoId: VideoId, state: State, nowIso: string): map<string, Value> {
    map[
      "video_id" := VStr(videoId),
      "next_scene" := Get(state, NextSceneKey),
      "current_batch" := Get(state, CurrentBatchKey),
      "character_reference_path" := Get(state, CharacterReferenceKey),
      "session_cost" := Get(state, SessionCostKey),
      "last_updated_at" := VStr(nowIso + "Z")
    ]
  }

  /** The row `save_checkpoint` writes, read with `checkpoint.get(...)`. */
  function CheckpointRow(checkpoint: map<string, Value>): Checkpoint {
    Checkpoint(
      Get(checkpoint, "next_scene"),
      Get(checkpoint, "current_batch"),
      Get(checkpoint, "character_reference_path"),
      Get(checkpoint, "session_cost"),
      Get(checkpoint, "last_updated_at"))
  }

  /** `INSERT ... ON CONFLICT(video_id) DO UPDATE`: afterwards the video has
      exactly this row, and every other video's row is as it was. */
  function UpsertCheckpoint(table: map<VideoId, Checkpoint>, videoId: VideoId, row: Checkpoint)
    : (r: map<VideoId, Checkpoint>)
    ensures r.Keys == table.Keys + {videoId}
    ensures r[videoId] == row
    ensures forall k :: k in table && k != videoId ==> r[k] == table[k]
  {
    table[videoId := row]
  }

  /** The checkpoint carries the state's progress fields and a fresh
      timestamp, and a missing field is stored as NULL. */
  lemma CheckpointCarriesProgress(videoId: VideoId, state: State, nowIso: string)
    ensures CheckpointRow(CheckpointDict(videoId, state, nowIso)) ==
      Checkpoint(Get(state, NextSceneKey), Get(state, CurrentBatchKey), Get(state, CharacterReferenceKey),
                 Get(state, SessionCostKey), VStr(nowIso + "Z"))
  {
  }

  /** Upserting the same row twice is upserting it once. */
  lemma UpsertIdempotent(table: map<VideoId, Checkpoint>, videoId: VideoId, row: Checkpoint)
    ensures UpsertCheckpoint(UpsertCheckpoint(table, videoId, row), videoId, row) == UpsertCheckpoint(table, videoId, row)
  {
  }

  /** Checkpointing the same state twice leaves the same table as doing it
      once, apart from the row's timestamp. */
  lemma RepeatedCheckpointDiffersOnlyInTimestamp(
    table: map<VideoId, Checkpoint>, videoId: VideoId, state: State, now1: string, now2: string)
    ensures var once := UpsertCheckpoint(table, videoId, CheckpointRow(CheckpointDict(videoId, state, now1)));
      var twice := UpsertCheckpoint(once, videoId, CheckpointRow(CheckpointDict(videoId, state, now2)));
      && twice.Keys == once.Keys
      && (forall k :: k in once && k != videoId ==> twice[k] == once[k])
      && twice[videoId].(lastUpdatedAt := VNull) == once[videoId].(lastUpdatedAt := VNull)
  {
  }

  /** A checkpoint written with next_scene 4, batch 2 and cost 1.25 reads
      back with those values; writing again replaces it. */
  lemma CheckpointRoundTripExample(table: map<VideoId, Checkpoint>, videoId: VideoId, state: State, now1: string, now2: string)
    requires NextSceneKey in state && state[NextSceneKey] == VInt(4)
    requires CurrentBatchKey in state && state[CurrentBatchKey] == VInt(2)
    requires SessionCostKey in state && state[SessionCostKey] == VCost(1.25)
    ensures var t1 := UpsertCheckpoint(table, videoId, CheckpointRow(CheckpointDict(videoId, state, now1)));
      var later := state[NextSceneKey := VInt(5)];
      var t2 := UpsertCheckpoint(t1, videoId, CheckpointRow(CheckpointDict(videoId, later, now2)));
      && t1[videoId].nextScene == VInt(4) && t1[videoId].currentBatch == VInt(2)
      && t1[videoId].sessionCost == VCost(1.25)
      && t2.Keys == t1.Keys && t2[videoId].nextScene == VInt(5)
      && t2[videoId].currentBatch == VInt(2) && t2[videoId].sessionCost == VCost(1.25)
      && t2[videoId].lastUpdatedAt == VStr(now2 + "Z")
  {
    CheckpointCarriesProgress(videoId, state, now1);
    CheckpointCarriesProgress(videoId, state[NextSceneKey := VInt(5)], now2);
  }

  /** `save_checkpoint`. */
  method SaveCheckpoint(db: Database, videoId: VideoId, checkpoint: map<string, Value>)
    requires db.Valid()
    modifies db
    ensures db.Valid()
    ensures db.checkpoints == UpsertCheckpoint(old(db.checkpoints), videoId, CheckpointRow(checkpoint))
    ensures db.users == old(db.users) && db.videos == old(db.videos) && db.scenes == old(db.scenes)
    ensures db.images == old(db.images) && db.tokens == old(db.tokens)
  {
    db.checkpoints := UpsertCheckpoint(db.checkpoints, videoId, CheckpointRow(checkpoint));
  }

  /** `persist_state_checkpoint`; `nowIso` stands for `utcnow().isoformat()`. */
  method PersistStateCheckpoint(db: Database, videoId: VideoId, state: State, nowIso: string)
    requires db.Valid()
    modifies db
    ensures db.Valid()
    ensures db.checkpoints == UpsertCheckpoint(old(db.checkpoints), videoId, CheckpointRow(CheckpointDict(videoId, state, nowIso)))
    ensures db.users == old(db.users) && db.videos == old(db.videos) && db.scenes == old(db.scenes)
    ensures db.images == old(db.images) && db.tokens == old(db.tokens)
  {
    var checkpoint := CheckpointDict(videoId, state, nowIso);
    SaveCheckpoint(db, videoId, checkpoint);
  }
}
