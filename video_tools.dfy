/** tools/video_tools.py: the video-menu tools that also keep the local
    current-video file (config.py `save_current_video`) in step. */
module VideoTools {
  import opened Wrappers
  import opened SessionState
  import opened Connection
  import opened VideoMenu

  /** The refusal text of this file's listing tool. */
  const NoUser := "User does not exist"

  /** `list_user_videos_tool` */
  method ListUserVideosTool(db: Database, ctx: ToolContext) returns (r: Result<Listing, ToolError>)
    requires db.Valid()
    ensures ListReply(r, ctx.state, db, NoUser)
  {
    r := ListUserVideos(db, ctx, NoUser);
  }

  /** `select_video_tool`: on success the current-video file names the selected
      video; on failure it is untouched. */
  method SelectVideoTool(db: Database, ctx: ToolContext, files: ContextFiles, videoId: VideoId)
    returns (r: Result<Selection, ToolError>)
    requires db.Valid()
    modifies ctx, files
    ensures SelectReply(r, old(ctx.state), ctx.state, db.videos, videoId)
    ensures r.Success? ==> files.currentVideoId == Some(videoId)
    ensures r.Failure? ==> files.currentVideoId == old(files.currentVideoId)
  {
    r := SelectVideo(db, ctx, videoId);
    if r.Success? {
      files.currentVideoId := Some(videoId);
    }
  }

  /** `create_new_video_tool`: on success the current-video file names the new
      video; otherwise it is untouched. */
  method CreateNewVideoTool(db: Database, ctx: ToolContext, files: ContextFiles, title: string, freshId: VideoId, now: int)
    returns (r: Result<Creation, ToolError>)
    requires db.Valid()
    modifies db, ctx, files
    ensures db.Valid()
    ensures CreateReply(r, old(ctx.state), ctx.state, old(db.videos), db.videos, title, freshId, now)
    ensures db.users == old(db.users) && db.scenes == old(db.scenes) && db.images == old(db.images)
    ensures db.tokens == old(db.tokens) && db.checkpoints == old(db.checkpoints)
    ensures r.Success? ==> files.currentVideoId == Some(freshId)
    ensures r.Failure? ==> files.currentVideoId == old(files.currentVideoId)
  {
    r := CreateNewVideo(db, ctx, title, freshId, now);
    if r.Success? {
      files.currentVideoId := Some(freshId);
    }
  }
}
