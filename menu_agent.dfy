/** agents/menu_agent.py: the same video-menu tools as tools/video_tools.py,
    without the current-video file and with its own refusal text for
    the listing. */
module MenuAgent {
  import opened Wrappers
  import opened SessionState
  import opened Connection
  import opened VideoMenu

  /** `list_user_videos_tool` */
  method ListUserVideosTool(db: Database, ctx: ToolContext) returns (r: Result<Listing, ToolError>)
    requires db.Valid()
    ensures ListReply(r, ctx.state, db, NotAuthenticated)
  {
    r := ListUserVideos(db, ctx, NotAuthenticated);
  }

  /** `select_video_tool` */
  method SelectVideoTool(db: Database, ctx: ToolContext, videoId: VideoId) returns (r: Result<Selection, ToolError>)
    requires db.Valid()
    modifies ctx
    ensures SelectReply(r, old(ctx.state), ctx.state, db.videos, videoId)
  {
    r := SelectVideo(db, ctx, videoId);
  }

  /** `create_new_video_tool` */
  method CreateNewVideoTool(db: Database, ctx: ToolContext, title: string, freshId: VideoId, now: int)
    returns (r: Result<Creation, ToolError>)
    requires db.Valid()
    modifies db, ctx
    ensures db.Valid()
    ensures CreateReply(r, old(ctx.state), ctx.state, old(db.videos), db.videos, title, freshId, now)
    ensures db.users == old(db.users) && db.scenes == old(db.scenes) && db.images == old(db.images)
    ensures db.tokens == old(db.tokens) && db.checkpoints == old(db.checkpoints)
  {
    r := CreateNewVideo(db, ctx, title, freshId, now);
  }
}
