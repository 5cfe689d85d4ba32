# Continuity: session rebuild, verification tokens and menu tools

Continuity is a conversational assistant that helps a user make a video scene
by scene. Its state lives in two places:

- a SQLite database with users, videos, scenes, images, verification tokens
  and checkpoints;
- sessions held by the agent framework's session service, whose state is a
  dictionary with keys such as `temp:next_scene_to_generate` and
  `user:verified_user_id`.

This project models the deterministic core that ties the two together.

- **Session rebuild, resume and checkpoint.** `build_state_from_db` derives
  a fresh session state from the tables. Its central rule scans the scenes
  in scene-number order for the first one without an approved image.
  `get_or_create_adk_session_for_video` resumes the session bound to a
  video, or else rebuilds one and rebinds the video's `last_session_id`.
  `persist_state_checkpoint` upserts one checkpoint row per video.
- **Verification tokens.** Tokens are single-use and expire after an hour.
  They are issued, redeemed and swept over a token table, with the clock in
  whole seconds. The same file's user and video `create` and `find`
  operations are modelled too.
- **Sign-in tools.** These are the e-mail format check, the pending-name
  tool, the request and verify tools of the greeting agent, and the restore
  tool. They write the user's identity into the session state.
- **Video menu tools.** These are listing, selection and creation, each
  behind a sign-in guard. There are two near-identical copies: one in
  `tools/video_tools.py`, which also writes the current-video file,
  and one in `agents/menu_agent.py`, which does not. Both are thin wrappers
  over one shared model.

Layout:

- `connection.dfy` holds the tables as maps in a `Database` class. Its
  invariant is the schema's keys and `UNIQUE` constraints.
- `session_state.dfy` holds the session state (`map<Key, Value>`) and the
  Python reading rules for it: `dict.get`, truthiness and `or "there"`.
- `text.dfy` holds `str.strip` and slicing.
- `email_format.dfy` holds the regular expression as a specification, plus a
  scanner proved equal to it.
- `models.dfy` holds the data-access layer.
- `session_helpers.dfy` holds rebuild, resume and checkpoint.
- `greeting_agent.dfy` and `auth_tools.dfy` hold the sign-in tools.
- `video_menu.dfy` holds the shared menu model. `video_tools.dfy` and
  `menu_agent.dfy` wrap it.

The defect in `verify_token_tool` is modelled both ways (see Findings).
`VerifyTokenToolAsWritten` and `RegisterNewUserAsWritten` follow the code
as written. `VerifyTokenTool` and `RegisterNewUser` follow the evident
intent, and that is the version the rest of the model builds on.

## Model

| member | source | states |
|---|---|---|
| Connection.Database.Open | database/connection.py:14-80 | The opened database keeps the schema invariant. Users are keyed by `user_id` with unique e-mails, videos are keyed by `video_id`, and `(video_id, scene_number)` is unique. Tokens and checkpoints are keyed by their primary keys. |
| Text.Strip | agents/greeting_agent.py:10 | The result is the input with every leading and trailing whitespace character removed, where whitespace is Python's `str.isspace` set. It is empty exactly when the input is all whitespace; otherwise it starts and ends with a non-space. |
| Text.StripIdempotent | agents/greeting_agent.py:77 | Stripping a second time changes nothing. |
| Text.Take | database/session_helpers.py:181 | `s[:n]` is the prefix of `s` of length `min(n, len(s))`. |
| EmailFormat.Matches | agents/greeting_agent.py:13-16 | The scanner accepts exactly the strings `re.match` accepts for `^[a-zA-Z0-9._%+-]+@[a-zA-Z0-9.-]+\.[a-zA-Z]{2,}$`. That includes an address followed by a single trailing newline, which `$` admits. |
| EmailFormat.BodyScanIsBody | agents/greeting_agent.py:15 | A single left-to-right scan agrees with the pattern on every string, in both directions. The scan takes the longest local part, one `@`, a domain of domain characters, and the last dot followed by two or more letters. |
| EmailFormat.MatchedIsNonEmpty | agents/greeting_agent.py:15 | Every string the pattern accepts has at least five characters, so a well-formed address is never empty. |
| EmailFormat.AcceptsPlainAddress | agents/greeting_agent.py:15 | `user@example.com` matches. |
| EmailFormat.AcceptsTrailingNewline | agents/greeting_agent.py:15-16 | `user@example.com` followed by one newline matches. |
| EmailFormat.RejectsMissingAt | agents/greeting_agent.py:15 | `not-an-email` does not match. |
| EmailFormat.RejectsMissingDomain | agents/greeting_agent.py:15 | `user@` does not match. |
| SessionState.Get | database/session_helpers.py:249-252 | `dict.get` yields the stored value when the key is present and None otherwise. |
| SessionState.AsText | tools/video_tools.py:65-71 | A state value used as a text query parameter is its text when it holds text, and otherwise matches no row. |
| SessionState.DisplayName | tools/auth_tools.py:39 | `user_name or "there"` is the name when it is present and non-empty, and otherwise "there"; it is never empty. |
| SessionState.WithIdentity | tools/auth_tools.py:37-39 | The new state sets `user:email`, `user:verified_user_id` and the display name under `user:name`. It adds exactly these three keys and leaves every other key as it was. |
| SessionState.WithIdentityIdempotent | tools/auth_tools.py:37-39 | Recording the same identity twice gives the same state as recording it once. |
| SessionState.SignedInUserId | tools/video_tools.py:14 | The signed-in user id is present exactly when `user:verified_user_id` holds text, and it is that text. |
| Models.FindUserByEmail | database/models.py:24-32 | The lookup returns a row exactly when some user has this e-mail, and the row it returns is a user row with that e-mail. |
| Models.FindUserById | database/models.py:35-43 | The lookup returns a row exactly when the id is a key of the users table, and the row carries that id. |
| Models.NewUser | database/models.py:11-13 | The new row has the given e-mail and name and a cost of 0. Its id is the given id, or, when none is given, the id derived from the e-mail. |
| Models.DerivedIdDependsOnlyOnEmail | database/models.py:12-13 | Without an explicit id, the same e-mail gets the same id whatever the name. |
| Models.InsertUser | database/models.py:15-19 | The insert succeeds exactly when neither the id nor the e-mail is present yet. On success it adds one row, keeps every other row, and preserves the keyed and unique-e-mail invariants. |
| Models.CreateUser | database/models.py:11-21 | `UserModel.create` returns the inserted row and the users table gains exactly it. A duplicate fails with IntegrityError and leaves the table unchanged. No other table changes. |
| Models.NewVideo | database/models.py:56-69 | The new video row is owned by the user, carries the title and status `in_progress`, and has no session or script yet. |
| Models.CreateVideo | database/models.py:50-69 | `VideoModel.create` inserts exactly one row under the given or fresh id and returns it. A taken id fails and changes nothing. No other table changes. |
| Models.IssueToken | database/models.py:87-96 | Issuing succeeds exactly when the token is new. It adds one unused row with `expires_at = now + 3600` that is redeemable now, and keeps every other row. |
| Models.Redeem | database/models.py:112-135 | Redeeming yields the e-mail exactly when the token exists, is unused and `expires_at > now`. Then only that row changes, to `used`. Otherwise it yields None and the table is unchanged. |
| Models.Sweep | database/models.py:146-153 | After the sweep, exactly the rows with `expires_at < now` or `used` are gone, and the remaining rows are unchanged. |
| Models.SweepCountIsRemoved | database/models.py:154 | The count the sweep reports equals the number of rows it removed. |
| Models.RedeemIsSingleUse | database/models.py:118-131 | After a successful redemption, redeeming the same token again, at any time, yields None and changes nothing. |
| Models.InertTokensNeverRedeem | database/models.py:118-119 | A used token, or one whose `expires_at <= now`, is never redeemed. |
| Models.IssuedTokenLifetime | database/models.py:87-98 | A token issued at `now` redeems at `later` exactly when `later < now + 3600`. |
| Models.ExpiryInstant | database/models.py:119 | An unused token whose `expires_at` equals the current time is neither redeemable nor swept. |
| Models.SweepSparesRedeemable | database/models.py:146-153 | Sweeping at `now` never changes what a later redemption yields. |
| Models.CreateToken | database/models.py:76-98 | `create_token` returns its token and the token table becomes `IssueToken` of the old one. A colliding token fails and changes nothing. |
| Models.VerifyToken | database/models.py:101-135 | `verify_token` returns `Redeem(...).email`, and the token table becomes `Redeem(...).tokens`. No other table changes. |
| Models.CleanupExpiredTokens | database/models.py:138-154 | `cleanup_expired_tokens` leaves exactly `Sweep(old tokens, now)` and returns the number of rows it deleted. No other table changes. |
| SessionHelpers.GetVideo | database/session_helpers.py:30-37 | The lookup returns a row exactly when the video exists, and the row it returns is that video. |
| SessionHelpers.ScenesOfVideo | database/session_helpers.py:52-60 | The filter keeps exactly the scene rows of the video, unchanged. |
| SessionHelpers.OrderByNumber | database/session_helpers.py:57 | `ORDER BY scene_number` gives every row once, in strictly ascending scene number. |
| SessionHelpers.GetScenesForVideo | database/session_helpers.py:49-61 | The result lists all the video's scenes and nothing else, one entry per row, in strictly ascending scene number. |
| SessionHelpers.GetApprovedImagesForVideo | database/session_helpers.py:64-78 | The result pairs scene number with image path for exactly the approved images whose scene belongs to the video. |
| SessionHelpers.ApprovedSceneNumbers | database/session_helpers.py:133 | The set holds the scene numbers of the approved images, and nothing else. |
| SessionHelpers.FirstUnapprovedIndex | database/session_helpers.py:137-140 | The result is the position at which the scan breaks. Every scene before it is approved, and the scene at it, if any, is not. |
| SessionHelpers.NextScene | database/session_helpers.py:133-143 | The result is `total_scenes + 1` when every scene, possibly zero of them, is approved. Otherwise it is the number of the first unapproved scene in the given order. |
| SessionHelpers.ScanNextScene | database/session_helpers.py:135-143 | The `for` ... `break` ... `else` loop computes `NextScene`. |
| SessionHelpers.NextSceneWhenDense | database/session_helpers.py:137-143 | With scenes numbered exactly 1..n, the next scene lies in 1..n+1, every lower number is approved, and the next scene itself is unapproved unless it is n+1. |
| SessionHelpers.NextSceneSkipsToGap | database/session_helpers.py:137-140 | Scenes 1..5 with 1, 2 and 4 approved resume at 3, the first gap. |
| SessionHelpers.NextSceneAfterLast | database/session_helpers.py:141-143 | Scenes 1..5 with all five approved fall through the `else` to 6. |
| SessionHelpers.ScenesSummary | database/session_helpers.py:178-184 | The summary has one entry per scene, in order, with the same number. Each prompt is the first `min(120, len)` characters of the description. |
| SessionHelpers.Snapshot | database/session_helpers.py:145-175 | The snapshot has exactly the seventeen keys `build_state_from_db` writes. |
| SessionHelpers.SnapshotProgress | database/session_helpers.py:148-159 | The snapshot echoes the video id, takes its phase from the status, and stores the next scene, the total, both completion flags and the summary. |
| SessionHelpers.SnapshotFreshFields | database/session_helpers.py:147-165 | In the snapshot, the workflow id is `wf_` plus the suffix and the timestamp ends in `Z`. No images are in progress, the batch is 0, the session cost is 0.0, and the character reference is None. |
| SessionHelpers.SnapshotWithoutUser | database/session_helpers.py:166-171 | Without a user row, the e-mail, verified id and name are None and the lifetime cost is 0.0. |
| SessionHelpers.SnapshotWithUser | database/session_helpers.py:166-171 | With a user row, the e-mail, id, raw name and monthly cost are copied from it. |
| SessionHelpers.BuildState | database/session_helpers.py:124-186 | A missing video fails with VideoNotFound; this models `video.get` raising on None. Otherwise every one of the seventeen keys is stated in terms of the tables and the fresh inputs. The workflow id is `wf_` plus the suffix and the timestamp is the ISO text plus `Z`. `total_scenes` is the scene count, `scenes_completed` is whether it is positive, and `script_completed` is whether the script is non-empty. |
| SessionHelpers.RebuildIsDeterministic | database/session_helpers.py:145-175 | Two rebuilds from the same tables differ only in the workflow id and the timestamp. |
| SessionHelpers.BuildStateFromDb | database/session_helpers.py:124-143 | The method with the loop computes `BuildState` over the database's current tables. |
| SessionHelpers.SessionService.GetSession | database/session_helpers.py:211-215 | Fetching returns the stored session when the app, user and session id are known, and fails otherwise. |
| SessionHelpers.SessionService.CreateSession | database/session_helpers.py:228-233 | Creating stores exactly one new session under a fresh key and returns it. An existing key fails and changes nothing. |
| SessionHelpers.BindSession | database/session_helpers.py:40-46 | The update changes the `last_session_id` of the one video and keeps every other video unchanged. |
| SessionHelpers.UpdateVideoLastSession | database/session_helpers.py:40-46 | The videos table becomes `BindSession` of the old one. No other table changes. |
| SessionHelpers.NewSessionId | database/session_helpers.py:226 | The new session id is never empty, so a later resume treats it as bound. |
| SessionHelpers.GetOrCreateSessionForVideo | database/session_helpers.py:189-239 | A missing video fails and changes nothing. A bound and fetchable session is returned as it is, with nothing created or rebound. Otherwise exactly one session is created, seeded with `BuildState`, and only that video is rebound to it. Every success leaves the video bound to the returned session. |
| SessionHelpers.AcquireTwice | database/session_helpers.py:206-217 | A second call right after a successful one returns the same session. |
| SessionHelpers.UpsertCheckpoint | database/session_helpers.py:97-119 | After the upsert the video has exactly this checkpoint row, and every other video's row is as it was. |
| SessionHelpers.CheckpointCarriesProgress | database/session_helpers.py:247-254 | The row written holds the state's next scene, batch, character reference and session cost, read with `state.get`, plus the timestamp. |
| SessionHelpers.UpsertIdempotent | database/session_helpers.py:97-119 | Upserting the same row twice gives the same table as upserting it once. |
| SessionHelpers.RepeatedCheckpointDiffersOnlyInTimestamp | database/session_helpers.py:242-255 | Persisting the same state twice changes nothing but the video's `last_updated_at`. |
| SessionHelpers.CheckpointRoundTripExample | database/session_helpers.py:242-255 | After a checkpoint at scene 4 and then one at scene 5, the row holds scene 5 with the same batch and cost and the second timestamp. |
| SessionHelpers.SaveCheckpoint | database/session_helpers.py:81-119 | The checkpoint table becomes the upsert of the row read from the dictionary. No other table changes. |
| SessionHelpers.PersistStateCheckpoint | database/session_helpers.py:242-255 | The checkpoint table becomes the upsert of the row built from the state. No other table changes. |
| GreetingAgent.SaveUserNameTool | agents/greeting_agent.py:8-11 | The tool stores the stripped name under `temp:pending_user_name` and changes no other key. |
| GreetingAgent.RequestVerificationTool | agents/greeting_agent.py:19-63 | A bad format gives `invalid_format`, and a registered e-mail gives `verify`; neither creates a token. Otherwise exactly one token is issued and kept, and the reply is `await_token` or `send_failed` according to delivery. |
| GreetingAgent.SignedIn | agents/greeting_agent.py:95-98 | After sign-in the state has the e-mail, the verified id and the display name. The pending name is removed, and every other key is unchanged. |
| GreetingAgent.UserToSignIn | agents/greeting_agent.py:87-92 | The user is the registered row for the e-mail when there is one, and otherwise a new row named by the pending name with the derived id. |
| GreetingAgent.VerifyTokenTool | agents/greeting_agent.py:66-106 | This is the intended version. The stripped token is redeemed. A token that yields no e-mail, or an empty one (`if not email`), gives `invalid_token` with the state and users unchanged. Any other token signs the user in, creating the user row if it is missing, and returns the name, id and e-mail. |
| GreetingAgent.VerifyTokenToolAsWritten | agents/greeting_agent.py:77-92 | This is the code as written. The token is consumed. A redemption yielding no e-mail, or an empty one, gives `invalid_token`. Every redemption yielding a non-empty e-mail raises UnboundLocalError, with no user row and no state change. |
| GreetingAgent.GiveNameAndRequest | agents/greeting_agent.py:8-63 | After the name and the request steps of a first registration, the reply is `await_token` and the stripped name is pending. The users table is unchanged, and the one new token redeems for the address within the hour. |
| GreetingAgent.RedeemFreshToken | agents/greeting_agent.py:66-106 | This is the intended version. Redeeming that token creates the account under the derived id with the pending name, signs the visitor in, drops the pending name and spends the token. |
| GreetingAgent.RegisterNewUser | agents/greeting_agent.py:8-106 | This is the intended flow. Name, request and verify register the user under the derived id with the stripped name and sign them in. Retrying the same token is refused. |
| GreetingAgent.RegisterNewUserAsWritten | agents/greeting_agent.py:8-106 | This is the flow as written. Verification raises and the retry is refused, so the user is never registered. Only the pending name is left in the state. |
| AuthTools.CheckAndRestoreUserTool | tools/auth_tools.py:6-52 | The tool uses the same pattern as the greeting agent. A bad format gives `invalid_email`, and an unknown e-mail gives `new_user` with the e-mail echoed; neither changes the state. A registered e-mail restores the identity with the display name and returns `existing_user`. |
| AuthTools.RestoreAgreesWithVerification | tools/auth_tools.py:37-39 | Restoring a user leaves the same state as verifying them, apart from the pending name. Either way the signed-in id is the user's. |
| VideoMenu.OwnedBy | tools/video_tools.py:29 | `WHERE user_id = ?` keeps exactly the videos of the user. |
| VideoMenu.QueryUserVideos | tools/video_tools.py:23-36 | The listing holds `min(10, owned)` rows, all of the user's own videos and each once. They are ordered by non-increasing `updated_at`, with no unlisted video more recent, and each row carries its scene count. |
| VideoMenu.ListUserVideos | tools/video_tools.py:5-49 | With no signed-in user the tool refuses and makes no query. Otherwise it returns the user's listing, with `count` present exactly when the listing is non-empty and then equal to its length. |
| VideoMenu.EmptyListingIffNoVideos | tools/video_tools.py:38-43 | The listing is empty exactly when the user owns no videos. |
| VideoMenu.OwnedVideo | tools/video_tools.py:65-72 | The ownership query finds the video exactly when a user is signed in and owns a video with that id. |
| VideoMenu.SelectVideo | tools/video_tools.py:65-81 | Selection succeeds exactly for an owned video and returns its title and status. Only `temp:selected_video_id` changes; on failure nothing does. |
| VideoMenu.SelectNeedsOwner | tools/video_tools.py:65-78 | A successful selection implies a signed-in user who owns the video. |
| VideoMenu.CreateNewVideo | tools/video_tools.py:108-129 | Creation refuses with no signed-in user and inserts nothing. Otherwise it inserts exactly one `in_progress` video owned by the user under the fresh id and selects it. A taken id raises. |
| VideoMenu.CreatedVideoIsSelectable | tools/video_tools.py:117-129 | A created video is owned by the signed-in user and can then be selected. |
| VideoTools.ListUserVideosTool | tools/video_tools.py:5-49 | This is the listing under the refusal "User does not exist". |
| VideoTools.SelectVideoTool | tools/video_tools.py:52-92 | Selection also writes the current-video file on success; on failure it leaves that file as it was. |
| VideoTools.CreateNewVideoTool | tools/video_tools.py:95-139 | Creation also writes the id of the new video on success; on failure it leaves that file as it was. |
| MenuAgent.ListUserVideosTool | agents/menu_agent.py:8-52 | This is the listing under the refusal "User not authenticated". |
| MenuAgent.SelectVideoTool | agents/menu_agent.py:55-92 | This is the ownership-checked selection; only `temp:selected_video_id` changes. |
| MenuAgent.CreateNewVideoTool | agents/menu_agent.py:95-136 | This is the guarded creation of one `in_progress` video, which is then selected. |

## Left out

- Sessions: the framework's handling of `temp:` keys is not modelled. The session state is one map, and prefixes are not persisted separately.
- The session service, the resume in `get_or_create_adk_session_for_video` and its race:
  - `get_session` is modelled as failing on an unknown session, which the code catches and follows with a rebuild. A service that instead returns None without raising would have the code return None (database/session_helpers.py:211-217); the model does not cover that.
  - The service is sequential. The asynchronous race between two concurrent rebuilds is not modelled.
- `uuid4`, `utcnow` and sha256 are not computed:
  - fresh token ids, video ids and id suffixes are parameters;
  - the clock is an integer number of seconds, with an ISO text where the state stores one;
  - the e-mail-to-id derivation is an uninterpreted function held by the database.
- Floating point: costs are `real` values that are only copied or set to zero.
- SMTP delivery (`send_magic_link`) is a boolean parameter. The mail service is not part of this model.
- Printing, messages and agents:
  - `print` calls are left out;
  - the human-readable `message` texts of the replies are left out, and so is the constant `{"success": True}` reply of `save_user_name_tool`; every other field of the replies is modelled;
  - the agent definitions and prompt text are not part of this model.
- config.py's current-video file is a `ContextFiles` object with one field. Reading and writing the file is not modelled. `auth_tools` imports `save_current_user` but never calls it.
- SQLite plumbing is not modelled: connections, commits, the `CREATE TABLE IF NOT EXISTS` in `save_checkpoint`, and foreign keys, which SQLite does not enforce by default.
- `SessionState.SignedInUserId`: a non-text value under `user:verified_user_id` counts as no user, where Python would pass a truthy non-text value to SQL. The core only ever stores text or None there.
- `SessionHelpers.GetApprovedImagesForVideo`: the approved images are modelled as a set. The rebuild only uses their scene numbers, so their order and duplicate rows are dropped.
- `SessionHelpers.ScenesSummary`: `visual_description` is NOT NULL in the schema, so the `or ""` fallback is unreachable and descriptions are plain strings.
- PersistStateCheckpoint: the checkpoint row keeps each state value as it was bound. SQLite would convert text or booleans to the INTEGER and REAL column types (database/connection.py:73-80), and Python's sqlite3 would refuse to bind a list value; the model stores such values unconverted and never fails to bind. Nothing in the core reads checkpoint rows back.
- `VideoMenu.QueryUserVideos`: SQLite leaves the order of videos with equal `updated_at` open, and so does the contract.
- `VideoMenu.CreateNewVideo`: `updated_at` and `created_at` are set to the given clock value rather than SQLite's `CURRENT_TIMESTAMP`.

## Findings

| source | as written | input that shows it | evidently intended | confidence | as-written member | corrected member |
|---|---|---|---|---|---|---|
| agents/greeting_agent.py:88-92 | the lookup result is bound to `existing_user`, but the next line tests `user`, which is not yet bound | any existing, unused, unexpired token whose row holds a non-empty e-mail: `verify_token` marks it used, then `if not user` raises UnboundLocalError, so no user is registered and the token cannot be retried | `user = existing_user`, creating the user only when the lookup finds none | high (by reading; not executed) | GreetingAgent.VerifyTokenToolAsWritten, GreetingAgent.RegisterNewUserAsWritten | GreetingAgent.VerifyTokenTool, GreetingAgent.RegisterNewUser |
