/** The session state that tools read and write: the `state` dictionary of a
    tool context, keyed by strings with the `user:` and `temp:` prefixes. */
module SessionState {
  import opened Wrappers

  /** One scene entry of `temp:scenes_summary`. */
  datatype SceneSummary = SceneSummary(sceneNumber: int, shortPrompt: string)

  /** The Python values the core stores in the state dictionary. Costs are
      floating point in the source; they are only copied or set to zero, so
      `real` stands for them. */
  datatype Value =
    | VNull
    | VStr(s: string)
    | VInt(i: int)
    | VBool(b: bool)
    | VCost(c: real)
    | VList(items: seq<Value>)
    | VSummaries(entries: seq<SceneSummary>)

  /** The keys the core reads and writes. `Name` gives the dictionary key
      each one stands for; keeping them as constructors makes their
      distinctness immediate. */
  datatype Key =
    // written by the session builder
    | WorkflowIdKey | VideoIdKey | CurrentPhaseKey | NextSceneKey | TotalScenesKey
    | ImagesInProgressKey | CurrentBatchKey | ScriptCompletedKey | ScenesCompletedKey
    | CharacterReferenceKey | SessionCostKey | LifetimeCostKey | LastUpdatedKey
    | ScenesSummaryKey
    // identity, written by the authentication tools and the builder
    | UserEmailKey | VerifiedUserIdKey | UserNameKey
    // scratch, written by the tools
    | PendingUserNameKey | SelectedVideoKey

  function Name(k: Key): string {
    match k
    case WorkflowIdKey => "temp:workflow_id"
    case VideoIdKey => "temp:video_id"
    case CurrentPhaseKey => "temp:current_phase"
    case NextSceneKey => "temp:next_scene_to_generate"
    case TotalScenesKey => "temp:total_scenes"
    case ImagesInProgressKey => "temp:images_in_progress"
    case CurrentBatchKey => "temp:current_batch_number"
    case ScriptCompletedKey => "temp:script_completed"
    case ScenesCompletedKey => "temp:scenes_completed"
    case CharacterReferenceKey => "temp:character_reference_path"
    case SessionCostKey => "temp:session_cost"
    case LifetimeCostKey => "user:total_lifetime_cost"
    case LastUpdatedKey => "temp:last_updated_at"
    case ScenesSummaryKey => "temp:scenes_summary"
    case UserEmailKey => "user:email"
    case VerifiedUserIdKey => "user:verified_user_id"
    case UserNameKey => "user:name"
    case PendingUserNameKey => "temp:pending_user_name"
    case SelectedVideoKey => "temp:selected_video_id"
  }

  type State = map<Key, Value>

  /** `state.get(key)`: the stored value, or None when the key is absent. */
  function Get<K>(state: map<K, Value>, key: K): (v: Value)
    ensures key !in state ==> v == VNull
    ensures key in state ==> v == state[key]
  {
    if key in state then state[key] else VNull
  }

  /** Python truthiness of a stored value. */
  predicate Truthy(v: Value) {
    match v
    case VNull => false
    case VStr(s) => s != ""
    case VInt(i) => i != 0
    case VBool(b) => b
    case VCost(c) => c != 0.0
    case VList(items) => items != []
    case VSummaries(entries) => entries != []
  }

  /** The value as a text query parameter. The core only ever stores text or
      None under the keys it passes to SQL; any other value is read as None,
      which matches no row. */
  function AsText(v: Value): (t: Option<string>)
    ensures t.Some? <==> v.VStr?
    ensures t.Some? ==> v == VStr(t.value)
  {
    if v.VStr? then Some(v.s) else None
  }

  /** Python truthiness of an optional string (`if not email:`). */
  predicate Present(o: Option<string>) {
    o.Some? && o.value != ""
  }

  /** `user.get("user_name") or "there"`: the name to greet the user by. */
  function DisplayName(userName: Option<string>): (d: string)
    ensures d != ""
    ensures Present(userName) ==> d == userName.value
    ensures !Present(userName) ==> d == "there"
  {
    if Present(userName) then userName.value else "there"
  }

  /** The three identity writes of the authentication tools: email, verified
      user id and display name; every other entry is kept. */
  function WithIdentity(state: State, email: string, userId: string, userName: Option<string>): (s: State)
    ensures s.Keys == state.Keys + {UserEmailKey, VerifiedUserIdKey, UserNameKey}
    ensures s[UserEmailKey] == VStr(email) && s[VerifiedUserIdKey] == VStr(userId)
    ensures s[UserNameKey] == VStr(DisplayName(userName))
    ensures forall k :: k in state && k != UserEmailKey && k != VerifiedUserIdKey && k != UserNameKey ==> s[k] == state[k]
  {
    state[UserEmailKey := VStr(email)][VerifiedUserIdKey := VStr(userId)][UserNameKey := VStr(DisplayName(userName))]
  }

  /** The authenticated user's id as the tools read it: the text under
      `user:verified_user_id`, if any. */
  function SignedInUserId(state: State): (id: Option<string>)
    ensures id.Some? <==> VerifiedUserIdKey in state && state[VerifiedUserIdKey].VStr?
    ensures id.Some? ==> state[VerifiedUserIdKey] == VStr(id.value)
  {
    AsText(Get(state, VerifiedUserIdKey))
  }

  /** Writing the same identity twice is writing it once. */
  lemma WithIdentityIdempotent(state: State, email: string, userId: string, userName: Option<string>)
    ensures WithIdentity(WithIdentity(state, email, userId, userName), email, userId, userName)
         == WithIdentity(state, email, userId, userName)
  {
  }

  /** The state object a tool receives (`tool_context.state`), updated in place. */
  class ToolContext {
    var state: State

    constructor (initial: State)
      ensures state == initial
    {
      state := initial;
    }
  }

  /** The two local context files of config.py. Only the current-video
      file is written by the core. */
  class ContextFiles {
    var currentVideoId: Option<string>

    constructor (initial: Option<string>)
      ensures currentVideoId == initial
    {
      currentVideoId := initial;
    }
  }
}
