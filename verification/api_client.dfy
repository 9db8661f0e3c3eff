/**
 * The decision rules of the REST client (lib/api.ts): the request interceptor
 * that attaches the bearer token, the response interceptor that refreshes the
 * access token once on a 401, `groupAPI.createGroup`'s error mapping and
 * `groupAPI.joinGroupByCode`'s group selection and error classification.
 * Network calls are replaced by their outcomes, given as parameters.
 */
module ApiClient {
  import opened Common
  import opened Text

  /** The two `localStorage` entries the application keeps: `accessToken` and `refreshToken`. */
  class TokenStore {
    var access: Option<string>
    var refresh: Option<string>

    constructor (access: Option<string>, refresh: Option<string>)
      ensures this.access == access && this.refresh == refresh
    {
      this.access := access;
      this.refresh := refresh;
    }

    /** `removeItem` of both entries. */
    method Clear()
      modifies this
      ensures access == None && refresh == None
    {
      access := None;
      refresh := None;
    }
  }

  /** The fields of an error response body the application reads. */
  datatype ErrorBody = ErrorBody(detail: Option<string>, message: Option<string>, error: Option<string>)

  /** An HTTP response attached to a failed request. */
  datatype Response = Response(status: int, body: ErrorBody)

  /** A thrown error: its `message`, and its `response` when the server answered. */
  datatype ApiError = ApiError(message: string, response: Option<Response>)

  /** `error.response?.status`. */
  function StatusOf(e: ApiError): Option<int> {
    if e.response.Some? then Some(e.response.value.status) else None
  }

  const AuthorizationHeader := "Authorization"

  /** The header value the interceptors write for a token. */
  function Bearer(token: string): (h: string)
    ensures |h| == 7 + |token| && h[..7] == "Bearer " && h[7..] == token
  {
    "Bearer " + token
  }

  /** The request configuration the interceptors mutate: its headers and the `_retry` flag. */
  class RequestConfig {
    var headers: map<string, string>
    var retried: bool

    constructor (headers: map<string, string>)
      ensures this.headers == headers && !retried
    {
      this.headers := headers;
      retried := false;
    }
  }

  /** The request interceptor: a stored (non-empty) access token is sent as a bearer
      token; without one the headers are left as they are. */
  method AttachToken(config: RequestConfig, store: TokenStore)
    modifies config
    ensures Truthy(store.access) ==>
              config.headers == old(config.headers)[AuthorizationHeader := Bearer(store.access.value)]
    ensures !Truthy(store.access) ==> config.headers == old(config.headers)
    ensures config.retried == old(config.retried)
  {
    var token := store.access;
    if Truthy(token) {
      config.headers := config.headers[AuthorizationHeader := Bearer(token.value)];
    }
  }

  /** What the refresh endpoint (`POST /token/refresh/`) answered. */
  datatype RefreshOutcome = Refreshed(access: string) | RefreshFailed(error: ApiError)

  /** What the response interceptor does with a failed request. */
  datatype Interception =
    | Retry                    // send the request again, with the new token
    | Reject(error: ApiError)  // propagate this error to the caller

  /** The response interceptor's error handler. A 401 on a request not yet retried marks
      it retried; with a refresh token stored, a successful refresh stores the new access
      token and retries the request with it, while a failed refresh clears both tokens,
      asks for the login page and rejects with the refresh error. Every other case
      rejects with the original error and changes no token. */
  method HandleResponseError(err: ApiError, config: RequestConfig, store: TokenStore, refreshed: RefreshOutcome)
    returns (r: Interception, toLogin: bool)
    requires config != store as object
    modifies config, store
    ensures StatusOf(err) == Some(401) && !old(config.retried) ==> config.retried
    ensures !(StatusOf(err) == Some(401) && !old(config.retried)) ==>
              r == Reject(err) && !toLogin && config.retried == old(config.retried)
              && config.headers == old(config.headers)
              && store.access == old(store.access) && store.refresh == old(store.refresh)
    ensures r == Retry ==>
              && StatusOf(err) == Some(401) && !old(config.retried) && Truthy(old(store.refresh))
              && refreshed.Refreshed? && !toLogin
              && store.access == Some(refreshed.access) && store.refresh == old(store.refresh)
              && config.headers == old(config.headers)[AuthorizationHeader := Bearer(refreshed.access)]
    ensures StatusOf(err) == Some(401) && !old(config.retried) && !Truthy(old(store.refresh)) ==>
              r == Reject(err) && !toLogin && config.headers == old(config.headers)
              && store.access == old(store.access) && store.refresh == old(store.refresh)
    ensures StatusOf(err) == Some(401) && !old(config.retried) && Truthy(old(store.refresh)) ==>
              (r == Retry <==> refreshed.Refreshed?)
    ensures StatusOf(err) == Some(401) && !old(config.retried) && Truthy(old(store.refresh)) && refreshed.RefreshFailed? ==>
              r == Reject(refreshed.error) && toLogin && config.headers == old(config.headers)
              && store.access == None && store.refresh == None
  {
    toLogin := false;
    r := Reject(err);
    if StatusOf(err) == Some(401) && !config.retried {
      config.retried := true;
      if Truthy(store.refresh) {
        match refreshed
        case Refreshed(access) =>
          store.access := Some(access);
          config.headers := config.headers[AuthorizationHeader := Bearer(access)];
          r := Retry;
        case RefreshFailed(refreshError) =>
          store.Clear();
          toLogin := true;
          r := Reject(refreshError);
      }
    }
  }

  // ------------------------------------------------------------ createGroup

  /** A group as the backend returns it; `id` is absent or 0 when the record has no usable id. */
  datatype GroupRecord = GroupRecord(id: Option<int>, name: string)

  /** `!group.id` is false: the id is present and not 0. */
  predicate HasId(g: GroupRecord) {
    g.id.Some? && g.id.value != 0
  }

  /** The phrase the create-group page looks for in an error message. */
  const BackendUnsupported := "backend API does not support"

  const NoGroupEndpointTail :=
    " group creation yet. The /groups/ endpoint does not allow POST requests. Please check with the backend team to implement the groups API endpoints."
  const NoGroupEndpointMessage := "The " + BackendUnsupported + NoGroupEndpointTail

  /** `groupAPI.createGroup`, given the outcome of `POST /groups/`. */
  function CreateGroup(posted: Result<GroupRecord, ApiError>): Result<GroupRecord, ApiError> {
    match posted
    case Ok(g) => Ok(g)
    case Err(e) => if StatusOf(e) == Some(405) then Err(ApiError(NoGroupEndpointMessage, None)) else Err(e)
  }

  /** A created group is passed through; a 405 becomes an error without a response whose
      message says the backend does not support group creation; every other error is
      rethrown unchanged. */
  lemma CreateGroupErrors(posted: Result<GroupRecord, ApiError>)
    ensures posted.Ok? ==> CreateGroup(posted) == posted
    ensures posted.Err? && StatusOf(posted.error) != Some(405) ==> CreateGroup(posted) == posted
    ensures posted.Err? && StatusOf(posted.error) == Some(405) ==>
              && CreateGroup(posted).Err?
              && StatusOf(CreateGroup(posted).error) == None
              && Contains(CreateGroup(posted).error.message, BackendUnsupported)
  {
    NoGroupEndpointMentionsBackend();
  }

  lemma NoGroupEndpointMentionsBackend()
    ensures Contains(NoGroupEndpointMessage, BackendUnsupported)
  {
    ContainsInfix("The ", BackendUnsupported, NoGroupEndpointTail);
  }

  // ------------------------------------------------------- joinGroupByCode

  /** The body of `GET /groups/?join_code=…`: nothing (a falsy value), an array of
      possibly-null groups, or a single group object. */
  datatype FindData = NoData | GroupList(groups: seq<Option<GroupRecord>>) | SingleGroup(group: GroupRecord)

  /** Whether the `POST /groups/{id}/join/` call succeeded. */
  datatype CallOutcome = Succeeded | Failed(error: ApiError)

  const GroupNotFound := "Group not found with the provided join code"
  const InvalidGroupData := "Invalid group data received"
  const JoinCodeRequired := "Join code is required"
  const InvalidJoinCode := "Invalid join code"
  const AlreadyMember := "Already a member of this group"
  const InvalidOrMember := "Invalid join code or you are already a member of this group"
  const MustLogIn := "You must be logged in to join a group"
  const JoinFailed := "Failed to join group. Please try again later."

  /** Step 1 after the lookup: no data or an empty array means not found; an array yields
      its first element; a group without an id is invalid data. */
  function SelectGroup(data: FindData): (r: Result<GroupRecord, ApiError>)
    ensures data.NoData? || data == GroupList([]) ==> r == Err(ApiError(GroupNotFound, None))
    ensures data.GroupList? && data.groups != [] ==>
              r == if data.groups[0].Some? && HasId(data.groups[0].value) then Ok(data.groups[0].value)
                   else Err(ApiError(InvalidGroupData, None))
    ensures data.SingleGroup? ==>
              r == if HasId(data.group) then Ok(data.group) else Err(ApiError(InvalidGroupData, None))
    ensures r.Ok? ==> HasId(r.value)
    ensures r.Err? ==> r.error.response == None
  {
    if data.NoData? || (data.GroupList? && data.groups == []) then Err(ApiError(GroupNotFound, None))
    else
      var g := if data.GroupList? then data.groups[0] else Some(data.group);
      if g.None? || !HasId(g.value) then Err(ApiError(InvalidGroupData, None)) else Ok(g.value)
  }

  /** The `catch` of `joinGroupByCode`: the message shown for an error of either step. */
  function JoinErrorMessage(e: ApiError): string {
    if Contains(e.message, "Group not found") then e.message
    else if StatusOf(e) == Some(404) then GroupNotFound
    else if StatusOf(e) == Some(400) then
      var err := e.response.value.body.error;
      if err == Some(JoinCodeRequired) then JoinCodeRequired
      else if err == Some(InvalidJoinCode) then InvalidJoinCode
      else if err == Some(AlreadyMember) then AlreadyMember
      else InvalidOrMember
    else if StatusOf(e) == Some(401) then MustLogIn
    else JoinFailed
  }

  /** `groupAPI.joinGroupByCode`, given the outcome of the lookup and, when a group was
      selected, of the join call. */
  function JoinGroupByCode(found: Result<FindData, ApiError>, joined: CallOutcome): Result<GroupRecord, string> {
    match found
    case Err(e) => Err(JoinErrorMessage(e))
    case Ok(data) =>
      match SelectGroup(data)
      case Err(e) => Err(JoinErrorMessage(e))
      case Ok(g) =>
        match joined
        case Failed(e) => Err(JoinErrorMessage(e))
        case Succeeded => Ok(g)
  }

  /** The messages a user can be shown by `joinGroupByCode`. */
  predicate IsJoinMessage(m: string) {
    m in {GroupNotFound, JoinCodeRequired, InvalidJoinCode, AlreadyMember, InvalidOrMember, MustLogIn, JoinFailed}
  }

  /** The join returns the group found by the lookup, not the join response, and it
      succeeds only when both calls did and the lookup produced a group with an id. */
  lemma JoinReturnsFoundGroup(found: Result<FindData, ApiError>, joined: CallOutcome, g: GroupRecord)
    ensures JoinGroupByCode(found, joined) == Ok(g) <==>
              found.Ok? && SelectGroup(found.value) == Ok(g) && joined == Succeeded
    ensures JoinGroupByCode(found, joined).Ok? ==> HasId(JoinGroupByCode(found, joined).value)
  {
  }

  /** An array answer is resolved to its first element. */
  lemma SelectFirstOfList(gs: seq<Option<GroupRecord>>)
    requires gs != [] && gs[0].Some? && HasId(gs[0].value)
    ensures SelectGroup(GroupList(gs)) == Ok(gs[0].value)
  {
  }

  /** No data or an empty array is reported as "group not found"; a group without an id
      is reported with the generic failure message, because the catch does not single
      out the invalid-data error. */
  lemma JoinLookupNotFound(data: FindData, joined: CallOutcome)
    requires data.NoData? || data == GroupList([])
    ensures JoinGroupByCode(Ok(data), joined) == Err(GroupNotFound)
  {
    GroupNotFoundIsRethrown();
    assert SelectGroup(data) == Err(ApiError(GroupNotFound, None));
  }

  lemma JoinLookupInvalid(data: FindData, joined: CallOutcome)
    requires match data
      case NoData => false
      case GroupList(gs) => gs != [] && (gs[0].None? || !HasId(gs[0].value))
      case SingleGroup(g) => !HasId(g)
    ensures JoinGroupByCode(Ok(data), joined) == Err(JoinFailed)
  {
    InvalidGroupDataIsGeneric();
    assert SelectGroup(data) == Err(ApiError(InvalidGroupData, None));
    JoinErrorWithoutResponse(ApiError(InvalidGroupData, None));
  }

  /** An error thrown by the client itself (no response) that does not mention
      "Group not found" gets the generic message. */
  lemma JoinErrorWithoutResponse(e: ApiError)
    requires e.response == None && !Contains(e.message, "Group not found")
    ensures JoinErrorMessage(e) == JoinFailed
  {
  }

  lemma GroupNotFoundIsRethrown()
    ensures Contains(GroupNotFound, "Group not found")
  {
    assert GroupNotFound == "" + "Group not found" + " with the provided join code";
    ContainsInfix("", "Group not found", " with the provided join code");
  }

  lemma InvalidGroupDataIsGeneric()
    ensures !Contains(InvalidGroupData, "Group not found")
  {
    NotContainsFirst(InvalidGroupData, "Group not found");
  }

  /** The classification of an HTTP error whose message does not mention "Group not found":
      404 is "not found", a 400 carrying one of the three known backend errors shows that
      error, any other 400 the combined message, 401 asks to log in, and anything else
      gets the generic message. */
  lemma JoinHttpErrors(e: ApiError)
    requires !Contains(e.message, "Group not found")
    ensures StatusOf(e) == Some(404) ==> JoinErrorMessage(e) == GroupNotFound
    ensures StatusOf(e) == Some(400) ==>
              var err := e.response.value.body.error;
              JoinErrorMessage(e) ==
                if err.Some? && err.value in {JoinCodeRequired, InvalidJoinCode, AlreadyMember} then err.value
                else InvalidOrMember
    ensures StatusOf(e) == Some(401) ==> JoinErrorMessage(e) == MustLogIn
    ensures StatusOf(e) !in {Some(400), Some(401), Some(404)} ==> JoinErrorMessage(e) == JoinFailed
  {
  }

  /** Every failure of `joinGroupByCode` carries one of its fixed messages, or rethrows
      an error whose own message mentions "Group not found". */
  lemma JoinMessagesAreKnown(found: Result<FindData, ApiError>, joined: CallOutcome)
    ensures var r := JoinGroupByCode(found, joined);
            r.Err? ==> IsJoinMessage(r.error) || Contains(r.error, "Group not found")
  {
  }
}
