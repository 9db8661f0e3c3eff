/**
 * The create-group form (app/create-group/page.tsx): the e-mail validator, the
 * participant list edits, the validation order of the submit handler, the
 * request body it builds, and the messages it shows when the request fails.
 */
module CreateGroup {
  import opened Common
  import opened Text
  import ApiClient

  // ---------------------------------------------------------------- e-mail

  /** A character of the class `[^\s@]`. */
  predicate EmailChar(c: char) {
    !IsWhitespace(c) && c != '@'
  }

  /** The regular expression `^[^\s@]+@[^\s@]+\.[^\s@]+$`, stated on positions: an '@'
      at `at` and a '.' at `dot` with at least one character before the '@', between
      them and after the '.', and every character other than the '@' in `[^\s@]`. */
  ghost predicate MatchesEmailPattern(s: string) {
    exists at, dot | 0 < at && at + 1 < dot && dot + 1 < |s| ::
      s[at] == '@' && s[dot] == '.' && forall j | 0 <= j < |s| && j != at :: EmailChar(s[j])
  }

  /** The position of the first occurrence of `c`. */
  function IndexOf(s: string, c: char): (r: Option<nat>)
    ensures r.None? ==> c !in s
    ensures r.Some? ==> r.value < |s| && s[r.value] == c && c !in s[..r.value]
  {
    if s == [] then None
    else if s[0] == c then Some(0)
    else
      var k := IndexOf(s[1..], c);
      if k.None? then None
      else
        assert s[..k.value + 1] == [s[0]] + s[1..][..k.value];
        Some(k.value + 1)
  }

  /** The domain holds a '.' that is neither its first nor its last character. */
  predicate HasInnerDot(domain: string) {
    |domain| >= 3 && '.' in domain[1..|domain| - 1]
  }

  /** `isValidEmail`: no whitespace, exactly one '@', something before it, and a '.'
      inside the part after it. */
  predicate IsValidEmail(s: string) {
    && (forall j | 0 <= j < |s| :: !IsWhitespace(s[j]))
    && match IndexOf(s, '@')
       case None => false
       case Some(at) => at > 0 && '@' !in s[at + 1..] && HasInnerDot(s[at + 1..])
  }

  /** The validator accepts exactly the strings the regular expression matches. */
  lemma IsValidEmailMatchesPattern(s: string)
    ensures IsValidEmail(s) <==> MatchesEmailPattern(s)
  {
    if IsValidEmail(s) {
      var at := IndexOf(s, '@').value;
      var domain := s[at + 1..];
      var k :| 1 <= k < |domain| - 1 && domain[k] == '.';
      var dot := at + 1 + k;
      assert s[dot] == '.';
      forall j | 0 <= j < |s| && j != at ensures EmailChar(s[j]) {
        if j < at {
          assert s[j] == s[..at][j];
        } else {
          assert s[j] == domain[j - at - 1];
        }
      }
    }
    if MatchesEmailPattern(s) {
      var at, dot :| 0 < at && at + 1 < dot && dot + 1 < |s| && s[at] == '@' && s[dot] == '.'
        && forall j | 0 <= j < |s| && j != at :: EmailChar(s[j]);
      var idx := IndexOf(s, '@');
      assert idx == Some(at);
      var domain := s[at + 1..];
      assert '@' !in domain by {
        forall j | 0 <= j < |domain| ensures domain[j] != '@' {
          assert domain[j] == s[at + 1 + j];
        }
      }
      assert domain[1..|domain| - 1][dot - at - 2] == '.';
    }
  }

  // ------------------------------------------------------- participant list

  /** The state of the form. */
  class CreateGroupForm {
    var groupName: string
    var description: string
    var currency: string
    var participants: seq<string>
    var error: string
    var isLoading: bool

    /** The initial state: empty fields, "USD", one empty participant row. */
    constructor ()
      ensures groupName == "" && description == "" && currency == "USD"
      ensures participants == [""] && error == "" && !isLoading
    {
      groupName, description, currency := "", "", "USD";
      participants := [""];
      error := "";
      isLoading := false;
    }

    /** `addParticipant`: one more empty row at the end; earlier rows are kept. */
    method AddParticipant()
      modifies this`participants
      ensures participants == old(participants) + [""]
    {
      participants := participants + [""];
    }

    /** `removeParticipant`: the row at `index` goes, the others keep their order; an index
        outside the list removes nothing. */
    method RemoveParticipant(index: int)
      modifies this`participants
      ensures 0 <= index < |old(participants)| ==>
                participants == old(participants)[..index] + old(participants)[index + 1..]
      ensures !(0 <= index < |old(participants)|) ==> participants == old(participants)
    {
      if 0 <= index < |participants| {
        participants := participants[..index] + participants[index + 1..];
      }
    }

    /** `updateParticipant`: row `index` becomes `value`; the length and the other rows stay. */
    method UpdateParticipant(index: nat, value: string)
      requires index < |participants|
      modifies this`participants
      ensures participants == old(participants)[index := value]
    {
      participants := participants[index := value];
    }

    /** `handleCreateGroup`: the checks of `PrepareSubmission` first; when they pass, the
        loading flag is raised for the request, whose outcome as `groupAPI.createGroup`
        reports it is `created`, and lowered again once it is settled. The error shown and
        the next page are those of `SubmitResult`. */
    method HandleCreateGroup(isAuthenticated: bool, hasUser: bool, token: Option<string>,
                             created: Result<ApiClient.GroupRecord, ApiClient.ApiError>)
      returns (next: PageStep)
      modifies this`error, this`isLoading
      ensures var step := PrepareSubmission(groupName, description, currency, participants, isAuthenticated, hasUser, token);
              (next, error) == SubmitResult(step, created)
              && isLoading == (if step.Stop? then old(isLoading) else false)
    {
      error := "";
      var step := PrepareSubmission(groupName, description, currency, participants, isAuthenticated, hasUser, token);
      if step.Submit? {
        isLoading := true;
      }
      var outcome := SubmitResult(step, created);
      next, error := outcome.0, outcome.1;
      if step.Submit? {
        isLoading := false;
      }
    }
  }

  /** The page reached and the error shown once the submit handler has finished. */
  function SubmitResult(step: SubmitStep, created: Result<ApiClient.GroupRecord, ApiClient.ApiError>): (PageStep, string) {
    if step.Stop? then (if step.toLogin then GoToLogin else Stay, step.message)
    else
      var next := AfterRequest(created);
      (next, if next == Stay then FailureMessage(created.error) else "")
  }

  // ------------------------------------------------------------- validation

  const NameRequired := "Group name is required"
  const InvalidEmails := "Please enter valid email addresses"
  const LoginRequired := "Please log in to create a group"
  const TokenMissing := "Authentication token missing. Please log in again."

  /** `participants.filter(p => p.trim())`: the non-blank rows, untrimmed, in order. */
  function ValidParticipants(ps: seq<string>): seq<string> {
    if ps == [] then []
    else (if Trim(ps[0]) != [] then [ps[0]] else []) + ValidParticipants(ps[1..])
  }

  /** The kept rows are exactly the non-blank rows, as they were typed, never more of them. */
  lemma {:induction false} ValidParticipantsMembers(ps: seq<string>)
    ensures |ValidParticipants(ps)| <= |ps|
    ensures forall p :: p in ValidParticipants(ps) <==> p in ps && Trim(p) != []
  {
    if ps != [] {
      ValidParticipantsMembers(ps[1..]);
      KeptMembers(p => Trim(p) != [], ps, ValidParticipants(ps), ValidParticipants(ps[1..]));
    }
  }

  /** One step of a filter: the kept elements are the kept elements of the tail, plus the
      head when it is kept. */
  lemma KeptMembers(keep: string -> bool, ps: seq<string>, out: seq<string>, rest: seq<string>)
    requires ps != [] && out == (if keep(ps[0]) then [ps[0]] else []) + rest
    requires |rest| <= |ps| - 1
    requires forall p :: p in rest <==> p in ps[1..] && keep(p)
    ensures |out| <= |ps|
    ensures forall p :: p in out <==> p in ps && keep(p)
  {
    assert ps == [ps[0]] + ps[1..];
  }

  /** Filtering distributes over concatenation, so it keeps the rows in their order. */
  lemma {:induction false} ValidParticipantsAppend(a: seq<string>, b: seq<string>)
    ensures ValidParticipants(a + b) == ValidParticipants(a) + ValidParticipants(b)
  {
    if a != [] {
      var head := if Trim(a[0]) != [] then [a[0]] else [];
      assert (a + b)[0] == a[0] && (a + b)[1..] == a[1..] + b;
      ValidParticipantsAppend(a[1..], b);
      assert ValidParticipants(a + b) == head + (ValidParticipants(a[1..]) + ValidParticipants(b));
      assert ValidParticipants(a) == head + ValidParticipants(a[1..]);
    } else {
      assert a + b == b;
    }
  }

  /** A row that is not blank and not a valid e-mail address. */
  predicate IsBadRow(p: string) {
    Trim(p) != [] && !IsValidEmail(p)
  }

  /** `participants.some(p => p.trim() && !isValidEmail(p))`. */
  predicate HasInvalidEmail(ps: seq<string>) {
    exists i | 0 <= i < |ps| :: IsBadRow(ps[i])
  }

  /** The two form checks, in their order: a blank name first, then a non-blank row that
      is not an e-mail address; otherwise the non-blank rows. */
  function Validate(name: string, ps: seq<string>): (r: Result<seq<string>, string>)
    ensures Trim(name) == [] ==> r == Err(NameRequired)
    ensures Trim(name) != [] && HasInvalidEmail(ps) ==> r == Err(InvalidEmails)
    ensures Trim(name) != [] && !HasInvalidEmail(ps) ==> r == Ok(ValidParticipants(ps))
    ensures r.Ok? ==> r.value == ValidParticipants(ps) && forall p | p in r.value :: IsValidEmail(p)
  {
    ValidParticipantsMembers(ps);
    if Trim(name) == [] then Err(NameRequired)
    else if HasInvalidEmail(ps) then Err(InvalidEmails)
    else Ok(ValidParticipants(ps))
  }

  /** A blank row, wherever it is inserted, never changes the outcome of the checks. */
  lemma BlankRowIgnored(name: string, ps: seq<string>, i: nat, blank: string)
    requires i <= |ps| && IsBlank(blank)
    ensures Validate(name, ps[..i] + [blank] + ps[i..]) == Validate(name, ps)
  {
    BlankRowNotKept(ps, i, blank);
    BlankRowNotInvalid(ps, i, blank);
  }

  lemma {:induction false} BlankRowNotKept(ps: seq<string>, i: nat, blank: string)
    requires i <= |ps| && IsBlank(blank)
    ensures ValidParticipants(ps[..i] + [blank] + ps[i..]) == ValidParticipants(ps)
  {
    var qs := ps[..i] + [blank] + ps[i..];
    if i == 0 {
      TrimEmptyIffBlank(blank);
      assert qs[1..] == ps;
    } else {
      var tail := ps[1..];
      assert qs[0] == ps[0];
      assert qs[1..] == tail[..i - 1] + [blank] + tail[i - 1..];
      BlankRowNotKept(tail, i - 1, blank);
    }
  }

  lemma BlankRowNotInvalid(ps: seq<string>, i: nat, blank: string)
    requires i <= |ps| && IsBlank(blank)
    ensures HasInvalidEmail(ps[..i] + [blank] + ps[i..]) == HasInvalidEmail(ps)
  {
    TrimEmptyIffBlank(blank);
    var qs := ps[..i] + [blank] + ps[i..];
    if HasInvalidEmail(qs) {
      BadRowCameFromList(ps, i, blank);
    }
    if HasInvalidEmail(ps) {
      BadRowStaysInList(ps, i, blank);
    }
  }

  lemma BadRowCameFromList(ps: seq<string>, i: nat, blank: string)
    requires i <= |ps| && !IsBadRow(blank) && HasInvalidEmail(ps[..i] + [blank] + ps[i..])
    ensures HasInvalidEmail(ps)
  {
    var qs := ps[..i] + [blank] + ps[i..];
    var j :| 0 <= j < |qs| && IsBadRow(qs[j]);
    if j < i {
      assert qs[j] == ps[j];
    } else {
      assert qs[j] == ps[j - 1];
    }
  }

  lemma BadRowStaysInList(ps: seq<string>, i: nat, blank: string)
    requires i <= |ps| && HasInvalidEmail(ps)
    ensures HasInvalidEmail(ps[..i] + [blank] + ps[i..])
  {
    var qs := ps[..i] + [blank] + ps[i..];
    var j :| 0 <= j < |ps| && IsBadRow(ps[j]);
    if j < i {
      assert qs[j] == ps[j];
    } else {
      assert qs[j + 1] == ps[j];
    }
  }

  /** The body of `POST /groups/`. */
  datatype NewGroup = NewGroup(name: string, description: string, currency: string)

  /** Where the submit handler stops before the request, or what it sends. `checkedRows`
      are the participant rows the checks accepted; they are not part of the request,
      whose body is `group` alone. */
  datatype SubmitStep =
    | Stop(message: string, toLogin: bool)
    | Submit(group: NewGroup, checkedRows: seq<string>)

  /** The submit handler up to the request. */
  function PrepareSubmission(name: string, description: string, currency: string, ps: seq<string>,
                             isAuthenticated: bool, hasUser: bool, token: Option<string>): SubmitStep
  {
    match Validate(name, ps)
    case Err(m) => Stop(m, false)
    case Ok(valid) =>
      if !isAuthenticated || !hasUser then Stop(LoginRequired, true)
      else if !Truthy(token) then Stop(TokenMissing, true)
      else Submit(NewGroup(Trim(name), Trim(description), currency), valid)
  }

  /** The order of the checks before the request: a blank name, then an invalid row, then
      a missing login, then a missing token. Only when all pass is the request sent, and
      its body carries the trimmed name and description and the currency as chosen. The
      non-blank rows are validated, all of them valid e-mail addresses, but not sent. */
  lemma SubmissionChecks(name: string, description: string, currency: string, ps: seq<string>,
                         isAuthenticated: bool, hasUser: bool, token: Option<string>)
    ensures var r := PrepareSubmission(name, description, currency, ps, isAuthenticated, hasUser, token);
      && (Trim(name) == [] ==> r == Stop(NameRequired, false))
      && (Trim(name) != [] && HasInvalidEmail(ps) ==> r == Stop(InvalidEmails, false))
      && (Validate(name, ps).Ok? && !(isAuthenticated && hasUser) ==> r == Stop(LoginRequired, true))
      && (Validate(name, ps).Ok? && isAuthenticated && hasUser && !Truthy(token) ==> r == Stop(TokenMissing, true))
      && (r.Submit? <==> Validate(name, ps).Ok? && isAuthenticated && hasUser && Truthy(token))
      && (r.Submit? ==>
            && r.group == NewGroup(Trim(name), Trim(description), currency)
            && r.checkedRows == ValidParticipants(ps)
            && r.group.name != []
            && forall p | p in r.checkedRows :: IsValidEmail(p))
  {
    TrimIsSlice(name);
  }

  // ------------------------------------------------------ request failures

  /** Where the page goes after the submit handler. */
  datatype PageStep =
    | Stay            // an error is shown on the form
    | GoToLogin
    | GoToDashboard
    | RefreshSession  // the page's own 401 refresh-and-retry branch, outside this model;
                      // the page then sets its own message, which the model leaves as ""

  /** What follows the create request. */
  function AfterRequest(result: Result<ApiClient.GroupRecord, ApiClient.ApiError>): PageStep {
    match result
    case Ok(_) => GoToDashboard
    case Err(e) => if ApiClient.StatusOf(e) == Some(401) then RefreshSession else Stay
  }

  /** `a || b` for an optional string. */
  function OrElse(a: Option<string>, b: string): string {
    if Truthy(a) then a.value else b
  }

  const PageNoEndpoint := "The backend API does not support group creation yet. Please contact the development team."
  const NoPermission := "You do not have permission to create groups."
  const NotYetAvailable := "Group creation is not yet available. The backend API is still being developed."

  /** The message the page shows for a failed create request other than a 401. */
  function FailureMessage(e: ApiClient.ApiError): string {
    var status := ApiClient.StatusOf(e);
    var body := if e.response.Some? then e.response.value.body else ApiClient.ErrorBody(None, None, None);
    if status == Some(405) then PageNoEndpoint
    else if status == Some(403) then NoPermission
    else if status == Some(400) then "Invalid group data: " + OrElse(body.detail, OrElse(body.message, "Please check your input"))
    else if Contains(e.message, ApiClient.BackendUnsupported) then NotYetAvailable
    else "Failed to create group: " + OrElse(body.detail, OrElse(Some(e.message), "Unknown error"))
  }

  /** The page's table of failure messages: 405, 403 and 400 by status, the 400 text taking
      the server's detail, else its message, else a default; without one of those statuses a
      message mentioning the unsupported backend gets "not yet available", and anything else
      the server's detail, else the error's own message, else "Unknown error". */
  lemma FailureMessageCases(e: ApiClient.ApiError)
    ensures ApiClient.StatusOf(e) == Some(405) ==> FailureMessage(e) == PageNoEndpoint
    ensures ApiClient.StatusOf(e) == Some(403) ==> FailureMessage(e) == NoPermission
    ensures ApiClient.StatusOf(e) == Some(400) ==>
              var b := e.response.value.body;
              FailureMessage(e) == "Invalid group data: " +
                (if Truthy(b.detail) then b.detail.value
                 else if Truthy(b.message) then b.message.value
                 else "Please check your input")
    ensures (ApiClient.StatusOf(e) !in {Some(400), Some(403), Some(405)}
             && Contains(e.message, ApiClient.BackendUnsupported)) ==> FailureMessage(e) == NotYetAvailable
    ensures (ApiClient.StatusOf(e) !in {Some(400), Some(403), Some(405)}
             && !Contains(e.message, ApiClient.BackendUnsupported)) ==>
              FailureMessage(e) == "Failed to create group: " +
                (if e.response.Some? && Truthy(e.response.value.body.detail) then e.response.value.body.detail.value
                 else if e.message != [] then e.message
                 else "Unknown error")
    ensures FailureMessage(e) != []
  {
  }

  /** A 405 from the server reaches the page already rewritten by `groupAPI.createGroup`,
      without a response: the page then shows "not yet available", never its own 405 text. */
  lemma ServerRejectsPost(body: ApiClient.ErrorBody, message: string)
    ensures var result := ApiClient.CreateGroup(Err(ApiClient.ApiError(message, Some(ApiClient.Response(405, body)))));
            result.Err? && AfterRequest(result) == Stay && FailureMessage(result.error) == NotYetAvailable
  {
    ApiClient.CreateGroupErrors(Err(ApiClient.ApiError(message, Some(ApiClient.Response(405, body)))));
  }
}
