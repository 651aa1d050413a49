/** The KYC review page (src/components/kyc/KycRequests.js): a list of
    identity-verification requests, shown as cards that can be searched,
    previewed and approved or rejected. The page is wired to mock data; the
    backend path (load, PATCH the status, load again) is modelled too. */
module KycRequests {

  import opened JsValues
  import opened Sequences
  import opened Responses

  const BaseUrl := "http://151.106.125.212:5021"

  function MockRequest(id: int, username: string, email: string, idDocument: Value, selfie: Value, createdAt: string): Value
  {
    Obj(map[
      "id" := Num(id), "username" := Str(username), "email" := Str(email),
      "id_document_path" := idDocument, "selfie_with_id_path" := selfie,
      "status" := Str("pending"), "created_at" := Str(createdAt)])
  }

  /** The five requests the page shows instead of calling the backend;
      1004 has no selfie and 1005 no ID document. */
  const MockRequests: seq<Value> := [
    MockRequest(1001, "john_smith", "john.smith@example.com",
      Str("uploads/kyc/id_1001.jpg"), Str("uploads/kyc/selfie_1001.jpg"), "2025-04-10T09:15:22Z"),
    MockRequest(1002, "emma_johnson", "emma.j@example.com",
      Str("uploads/kyc/id_1002.jpg"), Str("uploads/kyc/selfie_1002.jpg"), "2025-04-09T15:30:45Z"),
    MockRequest(1003, "alex_martinez", "alex.m@example.com",
      Str("uploads/kyc/id_1003.jpg"), Str("uploads/kyc/selfie_1003.jpg"), "2025-04-08T11:22:10Z"),
    MockRequest(1004, "sarah_chen", "sarah.chen@example.com",
      Str("uploads/kyc/id_1004.jpg"), Null, "2025-04-07T14:05:38Z"),
    MockRequest(1005, "michael_patel", "m.patel@example.com",
      Null, Str("uploads/kyc/selfie_1005.jpg"), "2025-04-06T08:45:19Z")]

  const LoadFailureText := "Failed to load KYC requests. Please try again."
  const EmptyText := "No KYC verification requests found."

  // ---------------------------------------------------------------------
  // Search

  /** `f?.toLowerCase().includes(term.toLowerCase())`: a missing field
      gives undefined (no match); a string is searched ignoring case; any
      other value, `false` included, has no `toLowerCase` and throws. */
  function TextFieldVerdict(f: Value, term: string): Verdict
  {
    if f.Null? || f.Undefined? then Drop
    else if f.Str? then (if Contains(Lower(f.s), Lower(term)) then Keep else Drop)
    else Throws
  }

  /** `request.id?.toString().includes(term)`: every present value has a
      string form, and it is searched with the term as typed. */
  function IdVerdict(id: Value, term: string): Verdict
  {
    if id.Null? || id.Undefined? then Drop
    else if Contains(ToJsString(id), term) then Keep
    else Drop
  }

  /** The filter callback: username, then id, then email; the first that
      matches or throws decides. A null request throws at once. */
  function KycVerdict(request: Value, term: string): (v: Verdict)
    ensures request.Null? || request.Undefined? ==> v == Throws
  {
    if request.Null? || request.Undefined? then Throws
    else
      var u := TextFieldVerdict(Get(request, "username"), term);
      if u != Drop then u
      else
        var i := IdVerdict(Get(request, "id"), term);
        if i != Drop then i
        else TextFieldVerdict(Get(request, "email"), term)
  }

  function Verdicts(term: string): Value -> Verdict
  {
    request => KycVerdict(request, term)
  }

  /** `kycRequests.filter(...)`: nothing if the callback throws for some
      request, otherwise the requests it keeps. */
  function FilteredRequests(requests: seq<Value>, term: string): (r: Option<seq<Value>>)
    ensures r.None? <==> exists x :: x in requests && KycVerdict(x, term) == Throws
    ensures r.Some? ==> |r.value| <= |requests| && forall x :: x in r.value ==> x in requests && KycVerdict(x, term) == Keep
    ensures r.Some? ==> r.value == Filter(requests, KeptBy(Verdicts(term)))
  {
    FilterChecked(requests, Verdicts(term))
  }

  /** When the search does not throw, the cards shown are exactly the
      requests the callback keeps, in the order of the list. */
  lemma FilteredRequestsExactly(requests: seq<Value>, term: string)
    requires FilteredRequests(requests, term).Some?
    ensures var shown, idx := FilteredRequests(requests, term).value, KeptIndices(requests, KeptBy(Verdicts(term)));
      && |idx| == |shown|
      && (forall k :: 0 <= k < |idx| ==> idx[k] < |requests| && shown[k] == requests[idx[k]])
      && (forall k, l :: 0 <= k < l < |idx| ==> idx[k] < idx[l])
      && (forall i :: 0 <= i < |requests| ==> (KycVerdict(requests[i], term) == Keep <==> i in idx))
  {
    FilterPositions(requests, KeptBy(Verdicts(term)));
  }

  /** For a request whose username and email are strings or missing, the
      callback never throws, and it keeps the request exactly when the
      username or email contains the term in any case, or the id's string
      form contains it as typed. */
  lemma KycVerdictWellFormed(request: map<string, Value>, term: string)
    requires Field(request, "username").Str? || Field(request, "username").Null? || Field(request, "username").Undefined?
    requires Field(request, "email").Str? || Field(request, "email").Null? || Field(request, "email").Undefined?
    ensures KycVerdict(Obj(request), term) != Throws
    ensures KycVerdict(Obj(request), term) == Keep <==>
      || (Field(request, "username").Str? && Contains(Lower(Field(request, "username").s), Lower(term)))
      || (!Field(request, "id").Null? && !Field(request, "id").Undefined? && Contains(ToJsString(Field(request, "id")), term))
      || (Field(request, "email").Str? && Contains(Lower(Field(request, "email").s), Lower(term)))
  {
    assert Get(Obj(request), "username") == Field(request, "username");
    assert Get(Obj(request), "id") == Field(request, "id");
    assert Get(Obj(request), "email") == Field(request, "email");
  }

  /** Even the empty term drops a request that has no username, id or
      email, and a request whose username is `false` breaks the search. */
  lemma EmptyTermEdgeCases()
    ensures KycVerdict(Obj(map["status" := Str("pending")]), "") == Drop
    ensures KycVerdict(Obj(map["id" := Num(7)]), "") == Keep
    ensures KycVerdict(Obj(map["username" := Bool(false), "id" := Num(7)]), "") == Throws
  {
    var bare := Obj(map["status" := Str("pending")]);
    assert Get(bare, "username") == Undefined && Get(bare, "id") == Undefined && Get(bare, "email") == Undefined;
    var numbered := Obj(map["id" := Num(7)]);
    assert Get(numbered, "username") == Undefined && Get(numbered, "id") == Num(7);
    ContainsEmpty(ToJsString(Num(7)));
    var odd := Obj(map["username" := Bool(false), "id" := Num(7)]);
    assert Get(odd, "username") == Bool(false);
  }

  /** The id is searched as typed: a string id "KYC-1" is found by "KYC"
      and not by "kyc", while the username ignores case. */
  lemma IdSearchIsCaseSensitive()
    ensures KycVerdict(Obj(map["id" := Str("KYC-1")]), "KYC") == Keep
    ensures KycVerdict(Obj(map["id" := Str("KYC-1")]), "kyc") == Drop
    ensures KycVerdict(Obj(map["username" := Str("KYC-1")]), "kyc") == Keep
  {
    var byId := Obj(map["id" := Str("KYC-1")]);
    assert Get(byId, "id") == Str("KYC-1") && Get(byId, "username") == Undefined && Get(byId, "email") == Undefined;
    assert OccursAt("KYC-1", "KYC", 0);
    if Contains("KYC-1", "kyc") {
      ContainsFirstChar("KYC-1", "kyc");
    }
    var byName := Obj(map["username" := Str("KYC-1")]);
    assert Get(byName, "username") == Str("KYC-1");
    assert Lower("KYC-1") == "kyc-1" && Lower("kyc") == "kyc";
    assert OccursAt("kyc-1", "kyc", 0);
  }

  /** What the page shows under its title: the load error alone, the
      spinner while loading, the empty-list note, or one card per shown
      request. */
  datatype Screen = ErrorScreen(text: string) | Spinner | Empty(note: string) | Cards(requests: seq<Value>)

  /** The page's render branches: an error replaces the whole page; the
      note appears only when loading is over and no request is shown. */
  function ScreenFor(error: Option<string>, loading: bool, shown: seq<Value>): (s: Screen)
    ensures error.Some? <==> s.ErrorScreen?
    ensures s.Spinner? <==> error.None? && loading
    ensures s.Empty? <==> error.None? && !loading && shown == []
    ensures s.Empty? ==> s.note == EmptyText
    ensures s.Cards? ==> s.requests == shown && shown != []
  {
    if error.Some? then ErrorScreen(error.value)
    else if loading then Spinner
    else if shown == [] then Empty(EmptyText)
    else Cards(shown)
  }

  // ---------------------------------------------------------------------
  // Confirming a decision

  /** `PATCH <base>/api/kyc/<id>/status` with body `{ status }`. */
  datatype StatusPatch = StatusPatch(path: string, status: string)

  /** What a press of the dialog's confirm button does besides closing the
      dialog: the new list, the request sent, the alert, and whether the
      list is loaded again. */
  datatype Confirmation = Confirmation(requests: seq<Value>, sent: Option<StatusPatch>, alert: Option<string>, refetch: bool)

  function StatusPath(id: Value): string
  {
    BaseUrl + "/api/kyc/" + ToJsString(id) + "/status"
  }

  /** `req => req.id !== id`. */
  function HasOtherId(id: Value): Value -> bool
  {
    req => Get(req, "id") != id
  }

  /** The mock decision: drop every request whose id is the selected one. */
  function WithoutId(requests: seq<Value>, id: Value): seq<Value>
  {
    Filter(requests, HasOtherId(id))
  }

  /** `handleConfirmAction` up to its `finally`. Without a selected request
      nothing happens. With mock data the request (and any other with the
      same id) leaves the list. Otherwise the status goes to the backend,
      "approved" exactly for the approve action, and the list is reloaded
      on success or an alert naming the action is shown on failure. */
  function Confirm(useMockData: bool, selected: Value, actionType: string, requests: seq<Value>, outcome: Outcome<Value>): (c: Confirmation)
    ensures !Truthy(selected) ==> c == Confirmation(requests, None, None, false)
    ensures Truthy(selected) && useMockData ==>
      c.sent.None? && c.alert.None? && !c.refetch && c.requests == WithoutId(requests, Get(selected, "id"))
    ensures Truthy(selected) && !useMockData ==>
      && c.requests == requests
      && c.sent == Some(StatusPatch(StatusPath(Get(selected, "id")), if actionType == "approve" then "approved" else "rejected"))
      && (c.refetch <==> outcome.Success?)
      && (c.alert.None? <==> outcome.Success?)
      && (!outcome.Success? ==> c.alert == Some("Failed to " + actionType + " KYC request. Please try again."))
  {
    if !Truthy(selected) then Confirmation(requests, None, None, false)
    else if useMockData then Confirmation(WithoutId(requests, Get(selected, "id")), None, None, false)
    else
      var patch := StatusPatch(StatusPath(Get(selected, "id")), if actionType == "approve" then "approved" else "rejected");
      if outcome.Success? then Confirmation(requests, Some(patch), None, true)
      else Confirmation(requests, Some(patch), Some("Failed to " + actionType + " KYC request. Please try again."), false)
  }

  /** The mock decision removes exactly the requests with the selected id:
      what stays has another id and was in the list, every request with
      another id stays, and the ones that stay keep their order: the k-th
      remaining request is `requests[idx[k]]` for strictly increasing
      positions `idx`, which are exactly the positions with another id. */
  lemma MockRemovalExact(requests: seq<Value>, id: Value)
    ensures forall x :: x in WithoutId(requests, id) ==> x in requests && Get(x, "id") != id
    ensures forall x :: x in requests && Get(x, "id") != id ==> x in WithoutId(requests, id)
    ensures |WithoutId(requests, id)| <= |requests|
    ensures var left, idx := WithoutId(requests, id), KeptIndices(requests, HasOtherId(id));
      && |idx| == |left|
      && (forall k :: 0 <= k < |idx| ==> idx[k] < |requests| && left[k] == requests[idx[k]])
      && (forall k, l :: 0 <= k < l < |idx| ==> idx[k] < idx[l])
      && (forall i :: 0 <= i < |requests| ==> (Get(requests[i], "id") != id <==> i in idx))
  {
    forall x | x in requests && Get(x, "id") != id
      ensures x in WithoutId(requests, id)
    {
      FilterComplete(requests, HasOtherId(id), x);
    }
    FilterPositions(requests, HasOtherId(id));
  }

  /** Numeric request ids map to distinct status endpoints. */
  lemma StatusPathsDistinct(a: int, b: int)
    requires StatusPath(Num(a)) == StatusPath(Num(b))
    ensures a == b
  {
    var prefix := BaseUrl + "/api/kyc/";
    var sa, sb := IntToString(a), IntToString(b);
    assert StatusPath(Num(a)) == prefix + sa + "/status";
    assert StatusPath(Num(b)) == prefix + sb + "/status";
    assert |sa| == |sb|;
    assert sa == StatusPath(Num(a))[|prefix|..|prefix| + |sa|];
    assert sb == StatusPath(Num(b))[|prefix|..|prefix| + |sb|];
    IntToStringInjective(a, b);
  }

  // ---------------------------------------------------------------------
  // Images

  /** The full-size preview dialog: `{ open, url, title }`. */
  datatype Preview = Preview(open: bool, url: string, title: string)

  const ClosedPreview := Preview(false, "", "")

  /** The address a document tile opens, built whether or not the request
      has that document. */
  function ImageUrl(path: Value): (r: string)
    ensures |r| > |BaseUrl| && r[..|BaseUrl| + 1] == BaseUrl + "/"
    ensures r[|BaseUrl| + 1..] == ToJsString(path)
  {
    BaseUrl + "/" + ToJsString(path)
  }

  /** Clicking the empty selfie tile of request 1004 still opens the
      preview, at an address ending in "null". */
  lemma MissingImageStillOpens()
    ensures Get(MockRequests[3], "selfie_with_id_path") == Null
    ensures ImageUrl(Get(MockRequests[3], "selfie_with_id_path")) == BaseUrl + "/null"
    ensures Get(MockRequests[4], "id_document_path") == Null
  {
  }

  // ---------------------------------------------------------------------
  // Page state

  class KycPage {
    /** The source sets this to true; the backend branch runs when false. */
    const useMockData: bool
    var requests: seq<Value>
    var loading: bool
    var error: Option<string>
    var selected: Value
    var confirmOpen: bool
    var actionType: string
    var searchTerm: string
    var preview: Preview

    constructor (useMockData: bool)
      ensures this.useMockData == useMockData
      ensures requests == [] && loading && error == None
      ensures selected == Null && !confirmOpen && actionType == "" && searchTerm == "" && preview == ClosedPreview
    {
      this.useMockData := useMockData;
      requests := [];
      loading := true;
      error := None;
      selected := Null;
      confirmOpen := false;
      actionType := "";
      searchTerm := "";
      preview := ClosedPreview;
    }

    /** The first effect with mock data, once its delay has passed. */
    method LoadMock()
      requires useMockData
      modifies this
      ensures requests == MockRequests && !loading
      ensures error == old(error) && selected == old(selected) && confirmOpen == old(confirmOpen)
      ensures actionType == old(actionType) && searchTerm == old(searchTerm) && preview == old(preview)
    {
      requests := MockRequests;
      loading := false;
    }

    /** `fetchKycRequests` once the request has settled: the list from
        either envelope on success, the load error (list kept) on
        failure. */
    method Fetch(outcome: Outcome<Value>)
      modifies this
      ensures !loading
      ensures outcome.Success? ==> requests == Normalise(outcome.value, "pendingKyc") && error == None
      ensures !outcome.Success? ==> requests == old(requests) && error == Some(LoadFailureText)
      ensures selected == old(selected) && confirmOpen == old(confirmOpen)
      ensures actionType == old(actionType) && searchTerm == old(searchTerm) && preview == old(preview)
    {
      loading := true;
      error := None;
      match outcome {
        case Success(body) =>
          requests := Normalise(body, "pendingKyc");
        case _ =>
          error := Some(LoadFailureText);
      }
      loading := false;
    }

    /** `handleApprove` / `handleReject`. */
    method ChooseAction(request: Value, approve: bool)
      modifies this
      ensures selected == request && confirmOpen
      ensures actionType == (if approve then "approve" else "reject")
      ensures requests == old(requests) && loading == old(loading) && error == old(error)
      ensures searchTerm == old(searchTerm) && preview == old(preview)
    {
      selected := request;
      actionType := if approve then "approve" else "reject";
      confirmOpen := true;
    }

    /** The dialog's Cancel button: closes it and keeps the selection. */
    method CancelDialog()
      modifies this
      ensures !confirmOpen
      ensures selected == old(selected) && actionType == old(actionType)
      ensures requests == old(requests) && loading == old(loading) && error == old(error)
      ensures searchTerm == old(searchTerm) && preview == old(preview)
    {
      confirmOpen := false;
    }

    /** `handleConfirmAction`: past its guard it always closes the dialog
        and clears the selection. */
    method ConfirmAction(outcome: Outcome<Value>) returns (c: Confirmation)
      modifies this
      ensures c == Confirm(useMockData, old(selected), old(actionType), old(requests), outcome)
      ensures requests == c.requests
      ensures !old(Truthy(selected)) ==> selected == old(selected) && confirmOpen == old(confirmOpen)
      ensures old(Truthy(selected)) ==> selected == Null && !confirmOpen
      ensures actionType == old(actionType) && loading == old(loading) && error == old(error)
      ensures searchTerm == old(searchTerm) && preview == old(preview)
    {
      c := Confirm(useMockData, selected, actionType, requests, outcome);
      if Truthy(selected) {
        requests := c.requests;
        confirmOpen := false;
        selected := Null;
      }
    }

    method Search(term: string)
      modifies this
      ensures searchTerm == term
      ensures requests == old(requests) && loading == old(loading) && error == old(error)
      ensures selected == old(selected) && confirmOpen == old(confirmOpen) && actionType == old(actionType)
      ensures preview == old(preview)
    {
      searchTerm := term;
    }

    /** `handleOpenImage`. */
    method OpenImage(url: string, title: string)
      modifies this
      ensures preview == Preview(true, url, title)
      ensures requests == old(requests) && loading == old(loading) && error == old(error)
      ensures selected == old(selected) && confirmOpen == old(confirmOpen) && actionType == old(actionType)
      ensures searchTerm == old(searchTerm)
    {
      preview := Preview(true, url, title);
    }

    /** `handleCloseImage`. */
    method CloseImage()
      modifies this
      ensures preview == ClosedPreview
      ensures requests == old(requests) && loading == old(loading) && error == old(error)
      ensures selected == old(selected) && confirmOpen == old(confirmOpen) && actionType == old(actionType)
      ensures searchTerm == old(searchTerm)
    {
      preview := ClosedPreview;
    }

    /** The cards shown. */
    function Shown(): Option<seq<Value>>
      reads this
    {
      FilteredRequests(requests, searchTerm)
    }
  }

  /** A request with a string username and a string email never makes the
      search throw, and the empty term keeps it. */
  lemma StringUsernameVerdict(x: Value, term: string)
    requires x.Obj? && Get(x, "username").Str? && Get(x, "email").Str?
    ensures KycVerdict(x, term) != Throws
    ensures KycVerdict(x, "") == Keep
  {
    ContainsEmpty(Lower(Get(x, "username").s));
  }

  lemma MocksHaveUsernames()
    ensures forall x :: x in MockRequests ==> x.Obj? && Get(x, "username").Str? && Get(x, "email").Str?
  {
  }

  /** The mock requests are well formed: any search over them succeeds. */
  lemma MockSearchNeverThrows(term: string)
    ensures FilteredRequests(MockRequests, term).Some?
  {
    MocksHaveUsernames();
    forall x | x in MockRequests
      ensures KycVerdict(x, term) != Throws
    {
      StringUsernameVerdict(x, term);
    }
  }

  /** The empty term shows all five mock requests. */
  lemma MockEmptySearchShowsAll()
    ensures FilteredRequests(MockRequests, "") == Some(MockRequests)
  {
    MocksHaveUsernames();
    var v := Verdicts("");
    forall x | x in MockRequests
      ensures KycVerdict(x, "") == Keep && KeptBy(v)(x)
    {
      StringUsernameVerdict(x, "");
    }
    FilterKeepsAll(MockRequests, KeptBy(v));
    var r := FilterChecked(MockRequests, v);
    assert r.Some?;
    assert r.value == Filter(MockRequests, KeptBy(v)) == MockRequests;
  }
}
