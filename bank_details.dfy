/** The admin's bank accounts page (src/components/Users/AdminBankDetails.js):
    lists the accounts deposits are paid into, and adds, edits, activates,
    deactivates and deletes them through the backend, always as admin 1. */
module BankDetails {

  import opened JsValues
  import opened Responses

  const BaseUrl := "http://151.106.125.212:5021"
  const AdminId := 1

  const CollectionPath := BaseUrl + "/api/admin/bank-details"
  const FetchPath := CollectionPath + "?adminId=1"

  function ItemPath(id: Value): string
  {
    CollectionPath + "/" + ToJsString(id)
  }

  // ---------------------------------------------------------------------
  // Loading

  /** One account as the page keeps it, in camelCase whatever the backend
      sent. */
  datatype BankDetail = BankDetail(
    id: Value,
    bankName: Value,
    accountHolderName: Value,
    accountNumber: Value,
    branchName: Value,
    swiftCode: Value,
    description: Value,
    isActive: Value)

  /** `item.isActive`, else `item.is_active`, else true: only an undefined
      value falls through, so false, null and 0 are kept. */
  function ActiveFlag(item: Value): (r: Value)
    ensures !Get(item, "isActive").Undefined? ==> r == Get(item, "isActive")
    ensures Get(item, "isActive").Undefined? && !Get(item, "is_active").Undefined? ==> r == Get(item, "is_active")
    ensures Get(item, "isActive").Undefined? && Get(item, "is_active").Undefined? ==> r == Bool(true)
  {
    if !Get(item, "isActive").Undefined? then Get(item, "isActive")
    else if !Get(item, "is_active").Undefined? then Get(item, "is_active")
    else Bool(true)
  }

  /** `camel || other`: the first value when it is truthy, else the
      second. */
  predicate FallsBack(v: Value, camel: Value, other: Value)
  {
    (Truthy(camel) ==> v == camel) && (!Truthy(camel) ==> v == other)
  }

  /** The camelCase mapping of one item: each name field is the camelCase
      value when truthy, else the snake_case one; the description defaults
      to "". Reading a field of a null or undefined item throws. */
  function Transform(item: Value): (r: Option<BankDetail>)
    ensures r.None? <==> item.Null? || item.Undefined?
    ensures r.Some? ==> r.value.id == Get(item, "id") && r.value.isActive == ActiveFlag(item)
    ensures r.Some? ==> !r.value.isActive.Undefined?
    ensures r.Some? ==> (Truthy(r.value.bankName) <==> Truthy(Get(item, "bankName")) || Truthy(Get(item, "bank_name")))
    ensures r.Some? ==> FallsBack(r.value.bankName, Get(item, "bankName"), Get(item, "bank_name"))
    ensures r.Some? ==> FallsBack(r.value.accountHolderName, Get(item, "accountHolderName"), Get(item, "account_holder_name"))
    ensures r.Some? ==> FallsBack(r.value.accountNumber, Get(item, "accountNumber"), Get(item, "account_number"))
    ensures r.Some? ==> FallsBack(r.value.branchName, Get(item, "branchName"), Get(item, "branch_name"))
    ensures r.Some? ==> FallsBack(r.value.swiftCode, Get(item, "swiftCode"), Get(item, "swift_code"))
    ensures r.Some? ==> FallsBack(r.value.description, Get(item, "description"), Str(""))
  {
    if item.Null? || item.Undefined? then None
    else Some(BankDetail(
      Get(item, "id"),
      Or(Get(item, "bankName"), Get(item, "bank_name")),
      Or(Get(item, "accountHolderName"), Get(item, "account_holder_name")),
      Or(Get(item, "accountNumber"), Get(item, "account_number")),
      Or(Get(item, "branchName"), Get(item, "branch_name")),
      Or(Get(item, "swiftCode"), Get(item, "swift_code")),
      Or(Get(item, "description"), Str("")),
      ActiveFlag(item)))
  }

  /** `bankDetailsData.map(...)`: one record per item, in order, unless
      some item throws. */
  function TransformAll(items: seq<Value>): (r: Option<seq<BankDetail>>)
    ensures r.None? <==> exists i :: 0 <= i < |items| && Transform(items[i]).None?
    ensures r.Some? ==> |r.value| == |items| && forall i :: 0 <= i < |items| ==> Some(r.value[i]) == Transform(items[i])
  {
    if items == [] then Some([])
    else
      var head, tail := Transform(items[0]), TransformAll(items[1..]);
      assert forall i :: 0 < i < |items| ==> items[i] == items[1..][i - 1];
      if head.None? || tail.None? then None
      else Some([head.value] + tail.value)
  }

  /** The name fields of a record: the camelCase key the page uses and the
      snake_case key the backend may send instead. */
  const NameFields: seq<(string, string)> := [
    ("bankName", "bank_name"), ("accountHolderName", "account_holder_name"),
    ("accountNumber", "account_number"), ("branchName", "branch_name"), ("swiftCode", "swift_code")]

  /** The record the page shows for an account as the backend stores it. */
  function AsValue(d: BankDetail): Value
  {
    Obj(map[
      "id" := d.id, "bankName" := d.bankName, "accountHolderName" := d.accountHolderName,
      "accountNumber" := d.accountNumber, "branchName" := d.branchName,
      "swiftCode" := d.swiftCode, "description" := d.description, "isActive" := d.isActive])
  }

  /** A record already in camelCase, with its names filled in, a string
      description and a defined flag, comes through the mapping
      unchanged. */
  lemma CamelCaseRoundTrip(d: BankDetail)
    requires Truthy(d.bankName) && Truthy(d.accountHolderName) && Truthy(d.accountNumber)
    requires Truthy(d.branchName) && Truthy(d.swiftCode)
    requires d.description.Str? && !d.isActive.Undefined?
    ensures Transform(AsValue(d)) == Some(d)
  {
    var v := AsValue(d);
    assert Get(v, "id") == d.id && Get(v, "bankName") == d.bankName;
    assert Get(v, "accountHolderName") == d.accountHolderName && Get(v, "accountNumber") == d.accountNumber;
    assert Get(v, "branchName") == d.branchName && Get(v, "swiftCode") == d.swiftCode;
    assert Get(v, "description") == d.description && Get(v, "isActive") == d.isActive;
  }

  /** Read back under its camelCase key, each name field of the mapped
      record is the item's camelCase value when that is truthy, and its
      snake_case value otherwise; no field is taken from another one. */
  lemma TransformPrefersCamelCase(item: Value)
    requires !item.Null? && !item.Undefined?
    ensures forall j :: 0 <= j < |NameFields| ==>
      var (camel, snake) := NameFields[j];
      Get(AsValue(Transform(item).value), camel) ==
        (if Truthy(Get(item, camel)) then Get(item, camel) else Get(item, snake))
  {
    var d := Transform(item).value;
    var v := AsValue(d);
    assert Get(v, "bankName") == d.bankName && Get(v, "accountHolderName") == d.accountHolderName;
    assert Get(v, "accountNumber") == d.accountNumber && Get(v, "branchName") == d.branchName;
    assert Get(v, "swiftCode") == d.swiftCode;
  }

  /** A snake_case record is read field by field, and an inactive account
      stays inactive: `is_active: false` is not replaced by the default. */
  lemma SnakeCaseRecord(id: int, name: string, holder: string, number: string)
    requires name != "" && holder != "" && number != ""
    ensures var item := Obj(map["id" := Num(id), "bank_name" := Str(name), "account_holder_name" := Str(holder),
                                "account_number" := Str(number), "is_active" := Bool(false)]);
      Transform(item) == Some(BankDetail(Num(id), Str(name), Str(holder), Str(number), Undefined, Undefined, Str(""), Bool(false)))
  {
    var item := Obj(map["id" := Num(id), "bank_name" := Str(name), "account_holder_name" := Str(holder),
                        "account_number" := Str(number), "is_active" := Bool(false)]);
    assert Get(item, "bankName") == Undefined && Get(item, "bank_name") == Str(name);
    assert Get(item, "accountHolderName") == Undefined && Get(item, "account_holder_name") == Str(holder);
    assert Get(item, "accountNumber") == Undefined && Get(item, "account_number") == Str(number);
    assert Get(item, "branchName") == Undefined && Get(item, "branch_name") == Undefined;
    assert Get(item, "swiftCode") == Undefined && Get(item, "swift_code") == Undefined;
    assert Get(item, "description") == Undefined;
    assert Get(item, "isActive") == Undefined && Get(item, "is_active") == Bool(false);
    assert Get(item, "id") == Num(id);
  }

  const FetchFailureText := "Error fetching bank details"

  datatype Loaded = Loaded(details: seq<BankDetail>, toast: Option<string>)

  /** `fetchBankDetails` once the GET has settled. A response body that is
      an array, or holds one under `bankDetails`, gives the transformed
      list; any other object gives the empty list. A null or undefined
      body, a null item, or a failed request all end in the catch: empty
      list and an error toast. */
  function Fetched(outcome: Outcome<Value>): (r: Loaded)
    ensures (&& outcome.Success? && !outcome.value.Null? && !outcome.value.Undefined?
             && TransformAll(Normalise(outcome.value, "bankDetails")).Some?) ==>
      r == Loaded(TransformAll(Normalise(outcome.value, "bankDetails")).value, None)
    ensures (&& outcome.Success?
             && (outcome.value.Null? || outcome.value.Undefined? || TransformAll(Normalise(outcome.value, "bankDetails")).None?)) ==>
      r == Loaded([], Some(FetchFailureText))
    ensures !outcome.Success? ==> r == Loaded([], Some(MessageOr(outcome, FetchFailureText)))
  {
    match outcome
    case Success(body) =>
      if body.Null? || body.Undefined? then Loaded([], Some(FetchFailureText))
      else (match TransformAll(Normalise(body, "bankDetails"))
        case Some(details) => Loaded(details, None)
        case None => Loaded([], Some(FetchFailureText)))
    case _ => Loaded([], Some(MessageOr(outcome, FetchFailureText)))
  }

  /** A loaded list has one record per item of the body's list, in order. */
  lemma FetchedKeepsCountAndOrder(items: seq<Value>)
    requires forall i :: 0 <= i < |items| ==> !items[i].Null? && !items[i].Undefined?
    ensures Fetched(Success(Arr(items))).toast.None?
    ensures |Fetched(Success(Arr(items))).details| == |items|
    ensures forall i :: 0 <= i < |items| ==>
      Fetched(Success(Arr(items))).details[i].id == Get(items[i], "id")
  {
    var r := TransformAll(items);
    assert r.Some?;
    forall i | 0 <= i < |items|
      ensures r.value[i].id == Get(items[i], "id")
    {
      assert Some(r.value[i]) == Transform(items[i]);
    }
  }

  // ---------------------------------------------------------------------
  // The form

  /** The six inputs of the form, by their `name`. */
  const FormFields: seq<string> := ["bankName", "accountHolderName", "accountNumber", "branchName", "swiftCode", "description"]

  type Form = map<string, Value>

  const EmptyForm: Form := map[
    "bankName" := Str(""), "accountHolderName" := Str(""), "accountNumber" := Str(""),
    "branchName" := Str(""), "swiftCode" := Str(""), "description" := Str("")]

  const RequiredFieldsText := "Please fill in all required fields"

  /** The form is complete when bank name, account holder and account
      number are all truthy. */
  predicate Complete(form: Form)
  {
    Truthy(Field(form, "bankName")) && Truthy(Field(form, "accountHolderName")) && Truthy(Field(form, "accountNumber"))
  }

  datatype Verb = Patch | Post | Delete

  datatype Request = Request(verb: Verb, path: string, body: Value)

  /** The request the Save/Update button sends: none for an incomplete
      form; else the form's fields plus `adminId: 1`, PATCHed to the
      record being edited when there is one, POSTed to the collection
      otherwise. */
  function SubmitRequest(form: Form, editingId: Value): (r: Option<Request>)
    ensures r.None? <==> !Complete(form)
    ensures r.Some? ==> r.value.body == Obj(form["adminId" := Num(AdminId)])
    ensures r.Some? && Truthy(editingId) ==> r.value.verb == Patch && r.value.path == ItemPath(editingId)
    ensures r.Some? && !Truthy(editingId) ==> r.value.verb == Post && r.value.path == CollectionPath
  {
    if !Complete(form) then None
    else
      var body := Obj(form["adminId" := Num(AdminId)]);
      if Truthy(editingId) then Some(Request(Patch, ItemPath(editingId), body))
      else Some(Request(Post, CollectionPath, body))
  }

  /** The form loaded by the Edit button: the three required fields as
      they are (even when missing), the optional ones defaulting to "". */
  function EditForm(d: BankDetail): (f: Form)
    ensures forall k :: k in FormFields <==> k in f
    ensures f["bankName"] == d.bankName && f["accountHolderName"] == d.accountHolderName
    ensures f["accountNumber"] == d.accountNumber
    ensures Truthy(f["description"]) <==> Truthy(d.description)
    ensures f["branchName"] == (if Truthy(d.branchName) then d.branchName else Str(""))
    ensures f["swiftCode"] == (if Truthy(d.swiftCode) then d.swiftCode else Str(""))
    ensures f["description"] == (if Truthy(d.description) then d.description else Str(""))
  {
    map[
      "bankName" := d.bankName, "accountHolderName" := d.accountHolderName, "accountNumber" := d.accountNumber,
      "branchName" := Or(d.branchName, Str("")), "swiftCode" := Or(d.swiftCode, Str("")),
      "description" := Or(d.description, Str(""))]
  }

  /** Editing a record and saving it unchanged sends its own fields back
      to its own address with the admin id; a record without a bank name
      cannot be saved until one is typed. */
  lemma EditThenSubmit(d: BankDetail)
    ensures Truthy(d.bankName) && Truthy(d.accountHolderName) && Truthy(d.accountNumber) && Truthy(d.id) ==>
      && SubmitRequest(EditForm(d), d.id).Some?
      && SubmitRequest(EditForm(d), d.id).value.verb == Patch
      && SubmitRequest(EditForm(d), d.id).value.path == ItemPath(d.id)
      && Get(SubmitRequest(EditForm(d), d.id).value.body, "bankName") == d.bankName
      && Get(SubmitRequest(EditForm(d), d.id).value.body, "adminId") == Num(AdminId)
    ensures !Truthy(d.bankName) ==> SubmitRequest(EditForm(d), d.id).None?
  {
  }

  /** The empty form is never sent: Save on a fresh form only shows the
      required-fields toast. */
  lemma EmptyFormRejected(editingId: Value)
    ensures SubmitRequest(EmptyForm, editingId).None?
  {
    assert Field(EmptyForm, "bankName") == Str("");
  }

  // ---------------------------------------------------------------------
  // Status toggle and delete

  /** The status PATCH for a card: the new flag is the negation of the
      card's current one, taken by truthiness. */
  function ToggleRequest(id: Value, currentStatus: Value): (r: Request)
    ensures r.verb == Patch && r.path == ItemPath(id) + "/status"
    ensures Get(r.body, "isActive") == Bool(!Truthy(currentStatus))
    ensures Get(r.body, "adminId") == Num(AdminId)
  {
    Request(Patch, ItemPath(id) + "/status", Obj(map["isActive" := Bool(!Truthy(currentStatus)), "adminId" := Num(AdminId)]))
  }

  function ToggleSuccessText(currentStatus: Value): string
  {
    "Bank details " + (if !Truthy(currentStatus) then "activated" else "deactivated") + " successfully!"
  }

  /** Toggling twice, each time from the flag the last toggle sent,
      returns the account to its first state; an account whose flag is
      null or 0 counts as inactive and gets activated. */
  lemma ToggleTwiceRestores(id: Value, currentStatus: Value)
    ensures var first := Get(ToggleRequest(id, currentStatus).body, "isActive");
      Truthy(Get(ToggleRequest(id, first).body, "isActive")) == Truthy(currentStatus)
    ensures Get(ToggleRequest(id, Null).body, "isActive") == Bool(true)
    ensures ToggleSuccessText(Num(0)) == "Bank details activated successfully!"
  {
  }

  function DeleteRequest(id: Value): (r: Request)
    ensures r.verb == Delete && r.path == ItemPath(id) && r.body == Obj(map["adminId" := Num(AdminId)])
  {
    Request(Delete, ItemPath(id), Obj(map["adminId" := Num(AdminId)]))
  }

  /** Numeric ids address distinct records. */
  lemma ItemPathsDistinct(a: int, b: int)
    requires ItemPath(Num(a)) == ItemPath(Num(b))
    ensures a == b
  {
    var prefix := CollectionPath + "/";
    assert IntToString(a) == ItemPath(Num(a))[|prefix|..];
    assert IntToString(b) == ItemPath(Num(b))[|prefix|..];
    IntToStringInjective(a, b);
  }

  // ---------------------------------------------------------------------
  // Page state

  /** The busy flags: the whole list, the form, and each card's toggle
      and delete buttons, keyed by the card id's string form. */
  datatype Loading = Loading(fetch: bool, submit: bool, toggle: map<string, bool>, delete: map<string, bool>)

  /** What a handler reports: the request it sent, the toast it showed,
      and whether it reloads the list. */
  datatype Effect = Effect(sent: Option<Request>, toast: Option<string>, refetch: bool)

  class BankDetailsPage {
    var details: seq<BankDetail>
    var showForm: bool
    var editingId: Value
    var form: Form
    var loading: Loading

    constructor ()
      ensures details == [] && !showForm && editingId == Null && form == EmptyForm
      ensures loading == Loading(false, false, map[], map[])
    {
      details := [];
      showForm := false;
      editingId := Null;
      form := EmptyForm;
      loading := Loading(false, false, map[], map[]);
    }

    /** `fetchBankDetails` once the GET has settled; returns its toast. */
    method Fetch(outcome: Outcome<Value>) returns (toast: Option<string>)
      modifies this
      ensures Loaded(details, toast) == Fetched(outcome)
      ensures !loading.fetch && loading.submit == old(loading.submit)
      ensures loading.toggle == old(loading.toggle) && loading.delete == old(loading.delete)
      ensures showForm == old(showForm) && editingId == old(editingId) && form == old(form)
    {
      loading := loading.(fetch := true);
      var r := Fetched(outcome);
      details := r.details;
      toast := r.toast;
      loading := loading.(fetch := false);
    }

    /** `handleInputChange`: one field takes the typed text. */
    method InputChange(name: string, value: string)
      modifies this
      ensures form == old(form)[name := Str(value)]
      ensures details == old(details) && showForm == old(showForm) && editingId == old(editingId)
      ensures loading == old(loading)
    {
      form := form[name := Str(value)];
    }

    /** The "Add New Bank Details" button. */
    method OpenForm()
      modifies this
      ensures showForm
      ensures details == old(details) && editingId == old(editingId) && form == old(form) && loading == old(loading)
    {
      showForm := true;
    }

    /** `resetForm`, also the form's Cancel button. */
    method ResetForm()
      modifies this
      ensures form == EmptyForm && editingId == Null && !showForm
      ensures details == old(details) && loading == old(loading)
    {
      form := EmptyForm;
      editingId := Null;
      showForm := false;
    }

    /** `handleEdit`. */
    method Edit(d: BankDetail)
      modifies this
      ensures form == EditForm(d) && editingId == d.id && showForm
      ensures details == old(details) && loading == old(loading)
    {
      form := EditForm(d);
      editingId := d.id;
      showForm := true;
    }

    /** `handleFormSubmit` once the request (if any) has settled: an
        incomplete form only gets a toast; a saved form is reset and the
        list reloaded; a failed save keeps the form for another try. */
    method Submit(outcome: Outcome<Value>) returns (e: Effect)
      modifies this
      ensures e.sent == SubmitRequest(old(form), old(editingId))
      ensures e.sent.None? ==>
        && e == Effect(None, Some(RequiredFieldsText), false)
        && form == old(form) && editingId == old(editingId) && showForm == old(showForm) && loading == old(loading)
      ensures e.sent.Some? && outcome.Success? ==>
        && e.toast == Some(if Truthy(old(editingId)) then "Bank details updated successfully!" else "Bank details added successfully!")
        && e.refetch && form == EmptyForm && editingId == Null && !showForm
      ensures e.sent.Some? && !outcome.Success? ==>
        && e.toast == Some(MessageOr(outcome, "Error saving bank details")) && !e.refetch
        && form == old(form) && editingId == old(editingId) && showForm == old(showForm)
      ensures e.sent.Some? ==> loading == old(loading).(submit := false)
      ensures details == old(details)
    {
      var request := SubmitRequest(form, editingId);
      if request.None? {
        e := Effect(None, Some(RequiredFieldsText), false);
        return;
      }
      loading := loading.(submit := true);
      if outcome.Success? {
        var text := if Truthy(editingId) then "Bank details updated successfully!" else "Bank details added successfully!";
        e := Effect(request, Some(text), true);
        ResetForm();
      } else {
        e := Effect(request, Some(MessageOr(outcome, "Error saving bank details")), false);
      }
      loading := loading.(submit := false);
    }

    /** `handleToggleStatus` once the PATCH has settled. */
    method ToggleStatus(id: Value, currentStatus: Value, outcome: Outcome<Value>) returns (e: Effect)
      modifies this
      ensures e.sent == Some(ToggleRequest(id, currentStatus))
      ensures outcome.Success? ==> e.toast == Some(ToggleSuccessText(currentStatus)) && e.refetch
      ensures !outcome.Success? ==> e.toast == Some(MessageOr(outcome, "Error toggling status")) && !e.refetch
      ensures loading == old(loading).(toggle := old(loading.toggle)[ToJsString(id) := false])
      ensures details == old(details) && showForm == old(showForm) && editingId == old(editingId) && form == old(form)
    {
      var key := ToJsString(id);
      loading := loading.(toggle := loading.toggle[key := true]);
      if outcome.Success? {
        e := Effect(Some(ToggleRequest(id, currentStatus)), Some(ToggleSuccessText(currentStatus)), true);
      } else {
        e := Effect(Some(ToggleRequest(id, currentStatus)), Some(MessageOr(outcome, "Error toggling status")), false);
      }
      loading := loading.(toggle := loading.toggle[key := false]);
    }

    /** `handleDelete`: nothing unless the admin confirms the browser
        prompt; then the DELETE, and a reload on success. */
    method Delete(id: Value, confirmed: bool, outcome: Outcome<Value>) returns (e: Effect)
      modifies this
      ensures !confirmed ==> e == Effect(None, None, false) && loading == old(loading)
      ensures confirmed ==> e.sent == Some(DeleteRequest(id))
      ensures confirmed && outcome.Success? ==> e.toast == Some("Bank details deleted successfully!") && e.refetch
      ensures confirmed && !outcome.Success? ==>
        e.toast == Some(MessageOr(outcome, "Error deleting bank details")) && !e.refetch
      ensures confirmed ==> loading == old(loading).(delete := old(loading.delete)[ToJsString(id) := false])
      ensures details == old(details) && showForm == old(showForm) && editingId == old(editingId) && form == old(form)
    {
      if !confirmed {
        e := Effect(None, None, false);
        return;
      }
      var key := ToJsString(id);
      loading := loading.(delete := loading.delete[key := true]);
      if outcome.Success? {
        e := Effect(Some(DeleteRequest(id)), Some("Bank details deleted successfully!"), true);
      } else {
        e := Effect(Some(DeleteRequest(id)), Some(MessageOr(outcome, "Error deleting bank details")), false);
      }
      loading := loading.(delete := loading.delete[key := false]);
    }
  }
}
