/** The user management page (src/components/Users/UserList.js): loads the
    users (falling back to two sample users), filters them by a search term
    over four fields, opens a user's page on a row click, and hands the
    result to the table component. */
module UserList {

  import opened JsValues
  import opened Sequences
  import DataTable

  // ---------------------------------------------------------------------
  // Loading

  const JohnDoe: Row := map[
    "id" := Num(1), "name" := Str("John Doe"), "email" := Str("john@example.com"),
    "username" := Str("johndoe"), "nic_number" := Str("1234567890"),
    "created_at" := Str("2023-01-01T00:00:00Z")]

  const JaneSmith: Row := map[
    "id" := Num(2), "name" := Str("Jane Smith"), "email" := Str("jane@example.com"),
    "username" := Str("janesmith"), "nic_number" := Str("0987654321"),
    "created_at" := Str("2023-01-02T00:00:00Z")]

  /** The two users shown when the real list cannot be had. */
  const SampleUsers: seq<Value> := [Obj(JohnDoe), Obj(JaneSmith)]

  const UnexpectedShapeText := "Unable to retrieve user data. Using sample data instead."
  const LoadFailureText := "Failed to load users. Using sample data instead."

  /** `response.data.users`, or undefined when any link of
      `response && response.data && response.data.users` is missing. */
  function UsersIn(response: Value): Value
  {
    Get(Get(response, "data"), "users")
  }

  datatype Loaded = Loaded(users: Value, error: string)

  /** What `fetchUsers` leaves in the page: the server's users when the
      response carries a truthy `data.users` (taken as it is, even when it
      is not an array), otherwise the sample users with a warning that
      tells an unexpected answer from a failed request. */
  function Load(outcome: Outcome<Value>): (r: Loaded)
    ensures r.error == "" <==> outcome.Success? && Truthy(UsersIn(outcome.value))
    ensures r.error == "" ==> r.users == UsersIn(outcome.value) && Truthy(r.users)
    ensures r.error != "" ==> r.users == Arr(SampleUsers)
    ensures outcome.Success? && r.error != "" ==> r.error == UnexpectedShapeText
    ensures !outcome.Success? ==> r.error == LoadFailureText
  {
    match outcome
    case Success(response) =>
      if Truthy(UsersIn(response)) then Loaded(UsersIn(response), "")
      else Loaded(Arr(SampleUsers), UnexpectedShapeText)
    case _ => Loaded(Arr(SampleUsers), LoadFailureText)
  }

  /** Whatever the backend answers, the page ends up with users to show
      and a warning exactly when they are the samples; both envelopes
      `{ data: { users } }` carrying a non-empty list are taken as they
      are. */
  lemma LoadRoundTrip(users: seq<Value>, others: map<string, Value>)
    ensures Load(Success(Obj(others["data" := Obj(map["users" := Arr(users)])]))) == Loaded(Arr(users), "")
    ensures Load(Success(Obj(others["data" := Obj(map["users" := Null])]))) == Loaded(Arr(SampleUsers), UnexpectedShapeText)
    ensures Load(Success(Null)) == Loaded(Arr(SampleUsers), UnexpectedShapeText)
  {
    var body := Obj(map["users" := Arr(users)]);
    assert Get(Obj(others["data" := body]), "data") == body;
    assert Get(body, "users") == Arr(users);
    var nulled := Obj(map["users" := Null]);
    assert Get(Obj(others["data" := nulled]), "data") == nulled;
    assert Get(nulled, "users") == Null;
  }

  // ---------------------------------------------------------------------
  // Searching

  /** The fields searched, in the order the `||` chain tries them. */
  const SearchFields: seq<string> := ["name", "email", "username", "nic_number"]

  /** `user.f && user.f.toLowerCase().includes(searchLower)`: a falsy field
      is skipped; a truthy field that is not a string has no
      `toLowerCase` and throws. */
  function FieldVerdict(f: Value, term: string): Verdict
  {
    if !Truthy(f) then Drop
    else if f.Str? then (if Contains(Lower(f.s), Lower(term)) then Keep else Drop)
    else Throws
  }

  /** The `||` chain: the first field that matches or throws decides;
      later fields are not looked at. */
  function FieldsVerdict(user: Value, fields: seq<string>, term: string): Verdict
  {
    if fields == [] then Drop
    else
      var v := FieldVerdict(Get(user, fields[0]), term);
      if v == Drop then FieldsVerdict(user, fields[1..], term) else v
  }

  /** The filter callback. A term that is empty once trimmed keeps every
      user without looking at it; otherwise a null or undefined user
      throws, and the four fields are tried in order with the untrimmed
      term. */
  function UserVerdict(user: Value, term: string): (v: Verdict)
    ensures BlankAfterTrim(term) ==> v == Keep
    ensures !BlankAfterTrim(term) && (user.Null? || user.Undefined?) ==> v == Throws
  {
    if BlankAfterTrim(term) then Keep
    else if user.Null? || user.Undefined? then Throws
    else FieldsVerdict(user, SearchFields, term)
  }

  function Verdicts(term: string): Value -> Verdict
  {
    user => UserVerdict(user, term)
  }

  /** When every searched field holds a string or a falsy value, the chain
      never throws and keeps the user exactly when one of the fields
      contains the term, ignoring case. */
  lemma {:induction false} FieldsVerdictWellFormed(user: Value, fields: seq<string>, term: string)
    requires term != ""
    requires forall i :: 0 <= i < |fields| ==> Get(user, fields[i]).Str? || !Truthy(Get(user, fields[i]))
    ensures FieldsVerdict(user, fields, term) != Throws
    ensures FieldsVerdict(user, fields, term) == Keep <==>
      exists i :: 0 <= i < |fields| && Get(user, fields[i]).Str? && Contains(Lower(Get(user, fields[i]).s), Lower(term))
  {
    if fields != [] {
      var f := Get(user, fields[0]);
      if f.Str? && f.s == "" {
        ContainsInEmpty(Lower(term));
      }
      FieldsVerdictWellFormed(user, fields[1..], term);
      if FieldsVerdict(user, fields[1..], term) == Keep {
        var i :| 0 <= i < |fields[1..]| && Get(user, fields[1..][i]).Str?
          && Contains(Lower(Get(user, fields[1..][i]).s), Lower(term));
        assert fields[1..][i] == fields[i + 1];
      }
      if exists i :: 0 <= i < |fields| && Get(user, fields[i]).Str? && Contains(Lower(Get(user, fields[i]).s), Lower(term)) {
        var i :| 0 <= i < |fields| && Get(user, fields[i]).Str? && Contains(Lower(Get(user, fields[i]).s), Lower(term));
        if i > 0 {
          assert fields[1..][i - 1] == fields[i];
        }
      }
    }
  }

  /** The search as the page means it, for well-formed users: kept exactly
      when the name, email, username or NIC number contains the term in any
      case. */
  lemma UserVerdictWellFormed(user: Row, term: string)
    requires !BlankAfterTrim(term)
    requires forall f :: f in SearchFields ==> Field(user, f).Str? || !Truthy(Field(user, f))
    ensures UserVerdict(Obj(user), term) != Throws
    ensures UserVerdict(Obj(user), term) == Keep <==>
      exists f :: f in SearchFields && Field(user, f).Str? && Contains(Lower(Field(user, f).s), Lower(term))
  {
    assert forall i :: 0 <= i < |SearchFields| ==> Get(Obj(user), SearchFields[i]) == Field(user, SearchFields[i]);
    FieldsVerdictWellFormed(Obj(user), SearchFields, term);
    if exists f :: f in SearchFields && Field(user, f).Str? && Contains(Lower(Field(user, f).s), Lower(term)) {
      var f :| f in SearchFields && Field(user, f).Str? && Contains(Lower(Field(user, f).s), Lower(term));
      var i :| 0 <= i < |SearchFields| && SearchFields[i] == f;
    }
  }

  /** The chain throws exactly when some field is truthy but not a string
      and every field before it was skipped (falsy, or a string without the
      term): an earlier match stops the chain before the bad field. */
  lemma {:induction false} FieldsVerdictThrows(user: Value, fields: seq<string>, term: string)
    ensures FieldsVerdict(user, fields, term) == Throws <==>
      exists i :: 0 <= i < |fields| && Truthy(Get(user, fields[i])) && !Get(user, fields[i]).Str?
        && forall j :: 0 <= j < i ==> FieldVerdict(Get(user, fields[j]), term) == Drop
  {
    if fields != [] {
      var rest := fields[1..];
      FieldsVerdictThrows(user, rest, term);
      if FieldsVerdict(user, fields, term) == Throws && FieldVerdict(Get(user, fields[0]), term) == Drop {
        var i :| 0 <= i < |rest| && Truthy(Get(user, rest[i])) && !Get(user, rest[i]).Str?
          && forall j :: 0 <= j < i ==> FieldVerdict(Get(user, rest[j]), term) == Drop;
        assert rest[i] == fields[i + 1];
        forall j | 0 <= j < i + 1
          ensures FieldVerdict(Get(user, fields[j]), term) == Drop
        {
          if j > 0 {
            assert fields[j] == rest[j - 1];
          }
        }
      }
      if exists i :: (0 <= i < |fields| && Truthy(Get(user, fields[i])) && !Get(user, fields[i]).Str?
                      && forall j :: 0 <= j < i ==> FieldVerdict(Get(user, fields[j]), term) == Drop) {
        var i :| 0 <= i < |fields| && Truthy(Get(user, fields[i])) && !Get(user, fields[i]).Str?
          && forall j :: 0 <= j < i ==> FieldVerdict(Get(user, fields[j]), term) == Drop;
        if i > 0 {
          assert FieldVerdict(Get(user, fields[0]), term) == Drop;
          assert rest[i - 1] == fields[i];
          forall j | 0 <= j < i - 1
            ensures FieldVerdict(Get(user, rest[j]), term) == Drop
          {
            assert rest[j] == fields[j + 1];
          }
        }
      }
    }
  }

  /** Two instances of the law above: a number in the email throws unless
      the name already matched. */
  lemma ShortCircuitDecidesThrow()
    ensures UserVerdict(Obj(map["name" := Str("bob"), "email" := Num(5)]), "bo") == Keep
    ensures UserVerdict(Obj(map["name" := Num(5), "email" := Str("bob")]), "bo") == Throws
  {
    var u1 := Obj(map["name" := Str("bob"), "email" := Num(5)]);
    assert Get(u1, "name") == Str("bob");
    assert Lower("bob") == "bob" && Lower("bo") == "bo";
    assert OccursAt("bob", "bo", 0);
    var u2 := Obj(map["name" := Num(5), "email" := Str("bob")]);
    assert Get(u2, "name") == Num(5);
    assert !BlankAfterTrim("bo") by {
      assert !IsWhitespace("bo"[0]);
    }
  }

  /** `users.filter(...)`: nothing when `users` is not an array or the
      callback throws for some user; otherwise the users the callback
      keeps. A blank term keeps the whole list. */
  function FilteredUsers(users: Value, term: string): (r: Option<seq<Value>>)
    ensures !users.Arr? ==> r.None?
    ensures users.Arr? ==> (r.None? <==> exists u :: u in users.items && UserVerdict(u, term) == Throws)
    ensures users.Arr? && BlankAfterTrim(term) ==> r == Some(users.items)
    ensures r.Some? ==> forall u :: u in r.value ==> u in users.items && UserVerdict(u, term) == Keep
    ensures r.Some? ==> r.value == Filter(users.items, KeptBy(Verdicts(term)))
  {
    if !users.Arr? then None
    else
      var r := FilterChecked(users.items, Verdicts(term));
      if BlankAfterTrim(term) then
        FilterKeepsAll(users.items, KeptBy(Verdicts(term)));
        r
      else r
  }

  /** When the search does not throw, the users shown are exactly the
      users the callback keeps, in the order of the list: the k-th shown
      user is `users[idx[k]]` for strictly increasing positions `idx`, and
      a position is among them exactly when its user is kept. */
  lemma FilteredUsersExactly(users: seq<Value>, term: string)
    requires FilteredUsers(Arr(users), term).Some?
    ensures var shown, idx := FilteredUsers(Arr(users), term).value, KeptIndices(users, KeptBy(Verdicts(term)));
      && |idx| == |shown|
      && (forall k :: 0 <= k < |idx| ==> idx[k] < |users| && shown[k] == users[idx[k]])
      && (forall k, l :: 0 <= k < l < |idx| ==> idx[k] < idx[l])
      && (forall i :: 0 <= i < |users| ==> (UserVerdict(users[i], term) == Keep <==> i in idx))
  {
    FilterPositions(users, KeptBy(Verdicts(term)));
  }

  /** `trim()` removes every Unicode space separator, so a term of
      ideographic spaces keeps every user unlooked-at. */
  lemma IdeographicSpaceKeepsEveryone(users: seq<Value>)
    ensures FilteredUsers(Arr(users), "\U{3000}\U{3000}") == Some(users)
  {
    assert BlankAfterTrim("\U{3000}\U{3000}");
  }

  /** A field without the letter s, in either case, does not match
      "Smith". */
  lemma NoMatchWithoutS(f: string)
    requires Truthy(Str(f))
    requires forall i :: 0 <= i < |f| ==> f[i] != 's' && f[i] != 'S'
    ensures FieldVerdict(Str(f), "Smith") == Drop
  {
    assert Lower("Smith")[0] == 's';
    if Contains(Lower(f), Lower("Smith")) {
      ContainsFirstChar(Lower(f), Lower("Smith"));
    }
  }

  lemma JohnDoeMissesSmith()
    ensures UserVerdict(Obj(JohnDoe), "Smith") == Drop
  {
    var john := Obj(JohnDoe);
    assert !BlankAfterTrim("Smith") by {
      assert !IsWhitespace("Smith"[0]);
    }
    NoMatchWithoutS("John Doe");
    NoMatchWithoutS("john@example.com");
    NoMatchWithoutS("johndoe");
    NoMatchWithoutS("1234567890");
    assert FieldVerdict(Get(john, "name"), "Smith") == Drop;
    assert FieldVerdict(Get(john, "email"), "Smith") == Drop;
    assert FieldVerdict(Get(john, "username"), "Smith") == Drop;
    assert FieldVerdict(Get(john, "nic_number"), "Smith") == Drop;
    assert SearchFields[1..] == ["email", "username", "nic_number"];
    assert SearchFields[1..][1..] == ["username", "nic_number"];
    assert SearchFields[1..][1..][1..] == ["nic_number"];
    assert SearchFields[1..][1..][1..][1..] == [];
  }

  lemma JaneSmithMatchesSmith()
    ensures UserVerdict(Obj(JaneSmith), "Smith") == Keep
  {
    assert !BlankAfterTrim("Smith") by {
      assert !IsWhitespace("Smith"[0]);
    }
    assert Lower("Smith") == "smith";
    assert Lower("Jane Smith") == "jane smith";
    assert OccursAt("jane smith", "smith", 5);
    assert Get(Obj(JaneSmith), "name") == Str("Jane Smith");
  }

  /** Searching the sample users for "Smith" finds Jane Smith only. */
  lemma SampleSearch()
    ensures FilteredUsers(Arr(SampleUsers), "Smith") == Some([Obj(JaneSmith)])
  {
    JohnDoeMissesSmith();
    JaneSmithMatchesSmith();
    assert !BlankAfterTrim("Smith") by {
      assert !IsWhitespace("Smith"[0]);
    }
    var v := Verdicts("Smith");
    assert v(Obj(JohnDoe)) == Drop && v(Obj(JaneSmith)) == Keep;
    var jane: seq<Value> := [Obj(JaneSmith)];
    assert jane[0] == Obj(JaneSmith) && v(jane[0]) == Keep;
    var empty: seq<Value> := [];
    assert jane[1..] == empty;
    assert FilterChecked(empty, v) == Some(empty);
    assert [jane[0]] + empty == jane;
    assert FilterChecked(jane, v) == Some(jane);
    assert SampleUsers == [Obj(JohnDoe)] + jane;
    assert SampleUsers[1..] == jane;
    assert FilterChecked(SampleUsers, v) == Some(jane);
  }

  // ---------------------------------------------------------------------
  // Row click, empty state

  /** `handleRowClick`: opens `/users/<id>` when the user and its id are
      truthy, and does nothing otherwise. */
  function RowClickPath(user: Value): (r: Option<string>)
    ensures r.Some? <==> Truthy(user) && Truthy(Get(user, "id"))
    ensures r.Some? ==> r.value == "/users/" + ToJsString(Get(user, "id"))
  {
    if Truthy(user) && Truthy(Get(user, "id")) then Some("/users/" + ToJsString(Get(user, "id"))) else None
  }

  /** Two users with numeric ids open the same page only when their ids
      are equal. */
  lemma RowClickPathsDistinct(u: Value, v: Value)
    requires Get(u, "id").Num? && Get(v, "id").Num?
    requires RowClickPath(u).Some? && RowClickPath(u) == RowClickPath(v)
    ensures Get(u, "id") == Get(v, "id")
  {
    var a, b := IntToString(Get(u, "id").n), IntToString(Get(v, "id").n);
    assert a == ("/users/" + a)[7..] == ("/users/" + b)[7..] == b;
    IntToStringInjective(Get(u, "id").n, Get(v, "id").n);
  }

  const NoMatchText := "No users match your search criteria"
  const NoUsersText := "No users found in the system"

  /** The note under an empty table. It tests the raw term, while the
      filter tests the trimmed one. */
  function EmptyStateText(filtered: seq<Value>, searchTerm: string): (r: Option<string>)
    ensures r.Some? <==> filtered == []
    ensures r.Some? ==> (r.value == NoMatchText <==> searchTerm != "")
  {
    if filtered != [] then None
    else if searchTerm != "" then Some(NoMatchText)
    else Some(NoUsersText)
  }

  /** With no users at all and a term of spaces, the filter keeps the
      (empty) list untouched, yet the note blames the search. */
  lemma BlankTermBlamesSearch()
    ensures FilteredUsers(Arr([]), "  ") == Some([])
    ensures EmptyStateText([], "  ") == Some(NoMatchText)
  {
  }

  // ---------------------------------------------------------------------
  // Columns

  /** The page's columns: bootstrap-table style, with a `title` and a
      `render(user)` callback each; no `label`. */
  const UserColumns: seq<DataTable.Column> := [
    DataTable.Column("name", None, Some("Name"), Some("name")),
    DataTable.Column("email", None, Some("Email"), Some("email")),
    DataTable.Column("username", None, Some("Username"), Some("username")),
    DataTable.Column("nic_number", None, Some("NIC Number"), Some("nic_number")),
    DataTable.Column("created_at", None, Some("Registration Date"), Some("created_at"))]

  /** What a cell shows: a value, or a date passed to `formatDate`. */
  datatype Shown = Text(v: Value) | Date(raw: Value)

  /** A column's render callback applied to `arg`: `arg.<key> || 'N/A'`,
      or for the registration date `arg.created_at ? formatDate(...) :
      'N/A'`. Reading a property of null or undefined throws (None). */
  function RenderUserColumn(key: string, arg: Value): (r: Option<Shown>)
    ensures arg.Null? || arg.Undefined? ==> r.None?
    ensures r.Some? && !Truthy(Get(arg, key)) ==> r.value == Text(Str("N/A"))
  {
    if arg.Null? || arg.Undefined? then None
    else if key == "created_at" then
      Some(if Truthy(Get(arg, key)) then Date(Get(arg, key)) else Text(Str("N/A")))
    else Some(Text(Or(Get(arg, key), Str("N/A"))))
  }

  /** A cell as the page renders it: the imported table is the one that
      calls `render(value, row)`, so the callback receives the field value
      where it expects the user. */
  function UserCellAsWritten(column: DataTable.Column, user: Row): Option<Shown>
  {
    match DataTable.RenderCell(column, user)
    case Call(_, args) => if |args| > 0 then RenderUserColumn(column.key, args[0]) else None
    case Plain(v) => Some(Text(v))
  }

  /** As written, every string-valued cell reads "N/A" (a string has no
      such property), a null field breaks the render, and the headers are
      blank because the columns have no `label`. */
  lemma CellsShowNotAvailable(user: Row, j: nat)
    requires j < |UserColumns| && UserColumns[j].key in user
    ensures user[UserColumns[j].key].Str? ==> UserCellAsWritten(UserColumns[j], user) == Some(Text(Str("N/A")))
    ensures user[UserColumns[j].key].Null? ==> UserCellAsWritten(UserColumns[j], user).None?
    ensures DataTable.Header(UserColumns) == [None, None, None, None, None]
  {
  }

  /** The cell as the columns are written to be used: the callback gets
      the user itself. */
  function UserCell(column: DataTable.Column, user: Row): Option<Shown>
  {
    match column.render
    case Some(_) => RenderUserColumn(column.key, Obj(user))
    case None => Some(Text(Field(user, column.key)))
  }

  /** Given the user, each text column shows its field, or "N/A" when the
      field is missing or falsy, and the date column formats a present
      registration date; no user record makes it throw. */
  lemma UserCellShowsField(user: Row, j: nat)
    requires j < |UserColumns|
    ensures UserCell(UserColumns[j], user).Some?
    ensures j < 4 && Truthy(Field(user, UserColumns[j].key)) ==>
      UserCell(UserColumns[j], user) == Some(Text(Field(user, UserColumns[j].key)))
    ensures j == 4 && Truthy(Field(user, "created_at")) ==>
      UserCell(UserColumns[j], user) == Some(Date(Field(user, "created_at")))
    ensures !Truthy(Field(user, UserColumns[j].key)) ==> UserCell(UserColumns[j], user) == Some(Text(Str("N/A")))
  {
  }

  /** John Doe's name cell: "N/A" as written, his name as intended. */
  lemma SampleNameCell()
    ensures UserCellAsWritten(UserColumns[0], JohnDoe) == Some(Text(Str("N/A")))
    ensures UserCell(UserColumns[0], JohnDoe) == Some(Text(Str("John Doe")))
  {
  }

  // ---------------------------------------------------------------------
  // Page state

  class UserListPage {
    var users: Value
    var isLoading: bool
    var searchTerm: string
    var error: string

    constructor ()
      ensures users == Arr([]) && isLoading && searchTerm == "" && error == ""
    {
      users := Arr([]);
      isLoading := true;
      searchTerm := "";
      error := "";
    }

    /** `fetchUsers` once the request has settled. */
    method FetchUsers(outcome: Outcome<Value>)
      modifies this
      ensures !isLoading
      ensures Loaded(users, error) == Load(outcome)
      ensures searchTerm == old(searchTerm)
    {
      isLoading := true;
      error := "";
      var loaded := Load(outcome);
      users := loaded.users;
      error := loaded.error;
      isLoading := false;
    }

    /** `handleSearch`. */
    method Search(term: string)
      modifies this
      ensures searchTerm == term
      ensures users == old(users) && isLoading == old(isLoading) && error == old(error)
    {
      searchTerm := term;
    }

    /** `handleClearSearch`; the Clear button is enabled only for a
        non-empty term. */
    method ClearSearch()
      requires ClearEnabled()
      modifies this
      ensures searchTerm == ""
      ensures users == old(users) && isLoading == old(isLoading) && error == old(error)
    {
      searchTerm := "";
    }

    predicate ClearEnabled()
      reads this
    {
      searchTerm != ""
    }

    /** The users handed to the table. */
    function Shown(): Option<seq<Value>>
      reads this
    {
      FilteredUsers(users, searchTerm)
    }
  }

  /** Once loaded from a failed request the page filters the samples,
      which never throw: the two sample users are well formed. */
  lemma SamplesNeverThrow(term: string)
    ensures FilteredUsers(Arr(SampleUsers), term).Some?
  {
    if !BlankAfterTrim(term) {
      UserVerdictWellFormed(JohnDoe, term);
      UserVerdictWellFormed(JaneSmith, term);
    }
  }
}
