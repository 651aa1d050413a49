/** The generic searchable, paginated table used by the list pages
    (src/components/common/DataTable.js). The table keeps three pieces of
    state of its own (page, rows per page, search term); everything it shows
    is computed from them and from the props on each render: the rows that
    match the search, the slice of them on the current page, and the cells
    of those rows. */
module DataTable {

  import opened JsValues
  import opened Sequences

  /** The name of a column's `render` callback. What the callback draws is
      not modelled; a cell records which callback was applied to what. */
  type Renderer = string

  /** A column descriptor as the pages write it; `heading` is its `label`
      property. This table reads `label` for the header and calls
      `render(value, row)`; the bootstrap table reads `title` and calls
      `render(item)`. */
  datatype Column = Column(key: string, heading: Option<string>, title: Option<string>, render: Option<Renderer>)

  /** What a cell shows: a field value as it is, or a render callback
      applied to arguments. */
  datatype Cell = Plain(value: Value) | Call(fn: Renderer, args: seq<Value>)

  /** The choices the rows-per-page selector offers. */
  const RowsPerPageOptions: seq<nat> := [5, 10, 25, 50]
  const DefaultRowsPerPage: nat := 10
  const NoDataText := "No data found"

  // ---------------------------------------------------------------------
  // Search

  /** One field makes its row match when it is a string or a number whose
      lower-cased string form contains the lower-cased term. Objects,
      arrays, booleans, null and undefined never match. */
  predicate FieldMatches(v: Value, term: string)
  {
    match v
    case Str(s) => Contains(Lower(s), Lower(term))
    case Num(n) => Contains(Lower(IntToString(n)), Lower(term))
    case _ => false
  }

  /** The search predicate: an empty term keeps every row; any other term
      (white space included, it is not trimmed) keeps the rows with a
      matching field. */
  predicate RowMatches(row: Row, term: string)
  {
    term == "" || exists k :: k in row && FieldMatches(row[k], term)
  }

  function Matcher(term: string): Row -> bool
  {
    row => RowMatches(row, term)
  }

  /** `Object.keys(row).some(...)` for one particular listing of the keys. */
  predicate SomeKeyMatches(row: Row, keys: seq<string>, term: string)
  {
    keys != [] && ((keys[0] in row && FieldMatches(row[keys[0]], term)) || SomeKeyMatches(row, keys[1..], term))
  }

  lemma {:induction false} SomeKeyMatchesIff(row: Row, keys: seq<string>, term: string)
    ensures SomeKeyMatches(row, keys, term) <==>
      exists i :: 0 <= i < |keys| && keys[i] in row && FieldMatches(row[keys[i]], term)
  {
    if keys != [] {
      SomeKeyMatchesIff(row, keys[1..], term);
      if SomeKeyMatches(row, keys[1..], term) {
        var i :| 0 <= i < |keys[1..]| && keys[1..][i] in row && FieldMatches(row[keys[1..][i]], term);
        assert keys[i + 1] == keys[1..][i];
      }
      if exists i :: 0 <= i < |keys| && keys[i] in row && FieldMatches(row[keys[i]], term) {
        var i :| 0 <= i < |keys| && keys[i] in row && FieldMatches(row[keys[i]], term);
        if i > 0 {
          assert keys[1..][i - 1] == keys[i];
        }
      }
    }
  }

  /** Whatever order `Object.keys` lists the fields in, the source's
      `!searchTerm || Object.keys(row).some(...)` is the search predicate. */
  lemma KeyOrderIrrelevant(row: Row, keys: seq<string>, term: string)
    requires forall k :: k in row <==> k in keys
    ensures (term == "" || SomeKeyMatches(row, keys, term)) <==> RowMatches(row, term)
  {
    SomeKeyMatchesIff(row, keys, term);
    if term != "" && RowMatches(row, term) {
      var k :| k in row && FieldMatches(row[k], term);
      var i :| 0 <= i < |keys| && keys[i] == k;
    }
  }

  /** `filteredData`: the rows of `data` that match the term. */
  function FilteredData(data: seq<Row>, term: string): (r: seq<Row>)
    ensures term == "" ==> r == data
    ensures forall row :: row in r ==> row in data && RowMatches(row, term)
  {
    if term == "" then
      FilterKeepsAll(data, Matcher(term));
      Filter(data, Matcher(term))
    else
      Filter(data, Matcher(term))
  }

  /** The filtered rows are exactly the matching rows of `data`, in their
      original order: the k-th filtered row is `data[idx[k]]` for strictly
      increasing positions `idx`, and a position is among them exactly when
      its row matches. */
  lemma FilteredDataExactly(data: seq<Row>, term: string)
    ensures var idx := KeptIndices(data, Matcher(term));
      && |idx| == |FilteredData(data, term)|
      && (forall k :: 0 <= k < |idx| ==> idx[k] < |data| && FilteredData(data, term)[k] == data[idx[k]])
      && (forall k, l :: 0 <= k < l < |idx| ==> idx[k] < idx[l])
      && (forall i :: 0 <= i < |data| ==> (RowMatches(data[i], term) <==> i in idx))
  {
    FilterPositions(data, Matcher(term));
  }

  /** Matching ignores the case of the term. */
  lemma SearchIgnoresTermCase(row: Row, term: string)
    ensures RowMatches(row, term) <==> RowMatches(row, Lower(term))
    ensures RowMatches(row, term) <==> RowMatches(row, Upper(term))
  {
    LowerIdempotent(term);
    LowerOfUpper(term);
    assert |Lower(term)| == |term| == |Upper(term)|;
    forall k | k in row
      ensures FieldMatches(row[k], term) == FieldMatches(row[k], Lower(term)) == FieldMatches(row[k], Upper(term))
    {
    }
  }

  /** A row whose fields are all objects, arrays, booleans, null or
      undefined matches no non-empty term. */
  lemma NonPrimitiveFieldsNeverMatch(row: Row, term: string)
    requires term != ""
    requires forall k :: k in row ==> !row[k].Str? && !row[k].Num?
    ensures !RowMatches(row, term)
  {
  }

  /** A term of white space is searched for as it is: a row without a space
      in any field is filtered out. */
  lemma WhitespaceTermNotTrimmed()
    ensures !RowMatches(map["name" := Str("bob")], " ")
  {
    var row := map["name" := Str("bob")];
    assert Lower("bob") == "bob";
    assert Lower(" ") == " ";
    forall i: nat | i <= 3
      ensures !OccursAt("bob", " ", i)
    {
      if i < 3 {
        assert "bob"[i..i + 1] == ["bob"[i]];
      }
    }
    assert !FieldMatches(row["name"], " ");
  }

  /** The two-row search from the table's description: "bo" keeps Bob and
      drops Alice. */
  lemma SearchExample()
    ensures var alice := map["id" := Num(1), "name" := Str("Alice")];
      var bob: Row := map["id" := Num(2), "name" := Str("bob")];
      FilteredData([alice, bob], "bo") == [bob]
  {
    var alice: Row := map["id" := Num(1), "name" := Str("Alice")];
    var bob: Row := map["id" := Num(2), "name" := Str("bob")];
    assert Lower("bo") == "bo";
    assert Lower("bob") == "bob";
    assert OccursAt("bob", "bo", 0);
    assert "name" in bob && FieldMatches(bob["name"], "bo");
    assert RowMatches(bob, "bo");
    assert Lower("Alice") == "alice";
    forall i: nat | i <= 5
      ensures !OccursAt("alice", "bo", i)
    {
      if i + 2 <= 5 {
        assert "alice"[i..i + 2][0] == "alice"[i];
      }
    }
    assert IntToString(1) == "1";
    forall i: nat | i <= 1
      ensures !OccursAt("1", "bo", i)
    {
    }
    assert !FieldMatches(alice["name"], "bo");
    assert !FieldMatches(alice["id"], "bo");
    assert !RowMatches(alice, "bo");
    assert [alice, bob][1..] == [bob];
    assert [bob][1..] == [];
  }

  // ---------------------------------------------------------------------
  // Pagination

  /** `currentPageData`: `filtered.slice(page * n, page * n + n)`. */
  function PageRows(filtered: seq<Row>, page: nat, rowsPerPage: nat): (r: seq<Row>)
    ensures |r| <= rowsPerPage
    ensures page * rowsPerPage >= |filtered| ==> r == []
    ensures page * rowsPerPage < |filtered| ==> |r| == Min(rowsPerPage, |filtered| - page * rowsPerPage)
    ensures forall k :: 0 <= k < |r| ==> page * rowsPerPage + k < |filtered| && r[k] == filtered[page * rowsPerPage + k]
  {
    Slice(filtered, page * rowsPerPage, page * rowsPerPage + rowsPerPage)
  }

  /** Every filtered row is shown on exactly one page: row `i` is at
      position `i % n` of page `i / n`, and page `p` shows rows
      `p * n .. p * n + n` only. */
  lemma RowOnItsPage(filtered: seq<Row>, i: nat, rowsPerPage: nat)
    requires i < |filtered| && rowsPerPage > 0
    ensures i % rowsPerPage < |PageRows(filtered, i / rowsPerPage, rowsPerPage)|
    ensures PageRows(filtered, i / rowsPerPage, rowsPerPage)[i % rowsPerPage] == filtered[i]
  {
    var p, k := i / rowsPerPage, i % rowsPerPage;
    assert p * rowsPerPage + k == i;
    assert p * rowsPerPage <= i;
  }

  /** With 23 rows and 10 per page there are three pages, the last one
      holding 3 rows; the page after it is empty. */
  lemma PaginationExample(filtered: seq<Row>)
    requires |filtered| == 23
    ensures |PageRows(filtered, 0, 10)| == 10 && |PageRows(filtered, 1, 10)| == 10
    ensures |PageRows(filtered, 2, 10)| == 3 && PageRows(filtered, 2, 10) == filtered[20..]
    ensures PageRows(filtered, 3, 10) == []
  {
  }

  // ---------------------------------------------------------------------
  // Rendering

  /** One rendered body row: its cells, and the record passed to
      `onRowClick` when it is clicked (none without a callback). */
  datatype BodyRow = BodyRow(cells: seq<Cell>, clickPasses: Option<Row>)

  datatype Body = NoData(colSpan: nat, text: string) | Rows(rows: seq<BodyRow>)

  /** Either the loading indicator, or the table's header and body. */
  datatype Content = Loading | Table(header: seq<Option<string>>, body: Body)

  /** Everything the table shows for one render. */
  datatype View = View(
    title: Option<string>,
    searchBox: bool,
    content: Content,
    count: nat,
    page: nat,
    rowsPerPage: nat)

  /** The cell of `column` in `row`: `render(row[key], row)` when the
      column has a callback, otherwise `row[key]`. */
  function RenderCell(column: Column, row: Row): Cell
  {
    var value := Field(row, column.key);
    match column.render
    case Some(fn) => Call(fn, [value, Obj(row)])
    case None => Plain(value)
  }

  /** The body for the rows of the current page: one "No data found" row
      spanning every column when the page is empty, else one row per
      record with one cell per column. */
  function RenderBody(columns: seq<Column>, pageRows: seq<Row>, clickable: bool): (b: Body)
    ensures pageRows == [] ==> b == NoData(|columns|, NoDataText)
    ensures pageRows != [] ==> b.Rows? && |b.rows| == |pageRows|
    ensures pageRows != [] ==> forall i :: 0 <= i < |pageRows| ==>
      && |b.rows[i].cells| == |columns|
      && (forall j :: 0 <= j < |columns| ==> b.rows[i].cells[j] == RenderCell(columns[j], pageRows[i]))
      && b.rows[i].clickPasses == (if clickable then Some(pageRows[i]) else None)
  {
    if pageRows == [] then NoData(|columns|, NoDataText)
    else Rows(seq(|pageRows|, i requires 0 <= i < |pageRows| =>
      BodyRow(seq(|columns|, j requires 0 <= j < |columns| => RenderCell(columns[j], pageRows[i])),
              if clickable then Some(pageRows[i]) else None)))
  }

  function Header(columns: seq<Column>): (h: seq<Option<string>>)
    ensures |h| == |columns| && forall j :: 0 <= j < |columns| ==> h[j] == columns[j].heading
  {
    seq(|columns|, j requires 0 <= j < |columns| => columns[j].heading)
  }

  /** The table's own state. `searchEnabled` is a prop the table never
      changes; without a search box nothing can change the term. */
  class Table {
    const searchEnabled: bool
    var page: nat
    var rowsPerPage: nat
    var searchTerm: string

    ghost predicate Valid()
      reads this
    {
      && rowsPerPage in RowsPerPageOptions
      && (!searchEnabled ==> searchTerm == "")
    }

    constructor (searchEnabled: bool)
      ensures Valid() && this.searchEnabled == searchEnabled
      ensures page == 0 && rowsPerPage == DefaultRowsPerPage && searchTerm == ""
    {
      this.searchEnabled := searchEnabled;
      page := 0;
      rowsPerPage := DefaultRowsPerPage;
      searchTerm := "";
    }

    /** `handleChangePage`: moves to another page and changes nothing else. */
    method ChangePage(newPage: nat)
      requires Valid()
      modifies this
      ensures Valid()
      ensures page == newPage && rowsPerPage == old(rowsPerPage) && searchTerm == old(searchTerm)
    {
      page := newPage;
    }

    /** `handleChangeRowsPerPage`: takes one of the offered sizes and goes
        back to the first page. */
    method ChangeRowsPerPage(newRowsPerPage: nat)
      requires Valid() && newRowsPerPage in RowsPerPageOptions
      modifies this
      ensures Valid()
      ensures rowsPerPage == newRowsPerPage && page == 0 && searchTerm == old(searchTerm)
    {
      rowsPerPage := newRowsPerPage;
      page := 0;
    }

    /** `handleSearch`: takes the typed term and goes back to the first
        page. Only the search box calls it. */
    method Search(term: string)
      requires Valid() && searchEnabled
      modifies this
      ensures Valid()
      ensures searchTerm == term && page == 0 && rowsPerPage == old(rowsPerPage)
    {
      searchTerm := term;
      page := 0;
    }

    /** The rows on the current page. */
    function CurrentPageData(data: seq<Row>): (r: seq<Row>)
      reads this
      ensures |r| <= rowsPerPage
      ensures forall row :: row in r ==> row in data && RowMatches(row, searchTerm)
      ensures r == PageRows(FilteredData(data, searchTerm), page, rowsPerPage)
    {
      PageRows(FilteredData(data, searchTerm), page, rowsPerPage)
    }

    /** One render: the title only when it is a non-empty string
        (`title && ...`), the search box iff search is enabled, the loading
        indicator instead of the table while loading, otherwise the header
        labels and the body of the current page; the pager always counts
        the filtered rows. */
    function Render(columns: seq<Column>, data: seq<Row>, isLoading: bool, clickable: bool, title: Option<string>): (v: View)
      reads this
      ensures v.searchBox == searchEnabled
      ensures v.title == if title.Some? && title.value != "" then title else None
      ensures v.count == |FilteredData(data, searchTerm)|
      ensures v.page == page && v.rowsPerPage == rowsPerPage
      ensures isLoading <==> v.content.Loading?
      ensures !isLoading ==> v.content.header == Header(columns)
      ensures !isLoading ==> v.content.body == RenderBody(columns, CurrentPageData(data), clickable)
    {
      View(if title.Some? && title.value != "" then title else None, searchEnabled,
           if isLoading then Loading else Table(Header(columns), RenderBody(columns, CurrentPageData(data), clickable)),
           |FilteredData(data, searchTerm)|, page, rowsPerPage)
    }
  }

  /** With the search box switched off, every row is eligible and the
      first page shows the first rows of `data`. */
  lemma SearchDisabledShowsData(t: Table, data: seq<Row>)
    requires t.Valid() && !t.searchEnabled
    ensures FilteredData(data, t.searchTerm) == data
    ensures t.page == 0 ==> |t.CurrentPageData(data)| == Min(t.rowsPerPage, |data|)
  {
  }
}
