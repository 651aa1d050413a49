/** src/components/common/StatusBadge.js: the coloured badge for a record's
    status, and the older bootstrap table that shares the file. */
module StatusBadge {

  import opened JsValues
  import DataTable

  /** The status-to-colour table of src/utils/formatters.js. */
  const StatusColors: map<string, string> := map["pending" := "warning", "approved" := "success", "rejected" := "danger"]

  const DefaultVariant := "secondary"

  /** The members every plain object inherits from `Object.prototype` whose
      names are all lower case, so that a lower-cased status can name them. */
  const InheritedKeys: set<string> := {"constructor", "__proto__"}

  /** What `STATUS_COLORS[key] || 'secondary'` yields as written: a colour
      name, or an inherited member of `Object.prototype` (a function or an
      object, both truthy) that then becomes the badge's `bg`. */
  datatype Lookup = Colour(name: string) | InheritedMember(key: string)

  /** The badge colour as the source computes it. */
  function VariantAsWritten(status: string): (r: Lookup)
    ensures Lower(status) in StatusColors ==> r == Colour(StatusColors[Lower(status)])
    ensures Lower(status) !in StatusColors && Lower(status) in InheritedKeys ==> r == InheritedMember(Lower(status))
    ensures Lower(status) !in StatusColors && Lower(status) !in InheritedKeys ==> r == Colour(DefaultVariant)
  {
    var key := Lower(status);
    if key in StatusColors then Colour(StatusColors[key])
    else if key in InheritedKeys then InheritedMember(key)
    else Colour(DefaultVariant)
  }

  /** A status spelled "Constructor" (any case) makes the badge's colour
      the `Object` function instead of a colour name. */
  lemma ConstructorStatusLeaks()
    ensures VariantAsWritten("Constructor") == InheritedMember("constructor")
    ensures VariantAsWritten("__proto__") == InheritedMember("__proto__")
  {
    assert Lower("Constructor") == "constructor";
    assert Lower("__proto__") == "__proto__";
  }

  /** The badge colour, looking at the table's own keys only: always one
      of the four bootstrap colours the table and the fallback name. */
  function Variant(status: string): (r: string)
    ensures r in StatusColors.Values || r == DefaultVariant
    ensures Lower(status) in StatusColors <==> r != DefaultVariant
  {
    var key := Lower(status);
    if key in StatusColors then StatusColors[key] else DefaultVariant
  }

  /** The three known statuses get their colours in any spelling; the
      colour depends on the status only up to case. */
  lemma VariantIgnoresCase(status: string)
    ensures Variant(status) == Variant(Lower(status)) == Variant(Upper(status))
    ensures Variant("Pending") == "warning" && Variant("APPROVED") == "success" && Variant("rejected") == "danger"
  {
    LowerIdempotent(status);
    LowerOfUpper(status);
    assert Lower("Pending") == "pending";
    assert Lower("APPROVED") == "approved";
    assert Lower("rejected") == "rejected";
  }

  /** Except for the two inherited names, the source's lookup is the
      own-key lookup. */
  lemma AsWrittenAgreesOutsideInheritedKeys(status: string)
    requires Lower(status) !in InheritedKeys
    ensures VariantAsWritten(status) == Colour(Variant(status))
  {
  }

  /** The badge text: the first character upper-cased, the rest as given. */
  function Label(status: string): (r: string)
    ensures |r| == |status|
    ensures status != "" ==> r[0] == UpperChar(status[0]) && r[1..] == status[1..]
  {
    if status == "" then "" else [UpperChar(status[0])] + status[1..]
  }

  /** The text differs from the status only in the case of its first
      letter, and capitalising twice changes nothing more. */
  lemma LabelProperties(status: string)
    ensures Lower(Label(status)) == Lower(status)
    ensures Label(Label(status)) == Label(status)
  {
    if status != "" {
      var r := Label(status);
      assert LowerChar(UpperChar(status[0])) == LowerChar(status[0]);
      forall i | 1 <= i < |status|
        ensures r[i] == status[i]
      {
        assert r[1..][i - 1] == status[1..][i - 1];
      }
      assert UpperChar(UpperChar(status[0])) == UpperChar(status[0]);
      assert Label(r) == [UpperChar(r[0])] + r[1..];
    }
  }

  // ---------------------------------------------------------------------
  // The bootstrap table

  const DefaultKeyField := "id"
  const ActionsHeading := "Actions"
  const NoDataText := "No data available"

  /** One rendered row: its React key, its cells, the cell drawn by the
      action callback, and the item passed to `onRowClick`. */
  datatype Row = Row(key: Value, cells: seq<DataTable.Cell>, action: Option<DataTable.Cell>, clickPasses: Option<Value>)

  datatype Body = NoData(colSpan: nat, text: string) | Rows(rows: seq<Row>)

  datatype View = Spinner | Table(header: seq<Option<string>>, body: Body)

  /** The header cell texts: each column's `title`, then "Actions" when an
      action callback is given. */
  function BootstrapHeader(columns: seq<DataTable.Column>, hasAction: bool): (h: seq<Option<string>>)
    ensures |h| == |columns| + (if hasAction then 1 else 0)
    ensures forall j :: 0 <= j < |columns| ==> h[j] == columns[j].title
    ensures hasAction ==> h[|columns|] == Some(ActionsHeading)
  {
    seq(|columns|, j requires 0 <= j < |columns| => columns[j].title) + (if hasAction then [Some(ActionsHeading)] else [])
  }

  /** A cell: `render(item)` when the column has a callback (the item
      alone, unlike the other table), otherwise `item[key]`. */
  function BootstrapCell(column: DataTable.Column, item: Value): DataTable.Cell
  {
    match column.render
    case Some(fn) => DataTable.Call(fn, [item])
    case None => DataTable.Plain(Get(item, column.key))
  }

  function BootstrapRow(columns: seq<DataTable.Column>, item: Value, action: Option<DataTable.Renderer>, clickable: bool, keyField: string): Row
  {
    Row(Get(item, keyField),
        seq(|columns|, j requires 0 <= j < |columns| => BootstrapCell(columns[j], item)),
        match action { case Some(fn) => Some(DataTable.Call(fn, [item])) case None => None },
        if clickable then Some(item) else None)
  }

  /** One render of the bootstrap table. Reading a field of a null or
      undefined item throws, so such data yields no view at all. */
  function RenderBootstrap(columns: seq<DataTable.Column>, data: seq<Value>, isLoading: bool,
                           action: Option<DataTable.Renderer>, clickable: bool, keyField: string): (v: Option<View>)
    ensures isLoading ==> v == Some(Spinner)
    ensures !isLoading ==> (v.None? <==> exists item :: item in data && (item.Null? || item.Undefined?))
    ensures v.Some? && !isLoading ==> v.value.Table? && v.value.header == BootstrapHeader(columns, action.Some?)
    ensures v.Some? && !isLoading && data == [] ==>
      v.value.body == NoData(|columns| + (if action.Some? then 1 else 0), NoDataText)
    ensures v.Some? && !isLoading && data != [] ==>
      && v.value.body.Rows? && |v.value.body.rows| == |data|
      && forall i :: 0 <= i < |data| ==> v.value.body.rows[i] == BootstrapRow(columns, data[i], action, clickable, keyField)
  {
    if isLoading then Some(Spinner)
    else if exists item :: item in data && (item.Null? || item.Undefined?) then None
    else
      var header := BootstrapHeader(columns, action.Some?);
      if data == [] then Some(Table(header, NoData(|columns| + (if action.Some? then 1 else 0), NoDataText)))
      else Some(Table(header, Rows(seq(|data|, i requires 0 <= i < |data| =>
        BootstrapRow(columns, data[i], action, clickable, keyField)))))
  }

  /** The table is rectangular: the "No data available" cell spans the
      whole header, and every row has one cell per header cell, keyed by
      the item's key field. */
  lemma BootstrapTableIsRectangular(columns: seq<DataTable.Column>, data: seq<Value>,
                                    action: Option<DataTable.Renderer>, clickable: bool, keyField: string)
    requires forall item :: item in data ==> !item.Null? && !item.Undefined?
    ensures var v := RenderBootstrap(columns, data, false, action, clickable, keyField);
      && v.Some? && v.value.Table?
      && (v.value.body.NoData? ==> v.value.body.colSpan == |v.value.header|)
      && (v.value.body.Rows? ==> forall i :: 0 <= i < |v.value.body.rows| ==>
            |v.value.body.rows[i].cells| + (if v.value.body.rows[i].action.Some? then 1 else 0) == |v.value.header|
            && v.value.body.rows[i].key == Get(data[i], keyField))
  {
  }

  /** The same column description draws different cells in the two
      tables: here `render` receives the record alone, there the field
      value followed by the record, and only the other table reads
      `label` for its header. */
  lemma RenderConventionsDiffer(column: DataTable.Column, row: JsValues.Row)
    requires column.render.Some?
    ensures BootstrapCell(column, Obj(row)) == DataTable.Call(column.render.value, [Obj(row)])
    ensures DataTable.RenderCell(column, row) == DataTable.Call(column.render.value, [Field(row, column.key), Obj(row)])
  {
  }
}
