/** fetch_item_infos: the query text built from the registry and the id
    list, and the list of records built from the rows the query returns. */
module Fetch {
  import opened Wrappers
  import opened Strings
  import opened ColumnRegistry
  import opened ItemRecords

  /** `table.column`, as the SELECT list names a registry entry. */
  function Qualified(c: SelectColumn): (name: string) {
    c.table + "." + c.column
  }

  function QualifiedNames(cols: seq<SelectColumn>): (names: seq<string>)
    ensures |names| == |cols|
    ensures forall i :: 0 <= i < |cols| ==> names[i] == Qualified(cols[i])
  {
    seq(|cols|, i requires 0 <= i < |cols| => Qualified(cols[i]))
  }

  /** The SELECT list: the qualified names joined by commas. */
  function SelectList(cols: seq<SelectColumn>): (list: string) {
    Join(QualifiedNames(cols), ',')
  }

  function Decimals(ids: seq<int>): (ds: seq<string>)
    ensures |ds| == |ids|
    ensures forall i :: 0 <= i < |ids| ==> ds[i] == IntToDecimal(ids[i])
  {
    seq(|ids|, i requires 0 <= i < |ids| => IntToDecimal(ids[i]))
  }

  /** The IN list: the ids in decimal, joined by commas. */
  function IdList(ids: seq<int>): (list: string) {
    Join(Decimals(ids), ',')
  }

  /** The query fetch_item_infos runs. */
  function SelectSql(ids: seq<int>): (sql: string) {
    "SELECT " + SelectList(ColumnInfo()) + " FROM item " + JoinSql() +
    " WHERE item.id IN (" + IdList(ids) + ")"
  }

  /** A qualified name splits back into its table and column. */
  lemma QualifiedSplits(c: SelectColumn)
    requires SqlSafe(c)
    ensures Split(Qualified(c), '.') == [c.table, c.column]
    ensures ',' !in Qualified(c)
  {
    SplitAfterPiece(c.table, '.', c.column);
    SplitWithoutSeparator(c.column, '.');
  }

  /** The SELECT list names every entry, in order: split on the commas, and
      each piece on its dot, it gives back each entry's table and column. */
  lemma SelectListRoundTrip(cols: seq<SelectColumn>)
    requires |cols| >= 1
    requires forall i :: 0 <= i < |cols| ==> SqlSafe(cols[i])
    ensures Split(SelectList(cols), ',') == QualifiedNames(cols)
    ensures forall i :: 0 <= i < |cols| ==> Split(Split(SelectList(cols), ',')[i], '.') == [cols[i].table, cols[i].column]
  {
    var names := QualifiedNames(cols);
    forall i | 0 <= i < |cols|
      ensures ',' !in names[i] && Split(names[i], '.') == [cols[i].table, cols[i].column]
    {
      QualifiedSplits(cols[i]);
    }
    SplitJoin(names, ',');
  }

  /** The SELECT list of column_info() reads back as the 77 registry
      entries' tables and columns, in registry order. */
  lemma SelectListOfRegistry()
    ensures Split(SelectList(ColumnInfo()), ',') == QualifiedNames(ColumnInfo())
    ensures forall i :: 0 <= i < |ColumnInfo()| ==>
      Split(Split(SelectList(ColumnInfo()), ',')[i], '.') == [ColumnInfo()[i].table, ColumnInfo()[i].column]
  {
    SelectListRoundTrip(ColumnInfo());
  }

  /** The IN list reads back as the ids, in order. */
  lemma IdListRoundTrip(ids: seq<int>)
    requires |ids| >= 1
    ensures |Split(IdList(ids), ',')| == |ids|
    ensures forall i :: 0 <= i < |ids| ==> ParseInt(Split(IdList(ids), ',')[i]) == Some(ids[i])
  {
    var ds := Decimals(ids);
    forall i | 0 <= i < |ids|
      ensures ',' !in ds[i] && ParseInt(ds[i]) == Some(ids[i])
    {
      DecimalHasNoComma(ids[i]);
      DecimalRoundTrip(ids[i]);
    }
    SplitJoin(ds, ',');
  }

  /** [ItemInfo(*row) for row in rows]: one record per row, in order; the
      first row of the wrong length raises TypeError. */
  function RecordsOf(rows: seq<seq<Value>>): (r: Result<seq<ItemInfo>, PyError>)
    ensures r.Ok? <==> forall k :: 0 <= k < |rows| ==> |rows[k]| == |ColumnInfo()|
    ensures r.Ok? ==> |r.value| == |rows| && forall k :: 0 <= k < |rows| ==> r.value[k].values == rows[k]
    ensures r.Err? ==> r.error.TypeError?
  {
    if |rows| == 0 then Ok([])
    else
      var first :- FromRow(rows[0]);
      var rest :- RecordsOf(rows[1..]);
      Ok([first] + rest)
  }

  /** fetch_item_infos(connection, item_ids): runs the query and builds one
      record per returned row. */
  function FetchItemInfos(execute: string -> seq<seq<Value>>, ids: seq<int>): (r: Result<seq<ItemInfo>, PyError>)
    ensures r.Ok? ==> |r.value| == |execute(SelectSql(ids))|
    ensures r.Ok? ==> forall k :: 0 <= k < |r.value| ==> r.value[k].values == execute(SelectSql(ids))[k]
  {
    RecordsOf(execute(SelectSql(ids)))
  }
}
