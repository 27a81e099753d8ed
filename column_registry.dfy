/** The column registry of the item projection (miro.data.item): the fixed,
    ordered list of (table, column, attribute name) triples from which the
    record's field names, the SELECT list and the LEFT JOIN clause are built;
    the field-name check the record type goes through; and the
    (table, column) -> schema-item dictionary filled once at start-up. */
module ColumnRegistry {
  import opened Wrappers
  import Strings

  /** One selected column: the table that holds it, its name there, and the
      attribute name it gets in the record, which defaults to the column name. */
  datatype SelectColumn = SelectColumn(table: string, column: string, attrName: string := column)

  /** The Python exceptions this part of the module raises. */
  datatype RegistryError = KeyError(table: string, column: string) | ValueError(message: string)

  // ---------------------------------------------------------------------
  // The registry, in source order.  It is written as consecutive runs so
  // that the facts about it can be proved run by run.
  // ---------------------------------------------------------------------

  /** Entries for the item table, item.py lines 81-87. */
  const ItemColumns1: seq<SelectColumn> := [
    SelectColumn("item", "id"),
    SelectColumn("item", "new"),
    SelectColumn("item", "title"),
    SelectColumn("item", "feed_id"),
    SelectColumn("item", "parent_id"),
    SelectColumn("item", "parent_title"),
    SelectColumn("item", "downloader_id")
  ]

  /** Entries for the item table, item.py lines 88-94. */
  const ItemColumns2: seq<SelectColumn> := [
    SelectColumn("item", "is_file_item"),
    SelectColumn("item", "pending_manual_download"),
    SelectColumn("item", "pending_reason"),
    SelectColumn("item", "expired"),
    SelectColumn("item", "keep"),
    SelectColumn("item", "creation_time", "date_added"),
    SelectColumn("item", "downloaded_time")
  ]

  /** Entries for the item table, item.py lines 95-101. */
  const ItemColumns3: seq<SelectColumn> := [
    SelectColumn("item", "watched_time"),
    SelectColumn("item", "last_watched"),
    SelectColumn("item", "subtitle_encoding"),
    SelectColumn("item", "is_container_item"),
    SelectColumn("item", "release_date"),
    SelectColumn("item", "duration", "duration_ms"),
    SelectColumn("item", "screenshot")
  ]

  /** Entries for the item table, item.py lines 102-108. */
  const ItemColumns4: seq<SelectColumn> := [
    SelectColumn("item", "resume_time"),
    SelectColumn("item", "license"),
    SelectColumn("item", "rss_id"),
    SelectColumn("item", "entry_description"),
    SelectColumn("item", "enclosure_type", "mime_type"),
    SelectColumn("item", "enclosure_format"),
    SelectColumn("item", "enclosure_size")
  ]

  /** Entries for the item table, item.py lines 109-115. */
  const ItemColumns5: seq<SelectColumn> := [
    SelectColumn("item", "link", "permalink"),
    SelectColumn("item", "payment_link"),
    SelectColumn("item", "comments_link"),
    SelectColumn("item", "url"),
    SelectColumn("item", "was_downloaded"),
    SelectColumn("item", "filename", "raw_filename"),
    SelectColumn("item", "play_count")
  ]

  /** Entries for the item table, item.py lines 116-122. */
  const ItemColumns6: seq<SelectColumn> := [
    SelectColumn("item", "skip_count"),
    SelectColumn("item", "cover_art"),
    SelectColumn("item", "description"),
    SelectColumn("item", "album"),
    SelectColumn("item", "album_artist"),
    SelectColumn("item", "artist"),
    SelectColumn("item", "track")
  ]

  /** Entries for the item table, item.py lines 123-129. */
  const ItemColumns7: seq<SelectColumn> := [
    SelectColumn("item", "album_tracks"),
    SelectColumn("item", "year"),
    SelectColumn("item", "genre"),
    SelectColumn("item", "rating"),
    SelectColumn("item", "file_type"),
    SelectColumn("item", "has_drm"),
    SelectColumn("item", "show")
  ]

  /** Entries for the item table, item.py lines 130-135. */
  const ItemColumns8: seq<SelectColumn> := [
    SelectColumn("item", "episode_id"),
    SelectColumn("item", "episode_number"),
    SelectColumn("item", "season_number"),
    SelectColumn("item", "kind"),
    SelectColumn("item", "net_lookup_enabled"),
    SelectColumn("item", "eligible_for_autodownload")
  ]

  /** Entries for the feed table, item.py lines 136-140. */
  const FeedColumns: seq<SelectColumn> := [
    SelectColumn("feed", "orig_url", "feed_url"),
    SelectColumn("feed", "expire", "feed_expire"),
    SelectColumn("feed", "expireTime", "feed_expire_time"),
    SelectColumn("feed", "autoDownloadable", "feed_auto_downloadable"),
    SelectColumn("feed", "getEverything", "feed_get_everything")
  ]

  /** Entries for the icon_cache table, item.py line 141. */
  const IconCacheColumns: seq<SelectColumn> := [
    SelectColumn("icon_cache", "filename", "raw_icon_cache_filename")
  ]

  /** Entries for the remote_downloader table, item.py lines 142-150. */
  const DownloaderColumns1: seq<SelectColumn> := [
    SelectColumn("remote_downloader", "content_type", "downloader_content_type"),
    SelectColumn("remote_downloader", "state", "downloader_state"),
    SelectColumn("remote_downloader", "reason_failed"),
    SelectColumn("remote_downloader", "short_reason_failed"),
    SelectColumn("remote_downloader", "type", "downloader_type"),
    SelectColumn("remote_downloader", "retry_time"),
    SelectColumn("remote_downloader", "eta"),
    SelectColumn("remote_downloader", "rate")
  ]

  /** Entries for the remote_downloader table, item.py lines 151-158. */
  const DownloaderColumns2: seq<SelectColumn> := [
    SelectColumn("remote_downloader", "upload_rate"),
    SelectColumn("remote_downloader", "current_size", "downloaded_size"),
    SelectColumn("remote_downloader", "total_size", "downloader_size"),
    SelectColumn("remote_downloader", "upload_size"),
    SelectColumn("remote_downloader", "activity", "startup_activity"),
    SelectColumn("remote_downloader", "seeders"),
    SelectColumn("remote_downloader", "leechers"),
    SelectColumn("remote_downloader", "connections")
  ]

  const Registry: seq<SelectColumn> :=
    ItemColumns1 + ItemColumns2 + ItemColumns3 + ItemColumns4 +
    ItemColumns5 + ItemColumns6 + ItemColumns7 + ItemColumns8 +
    FeedColumns + IconCacheColumns + DownloaderColumns1 + DownloaderColumns2

  /** Number of entries in the registry (one per record field). */
  const ColumnCount: nat := 77

  /** The attribute is a non-empty name that does not start with an
      underscore, as namedtuple demands of its fields. */
  predicate PublicAttr(c: SelectColumn) {
    |c.attrName| > 0 && c.attrName[0] != '_'
  }

  /** Neither the list separator ',' nor the qualifier separator '.'. */
  predicate NoSeparator(s: string) {
    ',' !in s && '.' !in s
  }

  /** Table and column can be written as `table.column` inside a
      comma-separated list and read back. */
  predicate SqlSafe(c: SelectColumn) {
    NoSeparator(c.table) && NoSeparator(c.column)
  }

  predicate DistinctAttrs(cols: seq<SelectColumn>) {
    forall i, j :: 0 <= i < j < |cols| ==> cols[i].attrName != cols[j].attrName
  }

  predicate DisjointAttrs(a: seq<SelectColumn>, b: seq<SelectColumn>) {
    forall i, j :: 0 <= i < |a| && 0 <= j < |b| ==> a[i].attrName != b[j].attrName
  }

  predicate Distinct(names: seq<string>) {
    forall i, j :: 0 <= i < j < |names| ==> names[i] != names[j]
  }

  /** column_info(): the registry. Every entry is SQL-safe and carries a
      public attribute name, and the attribute names are pairwise distinct. */
  function ColumnInfo(): (cols: seq<SelectColumn>)
    ensures |cols| == ColumnCount
    ensures DistinctAttrs(cols)
    ensures forall i :: 0 <= i < |cols| ==> PublicAttr(cols[i])
    ensures forall i :: 0 <= i < |cols| ==> SqlSafe(cols[i])
  {
    RegistryFacts();
    RegistrySqlSafe();
    Registry
  }

  /** The attribute names of a list of columns, in order. */
  function AttrNames(cols: seq<SelectColumn>): (names: seq<string>)
    ensures |names| == |cols|
    ensures forall i :: 0 <= i < |cols| ==> names[i] == cols[i].attrName
  {
    seq(|cols|, i requires 0 <= i < |cols| => cols[i].attrName)
  }

  /** SelectColumn(table, column, attr_name=None): the attribute name is the
      column name unless one is given. */
  lemma DefaultAttrName(table: string, column: string, attrName: string)
    ensures SelectColumn(table, column).attrName == column
    ensures SelectColumn(table, column, attrName).attrName == attrName
    ensures SelectColumn(table, column).table == table && SelectColumn(table, column).column == column
  {
  }

  // ---------------------------------------------------------------------
  // The field names of the record type
  // ---------------------------------------------------------------------

  /** A field name namedtuple accepts: not empty and not starting with an
      underscore. */
  predicate ValidFieldName(name: string) {
    |name| > 0 && name[0] != '_'
  }

  /** namedtuple's pass over its field names, in order, remembering those
      already seen: a name starting with an underscore or one seen before
      raises ValueError. */
  function CheckFieldNames(names: seq<string>, seen: set<string>): (r: Result<(), RegistryError>)
    ensures r.Ok? <==> Distinct(names) && forall i :: 0 <= i < |names| ==> ValidFieldName(names[i]) && names[i] !in seen
    ensures r.Err? ==> r.error.ValueError?
    decreases |names|
  {
    if |names| == 0 then Ok(())
    else if !ValidFieldName(names[0]) then Err(ValueError("Field names cannot start with an underscore"))
    else if names[0] in seen then Err(ValueError("Encountered duplicate field name"))
    else CheckFieldNames(names[1..], seen + {names[0]})
  }

  /** ItemRow = namedtuple("ItemRow", [attribute names]): the registry's
      attribute names are accepted as field names. */
  lemma ItemRowFieldsAccepted()
    ensures CheckFieldNames(AttrNames(ColumnInfo()), {}).Ok?
  {
    var cols := ColumnInfo();
    var names := AttrNames(cols);
    assert forall i, j :: 0 <= i < j < |names| ==> names[i] != names[j] by {
      assert DistinctAttrs(cols);
    }
  }

  // ---------------------------------------------------------------------
  // The join clause
  // ---------------------------------------------------------------------

  /** A table joined to item: its rows match item's `key` column on their id. */
  datatype LeftJoin = LeftJoin(table: string, key: string)

  const Joins: seq<LeftJoin> := [
    LeftJoin("feed", "feed_id"),
    LeftJoin("remote_downloader", "downloader_id"),
    LeftJoin("icon_cache", "icon_cache_id")
  ]

  function JoinClause(j: LeftJoin): (line: string) {
    "LEFT JOIN " + j.table + " ON " + j.table + ".id=item." + j.key
  }

  function JoinClauses(js: seq<LeftJoin>): (lines: seq<string>)
    ensures |lines| == |js|
    ensures forall k :: 0 <= k < |js| ==> lines[k] == JoinClause(js[k])
  {
    seq(|js|, k requires 0 <= k < |js| => JoinClause(js[k]))
  }

  /** join_sql(): one LEFT JOIN line per related table. */
  function JoinSql(): (sql: string) {
    Strings.Join(JoinClauses(Joins), '\n')
  }

  /** A clause has no line break when its table and key have none. */
  lemma ClauseHasNoNewline(j: LeftJoin)
    requires '\n' !in j.table && '\n' !in j.key
    ensures '\n' !in JoinClause(j)
  {
  }

  lemma JoinNamesHaveNoNewline(k: nat)
    requires k < |Joins|
    ensures '\n' !in Joins[k].table && '\n' !in Joins[k].key
  {
  }

  /** join_sql() reads back, line by line, as one LEFT JOIN clause per
      related table, in order. */
  lemma JoinSqlLines()
    ensures Strings.Split(JoinSql(), '\n') == JoinClauses(Joins)
  {
    var cs := JoinClauses(Joins);
    forall k | 0 <= k < |cs|
      ensures '\n' !in cs[k]
    {
      JoinNamesHaveNoNewline(k);
      ClauseHasNoNewline(Joins[k]);
    }
    Strings.SplitJoin(cs, '\n');
  }

  /** A table the registry selects from is item or one joined to it. */
  predicate Reachable(table: string) {
    table == "item" || exists k :: 0 <= k < |Joins| && Joins[k].table == table
  }


  predicate AllReachable(cols: seq<SelectColumn>) {
    forall i :: 0 <= i < |cols| ==> Reachable(cols[i].table)
  }

  lemma AllReachableAppend(a: seq<SelectColumn>, b: seq<SelectColumn>)
    requires AllReachable(a) && AllReachable(b)
    ensures AllReachable(a + b)
  {
    forall i | 0 <= i < |a + b|
      ensures Reachable((a + b)[i].table)
    {
      if i >= |a| {
        assert (a + b)[i] == b[i - |a|];
      }
    }
  }

  lemma ItemTablesReachable()
    ensures forall i :: 0 <= i < |ItemColumns1| ==> ItemColumns1[i].table == "item"
    ensures forall i :: 0 <= i < |ItemColumns2| ==> ItemColumns2[i].table == "item"
    ensures forall i :: 0 <= i < |ItemColumns3| ==> ItemColumns3[i].table == "item"
    ensures forall i :: 0 <= i < |ItemColumns4| ==> ItemColumns4[i].table == "item"
    ensures forall i :: 0 <= i < |ItemColumns5| ==> ItemColumns5[i].table == "item"
    ensures forall i :: 0 <= i < |ItemColumns6| ==> ItemColumns6[i].table == "item"
    ensures forall i :: 0 <= i < |ItemColumns7| ==> ItemColumns7[i].table == "item"
    ensures forall i :: 0 <= i < |ItemColumns8| ==> ItemColumns8[i].table == "item"
  {
  }

  lemma RelatedTablesReachable()
    ensures forall i :: 0 <= i < |FeedColumns| ==> FeedColumns[i].table == Joins[0].table
    ensures forall i :: 0 <= i < |DownloaderColumns1| ==> DownloaderColumns1[i].table == Joins[1].table
    ensures forall i :: 0 <= i < |DownloaderColumns2| ==> DownloaderColumns2[i].table == Joins[1].table
    ensures forall i :: 0 <= i < |IconCacheColumns| ==> IconCacheColumns[i].table == Joins[2].table
  {
  }

  /** Every column the SELECT list names belongs to item or to a table the
      join clause brings in, so no selected column is left unbound. */
  lemma RegistryTablesJoined()
    ensures AllReachable(ColumnInfo())
  {
    ItemTablesReachable();
    RelatedTablesReachable();
    assert AllReachable(ItemColumns1);
    assert AllReachable(ItemColumns2);
    AllReachableAppend(ItemColumns1, ItemColumns2);
    assert AllReachable(ItemColumns3);
    AllReachableAppend(ItemColumns1 + ItemColumns2, ItemColumns3);
    assert AllReachable(ItemColumns4);
    AllReachableAppend(ItemColumns1 + ItemColumns2 + ItemColumns3, ItemColumns4);
    assert AllReachable(ItemColumns5);
    AllReachableAppend(ItemColumns1 + ItemColumns2 + ItemColumns3 + ItemColumns4, ItemColumns5);
    assert AllReachable(ItemColumns6);
    AllReachableAppend(ItemColumns1 + ItemColumns2 + ItemColumns3 + ItemColumns4 + ItemColumns5, ItemColumns6);
    assert AllReachable(ItemColumns7);
    AllReachableAppend(ItemColumns1 + ItemColumns2 + ItemColumns3 + ItemColumns4 + ItemColumns5 + ItemColumns6, ItemColumns7);
    assert AllReachable(ItemColumns8);
    AllReachableAppend(ItemColumns1 + ItemColumns2 + ItemColumns3 + ItemColumns4 + ItemColumns5 + ItemColumns6 + ItemColumns7, ItemColumns8);
    assert AllReachable(FeedColumns);
    AllReachableAppend(ItemColumns1 + ItemColumns2 + ItemColumns3 + ItemColumns4 + ItemColumns5 + ItemColumns6 + ItemColumns7 + ItemColumns8, FeedColumns);
    assert AllReachable(IconCacheColumns);
    AllReachableAppend(ItemColumns1 + ItemColumns2 + ItemColumns3 + ItemColumns4 + ItemColumns5 + ItemColumns6 + ItemColumns7 + ItemColumns8 + FeedColumns, IconCacheColumns);
    assert AllReachable(DownloaderColumns1);
    AllReachableAppend(ItemColumns1 + ItemColumns2 + ItemColumns3 + ItemColumns4 + ItemColumns5 + ItemColumns6 + ItemColumns7 + ItemColumns8 + FeedColumns + IconCacheColumns, DownloaderColumns1);
    assert AllReachable(DownloaderColumns2);
    AllReachableAppend(ItemColumns1 + ItemColumns2 + ItemColumns3 + ItemColumns4 + ItemColumns5 + ItemColumns6 + ItemColumns7 + ItemColumns8 + FeedColumns + IconCacheColumns + DownloaderColumns1, DownloaderColumns2);
  }

  // ---------------------------------------------------------------------
  // The schema map
  // ---------------------------------------------------------------------

  /** One table of the schema: its name and its (column, schema item) pairs. */
  datatype ObjectSchema<S> = ObjectSchema(tableName: string, fields: seq<(string, S)>)

  /** The ((table, column), item) entries of one table, in field order. */
  function FieldEntries<S>(o: ObjectSchema<S>): (e: seq<((string, string), S)>)
    ensures |e| == |o.fields|
    ensures forall k :: 0 <= k < |e| ==> e[k] == ((o.tableName, o.fields[k].0), o.fields[k].1)
  {
    seq(|o.fields|, k requires 0 <= k < |o.fields| => ((o.tableName, o.fields[k].0), o.fields[k].1))
  }

  /** All entries, table by table, in the order the class body visits them. */
  function SchemaEntries<S>(schemas: seq<ObjectSchema<S>>): (entries: seq<((string, string), S)>) {
    if |schemas| == 0 then [] else SchemaEntries(schemas[..|schemas| - 1]) + FieldEntries(schemas[|schemas| - 1])
  }

  /** The dictionary that assigning the entries in order leaves behind. */
  function MapOf<K, V>(entries: seq<(K, V)>): (m: map<K, V>) {
    if |entries| == 0 then map[]
    else MapOf(entries[..|entries| - 1])[entries[|entries| - 1].0 := entries[|entries| - 1].1]
  }

  /** The keys of the dictionary are the keys of the entries. */
  lemma {:induction false} MapOfKeys<K, V>(entries: seq<(K, V)>, key: K)
    ensures key in MapOf(entries) <==> exists i :: 0 <= i < |entries| && entries[i].0 == key
  {
    if |entries| > 0 {
      var init := entries[..|entries| - 1];
      MapOfKeys(init, key);
      if key in MapOf(init) {
        var i :| 0 <= i < |init| && init[i].0 == key;
        assert entries[i].0 == key;
      }
      if exists i :: 0 <= i < |entries| && entries[i].0 == key {
        var i :| 0 <= i < |entries| && entries[i].0 == key;
        if i < |init| {
          assert init[i].0 == key;
        }
      }
    }
  }

  /** A key maps to the value of its last entry: later assignments win. */
  lemma {:induction false} MapOfLastWins<K, V>(entries: seq<(K, V)>, i: nat)
    requires i < |entries|
    requires forall j :: i < j < |entries| ==> entries[j].0 != entries[i].0
    ensures entries[i].0 in MapOf(entries) && MapOf(entries)[entries[i].0] == entries[i].1
  {
    if i < |entries| - 1 {
      var init := entries[..|entries| - 1];
      assert init[i] == entries[i];
      MapOfLastWins(init, i);
    }
  }

  /** Assigning one more entry updates the dictionary at its key. */
  lemma MapOfSnoc<K, V>(entries: seq<(K, V)>, key: K, value: V)
    ensures MapOf(entries + [(key, value)]) == MapOf(entries)[key := value]
  {
    assert (entries + [(key, value)])[..|entries|] == entries;
  }

  /** One more table appends its entries. */
  lemma SchemaEntriesSnoc<S>(schemas: seq<ObjectSchema<S>>, i: nat)
    requires i < |schemas|
    ensures SchemaEntries(schemas[..i + 1]) == SchemaEntries(schemas[..i]) + FieldEntries(schemas[i])
  {
    assert schemas[..i + 1][..i] == schemas[..i];
  }

  /** One more field of a table assigns its entry. */
  lemma FieldEntriesSnoc<S>(before: seq<((string, string), S)>, o: ObjectSchema<S>, j: nat)
    requires j < |o.fields|
    ensures MapOf(before + FieldEntries(o)[..j + 1]) == MapOf(before + FieldEntries(o)[..j])[(o.tableName, o.fields[j].0) := o.fields[j].1]
  {
    assert before + FieldEntries(o)[..j + 1] == before + FieldEntries(o)[..j] + [((o.tableName, o.fields[j].0), o.fields[j].1)];
    MapOfSnoc(before + FieldEntries(o)[..j], (o.tableName, o.fields[j].0), o.fields[j].1);
  }

  /** The class-body loop filling _schema_map: every table's every field,
      keyed by (table name, column name). */
  method BuildSchemaMap<S>(schemas: seq<ObjectSchema<S>>) returns (m: map<(string, string), S>)
    ensures m == MapOf(SchemaEntries(schemas))
  {
    m := map[];
    for i := 0 to |schemas|
      invariant m == MapOf(SchemaEntries(schemas[..i]))
    {
      var o := schemas[i];
      ghost var before := SchemaEntries(schemas[..i]);
      assert before + FieldEntries(o)[..0] == before;
      for j := 0 to |o.fields|
        invariant m == MapOf(before + FieldEntries(o)[..j])
      {
        var (column, item) := o.fields[j];
        FieldEntriesSnoc(before, o, j);
        m := m[(o.tableName, column) := item];
      }
      assert FieldEntries(o)[..|o.fields|] == FieldEntries(o);
      SchemaEntriesSnoc(schemas, i);
    }
    assert schemas[..|schemas|] == schemas;
  }

  /** A table of the schema declares a field of the column's name. */
  predicate Declared<S>(schemas: seq<ObjectSchema<S>>, table: string, column: string) {
    exists s, k :: 0 <= s < |schemas| && 0 <= k < |schemas[s].fields| &&
      schemas[s].tableName == table && schemas[s].fields[k].0 == column
  }

  /** Some entry has the (table, column) key. */
  predicate HasEntry<S>(entries: seq<((string, string), S)>, table: string, column: string) {
    exists i :: 0 <= i < |entries| && entries[i].0 == (table, column)
  }

  /** Every entry comes from a declared field. */
  lemma {:induction false} EntriesAreDeclared<S>(schemas: seq<ObjectSchema<S>>, table: string, column: string)
    requires HasEntry(SchemaEntries(schemas), table, column)
    ensures Declared(schemas, table, column)
  {
    var init := schemas[..|schemas| - 1];
    var last := schemas[|schemas| - 1];
    var e := SchemaEntries(schemas);
    var i :| 0 <= i < |e| && e[i].0 == (table, column);
    if i < |SchemaEntries(init)| {
      assert SchemaEntries(init)[i] == e[i];
      EntriesAreDeclared(init, table, column);
      var s, k :| 0 <= s < |init| && 0 <= k < |init[s].fields| &&
        init[s].tableName == table && init[s].fields[k].0 == column;
      assert schemas[s] == init[s];
    } else {
      assert FieldEntries(last)[i - |SchemaEntries(init)|] == e[i];
    }
  }

  /** Every declared field has an entry. */
  lemma {:induction false} DeclaredHaveEntries<S>(schemas: seq<ObjectSchema<S>>, table: string, column: string)
    requires Declared(schemas, table, column)
    ensures HasEntry(SchemaEntries(schemas), table, column)
  {
    var init := schemas[..|schemas| - 1];
    var last := schemas[|schemas| - 1];
    var e := SchemaEntries(schemas);
    var s, k :| 0 <= s < |schemas| && 0 <= k < |schemas[s].fields| &&
      schemas[s].tableName == table && schemas[s].fields[k].0 == column;
    if s < |init| {
      assert init[s] == schemas[s];
      DeclaredHaveEntries(init, table, column);
      var i :| 0 <= i < |SchemaEntries(init)| && SchemaEntries(init)[i].0 == (table, column);
      assert e[i] == SchemaEntries(init)[i];
    } else {
      assert e[|SchemaEntries(init)| + k] == FieldEntries(last)[k];
    }
  }

  /** sqlite_type: the schema item of the column's (table, column) pair, or
      KeyError when the schema does not declare it, handed to the database's
      type lookup. */
  function SqliteType<S>(schemaMap: map<(string, string), S>, c: SelectColumn, typeOf: S -> string): (r: Result<string, RegistryError>)
    ensures r.Err? <==> (c.table, c.column) !in schemaMap
    ensures r.Err? ==> r.error == KeyError(c.table, c.column)
  {
    if (c.table, c.column) in schemaMap then Ok(typeOf(schemaMap[(c.table, c.column)]))
    else Err(KeyError(c.table, c.column))
  }

  /** A column has a type exactly when some table of the schema of its name
      declares a field of its name. */
  lemma SqliteTypeDeclared<S>(schemas: seq<ObjectSchema<S>>, c: SelectColumn, typeOf: S -> string)
    ensures SqliteType(MapOf(SchemaEntries(schemas)), c, typeOf).Ok? <==> Declared(schemas, c.table, c.column)
  {
    MapOfKeys(SchemaEntries(schemas), (c.table, c.column));
    if HasEntry(SchemaEntries(schemas), c.table, c.column) {
      EntriesAreDeclared(schemas, c.table, c.column);
    }
    if Declared(schemas, c.table, c.column) {
      DeclaredHaveEntries(schemas, c.table, c.column);
    }
  }

  // The registry's facts are proved run by run: one lemma per run of about
  // seven entries, and one per pair of runs for the disjointness of their
  // attribute names.  Stated over the whole 77-entry list at once, the
  // comparisons of string literals exceed the verifier's resource limit.

  // SQL safety is proved entry by entry, then run by run, like the facts
  // above: one literal's characters at a time keeps each proof small.

  /** Every entry of a list of columns is SQL-safe. */
  predicate AllSqlSafe(cols: seq<SelectColumn>) {
    forall i :: 0 <= i < |cols| ==> SqlSafe(cols[i])
  }

  lemma AllSqlSafeAppend(a: seq<SelectColumn>, b: seq<SelectColumn>)
    requires AllSqlSafe(a) && AllSqlSafe(b)
    ensures AllSqlSafe(a + b)
  {
  }

  lemma ItemColumns1Names0()
    ensures NoSeparator("item") && NoSeparator("id")
  {
  }

  lemma ItemColumns1Safe0()
    ensures SqlSafe(ItemColumns1[0])
  {
    ItemColumns1Names0();
    assert ItemColumns1[0] == SelectColumn("item", "id");
  }

  lemma ItemColumns1Names1()
    ensures NoSeparator("item") && NoSeparator("new")
  {
  }

  lemma ItemColumns1Safe1()
    ensures SqlSafe(ItemColumns1[1])
  {
    ItemColumns1Names1();
    assert ItemColumns1[1] == SelectColumn("item", "new");
  }

  lemma ItemColumns1Names2()
    ensures NoSeparator("item") && NoSeparator("title")
  {
  }

  lemma ItemColumns1Safe2()
    ensures SqlSafe(ItemColumns1[2])
  {
    ItemColumns1Names2();
    assert ItemColumns1[2] == SelectColumn("item", "title");
  }

  lemma ItemColumns1Names3()
    ensures NoSeparator("item") && NoSeparator("feed_id")
  {
  }

  lemma ItemColumns1Safe3()
    ensures SqlSafe(ItemColumns1[3])
  {
    ItemColumns1Names3();
    assert ItemColumns1[3] == SelectColumn("item", "feed_id");
  }

  lemma ItemColumns1Names4()
    ensures NoSeparator("item") && NoSeparator("parent_id")
  {
  }

  lemma ItemColumns1Safe4()
    ensures SqlSafe(ItemColumns1[4])
  {
    ItemColumns1Names4();
    assert ItemColumns1[4] == SelectColumn("item", "parent_id");
  }

  lemma ItemColumns1Names5()
    ensures NoSeparator("item") && NoSeparator("parent_title")
  {
  }

  lemma ItemColumns1Safe5()
    ensures SqlSafe(ItemColumns1[5])
  {
    ItemColumns1Names5();
    assert ItemColumns1[5] == SelectColumn("item", "parent_title");
  }

  lemma ItemColumns1Names6()
    ensures NoSeparator("item") && NoSeparator("downloader_id")
  {
  }

  lemma ItemColumns1Safe6()
    ensures SqlSafe(ItemColumns1[6])
  {
    ItemColumns1Names6();
    assert ItemColumns1[6] == SelectColumn("item", "downloader_id");
  }

  lemma ItemColumns1Safe()
    ensures AllSqlSafe(ItemColumns1)
  {
    ItemColumns1Safe0();
    ItemColumns1Safe1();
    ItemColumns1Safe2();
    ItemColumns1Safe3();
    ItemColumns1Safe4();
    ItemColumns1Safe5();
    ItemColumns1Safe6();
  }

  lemma ItemColumns2Names0()
    ensures NoSeparator("item") && NoSeparator("is_file_item")
  {
  }

  lemma ItemColumns2Safe0()
    ensures SqlSafe(ItemColumns2[0])
  {
    ItemColumns2Names0();
    assert ItemColumns2[0] == SelectColumn("item", "is_file_item");
  }

  lemma ItemColumns2Names1()
    ensures NoSeparator("item") && NoSeparator("pending_manual_download")
  {
  }

  lemma ItemColumns2Safe1()
    ensures SqlSafe(ItemColumns2[1])
  {
    ItemColumns2Names1();
    assert ItemColumns2[1] == SelectColumn("item", "pending_manual_download");
  }

  lemma ItemColumns2Names2()
    ensures NoSeparator("item") && NoSeparator("pending_reason")
  {
  }

  lemma ItemColumns2Safe2()
    ensures SqlSafe(ItemColumns2[2])
  {
    ItemColumns2Names2();
    assert ItemColumns2[2] == SelectColumn("item", "pending_reason");
  }

  lemma ItemColumns2Names3()
    ensures NoSeparator("item") && NoSeparator("expired")
  {
  }

  lemma ItemColumns2Safe3()
    ensures SqlSafe(ItemColumns2[3])
  {
    ItemColumns2Names3();
    assert ItemColumns2[3] == SelectColumn("item", "expired");
  }

  lemma ItemColumns2Names4()
    ensures NoSeparator("item") && NoSeparator("keep")
  {
  }

  lemma ItemColumns2Safe4()
    ensures SqlSafe(ItemColumns2[4])
  {
    ItemColumns2Names4();
    assert ItemColumns2[4] == SelectColumn("item", "keep");
  }

  lemma ItemColumns2Names5()
    ensures NoSeparator("item") && NoSeparator("creation_time")
  {
  }

  lemma ItemColumns2Safe5()
    ensures SqlSafe(ItemColumns2[5])
  {
    ItemColumns2Names5();
    assert ItemColumns2[5] == SelectColumn("item", "creation_time", "date_added");
  }

  lemma ItemColumns2Names6()
    ensures NoSeparator("item") && NoSeparator("downloaded_time")
  {
  }

  lemma ItemColumns2Safe6()
    ensures SqlSafe(ItemColumns2[6])
  {
    ItemColumns2Names6();
    assert ItemColumns2[6] == SelectColumn("item", "downloaded_time");
  }

  lemma ItemColumns2Safe()
    ensures AllSqlSafe(ItemColumns2)
  {
    ItemColumns2Safe0();
    ItemColumns2Safe1();
    ItemColumns2Safe2();
    ItemColumns2Safe3();
    ItemColumns2Safe4();
    ItemColumns2Safe5();
    ItemColumns2Safe6();
  }

  lemma ItemColumns3Names0()
    ensures NoSeparator("item") && NoSeparator("watched_time")
  {
  }

  lemma ItemColumns3Safe0()
    ensures SqlSafe(ItemColumns3[0])
  {
    ItemColumns3Names0();
    assert ItemColumns3[0] == SelectColumn("item", "watched_time");
  }

  lemma ItemColumns3Names1()
    ensures NoSeparator("item") && NoSeparator("last_watched")
  {
  }

  lemma ItemColumns3Safe1()
    ensures SqlSafe(ItemColumns3[1])
  {
    ItemColumns3Names1();
    assert ItemColumns3[1] == SelectColumn("item", "last_watched");
  }

  lemma ItemColumns3Names2()
    ensures NoSeparator("item") && NoSeparator("subtitle_encoding")
  {
  }

  lemma ItemColumns3Safe2()
    ensures SqlSafe(ItemColumns3[2])
  {
    ItemColumns3Names2();
    assert ItemColumns3[2] == SelectColumn("item", "subtitle_encoding");
  }

  lemma ItemColumns3Names3()
    ensures NoSeparator("item") && NoSeparator("is_container_item")
  {
  }

  lemma ItemColumns3Safe3()
    ensures SqlSafe(ItemColumns3[3])
  {
    ItemColumns3Names3();
    assert ItemColumns3[3] == SelectColumn("item", "is_container_item");
  }

  lemma ItemColumns3Names4()
    ensures NoSeparator("item") && NoSeparator("release_date")
  {
  }

  lemma ItemColumns3Safe4()
    ensures SqlSafe(ItemColumns3[4])
  {
    ItemColumns3Names4();
    assert ItemColumns3[4] == SelectColumn("item", "release_date");
  }

  lemma ItemColumns3Names5()
    ensures NoSeparator("item") && NoSeparator("duration")
  {
  }

  lemma ItemColumns3Safe5()
    ensures SqlSafe(ItemColumns3[5])
  {
    ItemColumns3Names5();
    assert ItemColumns3[5] == SelectColumn("item", "duration", "duration_ms");
  }

  lemma ItemColumns3Names6()
    ensures NoSeparator("item") && NoSeparator("screenshot")
  {
  }

  lemma ItemColumns3Safe6()
    ensures SqlSafe(ItemColumns3[6])
  {
    ItemColumns3Names6();
    assert ItemColumns3[6] == SelectColumn("item", "screenshot");
  }

  lemma ItemColumns3Safe()
    ensures AllSqlSafe(ItemColumns3)
  {
    ItemColumns3Safe0();
    ItemColumns3Safe1();
    ItemColumns3Safe2();
    ItemColumns3Safe3();
    ItemColumns3Safe4();
    ItemColumns3Safe5();
    ItemColumns3Safe6();
  }

  lemma ItemColumns4Names0()
    ensures NoSeparator("item") && NoSeparator("resume_time")
  {
  }

  lemma ItemColumns4Safe0()
    ensures SqlSafe(ItemColumns4[0])
  {
    ItemColumns4Names0();
    assert ItemColumns4[0] == SelectColumn("item", "resume_time");
  }

  lemma ItemColumns4Names1()
    ensures NoSeparator("item") && NoSeparator("license")
  {
  }

  lemma ItemColumns4Safe1()
    ensures SqlSafe(ItemColumns4[1])
  {
    ItemColumns4Names1();
    assert ItemColumns4[1] == SelectColumn("item", "license");
  }

  lemma ItemColumns4Names2()
    ensures NoSeparator("item") && NoSeparator("rss_id")
  {
  }

  lemma ItemColumns4Safe2()
    ensures SqlSafe(ItemColumns4[2])
  {
    ItemColumns4Names2();
    assert ItemColumns4[2] == SelectColumn("item", "rss_id");
  }

  lemma ItemColumns4Names3()
    ensures NoSeparator("item") && NoSeparator("entry_description")
  {
  }

  lemma ItemColumns4Safe3()
    ensures SqlSafe(ItemColumns4[3])
  {
    ItemColumns4Names3();
    assert ItemColumns4[3] == SelectColumn("item", "entry_description");
  }

  lemma ItemColumns4Names4()
    ensures NoSeparator("item") && NoSeparator("enclosure_type")
  {
  }

  lemma ItemColumns4Safe4()
    ensures SqlSafe(ItemColumns4[4])
  {
    ItemColumns4Names4();
    assert ItemColumns4[4] == SelectColumn("item", "enclosure_type", "mime_type");
  }

  lemma ItemColumns4Names5()
    ensures NoSeparator("item") && NoSeparator("enclosure_format")
  {
  }

  lemma ItemColumns4Safe5()
    ensures SqlSafe(ItemColumns4[5])
  {
    ItemColumns4Names5();
    assert ItemColumns4[5] == SelectColumn("item", "enclosure_format");
  }

  lemma ItemColumns4Names6()
    ensures NoSeparator("item") && NoSeparator("enclosure_size")
  {
  }

  lemma ItemColumns4Safe6()
    ensures SqlSafe(ItemColumns4[6])
  {
    ItemColumns4Names6();
    assert ItemColumns4[6] == SelectColumn("item", "enclosure_size");
  }

  lemma ItemColumns4Safe()
    ensures AllSqlSafe(ItemColumns4)
  {
    ItemColumns4Safe0();
    ItemColumns4Safe1();
    ItemColumns4Safe2();
    ItemColumns4Safe3();
    ItemColumns4Safe4();
    ItemColumns4Safe5();
    ItemColumns4Safe6();
  }

  lemma ItemColumns5Names0()
    ensures NoSeparator("item") && NoSeparator("link")
  {
  }

  lemma ItemColumns5Safe0()
    ensures SqlSafe(ItemColumns5[0])
  {
    ItemColumns5Names0();
    assert ItemColumns5[0] == SelectColumn("item", "link", "permalink");
  }

  lemma ItemColumns5Names1()
    ensures NoSeparator("item") && NoSeparator("payment_link")
  {
  }

  lemma ItemColumns5Safe1()
    ensures SqlSafe(ItemColumns5[1])
  {
    ItemColumns5Names1();
    assert ItemColumns5[1] == SelectColumn("item", "payment_link");
  }

  lemma ItemColumns5Names2()
    ensures NoSeparator("item") && NoSeparator("comments_link")
  {
  }

  lemma ItemColumns5Safe2()
    ensures SqlSafe(ItemColumns5[2])
  {
    ItemColumns5Names2();
    assert ItemColumns5[2] == SelectColumn("item", "comments_link");
  }

  lemma ItemColumns5Names3()
    ensures NoSeparator("item") && NoSeparator("url")
  {
  }

  lemma ItemColumns5Safe3()
    ensures SqlSafe(ItemColumns5[3])
  {
    ItemColumns5Names3();
    assert ItemColumns5[3] == SelectColumn("item", "url");
  }

  lemma ItemColumns5Names4()
    ensures NoSeparator("item") && NoSeparator("was_downloaded")
  {
  }

  lemma ItemColumns5Safe4()
    ensures SqlSafe(ItemColumns5[4])
  {
    ItemColumns5Names4();
    assert ItemColumns5[4] == SelectColumn("item", "was_downloaded");
  }

  lemma ItemColumns5Names5()
    ensures NoSeparator("item") && NoSeparator("filename")
  {
  }

  lemma ItemColumns5Safe5()
    ensures SqlSafe(ItemColumns5[5])
  {
    ItemColumns5Names5();
    assert ItemColumns5[5] == SelectColumn("item", "filename", "raw_filename");
  }

  lemma ItemColumns5Names6()
    ensures NoSeparator("item") && NoSeparator("play_count")
  {
  }

  lemma ItemColumns5Safe6()
    ensures SqlSafe(ItemColumns5[6])
  {
    ItemColumns5Names6();
    assert ItemColumns5[6] == SelectColumn("item", "play_count");
  }

  lemma ItemColumns5Safe()
    ensures AllSqlSafe(ItemColumns5)
  {
    ItemColumns5Safe0();
    ItemColumns5Safe1();
    ItemColumns5Safe2();
    ItemColumns5Safe3();
    ItemColumns5Safe4();
    ItemColumns5Safe5();
    ItemColumns5Safe6();
  }

  lemma ItemColumns6Names0()
    ensures NoSeparator("item") && NoSeparator("skip_count")
  {
  }

  lemma ItemColumns6Safe0()
    ensures SqlSafe(ItemColumns6[0])
  {
    ItemColumns6Names0();
    assert ItemColumns6[0] == SelectColumn("item", "skip_count");
  }

  lemma ItemColumns6Names1()
    ensures NoSeparator("item") && NoSeparator("cover_art")
  {
  }

  lemma ItemColumns6Safe1()
    ensures SqlSafe(ItemColumns6[1])
  {
    ItemColumns6Names1();
    assert ItemColumns6[1] == SelectColumn("item", "cover_art");
  }

  lemma ItemColumns6Names2()
    ensures NoSeparator("item") && NoSeparator("description")
  {
  }

  lemma ItemColumns6Safe2()
    ensures SqlSafe(ItemColumns6[2])
  {
    ItemColumns6Names2();
    assert ItemColumns6[2] == SelectColumn("item", "description");
  }

  lemma ItemColumns6Names3()
    ensures NoSeparator("item") && NoSeparator("album")
  {
  }

  lemma ItemColumns6Safe3()
    ensures SqlSafe(ItemColumns6[3])
  {
    ItemColumns6Names3();
    assert ItemColumns6[3] == SelectColumn("item", "album");
  }

  lemma ItemColumns6Names4()
    ensures NoSeparator("item") && NoSeparator("album_artist")
  {
  }

  lemma ItemColumns6Safe4()
    ensures SqlSafe(ItemColumns6[4])
  {
    ItemColumns6Names4();
    assert ItemColumns6[4] == SelectColumn("item", "album_artist");
  }

  lemma ItemColumns6Names5()
    ensures NoSeparator("item") && NoSeparator("artist")
  {
  }

  lemma ItemColumns6Safe5()
    ensures SqlSafe(ItemColumns6[5])
  {
    ItemColumns6Names5();
    assert ItemColumns6[5] == SelectColumn("item", "artist");
  }

  lemma ItemColumns6Names6()
    ensures NoSeparator("item") && NoSeparator("track")
  {
  }

  lemma ItemColumns6Safe6()
    ensures SqlSafe(ItemColumns6[6])
  {
    ItemColumns6Names6();
    assert ItemColumns6[6] == SelectColumn("item", "track");
  }

  lemma ItemColumns6Safe()
    ensures AllSqlSafe(ItemColumns6)
  {
    ItemColumns6Safe0();
    ItemColumns6Safe1();
    ItemColumns6Safe2();
    ItemColumns6Safe3();
    ItemColumns6Safe4();
    ItemColumns6Safe5();
    ItemColumns6Safe6();
  }

  lemma ItemColumns7Names0()
    ensures NoSeparator("item") && NoSeparator("album_tracks")
  {
  }

  lemma ItemColumns7Safe0()
    ensures SqlSafe(ItemColumns7[0])
  {
    ItemColumns7Names0();
    assert ItemColumns7[0] == SelectColumn("item", "album_tracks");
  }

  lemma ItemColumns7Names1()
    ensures NoSeparator("item") && NoSeparator("year")
  {
  }

  lemma ItemColumns7Safe1()
    ensures SqlSafe(ItemColumns7[1])
  {
    ItemColumns7Names1();
    assert ItemColumns7[1] == SelectColumn("item", "year");
  }

  lemma ItemColumns7Names2()
    ensures NoSeparator("item") && NoSeparator("genre")
  {
  }

  lemma ItemColumns7Safe2()
    ensures SqlSafe(ItemColumns7[2])
  {
    ItemColumns7Names2();
    assert ItemColumns7[2] == SelectColumn("item", "genre");
  }

  lemma ItemColumns7Names3()
    ensures NoSeparator("item") && NoSeparator("rating")
  {
  }

  lemma ItemColumns7Safe3()
    ensures SqlSafe(ItemColumns7[3])
  {
    ItemColumns7Names3();
    assert ItemColumns7[3] == SelectColumn("item", "rating");
  }

  lemma ItemColumns7Names4()
    ensures NoSeparator("item") && NoSeparator("file_type")
  {
  }

  lemma ItemColumns7Safe4()
    ensures SqlSafe(ItemColumns7[4])
  {
    ItemColumns7Names4();
    assert ItemColumns7[4] == SelectColumn("item", "file_type");
  }

  lemma ItemColumns7Names5()
    ensures NoSeparator("item") && NoSeparator("has_drm")
  {
  }

  lemma ItemColumns7Safe5()
    ensures SqlSafe(ItemColumns7[5])
  {
    ItemColumns7Names5();
    assert ItemColumns7[5] == SelectColumn("item", "has_drm");
  }

  lemma ItemColumns7Names6()
    ensures NoSeparator("item") && NoSeparator("show")
  {
  }

  lemma ItemColumns7Safe6()
    ensures SqlSafe(ItemColumns7[6])
  {
    ItemColumns7Names6();
    assert ItemColumns7[6] == SelectColumn("item", "show");
  }

  lemma ItemColumns7Safe()
    ensures AllSqlSafe(ItemColumns7)
  {
    ItemColumns7Safe0();
    ItemColumns7Safe1();
    ItemColumns7Safe2();
    ItemColumns7Safe3();
    ItemColumns7Safe4();
    ItemColumns7Safe5();
    ItemColumns7Safe6();
  }

  lemma ItemColumns8Names0()
    ensures NoSeparator("item") && NoSeparator("episode_id")
  {
  }

  lemma ItemColumns8Safe0()
    ensures SqlSafe(ItemColumns8[0])
  {
    ItemColumns8Names0();
    assert ItemColumns8[0] == SelectColumn("item", "episode_id");
  }

  lemma ItemColumns8Names1()
    ensures NoSeparator("item") && NoSeparator("episode_number")
  {
  }

  lemma ItemColumns8Safe1()
    ensures SqlSafe(ItemColumns8[1])
  {
    ItemColumns8Names1();
    assert ItemColumns8[1] == SelectColumn("item", "episode_number");
  }

  lemma ItemColumns8Names2()
    ensures NoSeparator("item") && NoSeparator("season_number")
  {
  }

  lemma ItemColumns8Safe2()
    ensures SqlSafe(ItemColumns8[2])
  {
    ItemColumns8Names2();
    assert ItemColumns8[2] == SelectColumn("item", "season_number");
  }

  lemma ItemColumns8Names3()
    ensures NoSeparator("item") && NoSeparator("kind")
  {
  }

  lemma ItemColumns8Safe3()
    ensures SqlSafe(ItemColumns8[3])
  {
    ItemColumns8Names3();
    assert ItemColumns8[3] == SelectColumn("item", "kind");
  }

  lemma ItemColumns8Names4()
    ensures NoSeparator("item") && NoSeparator("net_lookup_enabled")
  {
  }

  lemma ItemColumns8Safe4()
    ensures SqlSafe(ItemColumns8[4])
  {
    ItemColumns8Names4();
    assert ItemColumns8[4] == SelectColumn("item", "net_lookup_enabled");
  }

  lemma ItemColumns8Names5()
    ensures NoSeparator("item") && NoSeparator("eligible_for_autodownload")
  {
  }

  lemma ItemColumns8Safe5()
    ensures SqlSafe(ItemColumns8[5])
  {
    ItemColumns8Names5();
    assert ItemColumns8[5] == SelectColumn("item", "eligible_for_autodownload");
  }

  lemma ItemColumns8Safe()
    ensures AllSqlSafe(ItemColumns8)
  {
    ItemColumns8Safe0();
    ItemColumns8Safe1();
    ItemColumns8Safe2();
    ItemColumns8Safe3();
    ItemColumns8Safe4();
    ItemColumns8Safe5();
  }

  lemma FeedColumnsNames0()
    ensures NoSeparator("feed") && NoSeparator("orig_url")
  {
  }

  lemma FeedColumnsSafe0()
    ensures SqlSafe(FeedColumns[0])
  {
    FeedColumnsNames0();
    assert FeedColumns[0] == SelectColumn("feed", "orig_url", "feed_url");
  }

  lemma FeedColumnsNames1()
    ensures NoSeparator("feed") && NoSeparator("expire")
  {
  }

  lemma FeedColumnsSafe1()
    ensures SqlSafe(FeedColumns[1])
  {
    FeedColumnsNames1();
    assert FeedColumns[1] == SelectColumn("feed", "expire", "feed_expire");
  }

  lemma FeedColumnsNames2()
    ensures NoSeparator("feed") && NoSeparator("expireTime")
  {
  }

  lemma FeedColumnsSafe2()
    ensures SqlSafe(FeedColumns[2])
  {
    FeedColumnsNames2();
    assert FeedColumns[2] == SelectColumn("feed", "expireTime", "feed_expire_time");
  }

  lemma FeedColumnsNames3()
    ensures NoSeparator("feed") && NoSeparator("autoDownloadable")
  {
  }

  lemma FeedColumnsSafe3()
    ensures SqlSafe(FeedColumns[3])
  {
    FeedColumnsNames3();
    assert FeedColumns[3] == SelectColumn("feed", "autoDownloadable", "feed_auto_downloadable");
  }

  lemma FeedColumnsNames4()
    ensures NoSeparator("feed") && NoSeparator("getEverything")
  {
  }

  lemma FeedColumnsSafe4()
    ensures SqlSafe(FeedColumns[4])
  {
    FeedColumnsNames4();
    assert FeedColumns[4] == SelectColumn("feed", "getEverything", "feed_get_everything");
  }

  lemma FeedColumnsSafe()
    ensures AllSqlSafe(FeedColumns)
  {
    FeedColumnsSafe0();
    FeedColumnsSafe1();
    FeedColumnsSafe2();
    FeedColumnsSafe3();
    FeedColumnsSafe4();
  }

  lemma IconCacheColumnsNames0()
    ensures NoSeparator("icon_cache") && NoSeparator("filename")
  {
  }

  lemma IconCacheColumnsSafe0()
    ensures SqlSafe(IconCacheColumns[0])
  {
    IconCacheColumnsNames0();
    assert IconCacheColumns[0] == SelectColumn("icon_cache", "filename", "raw_icon_cache_filename");
  }

  lemma IconCacheColumnsSafe()
    ensures AllSqlSafe(IconCacheColumns)
  {
    IconCacheColumnsSafe0();
  }

  lemma DownloaderColumns1Names0()
    ensures NoSeparator("remote_downloader") && NoSeparator("content_type")
  {
  }

  lemma DownloaderColumns1Safe0()
    ensures SqlSafe(DownloaderColumns1[0])
  {
    DownloaderColumns1Names0();
    assert DownloaderColumns1[0] == SelectColumn("remote_downloader", "content_type", "downloader_content_type");
  }

  lemma DownloaderColumns1Names1()
    ensures NoSeparator("remote_downloader") && NoSeparator("state")
  {
  }

  lemma DownloaderColumns1Safe1()
    ensures SqlSafe(DownloaderColumns1[1])
  {
    DownloaderColumns1Names1();
    assert DownloaderColumns1[1] == SelectColumn("remote_downloader", "state", "downloader_state");
  }

  lemma DownloaderColumns1Names2()
    ensures NoSeparator("remote_downloader") && NoSeparator("reason_failed")
  {
  }

  lemma DownloaderColumns1Safe2()
    ensures SqlSafe(DownloaderColumns1[2])
  {
    DownloaderColumns1Names2();
    assert DownloaderColumns1[2] == SelectColumn("remote_downloader", "reason_failed");
  }

  lemma DownloaderColumns1Names3()
    ensures NoSeparator("remote_downloader") && NoSeparator("short_reason_failed")
  {
  }

  lemma DownloaderColumns1Safe3()
    ensures SqlSafe(DownloaderColumns1[3])
  {
    DownloaderColumns1Names3();
    assert DownloaderColumns1[3] == SelectColumn("remote_downloader", "short_reason_failed");
  }

  lemma DownloaderColumns1Names4()
    ensures NoSeparator("remote_downloader") && NoSeparator("type")
  {
  }

  lemma DownloaderColumns1Safe4()
    ensures SqlSafe(DownloaderColumns1[4])
  {
    DownloaderColumns1Names4();
    assert DownloaderColumns1[4] == SelectColumn("remote_downloader", "type", "downloader_type");
  }

  lemma DownloaderColumns1Names5()
    ensures NoSeparator("remote_downloader") && NoSeparator("retry_time")
  {
  }

  lemma DownloaderColumns1Safe5()
    ensures SqlSafe(DownloaderColumns1[5])
  {
    DownloaderColumns1Names5();
    assert DownloaderColumns1[5] == SelectColumn("remote_downloader", "retry_time");
  }

  lemma DownloaderColumns1Names6()
    ensures NoSeparator("remote_downloader") && NoSeparator("eta")
  {
  }

  lemma DownloaderColumns1Safe6()
    ensures SqlSafe(DownloaderColumns1[6])
  {
    DownloaderColumns1Names6();
    assert DownloaderColumns1[6] == SelectColumn("remote_downloader", "eta");
  }

  lemma DownloaderColumns1Names7()
    ensures NoSeparator("remote_downloader") && NoSeparator("rate")
  {
  }

  lemma DownloaderColumns1Safe7()
    ensures SqlSafe(DownloaderColumns1[7])
  {
    DownloaderColumns1Names7();
    assert DownloaderColumns1[7] == SelectColumn("remote_downloader", "rate");
  }

  lemma DownloaderColumns1Safe()
    ensures AllSqlSafe(DownloaderColumns1)
  {
    DownloaderColumns1Safe0();
    DownloaderColumns1Safe1();
    DownloaderColumns1Safe2();
    DownloaderColumns1Safe3();
    DownloaderColumns1Safe4();
    DownloaderColumns1Safe5();
    DownloaderColumns1Safe6();
    DownloaderColumns1Safe7();
  }

  lemma DownloaderColumns2Names0()
    ensures NoSeparator("remote_downloader") && NoSeparator("upload_rate")
  {
  }

  lemma DownloaderColumns2Safe0()
    ensures SqlSafe(DownloaderColumns2[0])
  {
    DownloaderColumns2Names0();
    assert DownloaderColumns2[0] == SelectColumn("remote_downloader", "upload_rate");
  }

  lemma DownloaderColumns2Names1()
    ensures NoSeparator("remote_downloader") && NoSeparator("current_size")
  {
  }

  lemma DownloaderColumns2Safe1()
    ensures SqlSafe(DownloaderColumns2[1])
  {
    DownloaderColumns2Names1();
    assert DownloaderColumns2[1] == SelectColumn("remote_downloader", "current_size", "downloaded_size");
  }

  lemma DownloaderColumns2Names2()
    ensures NoSeparator("remote_downloader") && NoSeparator("total_size")
  {
  }

  lemma DownloaderColumns2Safe2()
    ensures SqlSafe(DownloaderColumns2[2])
  {
    DownloaderColumns2Names2();
    assert DownloaderColumns2[2] == SelectColumn("remote_downloader", "total_size", "downloader_size");
  }

  lemma DownloaderColumns2Names3()
    ensures NoSeparator("remote_downloader") && NoSeparator("upload_size")
  {
  }

  lemma DownloaderColumns2Safe3()
    ensures SqlSafe(DownloaderColumns2[3])
  {
    DownloaderColumns2Names3();
    assert DownloaderColumns2[3] == SelectColumn("remote_downloader", "upload_size");
  }

  lemma DownloaderColumns2Names4()
    ensures NoSeparator("remote_downloader") && NoSeparator("activity")
  {
  }

  lemma DownloaderColumns2Safe4()
    ensures SqlSafe(DownloaderColumns2[4])
  {
    DownloaderColumns2Names4();
    assert DownloaderColumns2[4] == SelectColumn("remote_downloader", "activity", "startup_activity");
  }

  lemma DownloaderColumns2Names5()
    ensures NoSeparator("remote_downloader") && NoSeparator("seeders")
  {
  }

  lemma DownloaderColumns2Safe5()
    ensures SqlSafe(DownloaderColumns2[5])
  {
    DownloaderColumns2Names5();
    assert DownloaderColumns2[5] == SelectColumn("remote_downloader", "seeders");
  }

  lemma DownloaderColumns2Names6()
    ensures NoSeparator("remote_downloader") && NoSeparator("leechers")
  {
  }

  lemma DownloaderColumns2Safe6()
    ensures SqlSafe(DownloaderColumns2[6])
  {
    DownloaderColumns2Names6();
    assert DownloaderColumns2[6] == SelectColumn("remote_downloader", "leechers");
  }

  lemma DownloaderColumns2Names7()
    ensures NoSeparator("remote_downloader") && NoSeparator("connections")
  {
  }

  lemma DownloaderColumns2Safe7()
    ensures SqlSafe(DownloaderColumns2[7])
  {
    DownloaderColumns2Names7();
    assert DownloaderColumns2[7] == SelectColumn("remote_downloader", "connections");
  }

  lemma DownloaderColumns2Safe()
    ensures AllSqlSafe(DownloaderColumns2)
  {
    DownloaderColumns2Safe0();
    DownloaderColumns2Safe1();
    DownloaderColumns2Safe2();
    DownloaderColumns2Safe3();
    DownloaderColumns2Safe4();
    DownloaderColumns2Safe5();
    DownloaderColumns2Safe6();
    DownloaderColumns2Safe7();
  }

  /** Every registry entry can be written as `table.column` in a
      comma-separated list and read back. */
  lemma RegistrySqlSafe()
    ensures AllSqlSafe(Registry)
  {
    ItemColumns1Safe();
    ItemColumns2Safe();
    AllSqlSafeAppend(ItemColumns1, ItemColumns2);
    ItemColumns3Safe();
    AllSqlSafeAppend(ItemColumns1 + ItemColumns2, ItemColumns3);
    ItemColumns4Safe();
    AllSqlSafeAppend(ItemColumns1 + ItemColumns2 + ItemColumns3, ItemColumns4);
    ItemColumns5Safe();
    AllSqlSafeAppend(ItemColumns1 + ItemColumns2 + ItemColumns3 + ItemColumns4, ItemColumns5);
    ItemColumns6Safe();
    AllSqlSafeAppend(ItemColumns1 + ItemColumns2 + ItemColumns3 + ItemColumns4 + ItemColumns5, ItemColumns6);
    ItemColumns7Safe();
    AllSqlSafeAppend(ItemColumns1 + ItemColumns2 + ItemColumns3 + ItemColumns4 + ItemColumns5 + ItemColumns6, ItemColumns7);
    ItemColumns8Safe();
    AllSqlSafeAppend(ItemColumns1 + ItemColumns2 + ItemColumns3 + ItemColumns4 + ItemColumns5 + ItemColumns6 + ItemColumns7, ItemColumns8);
    FeedColumnsSafe();
    AllSqlSafeAppend(ItemColumns1 + ItemColumns2 + ItemColumns3 + ItemColumns4 + ItemColumns5 + ItemColumns6 + ItemColumns7 + ItemColumns8, FeedColumns);
    IconCacheColumnsSafe();
    AllSqlSafeAppend(ItemColumns1 + ItemColumns2 + ItemColumns3 + ItemColumns4 + ItemColumns5 + ItemColumns6 + ItemColumns7 + ItemColumns8 + FeedColumns, IconCacheColumns);
    DownloaderColumns1Safe();
    AllSqlSafeAppend(ItemColumns1 + ItemColumns2 + ItemColumns3 + ItemColumns4 + ItemColumns5 + ItemColumns6 + ItemColumns7 + ItemColumns8 + FeedColumns + IconCacheColumns, DownloaderColumns1);
    DownloaderColumns2Safe();
    AllSqlSafeAppend(ItemColumns1 + ItemColumns2 + ItemColumns3 + ItemColumns4 + ItemColumns5 + ItemColumns6 + ItemColumns7 + ItemColumns8 + FeedColumns + IconCacheColumns + DownloaderColumns1, DownloaderColumns2);
  }

  lemma ItemColumns1Facts()
    ensures DistinctAttrs(ItemColumns1)
    ensures forall i :: 0 <= i < |ItemColumns1| ==> PublicAttr(ItemColumns1[i])
  {
  }

  lemma ItemColumns2Facts()
    ensures DistinctAttrs(ItemColumns2)
    ensures forall i :: 0 <= i < |ItemColumns2| ==> PublicAttr(ItemColumns2[i])
  {
  }

  lemma ItemColumns3Facts()
    ensures DistinctAttrs(ItemColumns3)
    ensures forall i :: 0 <= i < |ItemColumns3| ==> PublicAttr(ItemColumns3[i])
  {
  }

  lemma ItemColumns4Facts()
    ensures DistinctAttrs(ItemColumns4)
    ensures forall i :: 0 <= i < |ItemColumns4| ==> PublicAttr(ItemColumns4[i])
  {
  }

  lemma ItemColumns5Facts()
    ensures DistinctAttrs(ItemColumns5)
    ensures forall i :: 0 <= i < |ItemColumns5| ==> PublicAttr(ItemColumns5[i])
  {
  }

  lemma ItemColumns6Facts()
    ensures DistinctAttrs(ItemColumns6)
    ensures forall i :: 0 <= i < |ItemColumns6| ==> PublicAttr(ItemColumns6[i])
  {
  }

  lemma ItemColumns7Facts()
    ensures DistinctAttrs(ItemColumns7)
    ensures forall i :: 0 <= i < |ItemColumns7| ==> PublicAttr(ItemColumns7[i])
  {
  }

  lemma ItemColumns8Facts()
    ensures DistinctAttrs(ItemColumns8)
    ensures forall i :: 0 <= i < |ItemColumns8| ==> PublicAttr(ItemColumns8[i])
  {
  }

  lemma FeedColumnsFacts()
    ensures DistinctAttrs(FeedColumns)
    ensures forall i :: 0 <= i < |FeedColumns| ==> PublicAttr(FeedColumns[i])
  {
  }

  lemma IconCacheColumnsFacts()
    ensures DistinctAttrs(IconCacheColumns)
    ensures forall i :: 0 <= i < |IconCacheColumns| ==> PublicAttr(IconCacheColumns[i])
  {
  }

  lemma DownloaderColumns1Facts()
    ensures DistinctAttrs(DownloaderColumns1)
    ensures forall i :: 0 <= i < |DownloaderColumns1| ==> PublicAttr(DownloaderColumns1[i])
  {
  }

  lemma DownloaderColumns2Facts()
    ensures DistinctAttrs(DownloaderColumns2)
    ensures forall i :: 0 <= i < |DownloaderColumns2| ==> PublicAttr(DownloaderColumns2[i])
  {
  }

  lemma DisjointItem1Item2()
    ensures DisjointAttrs(ItemColumns1, ItemColumns2)
  {
  }

  lemma DisjointItem1Item3()
    ensures DisjointAttrs(ItemColumns1, ItemColumns3)
  {
  }

  lemma DisjointItem1Item4()
    ensures DisjointAttrs(ItemColumns1, ItemColumns4)
  {
  }

  lemma DisjointItem1Item5()
    ensures DisjointAttrs(ItemColumns1, ItemColumns5)
  {
  }

  lemma DisjointItem1Item6()
    ensures DisjointAttrs(ItemColumns1, ItemColumns6)
  {
  }

  lemma DisjointItem1Item7()
    ensures DisjointAttrs(ItemColumns1, ItemColumns7)
  {
  }

  lemma DisjointItem1Item8()
    ensures DisjointAttrs(ItemColumns1, ItemColumns8)
  {
  }

  lemma DisjointItem1Feed()
    ensures DisjointAttrs(ItemColumns1, FeedColumns)
  {
  }

  lemma DisjointItem1IconCache()
    ensures DisjointAttrs(ItemColumns1, IconCacheColumns)
  {
  }

  lemma DisjointItem1Downloader1()
    ensures DisjointAttrs(ItemColumns1, DownloaderColumns1)
  {
  }

  lemma DisjointItem1Downloader2()
    ensures DisjointAttrs(ItemColumns1, DownloaderColumns2)
  {
  }

  lemma DisjointItem2Item3()
    ensures DisjointAttrs(ItemColumns2, ItemColumns3)
  {
  }

  lemma DisjointItem2Item4()
    ensures DisjointAttrs(ItemColumns2, ItemColumns4)
  {
  }

  lemma DisjointItem2Item5()
    ensures DisjointAttrs(ItemColumns2, ItemColumns5)
  {
  }

  lemma DisjointItem2Item6()
    ensures DisjointAttrs(ItemColumns2, ItemColumns6)
  {
  }

  lemma DisjointItem2Item7()
    ensures DisjointAttrs(ItemColumns2, ItemColumns7)
  {
  }

  lemma DisjointItem2Item8()
    ensures DisjointAttrs(ItemColumns2, ItemColumns8)
  {
  }

  lemma DisjointItem2Feed()
    ensures DisjointAttrs(ItemColumns2, FeedColumns)
  {
  }

  lemma DisjointItem2IconCache()
    ensures DisjointAttrs(ItemColumns2, IconCacheColumns)
  {
  }

  lemma DisjointItem2Downloader1()
    ensures DisjointAttrs(ItemColumns2, DownloaderColumns1)
  {
  }

  lemma DisjointItem2Downloader2()
    ensures DisjointAttrs(ItemColumns2, DownloaderColumns2)
  {
  }

  lemma DisjointItem3Item4()
    ensures DisjointAttrs(ItemColumns3, ItemColumns4)
  {
  }

  lemma DisjointItem3Item5()
    ensures DisjointAttrs(ItemColumns3, ItemColumns5)
  {
  }

  lemma DisjointItem3Item6()
    ensures DisjointAttrs(ItemColumns3, ItemColumns6)
  {
  }

  lemma DisjointItem3Item7()
    ensures DisjointAttrs(ItemColumns3, ItemColumns7)
  {
  }

  lemma DisjointItem3Item8()
    ensures DisjointAttrs(ItemColumns3, ItemColumns8)
  {
  }

  lemma DisjointItem3Feed()
    ensures DisjointAttrs(ItemColumns3, FeedColumns)
  {
  }

  lemma DisjointItem3IconCache()
    ensures DisjointAttrs(ItemColumns3, IconCacheColumns)
  {
  }

  lemma DisjointItem3Downloader1()
    ensures DisjointAttrs(ItemColumns3, DownloaderColumns1)
  {
  }

  lemma DisjointItem3Downloader2()
    ensures DisjointAttrs(ItemColumns3, DownloaderColumns2)
  {
  }

  lemma DisjointItem4Item5()
    ensures DisjointAttrs(ItemColumns4, ItemColumns5)
  {
  }

  lemma DisjointItem4Item6()
    ensures DisjointAttrs(ItemColumns4, ItemColumns6)
  {
  }

  lemma DisjointItem4Item7()
    ensures DisjointAttrs(ItemColumns4, ItemColumns7)
  {
  }

  lemma DisjointItem4Item8()
    ensures DisjointAttrs(ItemColumns4, ItemColumns8)
  {
  }

  lemma DisjointItem4Feed()
    ensures DisjointAttrs(ItemColumns4, FeedColumns)
  {
  }

  lemma DisjointItem4IconCache()
    ensures DisjointAttrs(ItemColumns4, IconCacheColumns)
  {
  }

  lemma DisjointItem4Downloader1()
    ensures DisjointAttrs(ItemColumns4, DownloaderColumns1)
  {
  }

  lemma DisjointItem4Downloader2()
    ensures DisjointAttrs(ItemColumns4, DownloaderColumns2)
  {
  }

  lemma DisjointItem5Item6()
    ensures DisjointAttrs(ItemColumns5, ItemColumns6)
  {
  }

  lemma DisjointItem5Item7()
    ensures DisjointAttrs(ItemColumns5, ItemColumns7)
  {
  }

  lemma DisjointItem5Item8()
    ensures DisjointAttrs(ItemColumns5, ItemColumns8)
  {
  }

  lemma DisjointItem5Feed()
    ensures DisjointAttrs(ItemColumns5, FeedColumns)
  {
  }

  lemma DisjointItem5IconCache()
    ensures DisjointAttrs(ItemColumns5, IconCacheColumns)
  {
  }

  lemma DisjointItem5Downloader1()
    ensures DisjointAttrs(ItemColumns5, DownloaderColumns1)
  {
  }

  lemma DisjointItem5Downloader2()
    ensures DisjointAttrs(ItemColumns5, DownloaderColumns2)
  {
  }

  lemma DisjointItem6Item7()
    ensures DisjointAttrs(ItemColumns6, ItemColumns7)
  {
  }

  lemma DisjointItem6Item8()
    ensures DisjointAttrs(ItemColumns6, ItemColumns8)
  {
  }

  lemma DisjointItem6Feed()
    ensures DisjointAttrs(ItemColumns6, FeedColumns)
  {
  }

  lemma DisjointItem6IconCache()
    ensures DisjointAttrs(ItemColumns6, IconCacheColumns)
  {
  }

  lemma DisjointItem6Downloader1()
    ensures DisjointAttrs(ItemColumns6, DownloaderColumns1)
  {
  }

  lemma DisjointItem6Downloader2()
    ensures DisjointAttrs(ItemColumns6, DownloaderColumns2)
  {
  }

  lemma DisjointItem7Item8()
    ensures DisjointAttrs(ItemColumns7, ItemColumns8)
  {
  }

  lemma DisjointItem7Feed()
    ensures DisjointAttrs(ItemColumns7, FeedColumns)
  {
  }

  lemma DisjointItem7IconCache()
    ensures DisjointAttrs(ItemColumns7, IconCacheColumns)
  {
  }

  lemma DisjointItem7Downloader1()
    ensures DisjointAttrs(ItemColumns7, DownloaderColumns1)
  {
  }

  lemma DisjointItem7Downloader2()
    ensures DisjointAttrs(ItemColumns7, DownloaderColumns2)
  {
  }

  lemma DisjointItem8Feed()
    ensures DisjointAttrs(ItemColumns8, FeedColumns)
  {
  }

  lemma DisjointItem8IconCache()
    ensures DisjointAttrs(ItemColumns8, IconCacheColumns)
  {
  }

  lemma DisjointItem8Downloader1()
    ensures DisjointAttrs(ItemColumns8, DownloaderColumns1)
  {
  }

  lemma DisjointItem8Downloader2()
    ensures DisjointAttrs(ItemColumns8, DownloaderColumns2)
  {
  }

  lemma DisjointFeedIconCache()
    ensures DisjointAttrs(FeedColumns, IconCacheColumns)
  {
  }

  lemma DisjointFeedDownloader1()
    ensures DisjointAttrs(FeedColumns, DownloaderColumns1)
  {
  }

  lemma DisjointFeedDownloader2()
    ensures DisjointAttrs(FeedColumns, DownloaderColumns2)
  {
  }

  lemma DisjointIconCacheDownloader1()
    ensures DisjointAttrs(IconCacheColumns, DownloaderColumns1)
  {
  }

  lemma DisjointIconCacheDownloader2()
    ensures DisjointAttrs(IconCacheColumns, DownloaderColumns2)
  {
  }

  lemma DisjointDownloader1Downloader2()
    ensures DisjointAttrs(DownloaderColumns1, DownloaderColumns2)
  {
  }

  lemma DisjointLeftAppend(a: seq<SelectColumn>, b: seq<SelectColumn>, c: seq<SelectColumn>)
    requires DisjointAttrs(a, c) && DisjointAttrs(b, c)
    ensures DisjointAttrs(a + b, c)
  {
  }

  lemma AppendDistinct(a: seq<SelectColumn>, b: seq<SelectColumn>)
    requires DistinctAttrs(a) && DistinctAttrs(b) && DisjointAttrs(a, b)
    ensures DistinctAttrs(a + b)
  {
  }

  /** The registry's invariants, assembled from the facts about each run. */
  lemma RegistryFacts()
    ensures |Registry| == ColumnCount
    ensures DistinctAttrs(Registry)
    ensures forall i :: 0 <= i < |Registry| ==> PublicAttr(Registry[i])
  {
    ItemColumns1Facts();
    ItemColumns2Facts();
    ItemColumns3Facts();
    ItemColumns4Facts();
    ItemColumns5Facts();
    ItemColumns6Facts();
    ItemColumns7Facts();
    ItemColumns8Facts();
    FeedColumnsFacts();
    IconCacheColumnsFacts();
    DownloaderColumns1Facts();
    DownloaderColumns2Facts();
    DisjointItem1Item2();
    AppendDistinct(ItemColumns1, ItemColumns2);
    DisjointItem1Item3();
    DisjointItem2Item3();
    DisjointLeftAppend(ItemColumns1, ItemColumns2, ItemColumns3);
    AppendDistinct(ItemColumns1 + ItemColumns2, ItemColumns3);
    DisjointItem1Item4();
    DisjointItem2Item4();
    DisjointItem3Item4();
    DisjointLeftAppend(ItemColumns1, ItemColumns2, ItemColumns4);
    DisjointLeftAppend(ItemColumns1 + ItemColumns2, ItemColumns3, ItemColumns4);
    AppendDistinct(ItemColumns1 + ItemColumns2 + ItemColumns3, ItemColumns4);
    DisjointItem1Item5();
    DisjointItem2Item5();
    DisjointItem3Item5();
    DisjointItem4Item5();
    DisjointLeftAppend(ItemColumns1, ItemColumns2, ItemColumns5);
    DisjointLeftAppend(ItemColumns1 + ItemColumns2, ItemColumns3, ItemColumns5);
    DisjointLeftAppend(ItemColumns1 + ItemColumns2 + ItemColumns3, ItemColumns4, ItemColumns5);
    AppendDistinct(ItemColumns1 + ItemColumns2 + ItemColumns3 + ItemColumns4, ItemColumns5);
    DisjointItem1Item6();
    DisjointItem2Item6();
    DisjointItem3Item6();
    DisjointItem4Item6();
    DisjointItem5Item6();
    DisjointLeftAppend(ItemColumns1, ItemColumns2, ItemColumns6);
    DisjointLeftAppend(ItemColumns1 + ItemColumns2, ItemColumns3, ItemColumns6);
    DisjointLeftAppend(ItemColumns1 + ItemColumns2 + ItemColumns3, ItemColumns4, ItemColumns6);
    DisjointLeftAppend(ItemColumns1 + ItemColumns2 + ItemColumns3 + ItemColumns4, ItemColumns5, ItemColumns6);
    AppendDistinct(ItemColumns1 + ItemColumns2 + ItemColumns3 + ItemColumns4 + ItemColumns5, ItemColumns6);
    DisjointItem1Item7();
    DisjointItem2Item7();
    DisjointItem3Item7();
    DisjointItem4Item7();
    DisjointItem5Item7();
    DisjointItem6Item7();
    DisjointLeftAppend(ItemColumns1, ItemColumns2, ItemColumns7);
    DisjointLeftAppend(ItemColumns1 + ItemColumns2, ItemColumns3, ItemColumns7);
    DisjointLeftAppend(ItemColumns1 + ItemColumns2 + ItemColumns3, ItemColumns4, ItemColumns7);
    DisjointLeftAppend(ItemColumns1 + ItemColumns2 + ItemColumns3 + ItemColumns4, ItemColumns5, ItemColumns7);
    DisjointLeftAppend(ItemColumns1 + ItemColumns2 + ItemColumns3 + ItemColumns4 + ItemColumns5, ItemColumns6, ItemColumns7);
    AppendDistinct(ItemColumns1 + ItemColumns2 + ItemColumns3 + ItemColumns4 + ItemColumns5 + ItemColumns6, ItemColumns7);
    DisjointItem1Item8();
    DisjointItem2Item8();
    DisjointItem3Item8();
    DisjointItem4Item8();
    DisjointItem5Item8();
    DisjointItem6Item8();
    DisjointItem7Item8();
    DisjointLeftAppend(ItemColumns1, ItemColumns2, ItemColumns8);
    DisjointLeftAppend(ItemColumns1 + ItemColumns2, ItemColumns3, ItemColumns8);
    DisjointLeftAppend(ItemColumns1 + ItemColumns2 + ItemColumns3, ItemColumns4, ItemColumns8);
    DisjointLeftAppend(ItemColumns1 + ItemColumns2 + ItemColumns3 + ItemColumns4, ItemColumns5, ItemColumns8);
    DisjointLeftAppend(ItemColumns1 + ItemColumns2 + ItemColumns3 + ItemColumns4 + ItemColumns5, ItemColumns6, ItemColumns8);
    DisjointLeftAppend(ItemColumns1 + ItemColumns2 + ItemColumns3 + ItemColumns4 + ItemColumns5 + ItemColumns6, ItemColumns7, ItemColumns8);
    AppendDistinct(ItemColumns1 + ItemColumns2 + ItemColumns3 + ItemColumns4 + ItemColumns5 + ItemColumns6 + ItemColumns7, ItemColumns8);
    DisjointItem1Feed();
    DisjointItem2Feed();
    DisjointItem3Feed();
    DisjointItem4Feed();
    DisjointItem5Feed();
    DisjointItem6Feed();
    DisjointItem7Feed();
    DisjointItem8Feed();
    DisjointLeftAppend(ItemColumns1, ItemColumns2, FeedColumns);
    DisjointLeftAppend(ItemColumns1 + ItemColumns2, ItemColumns3, FeedColumns);
    DisjointLeftAppend(ItemColumns1 + ItemColumns2 + ItemColumns3, ItemColumns4, FeedColumns);
    DisjointLeftAppend(ItemColumns1 + ItemColumns2 + ItemColumns3 + ItemColumns4, ItemColumns5, FeedColumns);
    DisjointLeftAppend(ItemColumns1 + ItemColumns2 + ItemColumns3 + ItemColumns4 + ItemColumns5, ItemColumns6, FeedColumns);
    DisjointLeftAppend(ItemColumns1 + ItemColumns2 + ItemColumns3 + ItemColumns4 + ItemColumns5 + ItemColumns6, ItemColumns7, FeedColumns);
    DisjointLeftAppend(ItemColumns1 + ItemColumns2 + ItemColumns3 + ItemColumns4 + ItemColumns5 + ItemColumns6 + ItemColumns7, ItemColumns8, FeedColumns);
    AppendDistinct(ItemColumns1 + ItemColumns2 + ItemColumns3 + ItemColumns4 + ItemColumns5 + ItemColumns6 + ItemColumns7 + ItemColumns8, FeedColumns);
    DisjointItem1IconCache();
    DisjointItem2IconCache();
    DisjointItem3IconCache();
    DisjointItem4IconCache();
    DisjointItem5IconCache();
    DisjointItem6IconCache();
    DisjointItem7IconCache();
    DisjointItem8IconCache();
    DisjointFeedIconCache();
    DisjointLeftAppend(ItemColumns1, ItemColumns2, IconCacheColumns);
    DisjointLeftAppend(ItemColumns1 + ItemColumns2, ItemColumns3, IconCacheColumns);
    DisjointLeftAppend(ItemColumns1 + ItemColumns2 + ItemColumns3, ItemColumns4, IconCacheColumns);
    DisjointLeftAppend(ItemColumns1 + ItemColumns2 + ItemColumns3 + ItemColumns4, ItemColumns5, IconCacheColumns);
    DisjointLeftAppend(ItemColumns1 + ItemColumns2 + ItemColumns3 + ItemColumns4 + ItemColumns5, ItemColumns6, IconCacheColumns);
    DisjointLeftAppend(ItemColumns1 + ItemColumns2 + ItemColumns3 + ItemColumns4 + ItemColumns5 + ItemColumns6, ItemColumns7, IconCacheColumns);
    DisjointLeftAppend(ItemColumns1 + ItemColumns2 + ItemColumns3 + ItemColumns4 + ItemColumns5 + ItemColumns6 + ItemColumns7, ItemColumns8, IconCacheColumns);
    DisjointLeftAppend(ItemColumns1 + ItemColumns2 + ItemColumns3 + ItemColumns4 + ItemColumns5 + ItemColumns6 + ItemColumns7 + ItemColumns8, FeedColumns, IconCacheColumns);
    AppendDistinct(ItemColumns1 + ItemColumns2 + ItemColumns3 + ItemColumns4 + ItemColumns5 + ItemColumns6 + ItemColumns7 + ItemColumns8 + FeedColumns, IconCacheColumns);
    DisjointItem1Downloader1();
    DisjointItem2Downloader1();
    DisjointItem3Downloader1();
    DisjointItem4Downloader1();
    DisjointItem5Downloader1();
    DisjointItem6Downloader1();
    DisjointItem7Downloader1();
    DisjointItem8Downloader1();
    DisjointFeedDownloader1();
    DisjointIconCacheDownloader1();
    DisjointLeftAppend(ItemColumns1, ItemColumns2, DownloaderColumns1);
    DisjointLeftAppend(ItemColumns1 + ItemColumns2, ItemColumns3, DownloaderColumns1);
    DisjointLeftAppend(ItemColumns1 + ItemColumns2 + ItemColumns3, ItemColumns4, DownloaderColumns1);
    DisjointLeftAppend(ItemColumns1 + ItemColumns2 + ItemColumns3 + ItemColumns4, ItemColumns5, DownloaderColumns1);
    DisjointLeftAppend(ItemColumns1 + ItemColumns2 + ItemColumns3 + ItemColumns4 + ItemColumns5, ItemColumns6, DownloaderColumns1);
    DisjointLeftAppend(ItemColumns1 + ItemColumns2 + ItemColumns3 + ItemColumns4 + ItemColumns5 + ItemColumns6, ItemColumns7, DownloaderColumns1);
    DisjointLeftAppend(ItemColumns1 + ItemColumns2 + ItemColumns3 + ItemColumns4 + ItemColumns5 + ItemColumns6 + ItemColumns7, ItemColumns8, DownloaderColumns1);
    DisjointLeftAppend(ItemColumns1 + ItemColumns2 + ItemColumns3 + ItemColumns4 + ItemColumns5 + ItemColumns6 + ItemColumns7 + ItemColumns8, FeedColumns, DownloaderColumns1);
    DisjointLeftAppend(ItemColumns1 + ItemColumns2 + ItemColumns3 + ItemColumns4 + ItemColumns5 + ItemColumns6 + ItemColumns7 + ItemColumns8 + FeedColumns, IconCacheColumns, DownloaderColumns1);
    AppendDistinct(ItemColumns1 + ItemColumns2 + ItemColumns3 + ItemColumns4 + ItemColumns5 + ItemColumns6 + ItemColumns7 + ItemColumns8 + FeedColumns + IconCacheColumns, DownloaderColumns1);
    DisjointItem1Downloader2();
    DisjointItem2Downloader2();
    DisjointItem3Downloader2();
    DisjointItem4Downloader2();
    DisjointItem5Downloader2();
    DisjointItem6Downloader2();
    DisjointItem7Downloader2();
    DisjointItem8Downloader2();
    DisjointFeedDownloader2();
    DisjointIconCacheDownloader2();
    DisjointDownloader1Downloader2();
    DisjointLeftAppend(ItemColumns1, ItemColumns2, DownloaderColumns2);
    DisjointLeftAppend(ItemColumns1 + ItemColumns2, ItemColumns3, DownloaderColumns2);
    DisjointLeftAppend(ItemColumns1 + ItemColumns2 + ItemColumns3, ItemColumns4, DownloaderColumns2);
    DisjointLeftAppend(ItemColumns1 + ItemColumns2 + ItemColumns3 + ItemColumns4, ItemColumns5, DownloaderColumns2);
    DisjointLeftAppend(ItemColumns1 + ItemColumns2 + ItemColumns3 + ItemColumns4 + ItemColumns5, ItemColumns6, DownloaderColumns2);
    DisjointLeftAppend(ItemColumns1 + ItemColumns2 + ItemColumns3 + ItemColumns4 + ItemColumns5 + ItemColumns6, ItemColumns7, DownloaderColumns2);
    DisjointLeftAppend(ItemColumns1 + ItemColumns2 + ItemColumns3 + ItemColumns4 + ItemColumns5 + ItemColumns6 + ItemColumns7, ItemColumns8, DownloaderColumns2);
    DisjointLeftAppend(ItemColumns1 + ItemColumns2 + ItemColumns3 + ItemColumns4 + ItemColumns5 + ItemColumns6 + ItemColumns7 + ItemColumns8, FeedColumns, DownloaderColumns2);
    DisjointLeftAppend(ItemColumns1 + ItemColumns2 + ItemColumns3 + ItemColumns4 + ItemColumns5 + ItemColumns6 + ItemColumns7 + ItemColumns8 + FeedColumns, IconCacheColumns, DownloaderColumns2);
    DisjointLeftAppend(ItemColumns1 + ItemColumns2 + ItemColumns3 + ItemColumns4 + ItemColumns5 + ItemColumns6 + ItemColumns7 + ItemColumns8 + FeedColumns + IconCacheColumns, DownloaderColumns1, DownloaderColumns2);
    AppendDistinct(ItemColumns1 + ItemColumns2 + ItemColumns3 + ItemColumns4 + ItemColumns5 + ItemColumns6 + ItemColumns7 + ItemColumns8 + FeedColumns + IconCacheColumns + DownloaderColumns1, DownloaderColumns2);
  }
}
