/** Worked examples from the sample schema: `ItemName`, `Item` and `Record`, the metadata
    derived for them and the SQL text generated from it. The expected texts are written as
    their clauses, in order, so that each clause can be read on its own. */
module SampleTables {
  import opened Wrappers
  import opened Strings
  import opened DbTypes
  import opened Schema
  import opened SchemaLoader

  /** The column every subclass of `Table` inherits. */
  const IdColumn := Column("id", AutoIncrementId)

  const IdClauseText := "`id` " + ("INT" + " NOT NULL" + " PRIMARY KEY" + " AUTO_INCREMENT")

  const ItemNameRef := TableRef("ItemName", "id")

  /** `class ItemName(UniqueTable): name: VarChar(128)`. */
  const ItemNameOwn := [Field("name", Dt(VarChar(128)))]

  const ItemNameTable := Table("ItemName", [IdColumn, Column("name", VarChar(128))], "id", [])

  /** `class Item(UniqueTable): name: ItemName; abstract: VarChar(256)`. */
  const ItemOwn := [Field("name", TableT(ItemNameRef)), Field("abstract", Dt(VarChar(256)))]

  const ItemTable := Table("Item",
    [IdColumn, Column("name", ForeignKey(ItemNameRef)), Column("abstract", VarChar(256))],
    "id", [("name", ItemNameRef)])

  // ---------------------------------------------------------------------------
  // Rendering of single columns
  // ---------------------------------------------------------------------------

  /** A column clause is the back-quoted name, a space and the column's SQL expression. */
  lemma {:induction false} ClauseShape(c: Column)
    ensures ColumnClause(c) == "`" + c.name + "` " + SqlExpr(c.info)
  {
  }

  /** The inherited `id` column renders as an auto-increment INT primary key. */
  lemma {:induction false} IdClause(c: Column)
    requires c == IdColumn
    ensures ColumnClause(c) == IdClauseText
  {
    AutoIncrementIdRendering(NoOverrides);
    ClauseShape(c);
  }

  /** Local helper: the decimal text of 128. */
  lemma Decimal128()
    ensures NatToString(128) == "128"
  {
    assert NatToString(1) == "1";
    assert NatToString(12) == "12";
  }

  /** Local helper: the decimal text of 256. */
  lemma Decimal256()
    ensures NatToString(256) == "256"
  {
    assert NatToString(2) == "2";
    assert NatToString(25) == "25";
  }

  /** `VARCHAR(l)` renders with its decimal length and NOT NULL. */
  lemma {:induction false} VarCharClause(c: Column, l: nat, digits: string)
    requires c.info == VarChar(l) && digits == NatToString(l)
    ensures ColumnClause(c) == "`" + c.name + "` " + "VARCHAR(" + digits + ") NOT NULL"
  {
    SizedTypeRendering(VarCharT, l);
    ClauseShape(c);
  }

  /** A foreign-key column renders as `INT NOT NULL`. */
  lemma {:induction false} ForeignKeyColumnClause(c: Column, target: TableRef)
    requires c.info == ForeignKey(target)
    ensures ColumnClause(c) == "`" + c.name + "` INT NOT NULL"
  {
    ClauseShape(c);
  }

  // ---------------------------------------------------------------------------
  // ItemName
  // ---------------------------------------------------------------------------

  /** ItemName's own field resolves to the `VARCHAR(128)` column `name`. */
  lemma ItemNameOwnColumns()
    ensures ResolveColumns(ItemNameOwn) == Success([Column("name", VarChar(128))])
  {
    assert "name"[0] != "__"[0];
    MergeNothing(VarChar(128));
    assert |ItemNameOwn| == 1 && ItemNameOwn[0] == Field("name", Dt(VarChar(128)));
    assert !IsMetaName(ItemNameOwn[0].name);
    assert ToDataType(ItemNameOwn[0].ty, NoOverrides) == Success(VarChar(128));
    assert ResolveColumns(ItemNameOwn[1..]) == Success([]);
    assert [Column("name", VarChar(128))] + [] == [Column("name", VarChar(128))];
  }

  /** The primary and linked columns of ItemName's columns. */
  lemma {:induction false} ItemNameKeys(cols: seq<Column>)
    requires cols == [IdColumn, Column("name", VarChar(128))]
    ensures PrimaryNames(cols) == ["id"]
    ensures LinkedColumns(cols) == []
  {
    assert [cols[0]] == [] + [cols[0]];
    assert cols == [cols[0]] + [cols[1]];
    PrimaryNamesSnoc([], cols[0]);
    PrimaryNamesSnoc([cols[0]], cols[1]);
  }

  /** Local helper: a one-element list in front of a one- or two-element list. */
  lemma {:induction false} PrependOne<T>(a: T, b: T, c: T)
    ensures [a] + [b] == [a, b]
    ensures [a] + [b, c] == [a, b, c]
  {
  }

  /** ItemName's hints are unique and resolve to `id` then `name`. */
  lemma {:induction false} ItemNameResolved(d: Decl)
    requires d == TableSubclass("ItemName", None, ItemNameOwn)
    ensures UniqueHints(d)
    ensures ResolveColumns(d.hints) == Success([IdColumn, Column("name", VarChar(128))])
  {
    assert FieldNames(ItemNameOwn) == ["name"];
    TableHintsUnique(ItemNameOwn);
    ItemNameOwnColumns();
    TableSubclassColumns(ItemNameOwn);
    PrependOne(IdColumn, Column("name", VarChar(128)), Column("name", VarChar(128)));
  }

  /** ItemName derives to `id` then `name`, keyed by `id`, with no foreign key. */
  lemma ItemNameMetadata()
    ensures (TableHintsUnique(ItemNameOwn); Derive(TableSubclass("ItemName", None, ItemNameOwn))) == Success(ItemNameTable)
  {
    var d := TableSubclass("ItemName", None, ItemNameOwn);
    var cols := ItemNameTable.columns;
    ItemNameResolved(d);
    ItemNameKeys(cols);
    DeriveMatchesReference(d);
    var t := Derive(d).value;
    assert t.columns == cols;
    assert [t.keyName] == ["id"];
    assert t.fkTable == [];
    assert t.name == "ItemName";
  }

  /** A two-column table without foreign keys: head, both clauses with one separator, tail. */
  lemma {:induction false} TwoColumnStatement(t: Table)
    requires |t.columns| == 2 && |t.fkTable| == 0
    ensures ShowCreateTable(t) == CreateTableHead(t.name) + ColumnClause(t.columns[0]) + ClauseSeparator
                                  + ColumnClause(t.columns[1]) + CreateTableTail
  {
    CreateTableLayout(t);
    var cs := ColumnClauses(t.columns);
    assert Join(ClauseSeparator, cs) == cs[0] + ClauseSeparator + cs[1];
  }

  /** Local helper: the clause of `name VARCHAR(128)`, assembled from its pieces, as one text. */
  lemma {:induction false} NameClauseLetters(digits: string, clause: string)
    requires digits == "128"
    requires clause == "`" + "name" + "` " + "VARCHAR(" + digits + ") NOT NULL"
    ensures clause == "`name` VARCHAR(128) NOT NULL"
  {
  }

  /** The CREATE TABLE statement of ItemName. */
  lemma ItemNameCreateTable()
    ensures ShowCreateTable(ItemNameTable)
              == CreateTableHead("ItemName") + IdClauseText + ClauseSeparator
                 + "`name` VARCHAR(128) NOT NULL" + CreateTableTail
  {
    var t := ItemNameTable;
    TwoColumnStatement(t);
    IdClause(t.columns[0]);
    Decimal128();
    VarCharClause(t.columns[1], 128, "128");
    NameClauseLetters("128", ColumnClause(t.columns[1]));
  }

  // ---------------------------------------------------------------------------
  // Item
  // ---------------------------------------------------------------------------

  /** Item's own fields resolve to the foreign key `name` and the `VARCHAR(256)` `abstract`. */
  lemma ItemOwnColumns()
    ensures ResolveColumns(ItemOwn)
              == Success([Column("name", ForeignKey(ItemNameRef)), Column("abstract", VarChar(256))])
  {
    var nameCol := Column("name", ForeignKey(ItemNameRef));
    var abstractCol := Column("abstract", VarChar(256));
    assert "name"[0] != "__"[0] && "abstract"[0] != "__"[0];
    MergeNothing(VarChar(256));
    assert ItemOwn[1..][1..] == [];
    assert ResolveColumns(ItemOwn[1..]) == Success([abstractCol] + []);
    assert ResolveColumns(ItemOwn) == Success([nameCol] + ([abstractCol] + []));
    assert [nameCol] + ([abstractCol] + []) == [nameCol, abstractCol];
  }

  /** The primary and linked columns of Item's columns. */
  lemma {:induction false} ItemKeys(cols: seq<Column>)
    requires cols == [IdColumn, Column("name", ForeignKey(ItemNameRef)), Column("abstract", VarChar(256))]
    ensures PrimaryNames(cols) == ["id"]
    ensures LinkedColumns(cols) == [("name", ItemNameRef)]
  {
    assert [cols[0]] == [] + [cols[0]];
    assert cols[..2] == [cols[0]] + [cols[1]];
    assert cols == cols[..2] + [cols[2]];
    PrimaryNamesSnoc([], cols[0]);
    PrimaryNamesSnoc([cols[0]], cols[1]);
    PrimaryNamesSnoc(cols[..2], cols[2]);
  }

  /** Item's hints are unique and resolve to `id`, the foreign key `name` and `abstract`. */
  lemma {:induction false} ItemResolved(d: Decl)
    requires d == TableSubclass("Item", None, ItemOwn)
    ensures UniqueHints(d)
    ensures ResolveColumns(d.hints)
              == Success([IdColumn, Column("name", ForeignKey(ItemNameRef)), Column("abstract", VarChar(256))])
  {
    assert FieldNames(ItemOwn) == ["name", "abstract"];
    TableHintsUnique(ItemOwn);
    ItemOwnColumns();
    TableSubclassColumns(ItemOwn);
    PrependOne(IdColumn, Column("name", ForeignKey(ItemNameRef)), Column("abstract", VarChar(256)));
  }

  /** Item derives to `id`, the foreign key `name` to ItemName, and `abstract`; keyed by `id`,
      with `name` its one foreign key. */
  lemma ItemMetadata()
    ensures (TableHintsUnique(ItemOwn); Derive(TableSubclass("Item", None, ItemOwn))) == Success(ItemTable)
  {
    var d := TableSubclass("Item", None, ItemOwn);
    var cols := ItemTable.columns;
    ItemResolved(d);
    ItemKeys(cols);
    DeriveMatchesReference(d);
    var t := Derive(d).value;
    assert t.columns == cols;
    assert [t.keyName] == ["id"];
    assert t.fkTable == [("name", ItemNameRef)];
    assert t.name == "Item";
  }

  /** Local helper: regrouping the pieces of a three-clause join followed by a fourth clause. */
  lemma {:induction false} RegroupFourClauses(head: string, a: string, b: string, c: string, d: string, sep: string, tail: string)
    ensures head + (a + sep + (b + sep + c) + sep + d) + tail
              == head + a + sep + b + sep + c + sep + d + tail
  {
  }

  /** Three columns and one foreign key: each clause in order, one separator between each. */
  lemma {:induction false} ThreeColumnsOneKeyStatement(t: Table)
    requires |t.columns| == 3 && |t.fkTable| == 1
    ensures ShowCreateTable(t) == CreateTableHead(t.name)
              + ColumnClause(t.columns[0]) + ClauseSeparator
              + ColumnClause(t.columns[1]) + ClauseSeparator
              + ColumnClause(t.columns[2]) + ClauseSeparator
              + ForeignKeyClause(t.fkTable[0].0, t.fkTable[0].1)
              + CreateTableTail
  {
    CreateTableLayout(t);
    var cs := ColumnClauses(t.columns);
    var fs := ForeignKeyClauses(t.fkTable);
    assert cs[1..][1..] == [cs[2]];
    assert Join(ClauseSeparator, cs[1..]) == cs[1] + ClauseSeparator + cs[2];
    assert Join(ClauseSeparator, cs) == cs[0] + ClauseSeparator + (cs[1] + ClauseSeparator + cs[2]);
    assert Join(ClauseSeparator, fs) == fs[0];
    RegroupFourClauses(CreateTableHead(t.name), cs[0], cs[1], cs[2], fs[0], ClauseSeparator, CreateTableTail);
  }

  /** Local helper: the clause of `abstract VARCHAR(256)`, assembled from its pieces, as one text. */
  lemma {:induction false} AbstractClauseLetters(digits: string, clause: string)
    requires digits == "256"
    requires clause == "`" + "abstract" + "` " + "VARCHAR(" + digits + ") NOT NULL"
    ensures clause == "`abstract` VARCHAR(256) NOT NULL"
  {
  }

  /** Local helper: the clause of the foreign-key column `name`, as one text. */
  lemma {:induction false} NameForeignKeyLetters(clause: string)
    requires clause == "`" + "name" + "` INT NOT NULL"
    ensures clause == "`name` INT NOT NULL"
  {
  }

  /** Each clause of Item's statement, as text. */
  lemma {:induction false} ItemClauses(t: Table)
    requires t == ItemTable
    ensures |t.columns| == 3 && |t.fkTable| == 1
    ensures ColumnClause(t.columns[0]) == IdClauseText
    ensures ColumnClause(t.columns[1]) == "`name` INT NOT NULL"
    ensures ColumnClause(t.columns[2]) == "`abstract` VARCHAR(256) NOT NULL"
    ensures ForeignKeyClause(t.fkTable[0].0, t.fkTable[0].1)
              == "FOREIGN KEY `fk_" + "name" + "` (`" + "name" + "`) REFERENCES `" + "ItemName" + "`(`" + "id" + "`)"
  {
    IdClause(t.columns[0]);
    ForeignKeyColumnClause(t.columns[1], ItemNameRef);
    NameForeignKeyLetters(ColumnClause(t.columns[1]));
    Decimal256();
    VarCharClause(t.columns[2], 256, "256");
    AbstractClauseLetters("256", ColumnClause(t.columns[2]));
    assert t.fkTable[0] == ("name", ItemNameRef);
  }

  /** The CREATE TABLE statement of Item: the link to ItemName is an `INT NOT NULL` column and
      a FOREIGN KEY clause after all the column clauses. */
  lemma ItemCreateTable()
    ensures ShowCreateTable(ItemTable)
              == CreateTableHead("Item")
                 + IdClauseText + ClauseSeparator
                 + "`name` INT NOT NULL" + ClauseSeparator
                 + "`abstract` VARCHAR(256) NOT NULL" + ClauseSeparator
                 + ("FOREIGN KEY `fk_" + "name" + "` (`" + "name" + "`) REFERENCES `" + "ItemName" + "`(`" + "id" + "`)")
                 + CreateTableTail
  {
    ItemClauses(ItemTable);
    ThreeColumnsOneKeyStatement(ItemTable);
  }

  /** The four selsert lists of Item: one entry for each of `name` and `abstract`. */
  const ItemLists := SelsertLists(
    ["v_name INT", "v_abstract VARCHAR(256)"],
    ["`name` = v_name", "`abstract` = v_abstract"],
    ["`name`", "`abstract`"],
    ["v_name", "v_abstract"])

  /** Local helper: Item's selsert arguments, assembled from their pieces, as texts. */
  lemma {:induction false} ItemArgumentLetters(arguments: seq<string>, intName: string, varcharName: string)
    requires intName == "INT" && varcharName == "VARCHAR(" + "256" + ")"
    requires arguments == ["v_" + "name" + " " + intName, "v_" + "abstract" + " " + varcharName]
    ensures arguments == ItemLists.arguments
  {
    assert arguments[0] == "v_name INT";
    assert varcharName == "VARCHAR(256)";
    assert arguments[1] == "v_abstract VARCHAR(256)";
  }

  /** Local helper: Item's match predicates, insert columns and insert values as texts. */
  lemma {:induction false} ItemMatchListLetters(predicates: seq<string>, insertColumns: seq<string>, insertValues: seq<string>)
    requires predicates == ["`" + "name" + "` = v_" + "name", "`" + "abstract" + "` = v_" + "abstract"]
    requires insertColumns == ["`" + "name" + "`", "`" + "abstract" + "`"]
    requires insertValues == ["v_" + "name", "v_" + "abstract"]
    ensures predicates == ItemLists.predicates
    ensures insertColumns == ItemLists.insertColumns
    ensures insertValues == ItemLists.insertValues
  {
    assert predicates[0] == "`name` = v_name";
    assert predicates[1] == "`abstract` = v_abstract";
    assert insertColumns[0] == "`name`";
    assert insertColumns[1] == "`abstract`";
    assert insertValues[0] == "v_name";
    assert insertValues[1] == "v_abstract";
  }

  /** The key column of Item is `id`, whose type is `INT`; the value columns are the others. */
  lemma {:induction false} ItemSelsertParts(t: Table)
    requires t == ItemTable
    ensures KeyInfo(t.columns, t.keyName) == Success(AutoIncrementId)
    ensures AutoIncrementId.dbtype == "INT"
    ensures ValueColumns(t.columns, t.keyName) == t.columns[1..]
  {
    var cols := t.columns;
    assert cols[0].name == "id";
    assert cols[1].name != "id" && cols[2].name != "id";
    assert cols[1..][1..][1..] == [];
    assert ValueColumns(cols[1..][1..], "id") == [cols[2]] + [];
    assert ValueColumns(cols[1..], "id") == [cols[1]] + [cols[2]];
    assert ValueColumns(cols, "id") == [] + [cols[1], cols[2]];
  }

  /** The selsert lists of two value columns, entry by entry. */
  lemma {:induction false} TwoColumnLists(a: Column, b: Column)
    ensures SelsertListsOf([a, b]) == SelsertLists(
              [Argument(a), Argument(b)], [MatchPredicate(a), MatchPredicate(b)],
              [Quoted(a), Quoted(b)], [ArgumentName(a), ArgumentName(b)])
  {
    var l := SelsertListsOf([a, b]);
    assert l.arguments == [l.arguments[0], l.arguments[1]];
    assert l.predicates == [l.predicates[0], l.predicates[1]];
    assert l.insertColumns == [l.insertColumns[0], l.insertColumns[1]];
    assert l.insertValues == [l.insertValues[0], l.insertValues[1]];
  }

  /** The selsert lists built from Item's value columns `name` and `abstract`. */
  lemma {:induction false} ItemSelsertLists(t: Table)
    requires t == ItemTable
    ensures SelsertListsOf(t.columns[1..]) == ItemLists
  {
    var nameCol, abstractCol := t.columns[1], t.columns[2];
    assert t.columns[1..] == [nameCol, abstractCol];
    TwoColumnLists(nameCol, abstractCol);
    SizedTypeRendering(VarCharT, 256);
    Decimal256();
    var l := SelsertListsOf(t.columns[1..]);
    ItemArgumentLetters(l.arguments, nameCol.info.dbtype, abstractCol.info.dbtype);
    ItemMatchListLetters(l.predicates, l.insertColumns, l.insertValues);
  }

  /** The selsert function of Item, as written: it returns the key's `INT`, takes and matches
      `name` and `abstract`, and its INSERT statement names `id` where the table name belongs. */
  lemma ItemSelsert()
    ensures ShowSelsert(ItemTable) == Success(
      "DELIMITER //\n"
      + ("CREATE FUNCTION `selsert_" + "Item" + "`(  \n"
      + ("v_name INT" + ", " + "v_abstract VARCHAR(256)")
      + ") RETURNS " + "INT" + " DETERMINISTIC\n"
      + "BEGIN\n"
      + "  @ret = (SELECT `" + "id" + "` FROM `" + "Item" + "`\n"
      + "    WHERE " + ("`name` = v_name" + " AND " + "`abstract` = v_abstract") + ");\n"
      + "  IF @ret IS NOT NULL THEN\n"
      + "    RETURN @ret;\n"
      + "  END IF;\n"
      + "  INSERT INTO `" + "id" + "`(" + ("`name`" + ", " + "`abstract`") + ") \n"
      + "    VALUES(" + ("v_name" + ", " + "v_abstract") + ");\n"
      + "  RETURN LAST_INSERT_ID();\n")
      + "END//\nDELIMITER ;\n")
  {
    ItemSelsertParts(ItemTable);
    ItemSelsertLists(ItemTable);
    SelsertTextOf(ItemTable, AutoIncrementId);
    JoinTwo(", ", "v_name INT", "v_abstract VARCHAR(256)");
    JoinTwo(" AND ", "`name` = v_name", "`abstract` = v_abstract");
    JoinTwo(", ", "`name`", "`abstract`");
    JoinTwo(", ", "v_name", "v_abstract");
  }

  // ---------------------------------------------------------------------------
  // Record
  // ---------------------------------------------------------------------------

  /** In Record, `quantity: Optional[Quantity]` is still a non-null foreign key, while
      `note: Optional[VarChar(128)]` is a nullable `VARCHAR(128)`. */
  lemma {:induction false} RecordOptionalColumns(quantity: TableRef)
    ensures ToDataType(Optional(TableT(quantity)), NoOverrides) == Success(ForeignKey(quantity))
    ensures SqlExpr(ToDataType(Optional(TableT(quantity)), NoOverrides).value) == "INT NOT NULL"
    ensures ToDataType(Optional(Dt(VarChar(128))), NoOverrides) == Success(VarChar(128).(nullable := true))
    ensures SqlExpr(ToDataType(Optional(Dt(VarChar(128))), NoOverrides).value) == VarChar(128).dbtype
  {
    OptionalResolution(TableT(quantity));
    OptionalResolution(Dt(VarChar(128)));
    FlagsRendering(VarChar(128).(nullable := true));
  }
}
