/** The table record of `db.schema` and the SQL text built from it: the `CREATE TABLE`
    statement and the select-or-insert ("selsert") stored function. */
module Schema {
  import opened Wrappers
  import opened Errors
  import opened Strings
  import opened DbTypes

  /** One entry of the ordered `columns` dict. */
  datatype Column = Column(name: string, info: Info)

  /** `schema.Table`: name, ordered columns, key column name and foreign-key targets
      (column name to the linked table, in discovery order). */
  datatype Table = Table(name: string, columns: seq<Column>, keyName: string, fkTable: seq<(string, TableRef)>)

  function ColumnNames(cols: seq<Column>): (names: seq<string>)
    ensures |names| == |cols|
    ensures forall i :: 0 <= i < |cols| ==> names[i] == cols[i].name
  {
    seq(|cols|, i requires 0 <= i < |cols| => cols[i].name)
  }

  lemma {:induction false} ColumnNamesCons(c: Column, rest: seq<Column>)
    ensures ColumnNames([c] + rest) == [c.name] + ColumnNames(rest)
  {
  }

  predicate Distinct(names: seq<string>)
  {
    forall i, j :: 0 <= i < j < |names| ==> names[i] != names[j]
  }

  // ---------------------------------------------------------------------------
  // CREATE TABLE
  // ---------------------------------------------------------------------------

  const ClauseSeparator := ", \n  "

  /** `` `name` <sql_expr> ``. */
  function ColumnClause(c: Column): (r: string)
    ensures |r| > 0 && r[0] == '`'
  {
    "`" + c.name + "` " + SqlExpr(c.info)
  }

  /** ``FOREIGN KEY `fk_<col>` (`<col>`) REFERENCES `<table>`(`<key>`)``. */
  function ForeignKeyClause(col: string, target: TableRef): (r: string)
    ensures |r| > 0 && r[0] == 'F'
  {
    var r := "FOREIGN KEY `fk_" + col + "` (`" + col + "`) REFERENCES `" + target.name + "`(`" + target.keyName + "`)";
    assert r[0] == "FOREIGN KEY `fk_"[0];
    r
  }

  /** A column clause is never a foreign-key clause: the first character tells the two apart. */
  lemma {:induction false} ClauseKindsDiffer(c: Column, col: string, target: TableRef)
    ensures ColumnClause(c) != ForeignKeyClause(col, target)
  {
  }

  /** A column clause gives back the column: after the back-quoted name, a blank and the type
      name, the rest reads back as exactly the column's flags. */
  lemma {:induction false} ColumnClauseReadsBack(c: Column)
    ensures var head := "`" + c.name + "` " + c.info.dbtype;
      head <= ColumnClause(c) && ParseFlags(ColumnClause(c)[|head|..]) == Some(FlagsOf(c.info))
  {
    var quoted, flags := "`" + c.name + "` ", FlagClauses(FlagsOf(c.info));
    assert ColumnClause(c) == quoted + (c.info.dbtype + flags);
    Regroup(quoted, c.info.dbtype, flags);
    SplitAt(quoted + c.info.dbtype, flags);
    ParseFlagClauses(FlagsOf(c.info));
  }

  function ColumnClauses(cols: seq<Column>): (r: seq<string>)
    ensures |r| == |cols|
    ensures forall i :: 0 <= i < |cols| ==> r[i] == ColumnClause(cols[i])
  {
    seq(|cols|, i requires 0 <= i < |cols| => ColumnClause(cols[i]))
  }

  function ForeignKeyClauses(fks: seq<(string, TableRef)>): (r: seq<string>)
    ensures |r| == |fks|
    ensures forall i :: 0 <= i < |fks| ==> r[i] == ForeignKeyClause(fks[i].0, fks[i].1)
  {
    seq(|fks|, i requires 0 <= i < |fks| => ForeignKeyClause(fks[i].0, fks[i].1))
  }

  function CreateTableHead(name: string): string
  {
    "CREATE TABLE `" + name + "`(\n  "
  }

  const CreateTableTail := "\n);"

  /** `Table.show_create_table`: the column clauses then the foreign-key clauses, joined by
      `", \n  "`, between the statement head and `\n);`. */
  function ShowCreateTable(t: Table): (r: string)
    ensures CreateTableHead(t.name) <= r
    ensures EndsWith(r, CreateTableTail)
  {
    var clauses := Join(ClauseSeparator, ColumnClauses(t.columns) + ForeignKeyClauses(t.fkTable));
    Framed(CreateTableHead(t.name), clauses, CreateTableTail);
    CreateTableHead(t.name) + clauses + CreateTableTail
  }

  /** The layout of the statement: every column clause, in column order, comes before every
      foreign-key clause, in `fk_table` order, and one separator stands between the two runs. */
  lemma {:induction false} CreateTableLayout(t: Table)
    ensures |t.fkTable| == 0 ==>
      ShowCreateTable(t) == CreateTableHead(t.name) + Join(ClauseSeparator, ColumnClauses(t.columns)) + CreateTableTail
    ensures |t.columns| == 0 ==>
      ShowCreateTable(t) == CreateTableHead(t.name) + Join(ClauseSeparator, ForeignKeyClauses(t.fkTable)) + CreateTableTail
    ensures |t.columns| > 0 && |t.fkTable| > 0 ==>
      ShowCreateTable(t) == CreateTableHead(t.name) + Join(ClauseSeparator, ColumnClauses(t.columns))
        + ClauseSeparator + Join(ClauseSeparator, ForeignKeyClauses(t.fkTable)) + CreateTableTail
  {
    var cs, fs := ColumnClauses(t.columns), ForeignKeyClauses(t.fkTable);
    if |fs| == 0 {
      assert cs + fs == cs;
    } else if |cs| == 0 {
      assert cs + fs == fs;
    } else {
      JoinConcat(ClauseSeparator, cs, fs);
    }
  }

  // ---------------------------------------------------------------------------
  // Selsert
  // ---------------------------------------------------------------------------

  /** `v_colnames`: every column except the key column, in column order. */
  function ValueColumns(cols: seq<Column>, keyName: string): (r: seq<Column>)
    ensures forall c :: c in r <==> c in cols && c.name != keyName
    ensures |r| <= |cols|
  {
    if |cols| == 0 then []
    else (if cols[0].name != keyName then [cols[0]] else []) + ValueColumns(cols[1..], keyName)
  }

  /** Filtering out the key keeps column order: it distributes over concatenation. */
  lemma {:induction false} ValueColumnsConcat(a: seq<Column>, b: seq<Column>, keyName: string)
    ensures ValueColumns(a + b, keyName) == ValueColumns(a, keyName) + ValueColumns(b, keyName)
  {
    if |a| == 0 {
      assert a + b == b;
    } else {
      assert (a + b)[1..] == a[1..] + b;
      ValueColumnsConcat(a[1..], b, keyName);
    }
  }

  /** Distinct names stay distinct without the first column, whose name is not among the rest. */
  lemma {:induction false} DistinctTail(cols: seq<Column>)
    requires |cols| > 0 && Distinct(ColumnNames(cols))
    ensures Distinct(ColumnNames(cols[1..]))
    ensures cols[0].name !in ColumnNames(cols[1..])
  {
    var rest := cols[1..];
    forall i, j | 0 <= i < j < |rest|
      ensures ColumnNames(rest)[i] != ColumnNames(rest)[j]
    {
      assert ColumnNames(cols)[i + 1] != ColumnNames(cols)[j + 1];
    }
    forall j | 0 <= j < |rest| ensures ColumnNames(rest)[j] != cols[0].name {
      assert ColumnNames(cols)[0] != ColumnNames(cols)[j + 1];
    }
  }

  /** With distinct column names and the key among them, exactly one column is dropped. */
  lemma {:induction false} ValueColumnsCount(cols: seq<Column>, keyName: string)
    requires Distinct(ColumnNames(cols))
    ensures keyName in ColumnNames(cols) ==> |ValueColumns(cols, keyName)| == |cols| - 1
    ensures keyName !in ColumnNames(cols) ==> ValueColumns(cols, keyName) == cols
  {
    if |cols| > 0 {
      var rest := cols[1..];
      DistinctTail(cols);
      ValueColumnsCount(rest, keyName);
      assert ColumnNames(cols) == [cols[0].name] + ColumnNames(rest);
    }
  }

  /** `self.columns[self.key_name]`: the key column's info, or KeyError. */
  function KeyInfo(cols: seq<Column>, keyName: string): (r: Result<Info, Error>)
    ensures r.Success? <==> keyName in ColumnNames(cols)
    ensures r.Success? ==> Column(keyName, r.value) in cols
    ensures r.Failure? ==> r.error == UnknownKeyColumn
  {
    if |cols| == 0 then Failure(UnknownKeyColumn)
    else if cols[0].name == keyName then Success(cols[0].info)
    else
      assert ColumnNames(cols) == [cols[0].name] + ColumnNames(cols[1..]);
      KeyInfo(cols[1..], keyName)
  }

  /** With distinct names, looking the key up gives the info of the one column so named. */
  lemma {:induction false} KeyInfoOfColumn(cols: seq<Column>, keyName: string, k: Info)
    requires Distinct(ColumnNames(cols)) && Column(keyName, k) in cols
    ensures KeyInfo(cols, keyName) == Success(k)
  {
    var i :| 0 <= i < |cols| && cols[i] == Column(keyName, k);
    if cols[0].name == keyName {
      assert ColumnNames(cols)[0] == ColumnNames(cols)[i];
    } else {
      DistinctTail(cols);
      assert cols[1..][i - 1] == cols[i];
      KeyInfoOfColumn(cols[1..], keyName, k);
    }
  }

  /** `v_<col> <dbtype>`: an argument takes the bare type name, without flag clauses. */
  function Argument(c: Column): string
  {
    "v_" + c.name + " " + c.info.dbtype
  }

  /** `` `<col>` = v_<col> ``. */
  function MatchPredicate(c: Column): string
  {
    "`" + c.name + "` = v_" + c.name
  }

  function Quoted(c: Column): string
  {
    "`" + c.name + "`"
  }

  function ArgumentName(c: Column): string
  {
    "v_" + c.name
  }

  /** The four lists the selsert text is built from, one entry per value column. */
  datatype SelsertLists = SelsertLists(
    arguments: seq<string>,
    predicates: seq<string>,
    insertColumns: seq<string>,
    insertValues: seq<string>)

  function SelsertListsOf(vcols: seq<Column>): (r: SelsertLists)
    ensures |r.arguments| == |r.predicates| == |r.insertColumns| == |r.insertValues| == |vcols|
    ensures forall i :: 0 <= i < |vcols| ==>
              && r.arguments[i] == Argument(vcols[i])
              && r.predicates[i] == MatchPredicate(vcols[i])
              && r.insertColumns[i] == Quoted(vcols[i])
              && r.insertValues[i] == ArgumentName(vcols[i])
  {
    SelsertLists(
      seq(|vcols|, i requires 0 <= i < |vcols| => Argument(vcols[i])),
      seq(|vcols|, i requires 0 <= i < |vcols| => MatchPredicate(vcols[i])),
      seq(|vcols|, i requires 0 <= i < |vcols| => Quoted(vcols[i])),
      seq(|vcols|, i requires 0 <= i < |vcols| => ArgumentName(vcols[i])))
  }

  const SelsertHead := "DELIMITER //\n"
  const SelsertTail := "END//\nDELIMITER ;\n"

  /** The statements between the delimiter lines; `insertTable` is the name after
      `INSERT INTO`. */
  function SelsertBody(t: Table, lists: SelsertLists, keyType: string, insertTable: string): string
  {
    "CREATE FUNCTION `selsert_" + t.name + "`(  \n"
    + Join(", ", lists.arguments)
    + ") RETURNS " + keyType + " DETERMINISTIC\n"
    + "BEGIN\n"
    + "  @ret = (SELECT `" + t.keyName + "` FROM `" + t.name + "`\n"
    + "    WHERE " + Join(" AND ", lists.predicates) + ");\n"
    + "  IF @ret IS NOT NULL THEN\n"
    + "    RETURN @ret;\n"
    + "  END IF;\n"
    + "  INSERT INTO `" + insertTable + "`(" + Join(", ", lists.insertColumns) + ") \n"
    + "    VALUES(" + Join(", ", lists.insertValues) + ");\n"
    + "  RETURN LAST_INSERT_ID();\n"
  }

  /** `Table.show_selsert`, as written: the INSERT statement names the key column, not the
      table. Fails with KeyError when the key is not a column. */
  function ShowSelsert(t: Table): (r: Result<string, Error>)
    ensures r.Failure? <==> t.keyName !in ColumnNames(t.columns)
    ensures r.Failure? ==> r.error == UnknownKeyColumn
    ensures r.Success? ==> SelsertHead <= r.value && EndsWith(r.value, SelsertTail)
  {
    var keyInfo :- KeyInfo(t.columns, t.keyName);
    var lists := SelsertListsOf(ValueColumns(t.columns, t.keyName));
    var body := SelsertBody(t, lists, keyInfo.dbtype, t.keyName);
    Framed(SelsertHead, body, SelsertTail);
    Success(SelsertHead + body + SelsertTail)
  }
  /** The selsert text, line by line, once the key column's info is known: it returns the key
      column's type, selects the key where every value column equals its argument (one
      predicate per value column, joined by AND), and otherwise inserts the value columns'
      arguments. */
  lemma {:induction false} SelsertTextOf(t: Table, k: Info)
    requires KeyInfo(t.columns, t.keyName) == Success(k)
    ensures var l := SelsertListsOf(ValueColumns(t.columns, t.keyName));
      ShowSelsert(t) == Success(
        "DELIMITER //\n"
        + ("CREATE FUNCTION `selsert_" + t.name + "`(  \n"
        + Join(", ", l.arguments)
        + ") RETURNS " + k.dbtype + " DETERMINISTIC\n"
        + "BEGIN\n"
        + "  @ret = (SELECT `" + t.keyName + "` FROM `" + t.name + "`\n"
        + "    WHERE " + Join(" AND ", l.predicates) + ");\n"
        + "  IF @ret IS NOT NULL THEN\n"
        + "    RETURN @ret;\n"
        + "  END IF;\n"
        + "  INSERT INTO `" + t.keyName + "`(" + Join(", ", l.insertColumns) + ") \n"
        + "    VALUES(" + Join(", ", l.insertValues) + ");\n"
        + "  RETURN LAST_INSERT_ID();\n")
        + "END//\nDELIMITER ;\n")
  {
  }

  /** On a table with distinct column names whose key is a column, the selsert text is the one
      above, built from that column's info, with exactly one entry per non-key column in each
      list. */
  lemma {:induction false} SelsertText(t: Table, k: Info)
    requires Distinct(ColumnNames(t.columns)) && Column(t.keyName, k) in t.columns
    ensures var l := SelsertListsOf(ValueColumns(t.columns, t.keyName));
      && |l.arguments| == |l.predicates| == |l.insertColumns| == |l.insertValues| == |t.columns| - 1
      && ShowSelsert(t) == Success(
        "DELIMITER //\n"
        + ("CREATE FUNCTION `selsert_" + t.name + "`(  \n"
        + Join(", ", l.arguments)
        + ") RETURNS " + k.dbtype + " DETERMINISTIC\n"
        + "BEGIN\n"
        + "  @ret = (SELECT `" + t.keyName + "` FROM `" + t.name + "`\n"
        + "    WHERE " + Join(" AND ", l.predicates) + ");\n"
        + "  IF @ret IS NOT NULL THEN\n"
        + "    RETURN @ret;\n"
        + "  END IF;\n"
        + "  INSERT INTO `" + t.keyName + "`(" + Join(", ", l.insertColumns) + ") \n"
        + "    VALUES(" + Join(", ", l.insertValues) + ");\n"
        + "  RETURN LAST_INSERT_ID();\n")
        + "END//\nDELIMITER ;\n")
  {
    KeyInfoOfColumn(t.columns, t.keyName, k);
    SelsertTextOf(t, k);
    ValueColumnsCount(t.columns, t.keyName);
    assert t.keyName in ColumnNames(t.columns);
  }
}
