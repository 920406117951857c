# class-db schema core in Dafny

A model of the part of class-db that turns annotated Python table classes into SQL text.
It covers three pieces.

- **Data types** (`db.dbtypes`): an `ExType` checks Python values against a base class, an
  optional value range and an optional length range. A `DataTypeInfo` holds a column's SQL
  type name, its descriptor and four flags (nullable, primary, auto-increment, unique), plus
  an optional foreign-key target. `sql_expr` renders the info. `DataType` derives a new info
  from a base by keyword overrides. `PrimaryKey`, `IDKey` and `ForeignKey` are built on it.
  The built-in catalogue covers the integer widths, floats, the sized CHAR/VARCHAR/BINARY/
  VARBINARY families, the BLOB/TEXT tiers and the temporal types.
- **Table metadata** (`db.schema_loader`): the loop over a class's type hints. It skips
  `__` names and resolves each annotation with `to_data_type`. It collects the columns in
  order, records the single primary key and gathers the foreign keys. The class `Table`
  contributes `id: IDKey(auto_increment=True)`.
- **SQL text** (`db.schema`): `show_create_table` and `show_selsert` on the derived table.

Files:

- `wrappers.dfy`: `Option`, `Result`, `Outcome` and the error kinds.
- `text.dfy`: decimal rendering of naturals and Python's `str.join`.
- `dbtypes.dfy`: `ExType`, `DataTypeInfo`, `sql_expr`, `DataType`, the keys and the catalogue.
- `schema.dfy`: the table record, `show_create_table` and `show_selsert`.
- `schema_loader.dfy`: `to_data_type`, the metadata loop and its reference characterisation,
  and subclasses of `Table`.
- `sample_tables.dfy`: the sample tables `ItemName` and `Item` (and two columns of `Record`):
  their derived metadata, both CREATE TABLE statements, and the selsert of `Item`.

Python exceptions are `Result` failures that carry an `Error` kind. A Python value is a
`Value`. A `bool` counts as an `int` and a `datetime` as a `date`, as `isinstance` says.

## Model

| member | source | states |
|---|---|---|
| DbTypes.IsValid | src/db/dbtypes.py:21-26 | a value is valid exactly when it is an instance of the base, lies in the value range if there is one, and has a length in the length range if there is one; `len()` raising TypeError is reported exactly when the first two checks passed and the value has no length |
| DbTypes.ExpectValid | src/db/dbtypes.py:28-30 | passes exactly when `is_valid` answers true, and raises TypeError otherwise |
| DbTypes.RangedType | src/db/dbtypes.py:33-35 | an instance of the base is valid exactly when its integer value lies in the range; a non-instance is never valid |
| DbTypes.LenLimitedType | src/db/dbtypes.py:38-40 | an instance of the base is valid exactly when its length is at most `max_len`; a non-instance is never valid |
| DbTypes.PlainType | src/db/dbtypes.py:150-153 | `ExType(k)` with no ranges accepts exactly the instances of `k` |
| DbTypes.ParseFlagClauses | src/db/dbtypes.py:55-64 | the flag clauses read back as the flags: each clause at most once, in the fixed order |
| DbTypes.ParsedFlagsAreCanonical | src/db/dbtypes.py:55-64 | any text the flag reader accepts is the rendering of the flags it returns, so rendering and reading are inverse |
| DbTypes.SqlExprReadsBack | src/db/dbtypes.py:53-64 | `SqlExpr` (`sql_expr`) starts with the type name, and the rest reads back as exactly the info's flags |
| DbTypes.SqlExprDeterminesFlags | src/db/dbtypes.py:53-64 | two infos with the same type name render alike if and only if their four flags agree |
| DbTypes.FlagsRendering | src/db/dbtypes.py:53-64 | no flags render the bare type name; the default non-null info appends ` NOT NULL`; an auto-increment key appends ` NOT NULL PRIMARY KEY AUTO_INCREMENT` |
| DbTypes.Merge | src/db/dbtypes.py:76-77 | every keyword passed replaces that field; every other field keeps the base's value |
| DbTypes.MergeNothing | src/db/dbtypes.py:76-77 | deriving with no keywords returns the base info unchanged |
| DbTypes.MergeTwice | src/db/dbtypes.py:76-77 | deriving twice equals deriving once with the keyword dicts layered, later keywords winning |
| DbTypes.InfoFromKeywords | src/db/dbtypes.py:43-51 | `DataTypeInfo(**kw)` succeeds exactly when `dbtype` and `pytype` are both passed; every flag not passed takes its dataclass default |
| DbTypes.DataTypeAsWritten | src/db/dbtypes.py:70-81 | the base dispatch as written: None builds from keywords, a `DataTypeInfo` instance raises UnboundLocalError, a data type class is merged, another class raises RuntimeError, a non-class raises TypeError |
| DbTypes.InfoInstanceUnbound | src/db/dbtypes.py:74-75 | as written, a `DataTypeInfo` base fails for every keyword set, although a data type class carrying the same info succeeds |
| DbTypes.DataType | src/db/dbtypes.py:70-81 | with the instance branch corrected, both an info instance and a data type class are merged with the keywords; the other branches are unchanged |
| DbTypes.DataTypeBasesAgree | src/db/dbtypes.py:74-77 | corrected, an info and a data type class carrying it are interchangeable bases, and the dispatch differs from the written one only on info instances |
| DbTypes.NoBaseKeepsNames | src/db/dbtypes.py:72-73 | deriving from None with a type name and a descriptor succeeds and keeps both |
| DbTypes.NewDataTypeFromNone | src/db/dbtypes.py:94-99 | `NewDataType(dbtype, pytype)` is `DataType(None, dbtype=…, pytype=…)` |
| DbTypes.IntRangesAgree | src/db/dbtypes.py:130-134 | for `SignedRange` and `UnsignedRange` (`_singed_range`, `_unsigned_range`): the signed and unsigned ranges of a width both hold 2^bits integers; the signed one is the unsigned one shifted down by 2^(bits-1) |
| DbTypes.SignedIntType | src/db/dbtypes.py:138-142 | the integer types: named TINYINT … BIGINT and non-null; an int is valid exactly when it lies in [-2^(bits-1), 2^(bits-1)); a bool is always valid; a non-int never is |
| DbTypes.UnsignedIntType | src/db/dbtypes.py:144-148 | the `UNSIGNED` types: an int is valid exactly when it lies in [0, 2^bits); a bool is always valid; a non-int never is |
| DbTypes.TinyIntBounds | src/db/dbtypes.py:138 | TINYINT accepts -128 and 127 and rejects -129 and 128 |
| DbTypes.UnsignedTinyIntBounds | src/db/dbtypes.py:144 | UNSIGNED TINYINT accepts 0 and 255 and rejects -1 and 256 |
| DbTypes.FloatType | src/db/dbtypes.py:150-153 | the float types are named FLOAT, DOUBLE, REAL and DECIMAL and are non-null; exactly the float values are valid |
| DbTypes.SizedType | src/db/dbtypes.py:155-165 | `Char`/`VarChar`/`Binary`/`VarBinary(l)`: a str (or bytes) value is valid exactly when its length is at most `l`; other values never are |
| DbTypes.SizedTypeRendering | src/db/dbtypes.py:155-165 | the sized types are named `KEYWORD(l)` with `l` in decimal, and render with ` NOT NULL` only |
| DbTypes.SizedTypeNameInjective | src/db/dbtypes.py:155-165 | the rendered name determines both the family and the length |
| DbTypes.VarCharBoundary | src/db/dbtypes.py:158-159 | VARCHAR(l) accepts a string of l characters and rejects one of l + 1 |
| DbTypes.BlobType | src/db/dbtypes.py:167-170 | the BLOB tiers are named `<TIER>BLOB`; bytes are valid exactly when shorter than 2^bits; other values never are |
| DbTypes.TextType | src/db/dbtypes.py:172-175 | the TEXT tiers are named `<TIER>TEXT`; strings are valid exactly when shorter than 2^bits; other values never are |
| DbTypes.TinyTextLimit | src/db/dbtypes.py:172 | TINYTEXT accepts 255 characters and rejects 256 |
| DbTypes.TemporalType | src/db/dbtypes.py:184-186 | the temporal types are named DATE, TIME and DATETIME and are non-null; exactly the instances of their class are valid |
| DbTypes.DateAcceptsDateTime | src/db/dbtypes.py:184-186 | a datetime is a valid DATE value, and a date is not a valid DATETIME value |
| DbTypes.PrimaryKey | src/db/dbtypes.py:102-108 | `primary` also among the options is a keyword given twice and raises TypeError; otherwise it is `DataType` on the base with `primary=True` and the given auto-increment. It fails exactly then, or on a class that is not a data type (RuntimeError), a non-class (TypeError), or `None` without both `dbtype` and `pytype` (TypeError). A success is primary with the given auto-increment; on a data type base every field not overridden keeps the base's value, and on `None` the flags not passed take their defaults |
| DbTypes.PrimaryKeyBases | src/db/dbtypes.py:102-108 | `PrimaryKey(None)` raises TypeError; `PrimaryKey(None, dbtype='INT', pytype=t)` is a primary INT, non-null by the dataclass default, with the other flags at their defaults; a `DataTypeInfo` base acts like the class carrying it (as written, UnboundLocalError); another class raises RuntimeError |
| DbTypes.IDKey | src/db/dbtypes.py:110-111 | raises TypeError exactly when `primary` is among the options; otherwise a primary key over `Int`: without overrides it is named INT, non-null, not unique and unlinked |
| DbTypes.AutoIncrementIdRendering | src/db/dbtypes.py:110-111 | `IDKey(auto_increment=True)` succeeds and renders as `INT NOT NULL PRIMARY KEY AUTO_INCREMENT`, whatever unrelated options are given |
| DbTypes.ForeignKey | src/db/dbtypes.py:113-114 | `Int` linked to the target: never primary, auto-increment, unique or nullable; renders as `INT NOT NULL` |
| Strings.NatToString | src/db/dbtypes.py:156 | the decimal text of a length: digits only, no leading zero, and it reads back as the number |
| Strings.NatToStringInjective | src/db/dbtypes.py:156 | distinct lengths have distinct decimal texts |
| Strings.JoinTwo | src/db/schema.py:35-44 | `Join` (`sep.join`) of two parts is the first, the separator, the second |
| Strings.JoinConcat | src/db/schema.py:19-25 | `Join` of a concatenation: joining two non-empty lists is joining each with one separator between |
| Schema.ColumnClause | src/db/schema.py:20 | a column clause starts with a back-quote |
| Schema.ForeignKeyClause | src/db/schema.py:22 | a foreign-key clause starts with `F` |
| Schema.ClauseKindsDiffer | src/db/schema.py:20-23 | no column clause equals a foreign-key clause |
| Schema.ColumnClauseReadsBack | src/db/schema.py:20 | a column clause is the back-quoted name, a blank and the type name, and the rest reads back as exactly the column's flags |
| Schema.ShowCreateTable | src/db/schema.py:16-26 | the statement starts with ``CREATE TABLE `name`(`` and ends with `\n);` |
| Schema.CreateTableLayout | src/db/schema.py:19-25 | the column clauses in column order come before the foreign-key clauses in `fk_table` order, with one separator between the two runs, and each run may be empty |
| Schema.ValueColumns | src/db/schema.py:31 | `v_colnames` holds exactly the columns not named as the key |
| Schema.ValueColumnsConcat | src/db/schema.py:31 | the key filter keeps column order, because it distributes over concatenation |
| Schema.ValueColumnsCount | src/db/schema.py:31 | with distinct names, exactly one column is dropped when the key is a column, and none when it is not |
| Schema.KeyInfo | src/db/schema.py:36 | `columns[key_name]` succeeds exactly when the key names a column and then gives that column's info; otherwise KeyError |
| Schema.SelsertListsOf | src/db/schema.py:35-44 | the four generated lists have one entry per value column, in order: argument, match predicate, quoted name, argument name |
| Schema.ShowSelsert | src/db/schema.py:28-48 | fails with KeyError exactly when the key is not a column; otherwise the text is framed by the DELIMITER lines |
| Schema.KeyInfoOfColumn | src/db/schema.py:36 | with distinct names, `columns[key_name]` is the info of the one column so named |
| Schema.SelsertTextOf | src/db/schema.py:29-48 | the selsert text (`SelsertBody` between the DELIMITER lines) line by line: RETURNS the key column's type; SELECT the key WHERE the match predicates joined by AND; INSERT INTO `key_name` the quoted value columns; VALUES the argument names |
| Schema.SelsertText | src/db/schema.py:29-48 | on distinct names with the key a column: that same text with the key column's own type, and each of the four lists has exactly one entry per non-key column |
| SchemaLoader.ToDataType | src/db/schema_loader.py:114-138 | a data type is merged with the options; a table becomes a foreign key to it; a union that is not an `Optional` and any other generic alias raise RuntimeError; `NoneType` and any other class raise AttributeError from `getattr` |
| SchemaLoader.DataTypeBranch | src/db/schema_loader.py:116-122 | a data type annotation resolves as `DataType` on its class does, and with no options to the class's own info |
| SchemaLoader.OptionalResolution | src/db/schema_loader.py:127-134 | `Optional[X]` in either member order makes a data type nullable and keeps the rest; on a table it gives the same non-null foreign key as `X` |
| SchemaLoader.Derive | src/db/schema_loader.py:16-41 | the table is named by `__table_name__` when the class gives it, and by the class name otherwise |
| SchemaLoader.ResolveColumnsSucceeds | src/db/schema_loader.py:23-26 | resolution fails exactly when some non-`__` field's annotation does not resolve |
| SchemaLoader.ResolveColumnsNames | src/db/schema_loader.py:23-26 | the columns are named after the non-`__` fields, one each, in declaration order |
| SchemaLoader.ResolveColumnsInfo | src/db/schema_loader.py:25-26 | each column carries the info its field's annotation resolves to |
| SchemaLoader.ScanMatchesReference | src/db/schema_loader.py:23-36 | `ScanFields` (the loop): a successful loop resolved exactly the column fields and appended them in order; it keeps the one primary as the key and the linked columns as foreign keys |
| SchemaLoader.ScanSucceeds | src/db/schema_loader.py:23-36 | the loop succeeds when every field resolves and at most one column is primary |
| SchemaLoader.ScanDuplicate | src/db/schema_loader.py:29-31 | when every field resolves but a second column is primary, the loop raises 'Multiple primary key' |
| SchemaLoader.DeriveMatchesReference | src/db/schema_loader.py:16-41 | derivation succeeds if and only if every column field resolves and exactly one column is primary; then the columns, key and foreign keys are the reference ones; no primary raises 'Primary key not found', and two or more raise 'Multiple primary key' |
| SchemaLoader.MetaNamesSkipped | src/db/schema_loader.py:23-25 | a `__table_name__` hint is skipped without resolving its annotation, while `_note` and `a__b` become columns, in order |
| SchemaLoader.ColumnFieldsMembers | src/db/schema_loader.py:24 | the columns come from exactly the fields whose names do not start with `__` |
| SchemaLoader.ColumnFieldsDistinct | src/db/schema_loader.py:23-26 | skipping `__` fields keeps the names distinct |
| SchemaLoader.PrimaryNamesMembers | src/db/schema_loader.py:29-32 | a name is recorded as primary exactly when some primary column carries it |
| SchemaLoader.LinkedColumnsMembers | src/db/schema_loader.py:35-36 | a pair is a foreign key exactly when some column carries that name and that link |
| SchemaLoader.DerivedColumnsDistinct | src/db/schema_loader.py:20-26 | the derived columns have distinct names, because the hints are a dict |
| SchemaLoader.DerivedMetadata | src/db/schema_loader.py:16-41 | derived metadata is well formed: distinct names, the key names a column, a column is primary exactly when it is the key, the foreign keys are exactly the linked columns, and the selsert text builds with one column fewer than the table has |
| SchemaLoader.OwnId | src/db/schema_loader.py:94-96 | finds the type a subclass's own annotations give `id`, exactly when they redeclare it |
| SchemaLoader.WithoutIdMembers | src/db/schema_loader.py:94-96 | dropping `id` keeps exactly the other fields |
| SchemaLoader.TableHintsUnique | src/db/schema_loader.py:94-96 | `TableHints`: the hints of a `Table` subclass have distinct names, `id` first, and keep every other own field |
| SchemaLoader.TableSubclassKeyIsId | src/db/schema_loader.py:94-96 | a derived `Table` subclass without its own `id` has `id` as its first column and key, rendered `INT NOT NULL PRIMARY KEY AUTO_INCREMENT` |
| SchemaLoader.TableSubclassColumns | src/db/schema_loader.py:94-96 | without its own `id`, a `Table` subclass's columns are `id` followed by its own columns, and they fail when its own fail |
| SchemaLoader.TableSubclassDerives | src/db/schema_loader.py:29-39 | a `Table` subclass without its own `id` derives if and only if its own fields all resolve and none is primary |
| SchemaLoader.NoPrimaryNames | src/db/schema_loader.py:29-32 | no name is primary exactly when no column is |
| SampleTables.ItemNameMetadata | sample/tables.py:6-8 | `ItemName` derives to `id` then `name VARCHAR(128)`, keyed by `id`, with no foreign key |
| SampleTables.ItemNameCreateTable | sample/tables.py:6-8 | the full CREATE TABLE text of `ItemName` |
| SampleTables.ItemMetadata | sample/tables.py:10-13 | `Item` derives to `id`, the foreign key `name` to ItemName and `abstract VARCHAR(256)`, keyed by `id` |
| SampleTables.ItemCreateTable | sample/tables.py:10-13 | the full CREATE TABLE text of `Item`: the link is an `INT NOT NULL` column plus a FOREIGN KEY clause after all column clauses |
| SampleTables.ItemSelsert | sample/tables.py:10-13 | the full selsert text of `Item`: it returns the `INT` key, takes and matches `name` and `abstract`, and inserts into `id` |
| SampleTables.RecordOptionalColumns | sample/tables.py:28-31 | `Optional[Quantity]` is still a non-null foreign key, while `Optional[VarChar(128)]` renders without NOT NULL |

## Left out

- Database connection, cursors and `create_tables`: they only print or perform I/O. `UniqueTable` only decides whether `create_tables` also prints the selsert, so it plays no part in the model.
- The `TableBase` query and record methods (`select`, `load`, `save`, `insert`, `delete`): they are stubs with no body. The `metadata()` cache is left out too, because it only memoises the derivation.
- Reflection: `get_type_hints`, forward references such as `Optional['SeparatedTable']`, and the metaclass machinery (`DataTypeMeta`, `types.new_class`). A class is modelled by its name, optional `__table_name__` and ordered hints. The hints of a `Table` subclass come base class first, so `id` leads.
- A data type class and its `info` are one value: the model works with the `DataTypeInfo` directly, and with its `sql_expr` string computed on demand.
- Exception messages: only the kind of error is kept.
- Floats and temporal values are kind tags only, with no payload. A float checked against a value range counts as outside it, although Python's `5.0 in range(10)` is true; no type of the catalogue puts a value range on floats. A `Decimal` column accepts floats only, as written.
- SchemaLoader.ToDataType: a class that is neither a data type nor a table is one value, `OtherClass`, and a generic alias other than a union is one value, `OtherGeneric`; their arguments are not modelled because the source never looks at them.
- SchemaLoader.Derive: requires distinct hint names, which a dict guarantees. Overwriting a column by a repeated name cannot happen.
- DbTypes.Overrides: only the seven `DataTypeInfo` fields can be passed as keywords. In Python any other keyword raises TypeError, and so does `base_datatype=` passed to `IDKey`; the "exactly when" of `InfoFromKeywords`, `PrimaryKey` and `IDKey` holds within these seven.
- DbTypes.InfoFromKeywords: an explicit `dbtype=None` is not represented, because every caller in the core passes a string.
- DbTypes.SizedType: lengths are naturals, so a negative length (an empty length range in Python) is not modelled.

## Findings

| source | as written | input that shows it | evidently intended | confidence | as-written member | corrected member |
|---|---|---|---|---|---|---|
| src/db/dbtypes.py:74-75 | the `DataTypeInfo` branch reads `data_type_info` before any assignment to it, so it raises UnboundLocalError | `DataType(DataTypeInfo('INT', ExType(int)), nullable=True)` | merge the keywords onto the given info, as the branch for data type classes does | high (not executed) | DbTypes.DataTypeAsWritten, DbTypes.InfoInstanceUnbound | DbTypes.DataType, DbTypes.DataTypeBasesAgree |

## Notes on the code

- `Optional[SomeTable]` yields the same non-null foreign key as `SomeTable`: `to_data_type` passes `nullable=True` on, but the table branch ignores options (src/db/schema_loader.py:124-125).
- `show_selsert` writes `INSERT INTO` followed by the key column's name rather than the table's (src/db/schema.py:43). The model reproduces this.
- `show_create_table` and `show_selsert` are declared as class methods on a dataclass whose fields have no class-level values (src/db/schema.py:16, 28). The model reads them as operations on a table record's fields, which is what their bodies use.
- `show_selsert` raises KeyError when the key is not a column (src/db/schema.py:36). This cannot happen on derived metadata (`SchemaLoader.DerivedMetadata`).
