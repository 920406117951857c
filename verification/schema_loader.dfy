/** Table metadata derivation of `db.schema_loader`: resolving a field annotation to column
    info (`to_data_type`), scanning the annotations of a table class for its columns, its one
    primary key and its foreign keys, and the `id` column every `Table` subclass inherits. */
module SchemaLoader {
  import opened Wrappers
  import opened Errors
  import opened DbTypes
  import opened Schema

  /** A field annotation as `to_data_type` sees it: a data type, a table class, a
      `typing.Union` (what `Optional[X]` is), `NoneType`, any other class, or a generic alias
      other than a union (such as `List[X]`). `typing` flattens nested unions, drops repeated
      members and turns a one-member union into that member, so a `Union` of fewer than two
      members or with a member twice never reaches `to_data_type`; the model still answers
      such shapes with the RuntimeError of the length and `None` tests. */
  datatype TypeExpr =
    | Dt(info: Info)
    | TableT(table: TableRef)
    | Union(args: seq<TypeExpr>)
    | NoneT
    | OtherClass
    | OtherGeneric

  /** `Optional[x]`, which `typing` spells `Union[x, None]`. */
  function Optional(x: TypeExpr): TypeExpr
  {
    Union([x, NoneT])
  }

  /** The only options the Union branch passes on. */
  const NullableOnly := NoOverrides.(nullable := Some(true))

  /** `to_data_type(t, **options)`. A data type is returned as is when no option is given and
      merged with the options otherwise; a table becomes a foreign key to it, ignoring the
      options; a two-member union with `None` in either position resolves the other member
      with `nullable=True` only; any other union, and any other generic alias, raises
      RuntimeError; any other class (`NoneType` included) has no `__origin__`, so `getattr`
      raises AttributeError. */
  function ToDataType(t: TypeExpr, options: Overrides): (r: Result<Info, Error>)
    ensures t.Dt? ==> r == Success(Merge(t.info, options))
    ensures t.TableT? ==> r == Success(ForeignKey(t.table))
    ensures t.NoneT? || t.OtherClass? ==> r == Failure(MissingAttribute)
    ensures t.OtherGeneric? ==> r == Failure(UnresolvableType)
    ensures t.Union? && (|t.args| != 2 || NoneT !in t.args) ==> r == Failure(UnresolvableType)
    ensures r.Failure? ==> r.error == UnresolvableType || r.error == MissingAttribute
  {
    match t
    case Dt(info) => if options.IsEmpty() then (MergeNothing(info); assert options == NoOverrides; Success(info)) else Success(Merge(info, options))
    case TableT(table) => Success(ForeignKey(table))
    case Union(args) =>
      if |args| != 2 then Failure(UnresolvableType)
      else if args[0] == NoneT then ToDataType(args[1], NullableOnly)
      else if args[1] == NoneT then ToDataType(args[0], NullableOnly)
      else Failure(UnresolvableType)
    case NoneT => Failure(MissingAttribute)
    case OtherClass => Failure(MissingAttribute)
    case OtherGeneric => Failure(UnresolvableType)
  }

  /** `Optional[X]` (in either member order) makes a data type nullable and keeps everything
      else about it; but on a table it yields the same non-null foreign key as `X` alone. */
  lemma {:induction false} OptionalResolution(x: TypeExpr)
    ensures x.Dt? ==> ToDataType(Union([NoneT, x]), NoOverrides) == Success(x.info.(nullable := true))
    ensures x.Dt? ==> ToDataType(Union([x, NoneT]), NoOverrides) == Success(x.info.(nullable := true))
    ensures x.TableT? ==> ToDataType(Union([NoneT, x]), NoOverrides) == ToDataType(x, NoOverrides)
    ensures x.TableT? ==> ToDataType(Union([x, NoneT]), NoOverrides) == ToDataType(x, NoOverrides)
    ensures x.TableT? ==> !ToDataType(Optional(x), NoOverrides).value.nullable
  {
  }

  /** A data type annotation resolves as `DataType` on that class would: with no options the
      class itself, otherwise the class's info merged with them. */
  lemma {:induction false} DataTypeBranch(info: Info, options: Overrides)
    ensures ToDataType(Dt(info), options) == DataType(DataTypeClass(info), options)
    ensures options.IsEmpty() ==> ToDataType(Dt(info), options) == Success(info)
  {
    if options.IsEmpty() {
      MergeNothing(info);
      assert options == NoOverrides;
    }
  }

  // ---------------------------------------------------------------------------
  // Declarations
  // ---------------------------------------------------------------------------

  /** One entry of the class's type hints. */
  datatype Field = Field(name: string, ty: TypeExpr)

  /** A table class: its name, the `__table_name__` hint if it has one, and its type hints in
      declaration order. */
  datatype Decl = Decl(className: string, tableNameHint: Option<string>, hints: seq<Field>)

  function TableName(d: Decl): string
  {
    d.tableNameHint.GetOr(d.className)
  }

  /** Names starting with `__` are class metadata, never columns. */
  predicate IsMetaName(name: string)
  {
    "__" <= name
  }

  function FieldNames(fs: seq<Field>): (names: seq<string>)
    ensures |names| == |fs|
    ensures forall i :: 0 <= i < |fs| ==> names[i] == fs[i].name
  {
    seq(|fs|, i requires 0 <= i < |fs| => fs[i].name)
  }

  lemma {:induction false} FieldNamesCons(f: Field, rest: seq<Field>)
    ensures FieldNames([f] + rest) == [f.name] + FieldNames(rest)
  {
  }

  /** The fields that become columns, in declaration order. */
  function ColumnFields(fs: seq<Field>): seq<Field>
  {
    if |fs| == 0 then []
    else (if IsMetaName(fs[0].name) then [] else [fs[0]]) + ColumnFields(fs[1..])
  }

  // ---------------------------------------------------------------------------
  // The scan (the loop of TableMetaClass.__new__)
  // ---------------------------------------------------------------------------

  /** The loop's state: columns so far, the key name if one was seen, foreign keys so far. */
  datatype ScanState = ScanState(columns: seq<Column>, key: Option<string>, fks: seq<(string, TableRef)>)

  function ScanFields(fs: seq<Field>, st: ScanState): Result<ScanState, Error>
    decreases |fs|
  {
    if |fs| == 0 then Success(st)
    else
      var f := fs[0];
      if IsMetaName(f.name) then ScanFields(fs[1..], st)
      else match ToDataType(f.ty, NoOverrides)
        case Failure(e) => Failure(e)
        case Success(info) =>
          if info.primary && st.key.Some? then Failure(DuplicatePrimaryKey)
          else
            var key := if info.primary then Some(f.name) else st.key;
            var fks := if info.linkTable.Some? then st.fks + [(f.name, info.linkTable.value)] else st.fks;
            ScanFields(fs[1..], ScanState(st.columns + [Column(f.name, info)], key, fks))
  }

  /** The type hints of a class come as a dict, so no two of them share a name. */
  predicate UniqueHints(d: Decl)
  {
    Distinct(FieldNames(d.hints))
  }

  /** The metadata of a table class: name, columns, key column name and foreign keys. */
  function Derive(d: Decl): (r: Result<Table, Error>)
    requires UniqueHints(d)
    ensures r.Success? ==> r.value.name == TableName(d)
    ensures d.tableNameHint.Some? && r.Success? ==> r.value.name == d.tableNameHint.value
    ensures d.tableNameHint.None? && r.Success? ==> r.value.name == d.className
  {
    var st :- ScanFields(d.hints, ScanState([], None, []));
    if st.key.None? then Failure(MissingPrimaryKey)
    else Success(Table(TableName(d), st.columns, st.key.value, st.fks))
  }

  // ---------------------------------------------------------------------------
  // Reference definitions the scan is proved against
  // ---------------------------------------------------------------------------

  /** Every column field resolved in declaration order, or the first resolution error. */
  function ResolveColumns(fs: seq<Field>): Result<seq<Column>, Error>
  {
    if |fs| == 0 then Success([])
    else if IsMetaName(fs[0].name) then ResolveColumns(fs[1..])
    else
      var info :- ToDataType(fs[0].ty, NoOverrides);
      var rest :- ResolveColumns(fs[1..]);
      Success([Column(fs[0].name, info)] + rest)
  }

  /** The field's annotation resolves to column info. */
  predicate Resolves(f: Field)
  {
    ToDataType(f.ty, NoOverrides).Success?
  }

  /** Resolution fails exactly when some column field's annotation does not resolve. */
  lemma {:induction false} ResolveColumnsSucceeds(fs: seq<Field>)
    ensures ResolveColumns(fs).Success? <==> forall i :: 0 <= i < |ColumnFields(fs)| ==> Resolves(ColumnFields(fs)[i])
  {
    if |fs| > 0 {
      ResolveColumnsSucceeds(fs[1..]);
      assert ResolveColumns(fs[1..]).Success? ==> forall i :: 0 <= i < |ColumnFields(fs[1..])| ==> Resolves(ColumnFields(fs[1..])[i]);
      var tail := ColumnFields(fs[1..]);
      var cf := ColumnFields(fs);
      if IsMetaName(fs[0].name) {
        assert cf == [] + tail == tail;
      } else {
        assert cf == [fs[0]] + tail;
        assert forall i :: 0 < i < |cf| ==> cf[i] == tail[i - 1];
        if !Resolves(fs[0]) {
          assert !Resolves(cf[0]);
        } else if ResolveColumns(fs[1..]).Success? {
          assert forall i :: 0 <= i < |tail| ==> Resolves(tail[i]);
          forall i | 0 <= i < |cf| ensures Resolves(cf[i]) {
            if i > 0 { assert Resolves(tail[i - 1]); }
          }
        } else {
          var j :| 0 <= j < |tail| && !Resolves(tail[j]);
          assert cf[j + 1] == tail[j];
        }
      }
    }
  }

  /** Resolving a column field puts its column in front of the rest's. */
  lemma {:induction false} ResolveColumnsCons(fs: seq<Field>)
    requires |fs| > 0 && !IsMetaName(fs[0].name)
    ensures ColumnFields(fs) == [fs[0]] + ColumnFields(fs[1..])
    ensures ResolveColumns(fs).Success? <==> Resolves(fs[0]) && ResolveColumns(fs[1..]).Success?
    ensures ResolveColumns(fs).Success? ==>
              ResolveColumns(fs).value == [Column(fs[0].name, ToDataType(fs[0].ty, NoOverrides).value)] + ResolveColumns(fs[1..]).value
  {
  }

  /** The resolved columns are the column fields, one each and in order, named as the field. */
  lemma {:induction false} ResolveColumnsNames(fs: seq<Field>)
    requires ResolveColumns(fs).Success?
    ensures ColumnNames(ResolveColumns(fs).value) == FieldNames(ColumnFields(fs))
  {
    if |fs| > 0 {
      ResolveColumnsNames(fs[1..]);
      if IsMetaName(fs[0].name) {
        assert ColumnFields(fs) == [] + ColumnFields(fs[1..]) == ColumnFields(fs[1..]);
      } else {
        ResolveColumnsCons(fs);
        ColumnNamesCons(Column(fs[0].name, ToDataType(fs[0].ty, NoOverrides).value), ResolveColumns(fs[1..]).value);
        FieldNamesCons(fs[0], ColumnFields(fs[1..]));
      }
    }
  }

  /** Each resolved column carries the info its field's annotation resolves to. */
  lemma {:induction false} ResolveColumnsInfo(fs: seq<Field>)
    requires ResolveColumns(fs).Success?
    ensures |ResolveColumns(fs).value| == |ColumnFields(fs)|
    ensures forall i :: 0 <= i < |ResolveColumns(fs).value| ==>
              ToDataType(ColumnFields(fs)[i].ty, NoOverrides) == Success(ResolveColumns(fs).value[i].info)
  {
    if |fs| > 0 {
      ResolveColumnsInfo(fs[1..]);
      if IsMetaName(fs[0].name) {
        assert ColumnFields(fs) == [] + ColumnFields(fs[1..]) == ColumnFields(fs[1..]);
      } else {
        ResolveColumnsCons(fs);
        var cf, tail := ColumnFields(fs), ColumnFields(fs[1..]);
        var r, rest := ResolveColumns(fs).value, ResolveColumns(fs[1..]).value;
        forall i | 0 < i < |r|
          ensures ToDataType(cf[i].ty, NoOverrides) == Success(r[i].info)
        {
          assert cf[i] == tail[i - 1];
          assert r[i] == rest[i - 1];
        }
      }
    }
  }

  /** Names of the primary columns, in column order. */
  function PrimaryNames(cols: seq<Column>): seq<string>
  {
    if |cols| == 0 then []
    else
      var last := cols[|cols| - 1];
      PrimaryNames(cols[..|cols| - 1]) + (if last.info.primary then [last.name] else [])
  }

  /** The foreign keys of `cols`: each column carrying a link, with its target, in column order. */
  function LinkedColumns(cols: seq<Column>): seq<(string, TableRef)>
  {
    if |cols| == 0 then []
    else
      var last := cols[|cols| - 1];
      LinkedColumns(cols[..|cols| - 1]) + (if last.info.linkTable.Some? then [(last.name, last.info.linkTable.value)] else [])
  }

  lemma {:induction false} PrimaryNamesSnoc(cols: seq<Column>, c: Column)
    ensures PrimaryNames(cols + [c]) == PrimaryNames(cols) + (if c.info.primary then [c.name] else [])
    ensures LinkedColumns(cols + [c]) == LinkedColumns(cols) + (if c.info.linkTable.Some? then [(c.name, c.info.linkTable.value)] else [])
  {
    assert (cols + [c])[..|cols|] == cols;
  }

  /** A loop state agrees with its columns: at most one primary, `key` names it, and `fks`
      lists the linked columns. */
  predicate Consistent(st: ScanState)
  {
    var ps := PrimaryNames(st.columns);
    && |ps| <= 1
    && st.key == (if |ps| == 0 then None else Some(ps[0]))
    && st.fks == LinkedColumns(st.columns)
  }

  /** A successful scan resolved exactly the column fields, appended them in order, and ends
      in a consistent state. */
  lemma {:induction false} ScanMatchesReference(fs: seq<Field>, st: ScanState)
    requires Consistent(st)
    ensures ScanFields(fs, st).Success? ==>
              && ResolveColumns(fs).Success?
              && ScanFields(fs, st).value.columns == st.columns + ResolveColumns(fs).value
              && Consistent(ScanFields(fs, st).value)
    decreases |fs|
  {
    if |fs| == 0 {
      assert st.columns + [] == st.columns;
    } else if IsMetaName(fs[0].name) {
      ScanMatchesReference(fs[1..], st);
    } else {
      var f := fs[0];
      match ToDataType(f.ty, NoOverrides)
      case Failure(e) =>
      case Success(info) =>
        if !(info.primary && st.key.Some?) {
          var c := Column(f.name, info);
          var cols' := st.columns + [c];
          PrimaryNamesSnoc(st.columns, c);
          var key := if info.primary then Some(f.name) else st.key;
          var fks := if info.linkTable.Some? then st.fks + [(f.name, info.linkTable.value)] else st.fks;
          var st' := ScanState(cols', key, fks);
          assert Consistent(st');
          ScanMatchesReference(fs[1..], st');
          if ScanFields(fs, st).Success? {
            assert ResolveColumns(fs).value == [c] + ResolveColumns(fs[1..]).value;
            AppendAssoc(st.columns, [c], ResolveColumns(fs[1..]).value);
          }
        }
    }
  }

  /** When every column field resolves and the columns hold at most one primary, the scan
      succeeds. */
  lemma {:induction false} ScanSucceeds(fs: seq<Field>, st: ScanState)
    requires Consistent(st)
    requires ResolveColumns(fs).Success? && |PrimaryNames(st.columns + ResolveColumns(fs).value)| <= 1
    ensures ScanFields(fs, st).Success?
    decreases |fs|
  {
    if |fs| == 0 {
    } else if IsMetaName(fs[0].name) {
      ScanSucceeds(fs[1..], st);
    } else {
      var f := fs[0];
      var info := ToDataType(f.ty, NoOverrides).value;
      var c := Column(f.name, info);
      var cols' := st.columns + [c];
      PrimaryNamesSnoc(st.columns, c);
      var rest := ResolveColumns(fs[1..]).value;
      assert ResolveColumns(fs).value == [c] + rest;
      AppendAssoc(st.columns, [c], rest);
      PrimaryNamesPrefix(cols', rest);
      // A second primary here would already make two.
      assert !(info.primary && st.key.Some?);
      var key := if info.primary then Some(f.name) else st.key;
      var fks := if info.linkTable.Some? then st.fks + [(f.name, info.linkTable.value)] else st.fks;
      var st' := ScanState(cols', key, fks);
      assert ScanFields(fs, st) == ScanFields(fs[1..], st');
      assert Consistent(st');
      ScanSucceeds(fs[1..], st');
    }
  }

  /** When every column field resolves but the columns would hold a second primary, the scan
      fails with DuplicatePrimaryKey. */
  lemma {:induction false} ScanDuplicate(fs: seq<Field>, st: ScanState)
    requires Consistent(st)
    requires ResolveColumns(fs).Success?
    ensures |PrimaryNames(st.columns + ResolveColumns(fs).value)| > 1 ==> ScanFields(fs, st) == Failure(DuplicatePrimaryKey)
    decreases |fs|
  {
    if |fs| == 0 {
      assert st.columns + [] == st.columns;
    } else if IsMetaName(fs[0].name) {
      ScanDuplicate(fs[1..], st);
    } else {
      var f := fs[0];
      var info := ToDataType(f.ty, NoOverrides).value;
      var c := Column(f.name, info);
      var cols' := st.columns + [c];
      PrimaryNamesSnoc(st.columns, c);
      var rest := ResolveColumns(fs[1..]).value;
      assert ResolveColumns(fs).value == [c] + rest;
      AppendAssoc(st.columns, [c], rest);
      if !(info.primary && st.key.Some?) {
        var key := if info.primary then Some(f.name) else st.key;
        var fks := if info.linkTable.Some? then st.fks + [(f.name, info.linkTable.value)] else st.fks;
        var st' := ScanState(cols', key, fks);
        assert ScanFields(fs, st) == ScanFields(fs[1..], st');
        assert Consistent(st');
        ScanDuplicate(fs[1..], st');
      }
    }
  }

  lemma AppendAssoc<T>(a: seq<T>, b: seq<T>, c: seq<T>)
    ensures a + (b + c) == (a + b) + c
  {
  }

  /** Appending columns never removes primary names. */
  lemma {:induction false} PrimaryNamesPrefix(a: seq<Column>, b: seq<Column>)
    ensures |PrimaryNames(a)| <= |PrimaryNames(a + b)|
    decreases |b|
  {
    if |b| > 0 {
      var init := b[..|b| - 1];
      assert a + b == (a + init) + [b[|b| - 1]];
      PrimaryNamesSnoc(a + init, b[|b| - 1]);
      PrimaryNamesPrefix(a, init);
    } else {
      assert a + b == a;
    }
  }

  /** Derivation succeeds exactly when every column field resolves and exactly one resolved
      column is primary; then the columns, key and foreign keys are the reference ones, and
      otherwise the error says which rule broke. */
  lemma {:induction false} DeriveMatchesReference(d: Decl)
    requires UniqueHints(d)
    ensures Derive(d).Success? <==>
              ResolveColumns(d.hints).Success? && |PrimaryNames(ResolveColumns(d.hints).value)| == 1
    ensures Derive(d).Success? ==>
              && Derive(d).value.columns == ResolveColumns(d.hints).value
              && PrimaryNames(Derive(d).value.columns) == [Derive(d).value.keyName]
              && Derive(d).value.fkTable == LinkedColumns(Derive(d).value.columns)
    ensures ResolveColumns(d.hints).Success? && |PrimaryNames(ResolveColumns(d.hints).value)| == 0 ==>
              Derive(d) == Failure(MissingPrimaryKey)
    ensures ResolveColumns(d.hints).Success? && |PrimaryNames(ResolveColumns(d.hints).value)| > 1 ==>
              Derive(d) == Failure(DuplicatePrimaryKey)
  {
    var st0 := ScanState([], None, []);
    assert Consistent(st0);
    ScanMatchesReference(d.hints, st0);
    if ResolveColumns(d.hints).Success? {
      assert [] + ResolveColumns(d.hints).value == ResolveColumns(d.hints).value;
      if |PrimaryNames(ResolveColumns(d.hints).value)| <= 1 {
        ScanSucceeds(d.hints, st0);
      } else {
        ScanDuplicate(d.hints, st0);
      }
    }
  }

  // ---------------------------------------------------------------------------
  // The metadata invariant
  // ---------------------------------------------------------------------------

  /** Only a leading double underscore marks a hint as metadata: `__table_name__` is skipped
      before its annotation is resolved, while `_note` and `a__b` are columns. */
  lemma {:induction false} MetaNamesSkipped(i: Info)
    ensures var fs := [Field("__table_name__", TypeExpr.OtherClass), Field("_note", Dt(i)), Field("a__b", Dt(i))];
            ColumnFields(fs) == fs[1..] && ResolveColumns(fs) == Success([Column("_note", i), Column("a__b", i)])
  {
    var fs := [Field("__table_name__", TypeExpr.OtherClass), Field("_note", Dt(i)), Field("a__b", Dt(i))];
    var tail := fs[1..];
    assert IsMetaName(fs[0].name) by { assert fs[0].name[..2] == "__"; }
    assert !IsMetaName(tail[0].name) by { assert tail[0].name[1] == 'n'; }
    assert !IsMetaName(tail[1].name) by { assert tail[1].name[0] == 'a'; }
    assert tail[1..][1..] == [];
    MergeNothing(i);
    ResolveColumnsCons(tail[1..]);
    ResolveColumnsCons(tail);
    assert ColumnFields(tail) == [tail[0]] + ([tail[1]] + []);
    assert [Column("_note", i)] + ([Column("a__b", i)] + []) == [Column("_note", i), Column("a__b", i)];
  }


  /** The column fields are the fields whose names are not metadata names. */
  lemma {:induction false} ColumnFieldsMembers(fs: seq<Field>)
    ensures forall f :: f in ColumnFields(fs) <==> f in fs && !IsMetaName(f.name)
  {
    if |fs| > 0 {
      ColumnFieldsMembers(fs[1..]);
      assert fs == [fs[0]] + fs[1..];
    }
  }

  /** Names are distinct after adding a field in front exactly when they were distinct before
      and the new name is not among them. */
  lemma {:induction false} DistinctCons(f: Field, rest: seq<Field>)
    ensures Distinct(FieldNames([f] + rest)) <==>
              Distinct(FieldNames(rest)) && forall g :: g in rest ==> g.name != f.name
  {
    if Distinct(FieldNames([f] + rest)) {
      DistinctConsSplits(f, rest);
    }
    if Distinct(FieldNames(rest)) && forall g :: g in rest ==> g.name != f.name {
      DistinctConsJoins(f, rest);
    }
  }

  lemma {:induction false} DistinctConsSplits(f: Field, rest: seq<Field>)
    requires Distinct(FieldNames([f] + rest))
    ensures Distinct(FieldNames(rest))
    ensures forall g :: g in rest ==> g.name != f.name
  {
    var names := FieldNames([f] + rest);
    forall i, j | 0 <= i < j < |rest| ensures FieldNames(rest)[i] != FieldNames(rest)[j] {
      assert names[i + 1] != names[j + 1];
    }
    forall g | g in rest ensures g.name != f.name {
      var k :| 0 <= k < |rest| && rest[k] == g;
      assert names[0] != names[k + 1];
    }
  }

  lemma {:induction false} DistinctConsJoins(f: Field, rest: seq<Field>)
    requires Distinct(FieldNames(rest))
    requires forall g :: g in rest ==> g.name != f.name
    ensures Distinct(FieldNames([f] + rest))
  {
    var fs := [f] + rest;
    forall i, j | 0 <= i < j < |fs| ensures FieldNames(fs)[i] != FieldNames(fs)[j] {
      assert fs[j] == rest[j - 1];
      if i == 0 {
        assert rest[j - 1] in rest;
      } else {
        assert fs[i] == rest[i - 1];
        assert FieldNames(rest)[i - 1] != FieldNames(rest)[j - 1];
      }
    }
  }

  /** Skipping fields cannot make two remaining names collide. */
  lemma {:induction false} ColumnFieldsDistinct(fs: seq<Field>)
    requires Distinct(FieldNames(fs))
    ensures Distinct(FieldNames(ColumnFields(fs)))
  {
    if |fs| > 0 {
      var rest := fs[1..];
      assert fs == [fs[0]] + rest;
      DistinctCons(fs[0], rest);
      ColumnFieldsDistinct(rest);
      if !IsMetaName(fs[0].name) {
        ColumnFieldsMembers(rest);
        DistinctCons(fs[0], ColumnFields(rest));
      } else {
        assert ColumnFields(fs) == [] + ColumnFields(rest);
      }
    }
  }

  /** A name is a primary name exactly when some primary column carries it. */
  lemma {:induction false} PrimaryNamesMembers(cols: seq<Column>)
    ensures forall n :: n in PrimaryNames(cols) <==>
              exists i :: 0 <= i < |cols| && cols[i].info.primary && cols[i].name == n
  {
    if |cols| > 0 {
      var init := cols[..|cols| - 1];
      PrimaryNamesMembers(init);
      forall n ensures n in PrimaryNames(cols) <==>
                exists i :: 0 <= i < |cols| && cols[i].info.primary && cols[i].name == n
      {
        if n in PrimaryNames(cols) && n in PrimaryNames(init) {
          var i :| 0 <= i < |init| && init[i].info.primary && init[i].name == n;
          assert cols[i] == init[i];
        }
        if exists i :: 0 <= i < |cols| && cols[i].info.primary && cols[i].name == n {
          var i :| 0 <= i < |cols| && cols[i].info.primary && cols[i].name == n;
          if i < |cols| - 1 {
            assert init[i] == cols[i];
          }
        }
      }
    }
  }

  /** A pair is a foreign key exactly when some column carries that name and that link. */
  lemma {:induction false} LinkedColumnsMembers(cols: seq<Column>)
    ensures forall p :: p in LinkedColumns(cols) <==>
              exists i :: 0 <= i < |cols| && cols[i].name == p.0 && cols[i].info.linkTable == Some(p.1)
  {
    if |cols| > 0 {
      var init := cols[..|cols| - 1];
      LinkedColumnsMembers(init);
      forall p ensures p in LinkedColumns(cols) <==>
                exists i :: 0 <= i < |cols| && cols[i].name == p.0 && cols[i].info.linkTable == Some(p.1)
      {
        if p in LinkedColumns(cols) && p in LinkedColumns(init) {
          var i :| 0 <= i < |init| && init[i].name == p.0 && init[i].info.linkTable == Some(p.1);
          assert cols[i] == init[i];
        }
        if exists i :: 0 <= i < |cols| && cols[i].name == p.0 && cols[i].info.linkTable == Some(p.1) {
          var i :| 0 <= i < |cols| && cols[i].name == p.0 && cols[i].info.linkTable == Some(p.1);
          if i < |cols| - 1 {
            assert init[i] == cols[i];
          }
        }
      }
    }
  }

  /** A primary column's name is a primary name. */
  lemma {:induction false} PrimaryNameOf(cols: seq<Column>, i: int)
    requires 0 <= i < |cols| && cols[i].info.primary
    ensures cols[i].name in PrimaryNames(cols)
  {
    var init := cols[..|cols| - 1];
    if i < |cols| - 1 {
      assert init[i] == cols[i];
      PrimaryNameOf(init, i);
    }
  }

  /** A primary name is the name of some primary column. */
  lemma {:induction false} PrimaryNameSource(cols: seq<Column>, n: string) returns (i: int)
    requires n in PrimaryNames(cols)
    ensures 0 <= i < |cols| && cols[i].info.primary && cols[i].name == n
  {
    var init := cols[..|cols| - 1];
    if n in PrimaryNames(init) {
      i := PrimaryNameSource(init, n);
      assert init[i] == cols[i];
    } else {
      i := |cols| - 1;
    }
  }

  /** One primary name: some column carries it, and every primary column carries it. */
  lemma {:induction false} PrimaryNamesSingleton(cols: seq<Column>, key: string) returns (k: int)
    requires PrimaryNames(cols) == [key]
    ensures 0 <= k < |cols| && cols[k].name == key && cols[k].info.primary
    ensures forall i :: 0 <= i < |cols| && cols[i].info.primary ==> cols[i].name == key
  {
    k := PrimaryNameSource(cols, key);
    forall i | 0 <= i < |cols| && cols[i].info.primary ensures cols[i].name == key {
      PrimaryNameOf(cols, i);
    }
  }

  /** When every primary column is named `key`, and the column at `k` is a primary one named
      `key`, distinct names leave no other column named `key`: exactly that column is primary. */
  lemma {:induction false} OnlyKeyPrimary(cols: seq<Column>, key: string, k: int)
    requires Distinct(ColumnNames(cols))
    requires 0 <= k < |cols| && cols[k].name == key && cols[k].info.primary
    requires forall i :: 0 <= i < |cols| && cols[i].info.primary ==> cols[i].name == key
    ensures key in ColumnNames(cols)
    ensures forall i :: 0 <= i < |cols| ==> (cols[i].info.primary <==> cols[i].name == key)
  {
    assert ColumnNames(cols)[k] == key;
    forall i | 0 <= i < |cols| && i != k ensures cols[i].name != key {
      SameNameSameColumn(cols, i, k);
    }
  }

  /** Distinct names: two positions with the same name are the same position. */
  lemma {:induction false} SameNameSameColumn(cols: seq<Column>, i: int, j: int)
    requires Distinct(ColumnNames(cols))
    requires 0 <= i < |cols| && 0 <= j < |cols| && i != j
    ensures cols[i].name != cols[j].name
  {
    if i < j {
      assert ColumnNames(cols)[i] != ColumnNames(cols)[j];
    } else {
      assert ColumnNames(cols)[j] != ColumnNames(cols)[i];
    }
  }

  /** The derived columns are named after distinct hints, so their names are distinct. */
  lemma {:induction false} DerivedColumnsDistinct(d: Decl)
    requires UniqueHints(d)
    requires Derive(d).Success?
    ensures Distinct(ColumnNames(Derive(d).value.columns))
  {
    DeriveMatchesReference(d);
    ResolveColumnsNames(d.hints);
    ColumnFieldsDistinct(d.hints);
  }

  /** The metadata of a table class is well formed: column names are distinct, the key names
      a column, a column is primary exactly when it is the key column, and the foreign keys
      are exactly the linked columns with their targets, so the selsert text can be built. */
  lemma {:induction false} DerivedMetadata(d: Decl)
    requires UniqueHints(d)
    requires Derive(d).Success?
    ensures Distinct(ColumnNames(Derive(d).value.columns))
    ensures Derive(d).value.keyName in ColumnNames(Derive(d).value.columns)
    ensures forall i :: 0 <= i < |Derive(d).value.columns| ==>
              (Derive(d).value.columns[i].info.primary <==> Derive(d).value.columns[i].name == Derive(d).value.keyName)
    ensures forall p :: p in Derive(d).value.fkTable <==>
              exists i :: 0 <= i < |Derive(d).value.columns| &&
                Derive(d).value.columns[i].name == p.0 && Derive(d).value.columns[i].info.linkTable == Some(p.1)
    ensures ShowSelsert(Derive(d).value).Success?
    ensures |ValueColumns(Derive(d).value.columns, Derive(d).value.keyName)| == |Derive(d).value.columns| - 1
  {
    var t := Derive(d).value;
    DeriveMatchesReference(d);
    DerivedColumnsDistinct(d);
    var k := PrimaryNamesSingleton(t.columns, t.keyName);
    OnlyKeyPrimary(t.columns, t.keyName, k);
    LinkedColumnsMembers(t.columns);
    ValueColumnsCount(t.columns, t.keyName);
  }

  // ---------------------------------------------------------------------------
  // Table subclasses
  // ---------------------------------------------------------------------------

  /** The annotation `Table` declares: `id: IDKey(auto_increment=True)`. */
  const IdType := Dt(AutoIncrementId)

  /** The type a class's own annotations give `id`, if they redeclare it. */
  function OwnId(own: seq<Field>): (r: Option<TypeExpr>)
    ensures r.Some? <==> "id" in FieldNames(own)
    ensures r.Some? ==> Field("id", r.value) in own
  {
    if |own| == 0 then None
    else if own[0].name == "id" then Some(own[0].ty)
    else
      assert FieldNames(own) == [own[0].name] + FieldNames(own[1..]);
      OwnId(own[1..])
  }

  /** The fields other than `id`, in order. */
  function WithoutId(own: seq<Field>): seq<Field>
  {
    if |own| == 0 then []
    else (if own[0].name == "id" then [] else [own[0]]) + WithoutId(own[1..])
  }

  /** Dropping `id` keeps exactly the other fields. */
  lemma {:induction false} WithoutIdMembers(own: seq<Field>)
    ensures forall f :: f in WithoutId(own) <==> f in own && f.name != "id"
  {
    if |own| > 0 {
      WithoutIdMembers(own[1..]);
      assert own == [own[0]] + own[1..];
    }
  }

  /** The type hints of a subclass of `Table` whose own annotations are `own`: hints are
      gathered base class first, so `id` leads, and a redeclared `id` replaces the type but
      keeps the first position. */
  function TableHints(own: seq<Field>): (hs: seq<Field>)
  {
    [Field("id", OwnId(own).GetOr(IdType))] + WithoutId(own)
  }

  /** `class <className>(Table)` with annotations `own` and an optional `__table_name__`. */
  function TableSubclass(className: string, tableNameHint: Option<string>, own: seq<Field>): Decl
  {
    Decl(className, tableNameHint, TableHints(own))
  }

  /** The hints of a Table subclass are still a dict: distinct own names stay distinct. */
  lemma {:induction false} TableHintsUnique(own: seq<Field>)
    requires Distinct(FieldNames(own))
    ensures Distinct(FieldNames(TableHints(own)))
    ensures FieldNames(TableHints(own))[0] == "id"
    ensures forall f :: f in own && f.name != "id" ==> f in TableHints(own)
  {
    WithoutIdDistinct(own);
    WithoutIdMembers(own);
    DistinctCons(TableHints(own)[0], WithoutId(own));
  }

  lemma {:induction false} WithoutIdDistinct(own: seq<Field>)
    requires Distinct(FieldNames(own))
    ensures Distinct(FieldNames(WithoutId(own)))
  {
    if |own| > 0 {
      var rest := own[1..];
      assert own == [own[0]] + rest;
      DistinctCons(own[0], rest);
      WithoutIdDistinct(rest);
      if own[0].name != "id" {
        WithoutIdMembers(rest);
        DistinctCons(own[0], WithoutId(rest));
      } else {
        assert WithoutId(own) == [] + WithoutId(rest);
      }
    }
  }

  /** Every successfully derived subclass of `Table` that does not redeclare `id` has `id` as
      its first column and its key: an auto-increment, non-null INT primary key. */
  lemma {:induction false} TableSubclassKeyIsId(className: string, tableNameHint: Option<string>, own: seq<Field>)
    requires Distinct(FieldNames(own)) && "id" !in FieldNames(own)
    requires (TableHintsUnique(own); Derive(TableSubclass(className, tableNameHint, own)).Success?)
    ensures |Derive(TableSubclass(className, tableNameHint, own)).value.columns| > 0
    ensures Derive(TableSubclass(className, tableNameHint, own)).value.columns[0] == Column("id", AutoIncrementId)
    ensures Derive(TableSubclass(className, tableNameHint, own)).value.keyName == "id"
    ensures SqlExpr(Derive(TableSubclass(className, tableNameHint, own)).value.columns[0].info)
              == "INT" + " NOT NULL" + " PRIMARY KEY" + " AUTO_INCREMENT"
  {
    var d := TableSubclass(className, tableNameHint, own);
    TableHintsUnique(own);
    DeriveMatchesReference(d);
    var cols := Derive(d).value.columns;
    assert d.hints[0] == Field("id", IdType);
    assert "id"[0] != "__"[0];
    ResolveColumnsCons(d.hints);
    assert cols[0] == Column("id", AutoIncrementId);
    PrimaryNamesMembers(cols);
    assert "id" in PrimaryNames(cols);
    AutoIncrementIdRendering(NoOverrides);
  }

  /** Without an own `id`, the other own fields are all kept, in order. */
  lemma {:induction false} WithoutIdKeepsAll(own: seq<Field>)
    requires "id" !in FieldNames(own)
    ensures WithoutId(own) == own
  {
    if |own| > 0 {
      assert own[0].name != "id" by {
        assert FieldNames(own)[0] == own[0].name;
      }
      assert "id" !in FieldNames(own[1..]) by {
        forall j | 0 <= j < |own| - 1 ensures FieldNames(own[1..])[j] != "id" {
          assert FieldNames(own[1..])[j] == FieldNames(own)[j + 1];
        }
      }
      WithoutIdKeepsAll(own[1..]);
      assert WithoutId(own) == [own[0]] + own[1..];
    }
  }

  /** Primary names can also be read from the front. */
  lemma {:induction false} PrimaryNamesCons(c: Column, rest: seq<Column>)
    ensures PrimaryNames([c] + rest) == (if c.info.primary then [c.name] else []) + PrimaryNames(rest)
    decreases |rest|
  {
    if |rest| == 0 {
      assert [c] + rest == [] + [c];
      PrimaryNamesSnoc([], c);
    } else {
      var init, last := rest[..|rest| - 1], rest[|rest| - 1];
      assert [c] + rest == ([c] + init) + [last];
      assert rest == init + [last];
      PrimaryNamesSnoc([c] + init, last);
      PrimaryNamesSnoc(init, last);
      PrimaryNamesCons(c, init);
    }
  }

  /** Without an own `id`, the columns of a `Table` subclass are `id` followed by its own. */
  lemma {:induction false} TableSubclassColumns(own: seq<Field>)
    requires "id" !in FieldNames(own)
    ensures ResolveColumns(own).Success? ==>
              ResolveColumns(TableHints(own)) == Success([Column("id", AutoIncrementId)] + ResolveColumns(own).value)
    ensures ResolveColumns(own).Failure? ==> ResolveColumns(TableHints(own)).Failure?
  {
    var hs := TableHints(own);
    WithoutIdKeepsAll(own);
    assert hs[1..] == own;
    assert "id"[0] != "__"[0];
    MergeNothing(AutoIncrementId);
  }

  /** No name is primary exactly when no column is. */
  lemma {:induction false} NoPrimaryNames(cols: seq<Column>)
    ensures |PrimaryNames(cols)| == 0 <==> forall i :: 0 <= i < |cols| ==> !cols[i].info.primary
  {
    PrimaryNamesMembers(cols);
    if |PrimaryNames(cols)| > 0 {
      assert PrimaryNames(cols)[0] in PrimaryNames(cols);
    }
    forall i | 0 <= i < |cols| && cols[i].info.primary
      ensures cols[i].name in PrimaryNames(cols)
    {
      PrimaryNameOf(cols, i);
    }
  }

  /** A subclass of `Table` that does not redeclare `id` can be derived exactly when its own
      column fields all resolve and none of them is a primary key: `id` is already the one. */
  lemma {:induction false} TableSubclassDerives(className: string, tableNameHint: Option<string>, own: seq<Field>)
    requires Distinct(FieldNames(own)) && "id" !in FieldNames(own)
    ensures (TableHintsUnique(own); Derive(TableSubclass(className, tableNameHint, own)).Success?) <==>
              ResolveColumns(own).Success? &&
              forall i :: 0 <= i < |ResolveColumns(own).value| ==> !ResolveColumns(own).value[i].info.primary
  {
    var d := TableSubclass(className, tableNameHint, own);
    TableHintsUnique(own);
    TableSubclassColumns(own);
    var ok := Derive(d).Success?;
    DeriveMatchesReference(d);
    assert ok <==> ResolveColumns(d.hints).Success? && |PrimaryNames(ResolveColumns(d.hints).value)| == 1;
    if ResolveColumns(own).Success? {
      var rest := ResolveColumns(own).value;
      PrimaryNamesCons(Column("id", AutoIncrementId), rest);
      NoPrimaryNames(rest);
      assert |PrimaryNames(ResolveColumns(d.hints).value)| == 1 + |PrimaryNames(rest)|;
    }
  }
}
