/** Type descriptors (`ExType`), column info (`DataTypeInfo`), the override merge behind
    `DataType`, the key constructors and the built-in type catalogue of `db.dbtypes`. */
module DbTypes {
  import opened Wrappers
  import opened Errors
  import opened Strings

  // ---------------------------------------------------------------------------
  // Values and ExType
  // ---------------------------------------------------------------------------

  /** The Python classes an `ExType` tests values against. */
  datatype Kind = IntKind | FloatKind | StrKind | BytesKind | DateKind | TimeKind | DateTimeKind

  type byte = x: int | 0 <= x < 256

  /** A Python value as `ExType.is_valid` sees it. Floats and temporal values are kind tags
      with no payload, so a float checked against a value range counts as outside it, unlike
      Python's `5.0 in range(10)`; no type of the catalogue gives floats a value range. */
  datatype Value =
    | IntV(i: int)
    | BoolV(b: bool)
    | FloatV
    | StrV(s: string)
    | BytesV(bytes: seq<byte>)
    | DateV
    | TimeV
    | DateTimeV

  /** `isinstance(v, k)`: `bool` is a subclass of `int`, and `datetime` of `date`. */
  predicate IsInstance(v: Value, k: Kind)
  {
    match k
    case IntKind => v.IntV? || v.BoolV?
    case FloatKind => v.FloatV?
    case StrKind => v.StrV?
    case BytesKind => v.BytesV?
    case DateKind => v.DateV? || v.DateTimeV?
    case TimeKind => v.TimeV?
    case DateTimeKind => v.DateTimeV?
  }

  /** The integer a value equals, as `v in range(...)` compares it; `True == 1`, `False == 0`. */
  function AsInteger(v: Value): Option<int>
  {
    match v
    case IntV(i) => Some(i)
    case BoolV(b) => Some(if b then 1 else 0)
    case _ => None
  }

  /** `len(v)`, defined only for strings and bytes. */
  function Length(v: Value): Option<nat>
  {
    match v
    case StrV(s) => Some(|s|)
    case BytesV(bs) => Some(|bs|)
    case _ => None
  }

  /** Python's `range(lo, hi)`: the half-open interval [lo, hi). */
  datatype Range = Range(lo: int, hi: int)
  {
    predicate Contains(x: int)
    {
      lo <= x < hi
    }

    /** `len(range(lo, hi))`. */
    function Size(): nat
    {
      if lo < hi then hi - lo else 0
    }
  }

  /** `ExType`: a base class plus an optional value range and an optional length range. */
  datatype ExType = ExType(base: Kind, valRange: Option<Range>, lenRange: Option<Range>)

  predicate InValueRange(t: ExType, v: Value)
  {
    t.valRange.None? || (AsInteger(v).Some? && t.valRange.value.Contains(AsInteger(v).value))
  }

  predicate InLengthRange(t: ExType, v: Value)
  {
    t.lenRange.None? || (Length(v).Some? && t.lenRange.value.Contains(Length(v).value))
  }

  /** `ExType.is_valid`. The checks short-circuit left to right, so `len()` is only taken of a
      value that passed the first two; on a value without a length it raises TypeError. */
  function IsValid(t: ExType, v: Value): (r: Result<bool, Error>)
    ensures r == Success(true) <==> IsInstance(v, t.base) && InValueRange(t, v) && InLengthRange(t, v)
    ensures r.Failure? <==> IsInstance(v, t.base) && InValueRange(t, v) && t.lenRange.Some? && Length(v).None?
    ensures r.Failure? ==> r.error == TypeMismatch
  {
    if !IsInstance(v, t.base) then Success(false)
    else if !InValueRange(t, v) then Success(false)
    else if t.lenRange.None? then Success(true)
    else match Length(v)
      case None => Failure(TypeMismatch)
      case Some(n) => Success(t.lenRange.value.Contains(n))
  }

  /** `ExType.expect_valid`: passes exactly when `is_valid` answers true; otherwise TypeError. */
  function ExpectValid(t: ExType, v: Value): (r: Outcome<Error>)
    ensures r == Pass <==> IsValid(t, v) == Success(true)
    ensures r.Fail? ==> r.error == TypeMismatch
  {
    match IsValid(t, v)
    case Failure(e) => Fail(e)
    case Success(ok) => if ok then Pass else Fail(TypeMismatch)
  }

  /** `RangedType(base, val_range)`: values of `base` are valid exactly when they lie in the range. */
  function RangedType(base: Kind, valRange: Range): (t: ExType)
    ensures forall v :: IsInstance(v, base) && AsInteger(v).Some? ==>
              IsValid(t, v) == Success(valRange.Contains(AsInteger(v).value))
    ensures forall v :: !IsInstance(v, base) ==> IsValid(t, v) == Success(false)
  {
    ExType(base, Some(valRange), None)
  }

  /** `LenLimitedType(base, max_len)`: values of `base` are valid exactly when their length is
      at most `max_len`. */
  function LenLimitedType(base: Kind, maxLen: int): (t: ExType)
    ensures forall v :: IsInstance(v, base) && Length(v).Some? ==>
              IsValid(t, v) == Success(Length(v).value <= maxLen)
    ensures forall v :: !IsInstance(v, base) ==> IsValid(t, v) == Success(false)
  {
    ExType(base, None, Some(Range(0, maxLen + 1)))
  }

  /** A kind-only `ExType`: exactly the instances of `base` are valid. */
  function PlainType(base: Kind): (t: ExType)
    ensures forall v :: IsValid(t, v) == Success(IsInstance(v, base))
  {
    ExType(base, None, None)
  }

  // ---------------------------------------------------------------------------
  // DataTypeInfo and its SQL rendering
  // ---------------------------------------------------------------------------

  /** The table a foreign key links to: the two attributes the DDL reads from it. */
  datatype TableRef = TableRef(name: string, keyName: string)

  /** `DataTypeInfo`. */
  datatype Info = Info(
    dbtype: string,
    pytype: ExType,
    nullable: bool,
    primary: bool,
    autoIncrement: bool,
    unique: bool,
    linkTable: Option<TableRef>)

  /** The four column flags in rendering order; `notNull` is the negation of `nullable`. */
  datatype Flags = Flags(notNull: bool, primary: bool, autoIncrement: bool, unique: bool)

  function FlagsOf(i: Info): Flags
  {
    Flags(!i.nullable, i.primary, i.autoIncrement, i.unique)
  }

  const NotNullClause := " NOT NULL"
  const PrimaryKeyClause := " PRIMARY KEY"
  const AutoIncrementClause := " AUTO_INCREMENT"
  const UniqueClause := " UNIQUE"

  /** The flag clauses `sql_expr` appends to the type name, in their fixed order. */
  function FlagClauses(f: Flags): string
  {
    (if f.notNull then NotNullClause else "")
    + (if f.primary then PrimaryKeyClause else "")
    + (if f.autoIncrement then AutoIncrementClause else "")
    + (if f.unique then UniqueClause else "")
  }

  /** Consumes `clause` when the text starts with it. */
  function Strip(s: string, clause: string): (bool, string)
  {
    if clause <= s then (true, s[|clause|..]) else (false, s)
  }

  /** Reads flag clauses back: each clause at most once, in the fixed order, nothing else. */
  function ParseFlags(s: string): Option<Flags>
  {
    var (notNull, s1) := Strip(s, NotNullClause);
    var (primary, s2) := Strip(s1, PrimaryKeyClause);
    var (autoIncrement, s3) := Strip(s2, AutoIncrementClause);
    var (unique, s4) := Strip(s3, UniqueClause);
    if s4 == "" then Some(Flags(notNull, primary, autoIncrement, unique)) else None
  }

  /** Stripping a clause splits the text into that clause (when present) and the rest. */
  lemma {:induction false} StripSplits(s: string, clause: string)
    ensures s == (if Strip(s, clause).0 then clause else "") + Strip(s, clause).1
  {
    if clause <= s {
      assert s == s[..|clause|] + s[|clause|..];
    }
  }

  /** A clause in front of the text is stripped. */
  lemma {:induction false} StripPresent(clause: string, rest: string)
    ensures Strip(clause + rest, clause) == (true, rest)
  {
    assert (clause + rest)[..|clause|] == clause;
    assert (clause + rest)[|clause|..] == rest;
  }

  /** A text whose second character differs from the clause's is left alone; every clause
      starts with a blank, so the second character tells them apart. */
  lemma {:induction false} StripAbsent(s: string, clause: string)
    requires |clause| >= 2 && (|s| < 2 || s[1] != clause[1])
    ensures Strip(s, clause) == (false, s)
  {
  }

  /** A text of optional clauses starting with `clause` (when present) followed by `rest`;
      `rest` is empty or starts with a later clause. */
  lemma {:induction false} StripStep(present: bool, clause: string, rest: string, later: set<char>)
    requires |clause| >= 2 && clause[1] !in later
    requires rest == "" || (|rest| >= 2 && rest[1] in later)
    ensures Strip((if present then clause else "") + rest, clause) == (present, rest)
  {
    if present {
      StripPresent(clause, rest);
    } else {
      assert (if present then clause else "") + rest == rest;
      StripAbsent(rest, clause);
    }
  }

  /** An optional clause in front keeps the text empty or starting with a known initial. */
  lemma {:induction false} OptionalClauseInitial(present: bool, clause: string, rest: string, later: set<char>)
    requires |clause| >= 2
    requires rest == "" || (|rest| >= 2 && rest[1] in later)
    ensures var s := (if present then clause else "") + rest;
            s == "" || (|s| >= 2 && s[1] in later + {clause[1]})
  {
  }

  /** Every rendering of flags reads back as those flags. */
  lemma {:induction false} ParseFlagClauses(f: Flags)
    ensures ParseFlags(FlagClauses(f)) == Some(f)
  {
    ClauseInitials();
    var cn, cp := if f.notNull then NotNullClause else "", if f.primary then PrimaryKeyClause else "";
    var ca, cu := if f.autoIncrement then AutoIncrementClause else "", if f.unique then UniqueClause else "";
    var u := cu + "";
    var a := ca + u;
    var p := cp + a;
    var n := cn + p;
    RegroupRight(cn, cp, ca, cu);
    assert FlagClauses(f) == n;
    OptionalClauseInitial(f.unique, UniqueClause, "", {});
    OptionalClauseInitial(f.autoIncrement, AutoIncrementClause, u, {'U'});
    OptionalClauseInitial(f.primary, PrimaryKeyClause, a, {'U', 'A'});
    StripStep(f.unique, UniqueClause, "", {});
    StripStep(f.autoIncrement, AutoIncrementClause, u, {'U'});
    StripStep(f.primary, PrimaryKeyClause, a, {'U', 'A'});
    StripStep(f.notNull, NotNullClause, p, {'U', 'A', 'P'});
    ParseFlagsChain(n, p, a, u, f);
  }

  lemma {:induction false} RegroupRight(a: string, b: string, c: string, d: string)
    ensures a + b + c + d == a + (b + (c + (d + "")))
  {
  }

  /** The parser's four stripping steps, each consuming the clause of one flag. */
  lemma {:induction false} ParseFlagsChain(s: string, s1: string, s2: string, s3: string, f: Flags)
    requires Strip(s, NotNullClause) == (f.notNull, s1)
    requires Strip(s1, PrimaryKeyClause) == (f.primary, s2)
    requires Strip(s2, AutoIncrementClause) == (f.autoIncrement, s3)
    requires Strip(s3, UniqueClause) == (f.unique, "")
    ensures ParseFlags(s) == Some(f)
  {
  }

  /** Every clause starts with a blank and then its own initial. */
  lemma ClauseInitials()
    ensures |NotNullClause| >= 2 && NotNullClause[1] == 'N'
    ensures |PrimaryKeyClause| >= 2 && PrimaryKeyClause[1] == 'P'
    ensures |AutoIncrementClause| >= 2 && AutoIncrementClause[1] == 'A'
    ensures |UniqueClause| >= 2 && UniqueClause[1] == 'U'
  {
  }

  /** Only renderings are read: whatever the parser accepts is the rendering of what it returns. */
  lemma {:induction false} ParsedFlagsAreCanonical(s: string)
    requires ParseFlags(s).Some?
    ensures FlagClauses(ParseFlags(s).value) == s
  {
    var (n, s1) := Strip(s, NotNullClause);
    var (p, s2) := Strip(s1, PrimaryKeyClause);
    var (a, s3) := Strip(s2, AutoIncrementClause);
    var (u, s4) := Strip(s3, UniqueClause);
    assert s4 == "" && ParseFlags(s).value == Flags(n, p, a, u);
    StripSplits(s, NotNullClause);
    StripSplits(s1, PrimaryKeyClause);
    StripSplits(s2, AutoIncrementClause);
    StripSplits(s3, UniqueClause);
    var cn, cp := if n then NotNullClause else "", if p then PrimaryKeyClause else "";
    var ca, cu := if a then AutoIncrementClause else "", if u then UniqueClause else "";
    RegroupRight(cn, cp, ca, cu);
  }

  /** `DataTypeInfo.sql_expr`: the type name followed by the clauses of the set flags. */
  function SqlExpr(i: Info): string
  {
    i.dbtype + FlagClauses(FlagsOf(i))
  }

  /** A column clause is the type name followed by exactly the clauses of the set flags, each
      at most once and in the fixed order NOT NULL, PRIMARY KEY, AUTO_INCREMENT, UNIQUE:
      reading the text after the type name gives back the info's flags. */
  lemma {:induction false} SqlExprReadsBack(i: Info)
    ensures i.dbtype <= SqlExpr(i)
    ensures ParseFlags(SqlExpr(i)[|i.dbtype|..]) == Some(FlagsOf(i))
  {
    ParseFlagClauses(FlagsOf(i));
    assert SqlExpr(i)[..|i.dbtype|] == i.dbtype;
    assert SqlExpr(i)[|i.dbtype|..] == FlagClauses(FlagsOf(i));
  }

  /** Two infos with the same type name render alike exactly when their flags agree. */
  lemma {:induction false} SqlExprDeterminesFlags(i: Info, j: Info)
    requires i.dbtype == j.dbtype
    ensures SqlExpr(i) == SqlExpr(j) <==> FlagsOf(i) == FlagsOf(j)
  {
    SqlExprReadsBack(i);
    SqlExprReadsBack(j);
  }

  // ---------------------------------------------------------------------------
  // DataType: keyword overrides merged onto a base info
  // ---------------------------------------------------------------------------

  /** Keyword arguments given to `DataType`; `None` means the keyword was not passed.
      `linkTable` is doubly optional because `link_table=None` is itself an override. */
  datatype Overrides = Overrides(
    dbtype: Option<string>,
    pytype: Option<ExType>,
    nullable: Option<bool>,
    primary: Option<bool>,
    autoIncrement: Option<bool>,
    unique: Option<bool>,
    linkTable: Option<Option<TableRef>>)
  {
    /** Python's truthiness of the `**options` dict. */
    predicate IsEmpty()
    {
      dbtype.None? && pytype.None? && nullable.None? && primary.None?
      && autoIncrement.None? && unique.None? && linkTable.None?
    }
  }

  const NoOverrides := Overrides(None, None, None, None, None, None, None)

  /** `DataType(base, **kw)` on a base data type: `{**asdict(base.info), **kw}`. Every field
      passed in `kw` takes the passed value; every other field keeps the base's. */
  function Merge(base: Info, kw: Overrides): (r: Info)
    ensures kw.dbtype.Some? ==> r.dbtype == kw.dbtype.value
    ensures kw.dbtype.None? ==> r.dbtype == base.dbtype
    ensures kw.pytype.Some? ==> r.pytype == kw.pytype.value
    ensures kw.pytype.None? ==> r.pytype == base.pytype
    ensures kw.nullable.Some? ==> r.nullable == kw.nullable.value
    ensures kw.nullable.None? ==> r.nullable == base.nullable
    ensures kw.primary.Some? ==> r.primary == kw.primary.value
    ensures kw.primary.None? ==> r.primary == base.primary
    ensures kw.autoIncrement.Some? ==> r.autoIncrement == kw.autoIncrement.value
    ensures kw.autoIncrement.None? ==> r.autoIncrement == base.autoIncrement
    ensures kw.unique.Some? ==> r.unique == kw.unique.value
    ensures kw.unique.None? ==> r.unique == base.unique
    ensures kw.linkTable.Some? ==> r.linkTable == kw.linkTable.value
    ensures kw.linkTable.None? ==> r.linkTable == base.linkTable
  {
    Info(
      kw.dbtype.GetOr(base.dbtype),
      kw.pytype.GetOr(base.pytype),
      kw.nullable.GetOr(base.nullable),
      kw.primary.GetOr(base.primary),
      kw.autoIncrement.GetOr(base.autoIncrement),
      kw.unique.GetOr(base.unique),
      kw.linkTable.GetOr(base.linkTable))
  }

  /** `{**a, **b}` for keyword overrides: `b`'s keywords win. */
  function Layer(a: Overrides, b: Overrides): Overrides
  {
    Overrides(
      if b.dbtype.Some? then b.dbtype else a.dbtype,
      if b.pytype.Some? then b.pytype else a.pytype,
      if b.nullable.Some? then b.nullable else a.nullable,
      if b.primary.Some? then b.primary else a.primary,
      if b.autoIncrement.Some? then b.autoIncrement else a.autoIncrement,
      if b.unique.Some? then b.unique else a.unique,
      if b.linkTable.Some? then b.linkTable else a.linkTable)
  }

  /** Merging nothing returns the base unchanged. */
  lemma {:induction false} MergeNothing(base: Info)
    ensures Merge(base, NoOverrides) == base
  {
  }

  /** Re-deriving a derived type is one derivation with the later keywords winning. */
  lemma {:induction false} MergeTwice(base: Info, a: Overrides, b: Overrides)
    ensures Merge(Merge(base, a), b) == Merge(base, Layer(a, b))
  {
  }

  /** What `DataType` is given as its base. */
  datatype Base =
    /** `None`: the info is built from the keywords alone. */
    | NoBase
    /** A `DataTypeInfo` instance. */
    | InfoInstance(info: Info)
    /** A class made by an earlier `DataType` call, carrying its `info`. */
    | DataTypeClass(info: Info)
    /** Any other class. */
    | OtherClass
    /** Anything that is not a class; `issubclass` raises TypeError on it. */
    | OtherValue

  /** `DataTypeInfo(**kwargs)`: `dbtype` and `pytype` have no default, so leaving either out
      raises TypeError; every flag not passed takes its default. */
  function InfoFromKeywords(kw: Overrides): (r: Result<Info, Error>)
    ensures r.Success? <==> kw.dbtype.Some? && kw.pytype.Some?
    ensures r.Failure? ==> r.error == TypeMismatch
    ensures r.Success? ==> r.value == Merge(Info(kw.dbtype.value, kw.pytype.value, false, false, false, false, None), kw)
  {
    if kw.dbtype.Some? && kw.pytype.Some? then
      Success(Merge(Info(kw.dbtype.value, kw.pytype.value, false, false, false, false, None), kw))
    else Failure(TypeMismatch)
  }

  /** The base dispatch of `DataType` as written: the `DataTypeInfo` branch reads
      `data_type_info`, which no statement before it has assigned, so it raises
      UnboundLocalError instead of merging onto the given info. */
  function DataTypeAsWritten(base: Base, kw: Overrides): (r: Result<Info, Error>)
    ensures base.NoBase? ==> r == InfoFromKeywords(kw)
    ensures base.InfoInstance? ==> r == Failure(UnboundLocal)
    ensures base.DataTypeClass? ==> r == Success(Merge(base.info, kw))
    ensures base.OtherClass? ==> r == Failure(UnexpectedBase)
    ensures base.OtherValue? ==> r == Failure(TypeMismatch)
  {
    match base
    case NoBase => InfoFromKeywords(kw)
    case InfoInstance(_) => Failure(UnboundLocal)
    case DataTypeClass(i) => Success(Merge(i, kw))
    case OtherClass => Failure(UnexpectedBase)
    case OtherValue => Failure(TypeMismatch)
  }

  /** The discrepancy: a `DataTypeInfo` base never yields a data type, whatever the keywords,
      although the same info carried by a data type class does. */
  lemma {:induction false} InfoInstanceUnbound(i: Info, kw: Overrides)
    ensures DataTypeAsWritten(InfoInstance(i), kw).Failure?
    ensures DataTypeAsWritten(DataTypeClass(i), kw).Success?
  {
  }

  /** `DataType` with the `DataTypeInfo` branch merging onto the given info, as the branch
      for data type classes does. */
  function DataType(base: Base, kw: Overrides): (r: Result<Info, Error>)
    ensures base.InfoInstance? || base.DataTypeClass? ==> r == Success(Merge(base.info, kw))
    ensures base.NoBase? ==> r == InfoFromKeywords(kw)
    ensures base.OtherClass? ==> r == Failure(UnexpectedBase)
    ensures base.OtherValue? ==> r == Failure(TypeMismatch)
  {
    match base
    case InfoInstance(i) => Success(Merge(i, kw))
    case _ => DataTypeAsWritten(base, kw)
  }

  /** With the branch corrected, an info and a data type class carrying it are interchangeable
      bases, and the corrected dispatch differs from the written one only on info instances. */
  lemma {:induction false} DataTypeBasesAgree(i: Info, kw: Overrides, base: Base)
    ensures DataType(InfoInstance(i), kw) == DataType(DataTypeClass(i), kw)
    ensures !base.InfoInstance? ==> DataType(base, kw) == DataTypeAsWritten(base, kw)
  {
  }

  /** `DataType(None, dbtype=…, pytype=…, **options)` keeps the passed type name and
      descriptor and builds the rest from the options. */
  lemma {:induction false} NoBaseKeepsNames(dbtype: string, pytype: ExType, options: Overrides)
    ensures DataType(NoBase, options.(dbtype := Some(dbtype), pytype := Some(pytype))).Success?
    ensures var r := DataType(NoBase, options.(dbtype := Some(dbtype), pytype := Some(pytype))).value;
            r.dbtype == dbtype && r.pytype == pytype
  {
  }

  /** `NewDataType(dbtype, pytype)`: an info with every flag at its dataclass default. */
  function NewDataType(dbtype: string, pytype: ExType): Info
  {
    Info(dbtype, pytype, false, false, false, false, None)
  }

  /** `NewDataType(dbtype, pytype)` is `DataType(None, dbtype=dbtype, pytype=pytype)`. */
  lemma {:induction false} NewDataTypeFromNone(dbtype: string, pytype: ExType)
    ensures DataType(NoBase, NoOverrides.(dbtype := Some(dbtype), pytype := Some(pytype))) == Success(NewDataType(dbtype, pytype))
  {
  }

  // ---------------------------------------------------------------------------
  // Built-in catalogue
  // ---------------------------------------------------------------------------

  function Pow2(n: nat): (r: int)
    ensures r >= 1
  {
    if n == 0 then 1 else 2 * Pow2(n - 1)
  }

  /** `_singed_range(bits)`: the values of a `bits`-bit two's complement integer. */
  function SignedRange(bits: nat): Range
    requires bits >= 1
  {
    Range(-Pow2(bits - 1), Pow2(bits - 1))
  }

  /** `_unsigned_range(bits)`: the values of a `bits`-bit unsigned integer. */
  function UnsignedRange(bits: nat): Range
  {
    Range(0, Pow2(bits))
  }

  /** Both ranges of a width hold 2^bits integers, and the signed one is the unsigned one
      shifted down by 2^(bits-1). */
  lemma {:induction false} IntRangesAgree(bits: nat, x: int)
    requires bits >= 1
    ensures SignedRange(bits).Size() == UnsignedRange(bits).Size() == Pow2(bits)
    ensures UnsignedRange(bits).Contains(x) <==> SignedRange(bits).Contains(x - Pow2(bits - 1))
  {
  }

  datatype Width = W8 | W16 | W24 | W32 | W64

  function WidthBits(w: Width): (b: nat)
    ensures b >= 8
  {
    match w
    case W8 => 8
    case W16 => 16
    case W24 => 24
    case W32 => 32
    case W64 => 64
  }

  function IntName(w: Width): string
  {
    match w
    case W8 => "TINYINT"
    case W16 => "SMALLINT"
    case W24 => "MEDIUMINT"
    case W32 => "INT"
    case W64 => "BIGINT"
  }

  /** `TinyInt` … `BigInt`: an integer (or bool) is valid exactly when it fits the width's
      two's complement range. */
  function SignedIntType(w: Width): (r: Info)
    ensures w == W8 ==> r.dbtype == "TINYINT"
    ensures w == W16 ==> r.dbtype == "SMALLINT"
    ensures w == W24 ==> r.dbtype == "MEDIUMINT"
    ensures w == W32 ==> r.dbtype == "INT"
    ensures w == W64 ==> r.dbtype == "BIGINT"
    ensures FlagsOf(r) == Flags(true, false, false, false) && r.linkTable.None?
    ensures forall x :: IsValid(r.pytype, IntV(x)) ==
              Success(-Pow2(WidthBits(w) - 1) <= x < Pow2(WidthBits(w) - 1))
    ensures forall b :: IsValid(r.pytype, BoolV(b)) == Success(true)
    ensures forall v :: !IsInstance(v, IntKind) ==> IsValid(r.pytype, v) == Success(false)
  {
    NewDataType(IntName(w), RangedType(IntKind, SignedRange(WidthBits(w))))
  }

  /** `UnsignedTinyInt` … `UnsignedBigInt`: an integer (or bool) is valid exactly when it lies
      in [0, 2^bits). */
  function UnsignedIntType(w: Width): (r: Info)
    ensures w == W8 ==> r.dbtype == "UNSIGNED TINYINT"
    ensures w == W16 ==> r.dbtype == "UNSIGNED SMALLINT"
    ensures w == W24 ==> r.dbtype == "UNSIGNED MEDIUMINT"
    ensures w == W32 ==> r.dbtype == "UNSIGNED INT"
    ensures w == W64 ==> r.dbtype == "UNSIGNED BIGINT"
    ensures FlagsOf(r) == Flags(true, false, false, false) && r.linkTable.None?
    ensures forall x :: IsValid(r.pytype, IntV(x)) == Success(0 <= x < Pow2(WidthBits(w)))
    ensures forall b :: IsValid(r.pytype, BoolV(b)) == Success(true)
    ensures forall v :: !IsInstance(v, IntKind) ==> IsValid(r.pytype, v) == Success(false)
  {
    NewDataType("UNSIGNED " + IntName(w), RangedType(IntKind, UnsignedRange(WidthBits(w))))
  }

  const TinyInt := SignedIntType(W8)
  const SmallInt := SignedIntType(W16)
  const MediumInt := SignedIntType(W24)
  const Int := SignedIntType(W32)
  const BigInt := SignedIntType(W64)

  const UnsignedTinyInt := UnsignedIntType(W8)
  const UnsignedSmallInt := UnsignedIntType(W16)
  const UnsignedMediumInt := UnsignedIntType(W24)
  const UnsignedInt := UnsignedIntType(W32)
  const UnsignedBigInt := UnsignedIntType(W64)

  /** TINYINT accepts -128 and 127 and rejects -129 and 128. */
  lemma TinyIntBounds()
    ensures IsValid(TinyInt.pytype, IntV(-128)) == Success(true)
    ensures IsValid(TinyInt.pytype, IntV(127)) == Success(true)
    ensures IsValid(TinyInt.pytype, IntV(-129)) == Success(false)
    ensures IsValid(TinyInt.pytype, IntV(128)) == Success(false)
  {
    assert Pow2(7) == 128;
  }

  /** UNSIGNED TINYINT accepts 0 and 255 and rejects -1 and 256. */
  lemma UnsignedTinyIntBounds()
    ensures IsValid(UnsignedTinyInt.pytype, IntV(0)) == Success(true)
    ensures IsValid(UnsignedTinyInt.pytype, IntV(255)) == Success(true)
    ensures IsValid(UnsignedTinyInt.pytype, IntV(-1)) == Success(false)
    ensures IsValid(UnsignedTinyInt.pytype, IntV(256)) == Success(false)
  {
    assert Pow2(8) == 256;
  }

  datatype FloatName = FloatT | DoubleT | RealT | DecimalT

  /** `Float`, `Double`, `Real`, `Decimal`: kind tags only, every float is valid. */
  function FloatType(n: FloatName): (r: Info)
    ensures n == FloatT ==> r.dbtype == "FLOAT"
    ensures n == DoubleT ==> r.dbtype == "DOUBLE"
    ensures n == RealT ==> r.dbtype == "REAL"
    ensures n == DecimalT ==> r.dbtype == "DECIMAL"
    ensures FlagsOf(r) == Flags(true, false, false, false) && r.linkTable.None?
    ensures forall v :: IsValid(r.pytype, v) == Success(v.FloatV?)
  {
    var name := match n
      case FloatT => "FLOAT"
      case DoubleT => "DOUBLE"
      case RealT => "REAL"
      case DecimalT => "DECIMAL";
    NewDataType(name, PlainType(FloatKind))
  }

  const Float := FloatType(FloatT)
  const Double := FloatType(DoubleT)
  const Real := FloatType(RealT)
  const Decimal := FloatType(DecimalT)

  /** The four length-parameterised families. */
  datatype SizedName = CharT | VarCharT | BinaryT | VarBinaryT
  {
    function Keyword(): string
    {
      match this
      case CharT => "CHAR"
      case VarCharT => "VARCHAR"
      case BinaryT => "BINARY"
      case VarBinaryT => "VARBINARY"
    }

    function ValueKind(): Kind
    {
      match this
      case CharT => StrKind
      case VarCharT => StrKind
      case BinaryT => BytesKind
      case VarBinaryT => BytesKind
    }
  }

  /** `Char(l)`, `VarChar(l)`, `Binary(l)`, `VarBinary(l)`: named `KEYWORD(l)`, and a string
      (or bytes) value is valid exactly when its length is at most `l`. */
  function SizedType(n: SizedName, l: nat): (r: Info)
    ensures FlagsOf(r) == Flags(true, false, false, false) && r.linkTable.None?
    ensures forall v :: IsInstance(v, n.ValueKind()) ==> IsValid(r.pytype, v) == Success(Length(v).value <= l)
    ensures forall v :: !IsInstance(v, n.ValueKind()) ==> IsValid(r.pytype, v) == Success(false)
  {
    NewDataType(n.Keyword() + "(" + NatToString(l) + ")", LenLimitedType(n.ValueKind(), l))
  }

  /** A sized type renders as its keyword, the decimal length in parentheses, and only the
      NOT NULL flag. */
  lemma {:induction false} SizedTypeRendering(n: SizedName, l: nat)
    ensures SizedType(n, l).dbtype == n.Keyword() + "(" + NatToString(l) + ")"
    ensures SqlExpr(SizedType(n, l)) == n.Keyword() + "(" + NatToString(l) + ") NOT NULL"
  {
    FlagsRendering(SizedType(n, l));
  }

  function Char(l: nat): Info { SizedType(CharT, l) }
  function VarChar(l: nat): Info { SizedType(VarCharT, l) }
  function Binary(l: nat): Info { SizedType(BinaryT, l) }
  function VarBinary(l: nat): Info { SizedType(VarBinaryT, l) }

  predicate NoParen(s: string)
  {
    forall i :: 0 <= i < |s| ==> s[i] != '('
  }

  lemma {:induction false} KeywordShape(n: SizedName)
    ensures NoParen(n.Keyword())
    ensures forall m: SizedName :: |m.Keyword()| == |n.Keyword()| ==> m == n
  {
  }

  /** The pieces of `keyword(digits)` can be read back by position. */
  lemma {:induction false} SizedNamePieces(kw: string, digits: string)
    ensures var s := kw + "(" + digits + ")";
      && s[..|kw|] == kw && s[|kw|] == '(' && s[|kw| + 1..|s| - 1] == digits
  {
    var s := kw + "(" + digits + ")";
    assert s[..|kw|] == kw;
    assert s[|kw| + 1..|s| - 1] == digits;
  }

  /** In `kw(digits)` with no '(' in `kw`, the first '(' sits right after `kw`, so two such
      texts that are equal have keywords of the same length. */
  lemma {:induction false} FirstParen(a: string, x: string, b: string, y: string)
    requires NoParen(a) && NoParen(b) && a + "(" + x + ")" == b + "(" + y + ")"
    ensures |a| == |b|
  {
    var s := a + "(" + x + ")";
    assert forall i :: 0 <= i < |a| ==> s[i] == a[i];
    assert forall i :: 0 <= i < |b| ==> s[i] == b[i];
    assert s[|a|] == '(';
    assert (b + "(" + y + ")")[|b|] == '(';
  }

  /** The rendered name of a sized type determines both the family and the declared length. */
  lemma {:induction false} SizedTypeNameInjective(m: SizedName, k: nat, n: SizedName, l: nat)
    requires SizedType(m, k).dbtype == SizedType(n, l).dbtype
    ensures m == n && k == l
  {
    var km, kn := m.Keyword(), n.Keyword();
    var dk, dl := NatToString(k), NatToString(l);
    assert km + "(" + dk + ")" == kn + "(" + dl + ")";
    KeywordShape(m);
    KeywordShape(n);
    FirstParen(km, dk, kn, dl);
    SizedNamePieces(km, dk);
    SizedNamePieces(kn, dl);
    NatToStringInjective(k, l);
  }

  /** VARCHAR(l) accepts a string of exactly l characters and rejects one of l + 1. */
  lemma {:induction false} VarCharBoundary(l: nat, s: string)
    ensures |s| == l ==> IsValid(VarChar(l).pytype, StrV(s)) == Success(true)
    ensures |s| == l + 1 ==> IsValid(VarChar(l).pytype, StrV(s)) == Success(false)
  {
  }

  /** The four BLOB/TEXT size tiers. */
  datatype Tier = TinyTier | PlainTier | MediumTier | LongTier
  {
    function Bits(): nat
    {
      match this
      case TinyTier => 8
      case PlainTier => 16
      case MediumTier => 24
      case LongTier => 32
    }

    function Prefix(): string
    {
      match this
      case TinyTier => "TINY"
      case PlainTier => ""
      case MediumTier => "MEDIUM"
      case LongTier => "LONG"
    }
  }

  /** `TinyBlob` … `LongBlob`: bytes of length at most 2^bits - 1. */
  function BlobType(t: Tier): (r: Info)
    ensures t == TinyTier ==> r.dbtype == "TINYBLOB"
    ensures t == PlainTier ==> r.dbtype == "BLOB"
    ensures t == MediumTier ==> r.dbtype == "MEDIUMBLOB"
    ensures t == LongTier ==> r.dbtype == "LONGBLOB"
    ensures FlagsOf(r) == Flags(true, false, false, false) && r.linkTable.None?
    ensures forall bs :: IsValid(r.pytype, BytesV(bs)) == Success(|bs| < Pow2(t.Bits()))
    ensures forall v: Value :: !v.BytesV? ==> IsValid(r.pytype, v) == Success(false)
  {
    NewDataType(t.Prefix() + "BLOB", LenLimitedType(BytesKind, Pow2(t.Bits()) - 1))
  }

  /** `TinyText` … `LongText`: strings of length at most 2^bits - 1. */
  function TextType(t: Tier): (r: Info)
    ensures t == TinyTier ==> r.dbtype == "TINYTEXT"
    ensures t == PlainTier ==> r.dbtype == "TEXT"
    ensures t == MediumTier ==> r.dbtype == "MEDIUMTEXT"
    ensures t == LongTier ==> r.dbtype == "LONGTEXT"
    ensures FlagsOf(r) == Flags(true, false, false, false) && r.linkTable.None?
    ensures forall s :: IsValid(r.pytype, StrV(s)) == Success(|s| < Pow2(t.Bits()))
    ensures forall v: Value :: !v.StrV? ==> IsValid(r.pytype, v) == Success(false)
  {
    NewDataType(t.Prefix() + "TEXT", LenLimitedType(StrKind, Pow2(t.Bits()) - 1))
  }

  const TinyBlob := BlobType(TinyTier)
  const Blob := BlobType(PlainTier)
  const MediumBlob := BlobType(MediumTier)
  const LongBlob := BlobType(LongTier)

  const TinyText := TextType(TinyTier)
  const Text := TextType(PlainTier)
  const MediumText := TextType(MediumTier)
  const LongText := TextType(LongTier)

  /** TINYTEXT accepts 255 characters and rejects 256. */
  lemma {:induction false} TinyTextLimit(s: string)
    ensures |s| == 255 ==> IsValid(TinyText.pytype, StrV(s)) == Success(true)
    ensures |s| == 256 ==> IsValid(TinyText.pytype, StrV(s)) == Success(false)
  {
    assert Pow2(8) == 256;
  }

  /** `Date`, `Time`, `DateTime`: kind tags only. */
  function TemporalType(k: Kind): (r: Info)
    requires k == DateKind || k == TimeKind || k == DateTimeKind
    ensures k == DateKind ==> r.dbtype == "DATE"
    ensures k == TimeKind ==> r.dbtype == "TIME"
    ensures k == DateTimeKind ==> r.dbtype == "DATETIME"
    ensures FlagsOf(r) == Flags(true, false, false, false) && r.linkTable.None?
    ensures forall v :: IsValid(r.pytype, v) == Success(IsInstance(v, k))
  {
    var name := match k
      case DateKind => "DATE"
      case TimeKind => "TIME"
      case _ => "DATETIME";
    NewDataType(name, PlainType(k))
  }

  const Date := TemporalType(DateKind)
  const Time := TemporalType(TimeKind)
  const DateTime := TemporalType(DateTimeKind)

  /** A datetime is a valid DATE value (Python's datetime subclasses date), but a date is not
      a valid DATETIME value. */
  lemma DateAcceptsDateTime()
    ensures IsValid(Date.pytype, DateTimeV) == Success(true)
    ensures IsValid(DateTime.pytype, DateV) == Success(false)
  {
  }

  // ---------------------------------------------------------------------------
  // Keys
  // ---------------------------------------------------------------------------

  /** The keywords `PrimaryKey` hands to `DataType`: the options with `primary=True` and the
      given `auto_increment` added. */
  function KeyOverrides(autoIncrement: bool, options: Overrides): Overrides
  {
    options.(primary := Some(true), autoIncrement := Some(autoIncrement))
  }

  /** `PrimaryKey(base, auto_increment=…, **options)`: `DataType` on the base with `primary` set
      and `auto_increment` as given. `primary` passed among the options as well is a keyword
      given twice, which Python rejects with TypeError before `DataType` runs;
      `auto_increment` is a named parameter, so it never reaches the options. Every other
      outcome is the base dispatch of `DataType`. */
  function PrimaryKey(base: Base, autoIncrement: bool, options: Overrides): (r: Result<Info, Error>)
    requires options.autoIncrement.None?
    ensures options.primary.Some? ==> r == Failure(TypeMismatch)
    ensures options.primary.None? ==> r == DataType(base, KeyOverrides(autoIncrement, options))
    ensures r.Failure? <==>
              options.primary.Some? || base.OtherClass? || base.OtherValue?
              || (base.NoBase? && (options.dbtype.None? || options.pytype.None?))
    ensures r.Failure? ==> r.error == TypeMismatch || (base.OtherClass? && r.error == UnexpectedBase)
    ensures r.Success? ==> r.value.primary && r.value.autoIncrement == autoIncrement
    ensures r.Success? && options.dbtype.Some? ==> r.value.dbtype == options.dbtype.value
    ensures r.Success? && options.pytype.Some? ==> r.value.pytype == options.pytype.value
    ensures r.Success? && base.NoBase? ==> r.value.linkTable == options.linkTable.GetOr(None)
    ensures r.Success? && base.NoBase? && options.nullable.None? ==> !r.value.nullable
    ensures r.Success? && base.NoBase? && options.unique.None? ==> !r.value.unique
    ensures r.Success? && !base.NoBase? && options.dbtype.None? ==> r.value.dbtype == base.info.dbtype
    ensures r.Success? && !base.NoBase? && options.pytype.None? ==> r.value.pytype == base.info.pytype
    ensures r.Success? && !base.NoBase? && options.nullable.None? ==> r.value.nullable == base.info.nullable
    ensures r.Success? && !base.NoBase? && options.unique.None? ==> r.value.unique == base.info.unique
    ensures r.Success? && !base.NoBase? && options.linkTable.None? ==> r.value.linkTable == base.info.linkTable
  {
    if options.primary.Some? then Failure(TypeMismatch)
    else DataType(base, KeyOverrides(autoIncrement, options))
  }

  /** `IDKey(auto_increment=…, **options)`: a primary key over `Int`; the options reach
      `PrimaryKey` unchanged, so `primary` among them raises TypeError there. */
  function IDKey(autoIncrement: bool, options: Overrides): (r: Result<Info, Error>)
    requires options.autoIncrement.None?
    ensures r.Failure? <==> options.primary.Some?
    ensures r.Failure? ==> r.error == TypeMismatch
    ensures r.Success? ==> r.value.primary && r.value.autoIncrement == autoIncrement
    ensures r.Success? && options.dbtype.None? ==> r.value.dbtype == "INT"
    ensures r.Success? && options.pytype.None? ==> r.value.pytype == Int.pytype
    ensures r.Success? && options.nullable.None? ==> !r.value.nullable
    ensures r.Success? && options.unique.None? ==> !r.value.unique
    ensures r.Success? && options.linkTable.None? ==> r.value.linkTable.None?
  {
    PrimaryKey(DataTypeClass(Int), autoIncrement, options)
  }

  /** `PrimaryKey` on each kind of base: `None` needs `dbtype` and `pytype` among the options;
      a `DataTypeInfo` is merged like the data type class carrying it (the code as written
      raises UnboundLocalError there instead); any other class raises RuntimeError. */
  lemma {:induction false} PrimaryKeyBases(i: Info, autoIncrement: bool, ty: ExType)
    ensures PrimaryKey(NoBase, autoIncrement, NoOverrides) == Failure(TypeMismatch)
    ensures PrimaryKey(NoBase, autoIncrement, NoOverrides.(dbtype := Some("INT"), pytype := Some(ty)))
            == Success(Info("INT", ty, false, true, autoIncrement, false, None))
    ensures PrimaryKey(InfoInstance(i), autoIncrement, NoOverrides) == PrimaryKey(DataTypeClass(i), autoIncrement, NoOverrides)
    ensures DataTypeAsWritten(InfoInstance(i), KeyOverrides(autoIncrement, NoOverrides)) == Failure(UnboundLocal)
    ensures PrimaryKey(OtherClass, autoIncrement, NoOverrides) == Failure(UnexpectedBase)
  {
  }

  /** `IDKey(auto_increment=True)`, the key every `Table` subclass inherits. */
  const AutoIncrementId := IDKey(true, NoOverrides).value

  /** The three flag combinations the built-in types use, rendered clause by clause. */
  lemma {:induction false} FlagsRendering(i: Info)
    ensures FlagsOf(i) == Flags(false, false, false, false) ==> SqlExpr(i) == i.dbtype
    ensures FlagsOf(i) == Flags(true, false, false, false) ==> SqlExpr(i) == i.dbtype + NotNullClause
    ensures FlagsOf(i) == Flags(true, true, true, false) ==>
              SqlExpr(i) == i.dbtype + NotNullClause + PrimaryKeyClause + AutoIncrementClause
  {
    var f := FlagsOf(i);
    if f == Flags(false, false, false, false) {
      assert FlagClauses(f) == "";
    } else if f == Flags(true, false, false, false) {
      assert FlagClauses(f) == NotNullClause;
    } else if f == Flags(true, true, true, false) {
      assert FlagClauses(f) == NotNullClause + PrimaryKeyClause + AutoIncrementClause;
    }
  }

  /** `IDKey(auto_increment=True)` renders as an auto-increment, non-null INT primary key,
      whatever other options leave the type name, nullability and uniqueness alone. */
  lemma {:induction false} AutoIncrementIdRendering(options: Overrides)
    requires options.primary.None? && options.autoIncrement.None?
    requires options.dbtype.None? && options.nullable.None? && options.unique.None?
    ensures IDKey(true, options).Success?
    ensures SqlExpr(IDKey(true, options).value) == "INT" + " NOT NULL" + " PRIMARY KEY" + " AUTO_INCREMENT"
  {
    FlagsRendering(IDKey(true, options).value);
  }

  /** `ForeignKey(T)`: `Int` linked to `T`; it is never a primary key and renders as
      `INT NOT NULL`. */
  function ForeignKey(target: TableRef): (r: Info)
    ensures r.linkTable == Some(target)
    ensures !r.primary && !r.nullable && !r.autoIncrement && !r.unique
    ensures r.dbtype == "INT" && r.pytype == Int.pytype
    ensures SqlExpr(r) == "INT NOT NULL"
  {
    Merge(Int, NoOverrides.(linkTable := Some(Some(target))))
  }
}
