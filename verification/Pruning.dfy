/** The scan: which parts and row groups the catalog and the provider leave out, and why
    the answer is that of a scan that leaves out nothing. */
module Pruning {
  import opened Base
  import opened Rows
  import opened Stats
  import opened KeyFilter

  // ---------------------------------------------------------------- queries

  datatype Op = Eq | NotEq | Gt | GtEq | Lt | LtEq

  /** A pushed-down conjunct: column against integer literal either way round, or
      anything else. */
  datatype Filter = Compare(column: string, op: Op, value: int) | Literal(literal: int, lop: Op, lcolumn: string) | Opaque(id: nat)

  /** `other` is the meaning of the conjuncts this layer does not recognize. */
  datatype Query = Query(schema: seq<Column>, slice: Option<int>, filters: seq<Filter>, other: (Filter, Row) -> bool)

  function Mirror(op: Op): Op {
    match op
    case Lt => Gt
    case LtEq => GtEq
    case Gt => Lt
    case GtEq => LtEq
    case _ => op
  }

  /** The comparison as column, operator, value. */
  function Normal(f: Filter): Option<(string, Op, int)> {
    match f
    case Compare(c, op, v) => Some((c, op, v))
    case Literal(v, op, c) => Some((c, Mirror(op), v))
    case Opaque(_) => None
  }

  function ColumnOf(schema: seq<Column>, name: string): (i: Option<nat>)
    ensures i.Some? ==> i.value < |schema| && schema[i.value].name == name
  {
    if schema == [] then None
    else if schema[0].name == name then Some(0)
    else
      var rest := ColumnOf(schema[1..], name);
      if rest.None? then None else Some(rest.value + 1)
  }

  /** An integer column the table has. */
  predicate IntColumn(schema: seq<Column>, name: string) {
    ColumnOf(schema, name).Some? && schema[ColumnOf(schema, name).value].int64
  }

  predicate Meets(v: int, op: Op, value: int) {
    match op
    case Eq => v == value
    case NotEq => v != value
    case Gt => v > value
    case GtEq => v >= value
    case Lt => v < value
    case LtEq => v <= value
  }

  /** A row passes a conjunct; comparing a NULL passes nothing. */
  predicate Passes(q: Query, f: Filter, r: Row) {
    var n := Normal(f);
    if n.Some? && IntColumn(q.schema, n.value.0) then
      var i := ColumnOf(q.schema, n.value.0).value;
      i < |r.cells| && r.cells[i].Int64? && Meets(r.cells[i].v, n.value.1, n.value.2)
    else q.other(f, r)
  }

  predicate Wanted(q: Query, r: Row) {
    && (q.slice.Some? ==> r.key == q.slice.value)
    && forall i :: 0 <= i < |q.filters| ==> Passes(q, q.filters[i], r)
  }

  function Select(q: Query, rows: seq<Row>): seq<Row> {
    if rows == [] then [] else (if Wanted(q, rows[0]) then [rows[0]] else []) + Select(q, rows[1..])
  }

  lemma {:induction false} SelectAppend(q: Query, a: seq<Row>, b: seq<Row>)
    ensures Select(q, a + b) == Select(q, a) + Select(q, b)
  {
    if a == [] {
      assert a + b == b;
    } else {
      assert (a + b)[1..] == a[1..] + b;
      SelectAppend(q, a[1..], b);
    }
  }

  lemma {:induction false} SelectNothing(q: Query, rows: seq<Row>)
    requires forall r :: r in rows ==> !Wanted(q, r)
    ensures Select(q, rows) == []
  {
    if rows != [] { SelectNothing(q, rows[1..]); }
  }

  // ---------------------------------------------------------------- integer ranges

  type Bounds = map<string, (Option<int>, Option<int>)>

  /** Signed 64-bit wrap-around. */
  function Wrap64(v: int): int {
    if v > 0x7fff_ffff_ffff_ffff then v - 0x1_0000_0000_0000_0000
    else if v < -0x8000_0000_0000_0000 then v + 0x1_0000_0000_0000_0000
    else v
  }

  function Above(lo: Option<int>, v: int): Option<int> {
    if lo.Some? && lo.value > v then lo else Some(v)
  }

  function Below(hi: Option<int>, v: int): Option<int> {
    if hi.Some? && hi.value < v then hi else Some(v)
  }

  /** One comparison narrows its column's bounds. */
  function Narrow(b: (Option<int>, Option<int>), op: Op, v: int): (Option<int>, Option<int>) {
    match op
    case Eq => (Above(b.0, v), Below(b.1, v))
    case NotEq => b
    case Gt => (Above(b.0, Wrap64(v + 1)), b.1)
    case GtEq => (Above(b.0, v), b.1)
    case Lt => (b.0, Below(b.1, Wrap64(v - 1)))
    case LtEq => (b.0, Below(b.1, v))
  }

  function Entry(bounds: Bounds, name: string): (Option<int>, Option<int>) {
    if name in bounds then bounds[name] else (None, None)
  }

  function Apply(schema: seq<Column>, bounds: Bounds, f: Filter): Bounds {
    var n := Normal(f);
    if n.Some? && IntColumn(schema, n.value.0)
    then bounds[n.value.0 := Narrow(Entry(bounds, n.value.0), n.value.1, n.value.2)] else bounds
  }

  function BoundsOf(schema: seq<Column>, filters: seq<Filter>): Bounds {
    if filters == [] then map[]
    else Apply(schema, BoundsOf(schema, filters[..|filters| - 1]), filters[|filters| - 1])
  }

  /** Folds the conjuncts into per-column bounds. */
  method ExtractInt64Ranges(filters: seq<Filter>, schema: seq<Column>) returns (bounds: Bounds)
    ensures bounds == BoundsOf(schema, filters)
  {
    bounds := map[];
    for i := 0 to |filters|
      invariant bounds == BoundsOf(schema, filters[..i])
    {
      assert filters[..i + 1][..i] == filters[..i];
      match filters[i] {
        case Compare(c, op, v) => bounds := ApplyOne(schema, bounds, c, op, v);
        case Literal(v, op, c) =>
          var mirrored := match op
            case Lt => Gt
            case LtEq => GtEq
            case Gt => Lt
            case GtEq => LtEq
            case other => other;
          bounds := ApplyOne(schema, bounds, c, mirrored, v);
        case Opaque(_) =>
      }
    }
    assert filters[..|filters|] == filters;
  }

  method ApplyOne(schema: seq<Column>, bounds: Bounds, name: string, op: Op, value: int) returns (bounds': Bounds)
    ensures bounds' == if IntColumn(schema, name) then bounds[name := Narrow(Entry(bounds, name), op, value)] else bounds
  {
    if !IntColumn(schema, name) { return bounds; }
    var (lo, hi) := Entry(bounds, name);
    match op {
      case Eq => lo := Above(lo, value); hi := Below(hi, value);
      case Gt => lo := Above(lo, Wrap64(value + 1));
      case GtEq => lo := Above(lo, value);
      case Lt => hi := Below(hi, Wrap64(value - 1));
      case LtEq => hi := Below(hi, value);
      case NotEq =>
    }
    bounds' := bounds[name := (lo, hi)];
  }

  predicate Bounded(b: (Option<int>, Option<int>)) {
    b.0.Some? || b.1.Some?
  }

  predicate Within(v: int, b: (Option<int>, Option<int>)) {
    (b.0.Some? ==> b.0.value <= v) && (b.1.Some? ==> v <= b.1.value)
  }

  /** The row has an integer within the bounds in every bounded column. */
  predicate Admits(schema: seq<Column>, bounds: Bounds, r: Row) {
    forall name :: name in bounds ==>
      && IntColumn(schema, name)
      && (Bounded(bounds[name]) ==>
            var i := ColumnOf(schema, name).value;
            i < |r.cells| && r.cells[i].Int64? && Within(r.cells[i].v, bounds[name]))
  }

  lemma NarrowKeeps(b: (Option<int>, Option<int>), op: Op, value: int, v: int)
    requires InI64(v) && InI64(value) && Meets(v, op, value) && Within(v, b)
    ensures Within(v, Narrow(b, op, value))
  {
  }

  /** A row that passes every conjunct is admitted: bounds never exclude an answer, wrapped
      ones included. */
  lemma {:induction false} AnswersAreAdmitted(q: Query, filters: seq<Filter>, r: Row)
    requires RowFits(q.schema, r) && LiteralsFit(filters)
    requires forall i :: 0 <= i < |filters| ==> Passes(q, filters[i], r)
    ensures Admits(q.schema, BoundsOf(q.schema, filters), r)
  {
    if filters != [] {
      var front, f := filters[..|filters| - 1], filters[|filters| - 1];
      AnswersAreAdmitted(q, front, r);
      var n := Normal(f);
      if n.Some? && IntColumn(q.schema, n.value.0) {
        var i := ColumnOf(q.schema, n.value.0).value;
        assert Passes(q, f, r);
        var before := BoundsOf(q.schema, front);
        NarrowKeeps(Entry(before, n.value.0), n.value.1, n.value.2, r.cells[i].v);
      }
    }
  }

  predicate LiteralsFit(filters: seq<Filter>) {
    forall i :: 0 <= i < |filters| && Normal(filters[i]).Some? ==> InI64(Normal(filters[i]).value.2)
  }

  // ---------------------------------------------------------------- what the bounds say

  /** The conjunct compares this integer column with a literal. */
  predicate Recognized(schema: seq<Column>, f: Filter, name: string) {
    IntColumn(schema, name) && ((f.Compare? && f.column == name) || (f.Literal? && f.lcolumn == name))
  }

  /** The comparison holds of the value, the literal on whichever side it was written. */
  predicate Compares(f: Filter, v: int) {
    match f
    case Compare(_, op, x) =>
      (match op case Eq => v == x case NotEq => v != x case Gt => v > x case GtEq => v >= x case Lt => v < x case LtEq => v <= x)
    case Literal(x, op, _) =>
      (match op case Eq => x == v case NotEq => x != v case Gt => x > v case GtEq => x >= v case Lt => x < v case LtEq => x <= v)
    case Opaque(_) => true
  }

  const MAX_I64 := 0x7fff_ffff_ffff_ffff
  const MIN_I64 := -0x8000_0000_0000_0000

  /** What a bound can say of the comparison: all of it, but nothing of an inequality, and
      nothing when the neighbour of the literal would wrap around. */
  predicate Asks(f: Filter, v: int) {
    match f
    case Compare(_, op, x) => op.NotEq? || (op.Gt? && x == MAX_I64) || (op.Lt? && x == MIN_I64) || Compares(f, v)
    case Literal(x, op, _) => op.NotEq? || (op.Lt? && x == MAX_I64) || (op.Gt? && x == MIN_I64) || Compares(f, v)
    case Opaque(_) => true
  }

  /** A row passes a recognized comparison exactly when its integer satisfies it. */
  lemma PassesMeans(q: Query, f: Filter, name: string, r: Row)
    requires Recognized(q.schema, f, name)
    ensures var i := ColumnOf(q.schema, name).value;
            Passes(q, f, r) <==> i < |r.cells| && r.cells[i].Int64? && Compares(f, r.cells[i].v)
  {
  }

  /** A column is bounded by the recognized comparisons on it and no others, and a 64-bit
      value is within its bounds exactly when it satisfies what they ask. */
  lemma {:induction false} BoundsAreTight(schema: seq<Column>, filters: seq<Filter>, name: string, v: int)
    requires LiteralsFit(filters) && InI64(v)
    ensures name in BoundsOf(schema, filters) <==> exists i :: 0 <= i < |filters| && Recognized(schema, filters[i], name)
    ensures Within(v, Entry(BoundsOf(schema, filters), name))
            <==> forall i :: 0 <= i < |filters| && Recognized(schema, filters[i], name) ==> Asks(filters[i], v)
  {
    if filters != [] {
      var n := |filters| - 1;
      var front, f := filters[..n], filters[n];
      BoundsAreTight(schema, front, name, v);
      ApplyAsks(schema, BoundsOf(schema, front), f, name, v);
      hide Recognized; hide Asks; hide Within; hide Apply; hide Entry;
      assert filters == front + [f];
    }
  }

  /** A comparison asks the same of a value in its mirrored form. */
  predicate AsksOf(op: Op, x: int, v: int) {
    match op
    case Eq => v == x
    case NotEq => true
    case Gt => x == MAX_I64 || v > x
    case GtEq => v >= x
    case Lt => x == MIN_I64 || v < x
    case LtEq => v <= x
  }

  lemma NarrowAsks(b: (Option<int>, Option<int>), op: Op, x: int, v: int)
    requires InI64(v) && InI64(x)
    ensures Within(v, Narrow(b, op, x)) <==> Within(v, b) && AsksOf(op, x, v)
  {
  }

  lemma NormalAsks(schema: seq<Column>, f: Filter, name: string, v: int)
    ensures Recognized(schema, f, name) <==> Normal(f).Some? && Normal(f).value.0 == name && IntColumn(schema, name)
    ensures Normal(f).Some? ==> (Asks(f, v) <==> AsksOf(Normal(f).value.1, Normal(f).value.2, v))
  {
    hide IntColumn;
  }

  lemma ApplyAsks(schema: seq<Column>, bounds: Bounds, f: Filter, name: string, v: int)
    requires InI64(v) && (Normal(f).Some? ==> InI64(Normal(f).value.2))
    ensures var after := Apply(schema, bounds, f);
            && (name in after <==> name in bounds || Recognized(schema, f, name))
            && (Within(v, Entry(after, name)) <==> Within(v, Entry(bounds, name)) && (Recognized(schema, f, name) ==> Asks(f, v)))
  {
    hide IntColumn; hide Recognized; hide Asks; hide Narrow; hide Within; hide Normal; hide AsksOf;
    NormalAsks(schema, f, name, v);
    if Normal(f).Some? { NarrowAsks(Entry(bounds, name), Normal(f).value.1, Normal(f).value.2, v); }
  }

  // ---------------------------------------------------------------- parts

  /** A live part as the catalog records it, and the row groups its object holds. */
  datatype PartFile = PartFile(groups: seq<seq<Row>>, keyMin: int, keyMax: int,
                               stats: Option<map<string, Json>>, filter: Option<seq<bv8>>)

  function Field(p: PartFile, name: string): Option<Json> {
    if p.stats.Some? && name in p.stats.value then Some(p.stats.value[name]) else None
  }

  /** An integer under a name of a JSON object; SQL's `->>` of anything else is NULL. */
  function SubNum(j: Json, name: string): Option<int> {
    if j.JObj? && name in j.fields && j.fields[name].JNum? then Some(j.fields[name].n) else None
  }

  /** The two integers of a span entry, if that is what it is. */
  function SpanOf(j: Json): Option<(int, int)> {
    if j.JArr? && |j.items| >= 2 && j.items[0].JNum? && j.items[1].JNum? then Some((j.items[0].n, j.items[1].n)) else None
  }

  predicate WellFormedSpans(items: seq<Json>) {
    forall i :: 0 <= i < |items| ==> SpanOf(items[i]).Some?
  }

  /** What the index data may say of a part. Anything absent or malformed says nothing:
      the conditions bind only what can be read off an entry. */
  ghost predicate Sound(schema: seq<Column>, p: PartFile) {
    var rows := Flatten(p.groups);
    && RowsFit(schema, rows)
    && (forall r :: r in rows ==> p.keyMin <= r.key <= p.keyMax)
    && (forall name :: IntColumn(schema, name) && Field(p, name).Some? ==>
          ColumnSound(rows, ColumnOf(schema, name).value, Field(p, name).value))
    && BitmapSound(rows, Field(p, PACKING_KEYS_STAT))
    && SpansSound(p.groups, Field(p, KEY_ROW_GROUPS_STAT))
    && FilterSound(rows, p.filter)
  }

  predicate ColumnSound(rows: seq<Row>, i: nat, j: Json) {
    forall r :: r in rows && i < |r.cells| && r.cells[i].Int64? ==>
      && (SubNum(j, "min").Some? ==> SubNum(j, "min").value <= r.cells[i].v)
      && (SubNum(j, "max").Some? ==> r.cells[i].v <= SubNum(j, "max").value)
  }

  predicate BitmapSound(rows: seq<Row>, j: Option<Json>) {
    j.Some? && j.value.JStr? && j.value.blob.Keys? ==> forall r :: r in rows ==> r.key in j.value.blob.keys
  }

  predicate SpansSound(groups: seq<seq<Row>>, j: Option<Json>) {
    j.Some? && j.value.JArr? && j.value.items != [] && WellFormedSpans(j.value.items) ==>
      && |j.value.items| == |groups|
      && forall i, r :: 0 <= i < |groups| && r in groups[i] ==>
           SpanOf(j.value.items[i]).value.0 <= r.key <= SpanOf(j.value.items[i]).value.1
  }

  /** The generated SQL says "maybe" of every key the part holds. */
  ghost predicate FilterSound(rows: seq<Row>, filter: Option<seq<bv8>>) {
    forall r :: r in rows ==> FilterAnswer(filter, r.key) == Some(true)
  }

  function FilterAnswer(filter: Option<seq<bv8>>, key: int): Option<bool> {
    SqlAnswer([ArmOf(3, 0), ArmOf(3, 1), ArmOf(3, 2)], 3, SqlBinds(key), filter)
  }

  // ---------------------------------------------------------------- the catalog's query

  /** SQL's three truth values. */
  datatype Truth = Yes | No | Unknown

  function And(a: Truth, b: Truth): Truth {
    if a.No? || b.No? then No else if a.Yes? && b.Yes? then Yes else Unknown
  }

  function Or(a: Truth, b: Truth): Truth {
    if a.Yes? || b.Yes? then Yes else if a.No? && b.No? then No else Unknown
  }

  function Lit(b: bool): Truth {
    if b then Yes else No
  }

  /** `a <= b` over nullable integers. */
  function NullLe(a: Option<int>, b: Option<int>): Truth {
    if a.None? || b.None? then Unknown else Lit(a.value <= b.value)
  }

  /** The clause of one range bind. */
  function RangeClause(p: PartFile, name: string, b: (Option<int>, Option<int>)): Truth {
    var col := Field(p, name);
    Or(Lit(col.None?),
       And(Or(Lit(b.0.None?), NullLe(b.0, if col.None? then None else SubNum(col.value, "max"))),
           Or(Lit(b.1.None?), NullLe(if col.None? then None else SubNum(col.value, "min"), b.1))))
  }

  predicate CatalogKeeps(p: PartFile, slice: Option<int>, bounds: Bounds) {
    && (slice.Some? ==> p.keyMin <= slice.value <= p.keyMax && FilterAnswer(p.filter, slice.value) == Some(true))
    && forall name :: name in bounds ==> RangeClause(p, name, bounds[name]) == Yes
  }

  // ---------------------------------------------------------------- the provider

  /** The bitmap proves the key absent. */
  predicate PartExcludesKey(p: PartFile, key: int) {
    var j := Field(p, PACKING_KEYS_STAT);
    j.Some? && j.value.JStr? && BitmapContains(j.value.blob, key) == Some(false)
  }

  predicate SpanExcludes(j: Json, key: int) {
    SpanOf(j).Some? && !(SpanOf(j).value.0 <= key <= SpanOf(j).value.1)
  }

  /** The row groups a plan skips; no plan when the spans are absent or malformed, or
      when nothing would be skipped. */
  method AccessPlanFor(p: PartFile, key: int) returns (plan: Option<set<nat>>)
    ensures plan == PlanOf(p, key)
  {
    var j := Field(p, KEY_ROW_GROUPS_STAT);
    if j.None? || !j.value.JArr? || j.value.items == [] { return None; }
    var spans := j.value.items;
    var skipped: set<nat> := {};
    for i := 0 to |spans|
      invariant forall k :: 0 <= k < i ==> SpanOf(spans[k]).Some?
      invariant skipped == set k: nat | k < i && SpanExcludes(spans[k], key)
    {
      var span := SpanOf(spans[i]);
      if span.None? { return None; }
      if key < span.value.0 || key > span.value.1 { skipped := skipped + {i}; }
    }
    return if skipped != {} then Some(skipped) else None;
  }

  function Skips(spans: seq<Json>, key: int): set<nat> {
    set k: nat | k < |spans| && SpanExcludes(spans[k], key)
  }

  function PlanOf(p: PartFile, key: int): Option<set<nat>> {
    var j := Field(p, KEY_ROW_GROUPS_STAT);
    if j.None? || !j.value.JArr? || j.value.items == [] || !WellFormedSpans(j.value.items) then None
    else
      var skipped := Skips(j.value.items, key);
      if skipped == {} then None else Some(skipped)
  }

  /** A file to read, less the skipped row groups. */
  datatype ScanFile = ScanFile(part: PartFile, skipped: set<nat>)

  function FileOf(p: PartFile, slice: Option<int>): Option<ScanFile> {
    match slice
    case None => Some(ScanFile(p, {}))
    case Some(key) =>
      if PartExcludesKey(p, key) then None
      else
        match PlanOf(p, key)
        case None => Some(ScanFile(p, {}))
        case Some(skipped) =>
          if AllSkipped(Field(p, KEY_ROW_GROUPS_STAT).value.items, skipped) then None else Some(ScanFile(p, skipped))
  }

  predicate AllSkipped(spans: seq<Json>, skipped: set<nat>) {
    forall i :: 0 <= i < |spans| ==> i in skipped
  }

  function Plan(q: Query, bounds: Bounds, parts: seq<PartFile>): seq<ScanFile> {
    if parts == [] then []
    else
      var front, p := Plan(q, bounds, parts[..|parts| - 1]), parts[|parts| - 1];
      if CatalogKeeps(p, q.slice, bounds) && FileOf(p, q.slice).Some? then front + [FileOf(p, q.slice).value] else front
  }

  /** The file list of a scan over the live parts, in part order. */
  method Scan(q: Query, parts: seq<PartFile>) returns (files: seq<ScanFile>)
    ensures files == Plan(q, BoundsOf(q.schema, q.filters), parts)
  {
    hide CatalogKeeps; hide PlanOf; hide PartExcludesKey;
    var bounds := ExtractInt64Ranges(q.filters, q.schema);
    files := [];
    for i := 0 to |parts|
      invariant files == Plan(q, bounds, parts[..i])
    {
      assert parts[..i + 1][..i] == parts[..i];
      var p := parts[i];
      if !CatalogKeeps(p, q.slice, bounds) { continue; }
      if q.slice.None? {
        files := files + [ScanFile(p, {})];
        continue;
      }
      var key := q.slice.value;
      if PartExcludesKey(p, key) { continue; }
      var plan := AccessPlanFor(p, key);
      if plan.Some? {
        var none := AllSkipped(Field(p, KEY_ROW_GROUPS_STAT).value.items, plan.value) by { PlanHasSpans(p, key); }
        if !none { files := files + [ScanFile(p, plan.value)]; }
      } else {
        files := files + [ScanFile(p, {})];
      }
    }
    assert parts[..|parts|] == parts;
  }

  lemma PlanHasSpans(p: PartFile, key: int)
    requires PlanOf(p, key).Some?
    ensures Field(p, KEY_ROW_GROUPS_STAT).Some? && Field(p, KEY_ROW_GROUPS_STAT).value.JArr?
  {
  }

  // ---------------------------------------------------------------- answers

  function KeptGroups(groups: seq<seq<Row>>, skipped: set<nat>): seq<Row> {
    if groups == [] then []
    else KeptGroups(groups[..|groups| - 1], skipped) + (if |groups| - 1 in skipped then [] else groups[|groups| - 1])
  }

  function Answer(q: Query, files: seq<ScanFile>): seq<Row> {
    if files == [] then []
    else
      var f := files[|files| - 1];
      Answer(q, files[..|files| - 1]) + Select(q, KeptGroups(f.part.groups, f.skipped))
  }

  /** Filtering every row of every live part. */
  function FullAnswer(q: Query, parts: seq<PartFile>): seq<Row> {
    if parts == [] then []
    else FullAnswer(q, parts[..|parts| - 1]) + Select(q, Flatten(parts[|parts| - 1].groups))
  }

  /** The entry carries the integers the bounds are compared with. */
  predicate Carries(j: Json, b: (Option<int>, Option<int>)) {
    (b.0.Some? ==> SubNum(j, "max").Some?) && (b.1.Some? ==> SubNum(j, "min").Some?)
  }

  /** Every bounded column's entry is absent or carries what its bounds need. */
  predicate Readable(p: PartFile, bounds: Bounds) {
    forall name :: name in bounds && Field(p, name).Some? ==> Carries(Field(p, name).value, bounds[name])
  }

  lemma ClauseHolds(q: Query, p: PartFile, r: Row, bounds: Bounds, name: string)
    requires Sound(q.schema, p) && r in Flatten(p.groups) && Admits(q.schema, bounds, r) && name in bounds
    requires Field(p, name).Some? ==> Carries(Field(p, name).value, bounds[name])
    ensures RangeClause(p, name, bounds[name]) == Yes
  {
    if Bounded(bounds[name]) && Field(p, name).Some? {
      assert ColumnSound(Flatten(p.groups), ColumnOf(q.schema, name).value, Field(p, name).value);
    }
  }

  /** An entry that lacks a needed integer — empty, null, or not an object — makes the
      range clause NULL, and the part is dropped whatever it holds. */
  lemma UnreadableEntryDropsPart(p: PartFile, slice: Option<int>, bounds: Bounds, name: string)
    requires name in bounds && Field(p, name).Some? && !Carries(Field(p, name).value, bounds[name])
    ensures RangeClause(p, name, bounds[name]) != Yes && !CatalogKeeps(p, slice, bounds)
  {
  }

  /** A part that holds an answer is kept by the catalog query if and only if every
      bounded column's entry is absent or carries the integers its bounds need. */
  lemma CatalogKeepsAnswers(q: Query, p: PartFile, r: Row)
    requires Sound(q.schema, p) && r in Flatten(p.groups) && Wanted(q, r) && LiteralsFit(q.filters)
    ensures var bounds := BoundsOf(q.schema, q.filters); CatalogKeeps(p, q.slice, bounds) <==> Readable(p, bounds)
  {
    var bounds := BoundsOf(q.schema, q.filters);
    if Readable(p, bounds) {
      RowFitsHere(q.schema, Flatten(p.groups), r);
      AnswersAreAdmitted(q, q.filters, r);
      forall name | name in bounds ensures RangeClause(p, name, bounds[name]) == Yes { ClauseHolds(q, p, r, bounds, name); }
    } else {
      var name :| name in bounds && Field(p, name).Some? && !Carries(Field(p, name).value, bounds[name]);
      UnreadableEntryDropsPart(p, q.slice, bounds, name);
    }
  }

  lemma RowFitsHere(schema: seq<Column>, rows: seq<Row>, r: Row)
    requires RowsFit(schema, rows) && r in rows
    ensures RowFits(schema, r)
  {
    hide RowFits;
    var k :| 0 <= k < |rows| && rows[k] == r;
  }

  /** The provider keeps every file, and every row group, that holds a row of the key. */
  lemma ProviderKeepsKey(schema: seq<Column>, p: PartFile, r: Row)
    requires Sound(schema, p) && r in Flatten(p.groups)
    ensures FileOf(p, Some(r.key)).Some?
    ensures forall i :: 0 <= i < |p.groups| && r in p.groups[i] ==> i !in FileOf(p, Some(r.key)).value.skipped
  {
    hide FilterSound; hide ColumnSound; hide RowsFit;
    FlattenMembers(p.groups, r);
    var i, k :| 0 <= i < |p.groups| && 0 <= k < |p.groups[i]| && p.groups[i][k] == r;
    var plan := PlanOf(p, r.key);
    if plan.Some? {
      var spans := Field(p, KEY_ROW_GROUPS_STAT).value.items;
      assert SpansSound(p.groups, Field(p, KEY_ROW_GROUPS_STAT));
      assert !SpanExcludes(spans[i], r.key);
      assert i !in plan.value;
      assert !AllSkipped(spans, plan.value);
    }
    assert BitmapSound(Flatten(p.groups), Field(p, PACKING_KEYS_STAT));
    assert !PartExcludesKey(p, r.key);
  }

  lemma {:induction false} SkippedGroupsMatterNot(q: Query, groups: seq<seq<Row>>, skipped: set<nat>)
    requires forall i, r :: 0 <= i < |groups| && i in skipped && r in groups[i] ==> !Wanted(q, r)
    ensures Select(q, KeptGroups(groups, skipped)) == Select(q, Flatten(groups))
  {
    hide Wanted;
    if groups != [] {
      var front, g := groups[..|groups| - 1], groups[|groups| - 1];
      SkippedGroupsMatterNot(q, front, skipped);
      assert groups == front + [g];
      FlattenPush(front, g);
      SelectAppend(q, Flatten(front), g);
      SelectAppend(q, KeptGroups(front, skipped), if |groups| - 1 in skipped then [] else g);
      if |groups| - 1 in skipped { SelectNothing(q, g); }
    }
  }

  lemma NothingSkipped(q: Query, groups: seq<seq<Row>>)
    ensures Select(q, KeptGroups(groups, {})) == Select(q, Flatten(groups))
  {
    SkippedGroupsMatterNot(q, groups, {});
  }

  /** The part holds a row the query wants. */
  ghost predicate Holds(q: Query, p: PartFile) {
    exists r :: r in Flatten(p.groups) && Wanted(q, r)
  }

  /** What the scan makes of one part. */
  function PartAnswer(q: Query, bounds: Bounds, p: PartFile): seq<Row> {
    if CatalogKeeps(p, q.slice, bounds) && FileOf(p, q.slice).Some?
    then var f := FileOf(p, q.slice).value; Select(q, KeptGroups(f.part.groups, f.skipped))
    else []
  }

  /** The provider's own pruning changes no answer of a part the catalog keeps. */
  lemma ProviderIsExact(q: Query, p: PartFile)
    requires Sound(q.schema, p)
    ensures FileOf(p, q.slice).Some? ==>
              var f := FileOf(p, q.slice).value; Select(q, KeptGroups(f.part.groups, f.skipped)) == Select(q, Flatten(p.groups))
    ensures FileOf(p, q.slice).None? ==> Select(q, Flatten(p.groups)) == []
  {
    if q.slice.None? {
      NothingSkipped(q, p.groups);
    } else if FileOf(p, q.slice).None? {
      forall r | r in Flatten(p.groups) ensures !Wanted(q, r) { if Wanted(q, r) { ProviderKeepsKey(q.schema, p, r); } }
      SelectNothing(q, Flatten(p.groups));
    } else {
      var f := FileOf(p, q.slice).value;
      forall i, r | 0 <= i < |p.groups| && i in f.skipped && r in p.groups[i] ensures !Wanted(q, r) {
        if r.key == q.slice.value { FlattenHolds(p.groups, i, r); ProviderKeepsKey(q.schema, p, r); }
      }
      SkippedGroupsMatterNot(q, p.groups, f.skipped);
    }
  }

  /** One part's answer is whole exactly when the part is readable or holds none. */
  lemma PartIsExact(q: Query, p: PartFile)
    requires Sound(q.schema, p) && LiteralsFit(q.filters)
    ensures var bounds := BoundsOf(q.schema, q.filters);
            if Holds(q, p) ==> Readable(p, bounds) then PartAnswer(q, bounds, p) == Select(q, Flatten(p.groups))
            else PartAnswer(q, bounds, p) == [] && Select(q, Flatten(p.groups)) != []
  {
    ProviderIsExact(q, p);
    if Holds(q, p) {
      var r :| r in Flatten(p.groups) && Wanted(q, r);
      CatalogKeepsAnswers(q, p, r);
      SelectHolds(q, Flatten(p.groups), r);
    } else {
      SelectNothing(q, Flatten(p.groups));
    }
  }

  lemma {:induction false} SelectHolds(q: Query, rows: seq<Row>, r: Row)
    requires r in rows && Wanted(q, r)
    ensures r in Select(q, rows)
  {
    if rows[0] != r { SelectHolds(q, rows[1..], r); }
  }

  lemma PlanStep(q: Query, bounds: Bounds, parts: seq<PartFile>)
    requires parts != []
    ensures var n := |parts| - 1;
            Answer(q, Plan(q, bounds, parts)) == Answer(q, Plan(q, bounds, parts[..n])) + PartAnswer(q, bounds, parts[n])
  {
    var front, p := Plan(q, bounds, parts[..|parts| - 1]), parts[|parts| - 1];
    if CatalogKeeps(p, q.slice, bounds) && FileOf(p, q.slice).Some? {
      var file := FileOf(p, q.slice).value;
      assert (front + [file])[..|front|] == front;
    }
  }

  ghost predicate AllSound(q: Query, parts: seq<PartFile>) {
    LiteralsFit(q.filters) && forall i :: 0 <= i < |parts| ==> SoundPart(q.schema, parts[i])
  }

  ghost predicate SoundPart(schema: seq<Column>, p: PartFile) {
    Sound(schema, p)
  }

  /** A pruned scan never answers more, row for row, than a full one. */
  lemma {:induction false} PrunedIsShorter(q: Query, parts: seq<PartFile>)
    requires AllSound(q, parts)
    ensures |Answer(q, Plan(q, BoundsOf(q.schema, q.filters), parts))| <= |FullAnswer(q, parts)|
  {
    if parts != [] {
      PrunedIsShorter(q, parts[..|parts| - 1]);
      PlanStep(q, BoundsOf(q.schema, q.filters), parts);
      PartIsExact(q, parts[|parts| - 1]);
    } else {
      NoParts(q, BoundsOf(q.schema, q.filters));
    }
  }

  lemma NoParts(q: Query, bounds: Bounds)
    ensures Answer(q, Plan(q, bounds, [])) == []
  {
  }

  /** Leaving out parts and row groups changes no answer if and only if, in every part
      that holds one, each bounded column's entry is absent or carries the integers its
      bounds need. Key range, key filter, bitmap and spans never matter, missing, malformed
      or not. */
  lemma {:induction false} PrunedEqualsFullIff(q: Query, parts: seq<PartFile>)
    requires AllSound(q, parts)
    ensures Answer(q, Plan(q, BoundsOf(q.schema, q.filters), parts)) == FullAnswer(q, parts)
            <==> forall i :: 0 <= i < |parts| && Holds(q, parts[i]) ==> Readable(parts[i], BoundsOf(q.schema, q.filters))
  {
    hide Answer; hide Plan; hide PartAnswer; hide Select; hide Readable;
    var bounds := BoundsOf(q.schema, q.filters);
    if parts == [] {
      NoParts(q, bounds);
    } else {
      var n := |parts| - 1;
      var front := parts[..n];
      PrunedEqualsFullIff(q, front);
      PrunedIsShorter(q, front);
      PlanStep(q, bounds, parts);
      PartIsExact(q, parts[n]);
      assert forall i :: 0 <= i < n ==> front[i] == parts[i];
      SplitEqual(Answer(q, Plan(q, bounds, front)), PartAnswer(q, bounds, parts[n]), FullAnswer(q, front), Select(q, Flatten(parts[n].groups)));
    }
  }

  lemma SplitEqual<T>(a: seq<T>, b: seq<T>, c: seq<T>, d: seq<T>)
    requires |a| <= |c| && (b == d || (b == [] && d != []))
    ensures a + b == c + d <==> a == c && b == d
  {
    if a + b == c + d {
      assert |a| + |b| == |c| + |d|;
      assert a == (a + b)[..|a|] && c == (c + d)[..|c|];
    }
  }

  /** Sound index data that carries what the bounds need never changes an answer. */
  lemma PrunedEqualsFull(q: Query, parts: seq<PartFile>)
    requires AllSound(q, parts) && forall i :: 0 <= i < |parts| ==> Readable(parts[i], BoundsOf(q.schema, q.filters))
    ensures Answer(q, Plan(q, BoundsOf(q.schema, q.filters), parts)) == FullAnswer(q, parts)
  {
    PrunedEqualsFullIff(q, parts);
  }

  // ---------------------------------------------------------------- what is left out

  /** The filter's clause is false exactly over a known blob that lacks a bit of the key. */
  lemma FilterMeans(filter: Option<seq<bv8>>, key: int)
    ensures FilterAnswer(filter, key) == Some(filter.None? || !KnownBlob(filter.value) || forall i :: 0 <= i < PROBES ==> ProbeSet(filter.value, key, i))
  {
    SqlMeans(3, [ArmOf(3, 0), ArmOf(3, 1), ArmOf(3, 2)], filter, key);
  }

  /** The catalog query keeps a part exactly when the slice's key is in its range and its
      filter does not deny it, and every bounded column's entry is absent or carries the
      bounds' integers and overlaps them. */
  lemma CatalogKeepsMeans(p: PartFile, slice: Option<int>, bounds: Bounds)
    ensures CatalogKeeps(p, slice, bounds) <==>
            && (slice.Some? ==> p.keyMin <= slice.value <= p.keyMax && FilterAnswer(p.filter, slice.value) == Some(true))
            && (forall name :: name in bounds && Field(p, name).Some? ==>
                  && Carries(Field(p, name).value, bounds[name])
                  && (bounds[name].0.Some? ==> bounds[name].0.value <= SubNum(Field(p, name).value, "max").value)
                  && (bounds[name].1.Some? ==> SubNum(Field(p, name).value, "min").value <= bounds[name].1.value))
  {
    hide FilterAnswer;
  }

  /** The span entries of a part, if they are there and every one is a span. */
  function Spans(p: PartFile): Option<seq<(int, int)>> {
    var j := Field(p, KEY_ROW_GROUPS_STAT);
    if j.Some? && j.value.JArr? && j.value.items != [] && WellFormedSpans(j.value.items)
    then Some(seq(|j.value.items|, i requires 0 <= i < |j.value.items| && SpanOf(j.value.items[i]).Some? => SpanOf(j.value.items[i]).value))
    else None
  }

  predicate OutsideSpan(span: (int, int), key: int) {
    key < span.0 || span.1 < key
  }

  /** With well-formed spans the plan leaves out exactly the groups whose span excludes the
      key, and there is none when no span does or the spans are not well formed. */
  lemma PlanMeans(p: PartFile, key: int)
    ensures PlanOf(p, key).Some? <==> Spans(p).Some? && exists i :: 0 <= i < |Spans(p).value| && OutsideSpan(Spans(p).value[i], key)
    ensures PlanOf(p, key).Some? ==>
              forall i: nat :: i in PlanOf(p, key).value <==> i < |Spans(p).value| && OutsideSpan(Spans(p).value[i], key)
  {
    var j := Field(p, KEY_ROW_GROUPS_STAT);
    if j.Some? && j.value.JArr? && j.value.items != [] && WellFormedSpans(j.value.items) {
      var spans := j.value.items;
      assert forall i :: 0 <= i < |spans| ==> Spans(p).value[i] == SpanOf(spans[i]).value;
      assert forall i: nat :: i in Skips(spans, key) <==> i < |spans| && OutsideSpan(Spans(p).value[i], key);
      if i :| 0 <= i < |spans| && OutsideSpan(Spans(p).value[i], key) { assert i in Skips(spans, key); }
    }
  }

  /** The part's decodable key set, if it has one, lacks the key. */
  predicate SetLacks(p: PartFile, key: int) {
    var j := Field(p, PACKING_KEYS_STAT);
    key >= 0 && j.Some? && j.value.JStr? && j.value.blob.Keys? && key !in j.value.blob.keys
  }

  /** In a slice a file is left out exactly when its key set lacks the key or all its spans
      exclude it; a file that is read skips exactly the groups whose span does. Without a
      slice nothing is left out. */
  lemma FileMeans(p: PartFile, slice: Option<int>)
    ensures FileOf(p, slice).None? <==>
            slice.Some? && (SetLacks(p, slice.value)
                            || (Spans(p).Some? && forall i :: 0 <= i < |Spans(p).value| ==> OutsideSpan(Spans(p).value[i], slice.value)))
    ensures FileOf(p, slice).Some? ==>
              var f := FileOf(p, slice).value;
              && f.part == p
              && forall i: nat :: i in f.skipped <==>
                   slice.Some? && Spans(p).Some? && i < |Spans(p).value| && OutsideSpan(Spans(p).value[i], slice.value)
  {
    if slice.Some? {
      PlanMeans(p, slice.value);
      hide PlanOf; hide OutsideSpan;
      if Spans(p).Some? {
        assert Spans(p).value != [] && |Field(p, KEY_ROW_GROUPS_STAT).value.items| == |Spans(p).value|;
        var one := OutsideSpan(Spans(p).value[0], slice.value);
      }
    }
  }

  /** The file list has one entry for each part kept by both, in the parts' order. */
  lemma {:induction false} PlanLists(q: Query, bounds: Bounds, parts: seq<PartFile>)
    ensures forall i :: 0 <= i < |Plan(q, bounds, parts)| ==> Plan(q, bounds, parts)[i].part in parts
    ensures forall p :: p in parts ==>
              (CatalogKeeps(p, q.slice, bounds) && FileOf(p, q.slice).Some? <==> exists f :: f in Plan(q, bounds, parts) && f.part == p)
    ensures forall f :: f in Plan(q, bounds, parts) ==> Some(f) == FileOf(f.part, q.slice)
  {
    hide CatalogKeeps; hide FileOf;
    if parts != [] {
      var n := |parts| - 1;
      var front, p := parts[..n], parts[n];
      PlanLists(q, bounds, front);
      FileIsOf(p, q.slice);
      assert parts == front + [p];
      forall x | x in parts
        ensures CatalogKeeps(x, q.slice, bounds) && FileOf(x, q.slice).Some? <==> exists f :: f in Plan(q, bounds, parts) && f.part == x
      {
        if CatalogKeeps(x, q.slice, bounds) && FileOf(x, q.slice).Some? {
          FileIsOf(x, q.slice);
          if x in front {
            var f :| f in Plan(q, bounds, front) && f.part == x;
            assert f in Plan(q, bounds, parts);
          } else {
            assert FileOf(x, q.slice).value in Plan(q, bounds, parts);
          }
        }
      }
    }
  }

  lemma FileIsOf(p: PartFile, slice: Option<int>)
    ensures FileOf(p, slice).Some? ==> FileOf(p, slice).value.part == p
  {
    hide PlanOf; hide PartExcludesKey; hide AllSkipped;
  }

  // ---------------------------------------------------------------- malformed entries

  const Cut := Compare("x", GtEq, 0)

  /** A part whose entry for column `x` is an empty object. */
  const Bare := PartFile([[Row(0, 0, [Int64(5)])]], 0, 0, Some(map["x" := JObj(map[])]), None)

  lemma BareQuery(other: (Filter, Row) -> bool)
    ensures var q := Query([Column("x", true)], None, [Cut], other);
            BoundsOf(q.schema, q.filters) == map["x" := (Some(0), None)] && LiteralsFit(q.filters)
            && Wanted(q, Row(0, 0, [Int64(5)])) && SoundPart(q.schema, Bare)
  {
    var q := Query([Column("x", true)], None, [Cut], other);
    assert [Cut][..0] == [];
    assert IntColumn(q.schema, "x") && ColumnOf(q.schema, "x") == Some(0);
    assert BoundsOf(q.schema, []) == map[];
    assert Flatten(Bare.groups) == Bare.groups[0] + Flatten(Bare.groups[1..]);
  }

  /** A malformed column entry does cause a wrongful skip: an empty object under the name
      of a bounded column loses the row the filter asks for. */
  lemma EmptyEntryLosesRows(other: (Filter, Row) -> bool)
    ensures var q := Query([Column("x", true)], None, [Cut], other);
            AllSound(q, [Bare]) && Answer(q, Plan(q, BoundsOf(q.schema, q.filters), [Bare])) != FullAnswer(q, [Bare])
  {
    hide Sound;
    var q := Query([Column("x", true)], None, [Cut], other);
    BareQuery(other);
    PrunedEqualsFullIff(q, [Bare]);
    assert Flatten(Bare.groups) == Bare.groups[0] + Flatten(Bare.groups[1..]);
    assert Row(0, 0, [Int64(5)]) in Flatten(Bare.groups);
    assert Holds(q, [Bare][0]);
    assert !Carries(Field(Bare, "x").value, (Some(0), None));
  }
}
