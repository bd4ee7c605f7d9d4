/**
 * The read side of src/services/vercel-postgres.ts: the `getPhotos` query
 * builder, what the statement it builds selects, the neighbour window of
 * `getPhotosNearId`, and the count helpers.
 *
 * The builder has two readings. Syntactically it produces SQL clauses (a
 * clause is a sequence of literal text and `$k` placeholders) and the list
 * of bound values. Semantically the statement filters the table by a list
 * of conditions, sorts it, and cuts a page out of it. `ReadStatement` reads
 * the clauses back into that plan, and the builder is proved to produce text
 * that reads back as exactly the plan its options call for.
 */
module CatalogQuery {
  import opened Js
  import opened PhotoRecords
  import opened CatalogTable
  import SiteConfig

  const PhotoDefaultLimit: nat := 100

  // ---- options ----

  datatype SortBy = CreatedAt | TakenAt | Priority

  datatype Camera = Camera(make: string, model: string)

  /** `GetPhotosOptions`: every field may be left out. Negative limits and offsets are not represented. */
  datatype GetPhotosOptions = GetPhotosOptions(
    sortBy: Option<SortBy>,
    limit: Option<nat>,
    offset: Option<nat>,
    tag: Option<string>,
    camera: Option<Camera>,
    simulation: Option<string>,
    takenBefore: Option<Instant>,
    takenAfterInclusive: Option<Instant>,
    includeHidden: Option<bool>)

  const NoOptions: GetPhotosOptions :=
    GetPhotosOptions(None, None, None, None, None, None, None, None, None)

  /** The default order: by priority when priority ordering is enabled, otherwise by capture time. */
  function DefaultSortBy(priorityOrderEnabled: bool): SortBy {
    if priorityOrderEnabled then Priority else TakenAt
  }

  /** The default order follows the `NEXT_PUBLIC_IGNORE_PRIORITY_ORDER` switch of the site configuration. */
  lemma DefaultSortFollowsConfig(env: SiteConfig.Env)
    ensures DefaultSortBy(SiteConfig.PriorityOrderEnabled(env)) ==
      if SiteConfig.Var(env, "NEXT_PUBLIC_IGNORE_PRIORITY_ORDER") == "1" then TakenAt else Priority
  {
  }

  function SortFor(options: GetPhotosOptions, priorityOrderEnabled: bool): SortBy {
    options.sortBy.GetOr(DefaultSortBy(priorityOrderEnabled))
  }

  function LimitFor(options: GetPhotosOptions): nat {
    options.limit.GetOr(PhotoDefaultLimit)
  }

  function OffsetFor(options: GetPhotosOptions): nat {
    options.offset.GetOr(0)
  }

  /** `!includeHidden` is false only for an explicit `true`. */
  predicate IncludeHidden(options: GetPhotosOptions) {
    options.includeHidden == Some(true)
  }

  /** `if (tag)`: an empty tag is no filter. */
  predicate TagGiven(options: GetPhotosOptions) {
    options.tag.Some? && options.tag.value != ""
  }

  /** `if (simulation)`: an empty simulation is no filter. */
  predicate SimulationGiven(options: GetPhotosOptions) {
    options.simulation.Some? && options.simulation.value != ""
  }

  // ---- statement text ----

  /**
   * The fixed pieces of SQL text the builder emits. Every option value
   * reaches the statement as a bound value behind a placeholder; the text
   * itself is made of these pieces only, by construction.
   */
  datatype Keyword =
    | SelectAll | Where | And
    | HiddenIsNotTrue | TakenAtAbove | TakenAtUpTo | AnyTags | LowerMakeIs | LowerModelIs | FilmSimulationIs
    | OrderByCreatedAt | OrderByTakenAt | OrderByPriority
    | Limit | Offset

  function KeywordText(k: Keyword): string {
    match k
    case SelectAll => "SELECT * FROM photos"
    case Where => "WHERE "
    case And => " AND "
    case HiddenIsNotTrue => "hidden IS NOT TRUE"
    case TakenAtAbove => "taken_at > "
    case TakenAtUpTo => "taken_at <= "
    case AnyTags => "=ANY(tags)"
    case LowerMakeIs => "LOWER(make)="
    case LowerModelIs => "LOWER(REPLACE(model, ' ', '-'))="
    case FilmSimulationIs => "film_simulation="
    case OrderByCreatedAt => "ORDER BY created_at DESC"
    case OrderByTakenAt => "ORDER BY taken_at DESC"
    case OrderByPriority => "ORDER BY priority_order ASC, taken_at DESC"
    case Limit => "LIMIT "
    case Offset => " OFFSET "
  }

  /** A piece of statement text: fixed SQL, or the placeholder `$index`. */
  datatype Token = Sql(keyword: Keyword) | Param(index: nat)

  /** One element of the `sql` array (or of `wheres`). */
  type Clause = seq<Token>

  /** A bound value: `string | number`; a `Date` is bound through `toISOString()`, kept here as the instant. */
  datatype Value = Text(s: string) | Number(n: int) | Timestamp(t: Instant)

  const AndSep: Token := Sql(And)

  function Flatten(sql: seq<Clause>): seq<Token> {
    if sql == [] then [] else sql[0] + Flatten(sql[1..])
  }

  /** The placeholder numbers, in the order they occur in the text. */
  function Params(ts: seq<Token>): seq<nat> {
    if ts == [] then [] else (if ts[0].Param? then [ts[0].index] else []) + Params(ts[1..])
  }

  /** `[1, 2, ..., n]`. */
  function Seq1To(n: nat): seq<nat> {
    seq(n, i => i + 1)
  }

  lemma {:induction false} ParamsAppend(a: seq<Token>, b: seq<Token>)
    ensures Params(a + b) == Params(a) + Params(b)
  {
    if a == [] {
      assert a + b == b;
    } else {
      var head := if a[0].Param? then [a[0].index] else [];
      assert (a + b)[0] == a[0];
      assert (a + b)[1..] == a[1..] + b;
      ParamsAppend(a[1..], b);
      assert Params(a + b) == head + Params(a[1..] + b);
      assert Params(a) == head + Params(a[1..]);
    }
  }

  lemma {:induction false} FlattenAppend(cs: seq<Clause>, c: Clause)
    ensures Flatten(cs + [c]) == Flatten(cs) + c
  {
    if cs == [] {
      assert Flatten([c]) == c + Flatten([]);
    } else {
      assert (cs + [c])[1..] == cs[1..] + [c];
      FlattenAppend(cs[1..], c);
    }
  }

  /** Joining clauses with a literal separator adds no placeholder. */
  lemma {:induction false} ParamsJoin(cs: seq<Clause>, sep: Token)
    requires sep.Sql?
    ensures Params(Join(cs, [sep])) == Params(Flatten(cs))
  {
    if |cs| == 1 {
      assert Flatten(cs) == cs[0] + Flatten([]);
      assert cs[0] + [] == cs[0];
    } else if |cs| > 1 {
      ParamsJoin(cs[1..], sep);
      ParamsAppend(cs[0] + [sep], Join(cs[1..], [sep]));
      ParamsAppend(cs[0], [sep]);
      ParamsAppend(cs[0], Flatten(cs[1..]));
      assert Params([sep]) == [];
    }
  }

  // ---- conditions: what a WHERE predicate means for a row ----

  datatype Cond =
    | HiddenNotTrue
    | TakenAfter(after: Instant)
    | TakenAtOrBefore(upTo: Instant)
    | HasTag(tag: string)
    | MakeIs(make: string)
    | ModelIs(model: string)
    | SimulationIs(simulation: string)

  /** The SQL meaning of one predicate on one row (LOWER is taken on ASCII letters). */
  predicate Holds(c: Cond, row: Row) {
    match c
    case HiddenNotTrue => row.cols.hidden != Some(true)
    case TakenAfter(t) => row.cols.takenAt > t
    case TakenAtOrBefore(t) => row.cols.takenAt <= t
    case HasTag(tag) => tag in row.cols.tags
    case MakeIs(s) => row.cols.make.Some? && Lower(row.cols.make.value) == s
    case ModelIs(s) => row.cols.model.Some? && Lower(ReplaceChar(row.cols.model.value, ' ', '-')) == s
    case SimulationIs(s) => row.cols.filmSimulation == Some(s)
  }

  /** Predicates joined by AND. */
  predicate AllHold(conds: seq<Cond>, row: Row) {
    forall i :: 0 <= i < |conds| ==> Holds(conds[i], row)
  }

  lemma AllHoldAppend(a: seq<Cond>, b: seq<Cond>, row: Row)
    ensures AllHold(a + b, row) <==> AllHold(a, row) && AllHold(b, row)
  {
    if AllHold(a, row) && AllHold(b, row) {
      forall i | 0 <= i < |a + b| ensures Holds((a + b)[i], row) {
        if i >= |a| { assert (a + b)[i] == b[i - |a|]; }
      }
    }
    if AllHold(a + b, row) {
      forall i | 0 <= i < |a| ensures Holds(a[i], row) {
        assert (a + b)[i] == a[i];
      }
      forall i | 0 <= i < |b| ensures Holds(b[i], row) {
        assert (a + b)[|a| + i] == b[i];
      }
    }
  }

  /** `cs` when `given`, nothing otherwise: one `if` of the builder. */
  function Given(given: bool, cs: seq<Cond>): seq<Cond> {
    if given then cs else []
  }

  function CameraConds(camera: Camera, parameterize: string -> string): seq<Cond> {
    [MakeIs(parameterize(camera.make)), ModelIs(parameterize(camera.model))]
  }

  /** The conditions the options call for, in the order the source pushes them. */
  function CondsFor(options: GetPhotosOptions, parameterize: string -> string): seq<Cond> {
    Given(!IncludeHidden(options), [HiddenNotTrue])
    + Given(options.takenBefore.Some?, [TakenAfter(options.takenBefore.GetOr(0))])
    + Given(options.takenAfterInclusive.Some?, [TakenAtOrBefore(options.takenAfterInclusive.GetOr(0))])
    + Given(TagGiven(options), [HasTag(options.tag.GetOr(""))])
    + Given(options.camera.Some?, CameraConds(options.camera.GetOr(Camera("", "")), parameterize))
    + Given(SimulationGiven(options), [SimulationIs(options.simulation.GetOr(""))])
  }

  /** The camera predicates: make and model, compared after `LOWER` (and, for the model, spaces to dashes). */
  predicate CameraMatches(camera: Camera, row: Row, parameterize: string -> string) {
    && row.cols.make.Some? && Lower(row.cols.make.value) == parameterize(camera.make)
    && row.cols.model.Some? && Lower(ReplaceChar(row.cols.model.value, ' ', '-')) == parameterize(camera.model)
  }

  /**
   * What a row must satisfy to be listed, stated option by option. Note the
   * directions: `takenBefore` keeps rows taken strictly AFTER the instant,
   * `takenAfterInclusive` keeps rows taken at or BEFORE it.
   */
  predicate Matches(options: GetPhotosOptions, row: Row, parameterize: string -> string) {
    && (!IncludeHidden(options) ==> row.cols.hidden != Some(true))
    && (options.takenBefore.Some? ==> row.cols.takenAt > options.takenBefore.value)
    && (options.takenAfterInclusive.Some? ==> row.cols.takenAt <= options.takenAfterInclusive.value)
    && (TagGiven(options) ==> options.tag.value in row.cols.tags)
    && (options.camera.Some? ==> CameraMatches(options.camera.value, row, parameterize))
    && (SimulationGiven(options) ==> row.cols.filmSimulation == Some(options.simulation.value))
  }

  lemma AllHoldGiven(given: bool, cs: seq<Cond>, row: Row)
    ensures AllHold(Given(given, cs), row) <==> (given ==> AllHold(cs, row))
  {
  }

  /** One optional predicate holds when it is not given or the row satisfies it. */
  lemma AllHoldGivenOne(given: bool, c: Cond, row: Row)
    ensures AllHold(Given(given, [c]), row) <==> (given ==> Holds(c, row))
  {
    assert [c][0] == c;
  }

  lemma AllHoldCamera(camera: Camera, row: Row, parameterize: string -> string)
    ensures AllHold(CameraConds(camera, parameterize), row) <==> CameraMatches(camera, row, parameterize)
  {
    var cs := CameraConds(camera, parameterize);
    assert AllHold(cs, row) <==> Holds(cs[0], row) && Holds(cs[1], row);
  }

  /** Six groups of predicates joined by AND hold when each group does. */
  lemma AllHoldSix(h: seq<Cond>, b: seq<Cond>, a: seq<Cond>, t: seq<Cond>, c: seq<Cond>, s: seq<Cond>, row: Row)
    ensures AllHold(h + b + a + t + c + s, row) <==>
      AllHold(h, row) && AllHold(b, row) && AllHold(a, row) && AllHold(t, row) && AllHold(c, row) && AllHold(s, row)
  {
    AllHoldAppend(h + b + a + t + c, s, row);
    AllHoldAppend(h + b + a + t, c, row);
    AllHoldAppend(h + b + a, t, row);
    AllHoldAppend(h + b, a, row);
    AllHoldAppend(h, b, row);
  }

  /** The conjunction of the emitted predicates is exactly the option-by-option filter. */
  lemma CondsForMeaning(options: GetPhotosOptions, row: Row, parameterize: string -> string)
    ensures AllHold(CondsFor(options, parameterize), row) <==> Matches(options, row, parameterize)
  {
    var camera := options.camera.GetOr(Camera("", ""));
    AllHoldSix(Given(!IncludeHidden(options), [HiddenNotTrue]),
               Given(options.takenBefore.Some?, [TakenAfter(options.takenBefore.GetOr(0))]),
               Given(options.takenAfterInclusive.Some?, [TakenAtOrBefore(options.takenAfterInclusive.GetOr(0))]),
               Given(TagGiven(options), [HasTag(options.tag.GetOr(""))]),
               Given(options.camera.Some?, CameraConds(camera, parameterize)),
               Given(SimulationGiven(options), [SimulationIs(options.simulation.GetOr(""))]), row);
    AllHoldGivenOne(!IncludeHidden(options), HiddenNotTrue, row);
    AllHoldGivenOne(options.takenBefore.Some?, TakenAfter(options.takenBefore.GetOr(0)), row);
    AllHoldGivenOne(options.takenAfterInclusive.Some?, TakenAtOrBefore(options.takenAfterInclusive.GetOr(0)), row);
    AllHoldGivenOne(TagGiven(options), HasTag(options.tag.GetOr("")), row);
    AllHoldGiven(options.camera.Some?, CameraConds(camera, parameterize), row);
    AllHoldCamera(camera, row, parameterize);
    AllHoldGivenOne(SimulationGiven(options), SimulationIs(options.simulation.GetOr("")), row);
  }

  /** The hidden filter is present exactly when hidden rows are not asked for. */
  lemma HiddenFilterIffNotIncluded(options: GetPhotosOptions, parameterize: string -> string)
    ensures HiddenNotTrue in CondsFor(options, parameterize) <==> !IncludeHidden(options)
  {
    var conds := CondsFor(options, parameterize);
    if !IncludeHidden(options) {
      assert conds[0] == HiddenNotTrue;
    } else {
      assert forall i :: 0 <= i < |conds| ==> conds[i] != HiddenNotTrue;
    }
  }

  // ---- reading the statement back ----

  /** The meaning of a statement: keep rows satisfying `conds`, sort by `order`, skip `offset`, take `limit`. */
  datatype Plan = Plan(conds: seq<Cond>, order: SortBy, limit: nat, offset: nat)

  /** The plan the options call for: the semantic reading of `getPhotos`. */
  function PlanFor(options: GetPhotosOptions, priorityOrderEnabled: bool, parameterize: string -> string): Plan {
    Plan(CondsFor(options, parameterize), SortFor(options, priorityOrderEnabled), LimitFor(options), OffsetFor(options))
  }

  /** The value bound to `$k`, if there is one. */
  function Bound(values: seq<Value>, k: nat): Option<Value> {
    if 1 <= k <= |values| then Some(values[k - 1]) else None
  }

  /** Reads one predicate clause of the shapes the builder emits. */
  function ReadCond(c: Clause, values: seq<Value>): Option<Cond> {
    if c == [Sql(HiddenIsNotTrue)] then Some(HiddenNotTrue)
    else if |c| == 2 && c[0].Param? && c[1] == Sql(AnyTags) then
      match Bound(values, c[0].index)
      case Some(Text(s)) => Some(HasTag(s))
      case _ => None
    else if |c| == 2 && c[0].Sql? && c[1].Param? then
      match Bound(values, c[1].index)
      case Some(Timestamp(t)) =>
        (match c[0].keyword
         case TakenAtAbove => Some(TakenAfter(t))
         case TakenAtUpTo => Some(TakenAtOrBefore(t))
         case _ => None)
      case Some(Text(s)) =>
        (match c[0].keyword
         case LowerMakeIs => Some(MakeIs(s))
         case LowerModelIs => Some(ModelIs(s))
         case FilmSimulationIs => Some(SimulationIs(s))
         case _ => None)
      case _ => None
    else None
  }

  function ReadConds(cs: seq<Clause>, values: seq<Value>): (r: Option<seq<Cond>>)
    ensures r.Some? ==> |r.value| == |cs|
  {
    if cs == [] then Some([])
    else match (ReadCond(cs[0], values), ReadConds(cs[1..], values))
      case (Some(c), Some(rest)) => Some([c] + rest)
      case _ => None
  }

  lemma {:induction false} ReadCondsPointwise(cs: seq<Clause>, values: seq<Value>, conds: seq<Cond>)
    requires |cs| == |conds|
    requires forall i :: 0 <= i < |cs| ==> ReadCond(cs[i], values) == Some(conds[i])
    ensures ReadConds(cs, values) == Some(conds)
  {
    if cs != [] {
      ReadCondsPointwise(cs[1..], values, conds[1..]);
      assert conds == [conds[0]] + conds[1..];
    }
  }

  function ReadWhere(c: Clause, values: seq<Value>): Option<seq<Cond>> {
    if |c| >= 1 && c[0] == Sql(Where) then ReadConds(SplitOn(c[1..], AndSep), values) else None
  }

  function ReadOrder(c: Clause): Option<SortBy> {
    if c == [Sql(OrderByCreatedAt)] then Some(CreatedAt)
    else if c == [Sql(OrderByTakenAt)] then Some(TakenAt)
    else if c == [Sql(OrderByPriority)] then Some(Priority)
    else None
  }

  function ReadPage(c: Clause, values: seq<Value>): Option<(nat, nat)> {
    if |c| == 4 && c[0] == Sql(Limit) && c[1].Param? && c[2] == Sql(Offset) && c[3].Param? then
      match (Bound(values, c[1].index), Bound(values, c[3].index))
      case (Some(Number(limit)), Some(Number(offset))) =>
        if limit >= 0 && offset >= 0 then Some((limit, offset)) else None
      case _ => None
    else None
  }

  /** Reads a whole `SELECT` back into its plan: select, optional WHERE, ORDER BY, LIMIT/OFFSET. */
  function ReadStatement(sql: seq<Clause>, values: seq<Value>): Option<Plan> {
    if !(|sql| == 3 || |sql| == 4) || sql[0] != [Sql(SelectAll)] then None
    else
      var conds := if |sql| == 4 then ReadWhere(sql[1], values) else Some([]);
      var order := ReadOrder(sql[|sql| - 2]);
      var page := ReadPage(sql[|sql| - 1], values);
      if conds.Some? && order.Some? && page.Some? then
        Some(Plan(conds.value, order.value, page.value.0, page.value.1))
      else None
  }

  // ---- the builder ----

  /** What holds of `wheres` and `values` between the pushes of the builder. */
  ghost predicate Building(wheres: seq<Clause>, values: seq<Value>, conds: seq<Cond>) {
    ReadsAs(wheres, values, conds) && Params(Flatten(wheres)) == Seq1To(|values|)
  }

  /** Each predicate clause reads as its condition, and none contains the separator. */
  ghost predicate ReadsAs(wheres: seq<Clause>, values: seq<Value>, conds: seq<Cond>) {
    && |wheres| == |conds|
    && (forall i :: 0 <= i < |wheres| ==> ReadCond(wheres[i], values) == Some(conds[i]))
    && (forall i :: 0 <= i < |wheres| ==> AndSep !in wheres[i])
  }

  /** Binding more values does not change how existing clauses read. */
  lemma ReadCondExtend(c: Clause, values: seq<Value>, more: seq<Value>)
    requires ReadCond(c, values).Some?
    ensures ReadCond(c, values + more) == ReadCond(c, values)
  {
    if |c| == 2 && c[0].Param? {
      assert Bound(values + more, c[0].index) == Bound(values, c[0].index);
    }
    if |c| == 2 && c[1].Param? {
      assert Bound(values + more, c[1].index) == Bound(values, c[1].index);
    }
  }

  /** Binding the page values leaves the predicate clauses reading the same. */
  lemma BindMore(wheres: seq<Clause>, values: seq<Value>, conds: seq<Cond>, more: seq<Value>)
    requires ReadsAs(wheres, values, conds)
    ensures ReadsAs(wheres, values + more, conds)
  {
    forall i | 0 <= i < |wheres| ensures ReadCond(wheres[i], values + more) == Some(conds[i]) {
      ReadCondExtend(wheres[i], values, more);
    }
  }

  /** The placeholders of the clause shapes the builder pushes. */
  lemma ClauseParams(k: Keyword, n: nat)
    ensures Params([Sql(k)]) == []
    ensures Params([Sql(k), Param(n)]) == [n]
    ensures Params([Param(n), Sql(k)]) == [n]
  {
    assert [Sql(k), Param(n)][1..] == [Param(n)];
    assert [Param(n), Sql(k)][1..] == [Sql(k)];
  }

  /**
   * Pushing one predicate clause, together with the value its placeholder
   * (if it has one) stands for: the placeholder is the next number.
   */
  lemma AddClause(wheres: seq<Clause>, values: seq<Value>, conds: seq<Cond>, w: Clause, more: seq<Value>, c: Cond)
    requires Building(wheres, values, conds)
    requires |more| <= 1
    requires ReadCond(w, values + more) == Some(c)
    requires AndSep !in w
    requires Params(w) == if more == [] then [] else [|values| + 1]
    ensures Building(wheres + [w], values + more, conds + [c])
  {
    AddReads(wheres, values, conds, w, more, c);
    AddParams(wheres, |values|, w, |more|);
  }

  lemma AddReads(wheres: seq<Clause>, values: seq<Value>, conds: seq<Cond>, w: Clause, more: seq<Value>, c: Cond)
    requires ReadsAs(wheres, values, conds)
    requires ReadCond(w, values + more) == Some(c)
    requires AndSep !in w
    ensures ReadsAs(wheres + [w], values + more, conds + [c])
  {
    BindMore(wheres, values, conds, more);
    var ws, cs := wheres + [w], conds + [c];
    forall i | 0 <= i < |ws| ensures ReadCond(ws[i], values + more) == Some(cs[i]) && AndSep !in ws[i] {
      if i < |wheres| {
        assert ws[i] == wheres[i] && cs[i] == conds[i];
      } else {
        assert ws[i] == w && cs[i] == c;
      }
    }
  }

  lemma AddParams(wheres: seq<Clause>, n: nat, w: Clause, m: nat)
    requires Params(Flatten(wheres)) == Seq1To(n)
    requires m <= 1
    requires Params(w) == if m == 0 then [] else [n + 1]
    ensures Params(Flatten(wheres + [w])) == Seq1To(n + m)
  {
    FlattenAppend(wheres, w);
    ParamsAppend(Flatten(wheres), w);
    assert Seq1To(n) + Params(w) == Seq1To(n + m);
  }

  /** `hidden IS NOT TRUE`. */
  lemma PushHidden(wheres: seq<Clause>, values: seq<Value>, conds: seq<Cond>)
    requires Building(wheres, values, conds)
    ensures Building(wheres + [[Sql(HiddenIsNotTrue)]], values, conds + [HiddenNotTrue])
  {
    ClauseParams(HiddenIsNotTrue, 0);
    AddClause(wheres, values, conds, [Sql(HiddenIsNotTrue)], [], HiddenNotTrue);
    assert values + [] == values;
  }

  /** `taken_at > $k` or `taken_at <= $k`, with the instant bound to `$k`. */
  lemma PushTimestamp(wheres: seq<Clause>, values: seq<Value>, conds: seq<Cond>, k: Keyword, t: Instant)
    requires Building(wheres, values, conds)
    requires k == TakenAtAbove || k == TakenAtUpTo
    ensures Building(wheres + [[Sql(k), Param(|values| + 1)]], values + [Timestamp(t)],
                     conds + [if k == TakenAtAbove then TakenAfter(t) else TakenAtOrBefore(t)])
  {
    ClauseParams(k, |values| + 1);
    assert Bound(values + [Timestamp(t)], |values| + 1) == Some(Timestamp(t));
    AddClause(wheres, values, conds, [Sql(k), Param(|values| + 1)], [Timestamp(t)],
      if k == TakenAtAbove then TakenAfter(t) else TakenAtOrBefore(t));
  }

  /** `$k=ANY(tags)`, with the tag bound to `$k`. */
  lemma PushTag(wheres: seq<Clause>, values: seq<Value>, conds: seq<Cond>, tag: string)
    requires Building(wheres, values, conds)
    ensures Building(wheres + [[Param(|values| + 1), Sql(AnyTags)]], values + [Text(tag)], conds + [HasTag(tag)])
  {
    ClauseParams(AnyTags, |values| + 1);
    assert Bound(values + [Text(tag)], |values| + 1) == Some(Text(tag));
    AddClause(wheres, values, conds, [Param(|values| + 1), Sql(AnyTags)], [Text(tag)], HasTag(tag));
  }

  /** A `column=$k` comparison with text bound to `$k`. */
  lemma PushText(wheres: seq<Clause>, values: seq<Value>, conds: seq<Cond>, k: Keyword, s: string)
    requires Building(wheres, values, conds)
    requires k == LowerMakeIs || k == LowerModelIs || k == FilmSimulationIs
    ensures Building(wheres + [[Sql(k), Param(|values| + 1)]], values + [Text(s)],
                     conds + [if k == LowerMakeIs then MakeIs(s) else if k == LowerModelIs then ModelIs(s) else SimulationIs(s)])
  {
    ClauseParams(k, |values| + 1);
    assert Bound(values + [Text(s)], |values| + 1) == Some(Text(s));
    AddClause(wheres, values, conds, [Sql(k), Param(|values| + 1)], [Text(s)],
      if k == LowerMakeIs then MakeIs(s) else if k == LowerModelIs then ModelIs(s) else SimulationIs(s));
  }

  /** Both camera predicates are pushed before either value, so they take `$k` and `$k+1`. */
  lemma PushCamera(wheres: seq<Clause>, values: seq<Value>, conds: seq<Cond>, make: string, model: string)
    requires Building(wheres, values, conds)
    ensures Building(wheres + [[Sql(LowerMakeIs), Param(|values| + 1)]] + [[Sql(LowerModelIs), Param(|values| + 2)]],
                     values + [Text(make)] + [Text(model)], conds + [MakeIs(make), ModelIs(model)])
  {
    PushText(wheres, values, conds, LowerMakeIs, make);
    PushText(wheres + [[Sql(LowerMakeIs), Param(|values| + 1)]], values + [Text(make)], conds + [MakeIs(make)],
      LowerModelIs, model);
    assert conds + [MakeIs(make)] + [ModelIs(model)] == conds + [MakeIs(make), ModelIs(model)];
  }

  /** `WHERE p1 AND p2 ...` when there are predicates; nothing otherwise. */
  function WhereClauses(wheres: seq<Clause>): seq<Clause> {
    if |wheres| > 0 then [[Sql(Where)] + Join(wheres, [AndSep])] else []
  }

  /** `LIMIT $k OFFSET $k+1`. */
  function PageClause(k: nat): Clause {
    [Sql(Limit), Param(k), Sql(Offset), Param(k + 1)]
  }

  /**
   * The statement the builder assembles from its predicate clauses: the
   * select, a WHERE clause when there is a predicate, the ordering, and the
   * page with placeholders `$k` and `$k+1`.
   */
  function Statement(wheres: seq<Clause>, order: Keyword, k: nat): seq<Clause> {
    [[Sql(SelectAll)]] + WhereClauses(wheres) + [[Sql(order)], PageClause(k)]
  }

  /** The WHERE clause reads back as the conditions of its predicates, in order. */
  lemma WhereReads(wheres: seq<Clause>, values: seq<Value>, conds: seq<Cond>)
    requires ReadsAs(wheres, values, conds) && |wheres| > 0
    ensures ReadWhere([Sql(Where)] + Join(wheres, [AndSep]), values) == Some(conds)
  {
    var where := [Sql(Where)] + Join(wheres, [AndSep]);
    assert where[1..] == Join(wheres, [AndSep]);
    SplitJoin(wheres, AndSep);
    ReadCondsPointwise(wheres, values, conds);
  }

  /** The statement reads back as the plan: its conditions, its order and its page. */
  lemma StatementReads(wheres: seq<Clause>, values: seq<Value>, conds: seq<Cond>, order: SortBy, orderKeyword: Keyword,
                       limit: nat, offset: nat)
    requires ReadsAs(wheres, values, conds)
    requires ReadOrder([Sql(orderKeyword)]) == Some(order)
    ensures ReadStatement(Statement(wheres, orderKeyword, |values| + 1), values + [Number(limit), Number(offset)])
      == Some(Plan(conds, order, limit, offset))
  {
    var k := |values| + 1;
    var allValues := values + [Number(limit), Number(offset)];
    var sql := Statement(wheres, orderKeyword, k);
    assert ReadPage(sql[|sql| - 1], allValues) == Some((limit, offset)) by {
      assert Bound(allValues, k) == Some(Number(limit));
      assert Bound(allValues, k + 1) == Some(Number(offset));
    }
    if |wheres| > 0 {
      BindMore(wheres, values, conds, [Number(limit), Number(offset)]);
      WhereReads(wheres, allValues, conds);
    }
  }

  lemma {:induction false} FlattenConcat(a: seq<Clause>, b: seq<Clause>)
    ensures Flatten(a + b) == Flatten(a) + Flatten(b)
  {
    if a == [] {
      assert a + b == b;
    } else {
      assert (a + b)[1..] == a[1..] + b;
      FlattenConcat(a[1..], b);
    }
  }

  /** The statement's text, clause after clause. */
  lemma StatementTokens(wheres: seq<Clause>, order: Keyword, k: nat)
    ensures Flatten(Statement(wheres, order, k)) == [Sql(SelectAll)] + Flatten(WhereClauses(wheres)) + ([Sql(order)] + PageClause(k))
  {
    var head: seq<Clause> := [[Sql(SelectAll)]];
    var tail: seq<Clause> := [[Sql(order)], PageClause(k)];
    assert Statement(wheres, order, k) == head + WhereClauses(wheres) + tail;
    FlattenConcat(head + WhereClauses(wheres), tail);
    FlattenConcat(head, WhereClauses(wheres));
    assert Flatten(head) == [Sql(SelectAll)] by { assert Flatten(head) == head[0] + Flatten([]); }
    assert Flatten(tail) == [Sql(order)] + PageClause(k) by {
      assert tail[1..] == [PageClause(k)];
      assert Flatten([PageClause(k)]) == PageClause(k) + Flatten([]);
    }
  }

  lemma PageParams(k: nat)
    ensures Params(PageClause(k)) == [k, k + 1]
  {
    assert PageClause(k) == [Sql(Limit), Param(k)] + [Sql(Offset), Param(k + 1)];
    ClauseParams(Limit, k);
    ClauseParams(Offset, k + 1);
    ParamsAppend([Sql(Limit), Param(k)], [Sql(Offset), Param(k + 1)]);
  }

  /** The WHERE clause holds the predicates' placeholders, in order. */
  lemma WhereParams(wheres: seq<Clause>)
    ensures Params(Flatten(WhereClauses(wheres))) == Params(Flatten(wheres))
  {
    var w := Flatten(WhereClauses(wheres));
    if |wheres| > 0 {
      var where := WhereClauses(wheres)[0];
      assert WhereClauses(wheres) == [where] && [where][1..] == [];
      assert w == where + Flatten([]);
      assert where + [] == where;
      ParamsJoin(wheres, AndSep);
      ParamsAppend([Sql(Where)], Join(wheres, [AndSep]));
    } else {
      assert w == [] && Flatten(wheres) == [];
    }
  }

  /** The statement numbers its placeholders `$1..$n+2`, in order of appearance. */
  lemma StatementParams(wheres: seq<Clause>, order: Keyword, n: nat)
    requires Params(Flatten(wheres)) == Seq1To(n)
    ensures Params(Flatten(Statement(wheres, order, n + 1))) == Seq1To(n + 2)
  {
    StatementTokens(wheres, order, n + 1);
    var w := Flatten(WhereClauses(wheres));
    var page := PageClause(n + 1);
    WhereParams(wheres);
    PageParams(n + 1);
    ClauseParams(order, 0);
    ClauseParams(SelectAll, 0);
    ParamsAppend([Sql(order)], page);
    ParamsAppend([Sql(SelectAll)], w);
    ParamsAppend([Sql(SelectAll)] + w, [Sql(order)] + page);
    assert Params([Sql(SelectAll)] + w) == Seq1To(n);
    assert Params([Sql(order)] + page) == [n + 1, n + 2];
    Seq1ToTwoMore(n);
  }

  lemma Seq1ToTwoMore(n: nat)
    ensures Seq1To(n) + [n + 1, n + 2] == Seq1To(n + 2)
  {
  }

  // One method per `if` of the WHERE section: each pushes its predicate
  // (and value) when its option is given and keeps `Building`.

  method WhereHidden(options: GetPhotosOptions, wheres: seq<Clause>, values: seq<Value>, ghost conds: seq<Cond>)
    returns (wheres': seq<Clause>)
    requires Building(wheres, values, conds)
    ensures Building(wheres', values, conds + Given(!IncludeHidden(options), [HiddenNotTrue]))
  {
    wheres' := wheres;
    if !IncludeHidden(options) {
      PushHidden(wheres, values, conds);
      wheres' := wheres + [[Sql(HiddenIsNotTrue)]];
    } else {
      assert conds + [] == conds;
    }
  }

  method WhereTakenBefore(options: GetPhotosOptions, wheres: seq<Clause>, values: seq<Value>, valueIndex: nat,
                          ghost conds: seq<Cond>)
    returns (wheres': seq<Clause>, values': seq<Value>, valueIndex': nat)
    requires Building(wheres, values, conds) && valueIndex == |values| + 1
    ensures Building(wheres', values', conds + Given(options.takenBefore.Some?, [TakenAfter(options.takenBefore.GetOr(0))]))
    ensures valueIndex' == |values'| + 1
  {
    wheres', values', valueIndex' := wheres, values, valueIndex;
    if options.takenBefore.Some? {
      PushTimestamp(wheres, values, conds, TakenAtAbove, options.takenBefore.value);
      wheres' := wheres + [[Sql(TakenAtAbove), Param(valueIndex)]];
      valueIndex' := valueIndex + 1;
      values' := values + [Timestamp(options.takenBefore.value)];
    } else {
      assert conds + [] == conds;
    }
  }

  method WhereTakenAfterInclusive(options: GetPhotosOptions, wheres: seq<Clause>, values: seq<Value>, valueIndex: nat,
                                  ghost conds: seq<Cond>)
    returns (wheres': seq<Clause>, values': seq<Value>, valueIndex': nat)
    requires Building(wheres, values, conds) && valueIndex == |values| + 1
    ensures Building(wheres', values',
      conds + Given(options.takenAfterInclusive.Some?, [TakenAtOrBefore(options.takenAfterInclusive.GetOr(0))]))
    ensures valueIndex' == |values'| + 1
  {
    wheres', values', valueIndex' := wheres, values, valueIndex;
    if options.takenAfterInclusive.Some? {
      PushTimestamp(wheres, values, conds, TakenAtUpTo, options.takenAfterInclusive.value);
      wheres' := wheres + [[Sql(TakenAtUpTo), Param(valueIndex)]];
      valueIndex' := valueIndex + 1;
      values' := values + [Timestamp(options.takenAfterInclusive.value)];
    } else {
      assert conds + [] == conds;
    }
  }

  method WhereTag(options: GetPhotosOptions, wheres: seq<Clause>, values: seq<Value>, valueIndex: nat,
                  ghost conds: seq<Cond>)
    returns (wheres': seq<Clause>, values': seq<Value>, valueIndex': nat)
    requires Building(wheres, values, conds) && valueIndex == |values| + 1
    ensures Building(wheres', values', conds + Given(TagGiven(options), [HasTag(options.tag.GetOr(""))]))
    ensures valueIndex' == |values'| + 1
  {
    wheres', values', valueIndex' := wheres, values, valueIndex;
    if TagGiven(options) {
      PushTag(wheres, values, conds, options.tag.value);
      wheres' := wheres + [[Param(valueIndex), Sql(AnyTags)]];
      valueIndex' := valueIndex + 1;
      values' := values + [Text(options.tag.value)];
    } else {
      assert conds + [] == conds;
    }
  }

  method WhereCamera(options: GetPhotosOptions, parameterize: string -> string, wheres: seq<Clause>, values: seq<Value>,
                     valueIndex: nat, ghost conds: seq<Cond>)
    returns (wheres': seq<Clause>, values': seq<Value>, valueIndex': nat)
    requires Building(wheres, values, conds) && valueIndex == |values| + 1
    ensures Building(wheres', values',
      conds + Given(options.camera.Some?, CameraConds(options.camera.GetOr(Camera("", "")), parameterize)))
    ensures valueIndex' == |values'| + 1
  {
    wheres', values', valueIndex' := wheres, values, valueIndex;
    if options.camera.Some? {
      var camera := options.camera.value;
      PushCamera(wheres, values, conds, parameterize(camera.make), parameterize(camera.model));
      wheres' := wheres' + [[Sql(LowerMakeIs), Param(valueIndex)]];
      wheres' := wheres' + [[Sql(LowerModelIs), Param(valueIndex + 1)]];
      valueIndex' := valueIndex + 2;
      values' := values' + [Text(parameterize(camera.make))];
      values' := values' + [Text(parameterize(camera.model))];
    } else {
      assert conds + [] == conds;
    }
  }

  method WhereSimulation(options: GetPhotosOptions, wheres: seq<Clause>, values: seq<Value>, valueIndex: nat,
                         ghost conds: seq<Cond>)
    returns (wheres': seq<Clause>, values': seq<Value>, valueIndex': nat)
    requires Building(wheres, values, conds) && valueIndex == |values| + 1
    ensures Building(wheres', values', conds + Given(SimulationGiven(options), [SimulationIs(options.simulation.GetOr(""))]))
    ensures valueIndex' == |values'| + 1
  {
    wheres', values', valueIndex' := wheres, values, valueIndex;
    if SimulationGiven(options) {
      PushText(wheres, values, conds, FilmSimulationIs, options.simulation.value);
      wheres' := wheres + [[Sql(FilmSimulationIs), Param(valueIndex)]];
      valueIndex' := valueIndex + 1;
      values' := values + [Text(options.simulation.value)];
    } else {
      assert conds + [] == conds;
    }
  }

  /**
   * The WHERE section of `getPhotos`: one predicate per given option, in a
   * fixed order, each value pushed onto `values` as its placeholder is
   * numbered with `valueIndex`.
   */
  method CollectPredicates(options: GetPhotosOptions, parameterize: string -> string)
    returns (wheres: seq<Clause>, values: seq<Value>, valueIndex: nat)
    ensures Building(wheres, values, CondsFor(options, parameterize))
    ensures valueIndex == |values| + 1
  {
    values := [];
    valueIndex := 1;
    assert Building([], values, []);
    wheres := WhereHidden(options, [], values, []);
    ghost var conds := [] + Given(!IncludeHidden(options), [HiddenNotTrue]);
    wheres, values, valueIndex := WhereTakenBefore(options, wheres, values, valueIndex, conds);
    conds := conds + Given(options.takenBefore.Some?, [TakenAfter(options.takenBefore.GetOr(0))]);
    wheres, values, valueIndex := WhereTakenAfterInclusive(options, wheres, values, valueIndex, conds);
    conds := conds + Given(options.takenAfterInclusive.Some?, [TakenAtOrBefore(options.takenAfterInclusive.GetOr(0))]);
    wheres, values, valueIndex := WhereTag(options, wheres, values, valueIndex, conds);
    conds := conds + Given(TagGiven(options), [HasTag(options.tag.GetOr(""))]);
    wheres, values, valueIndex := WhereCamera(options, parameterize, wheres, values, valueIndex, conds);
    conds := conds + Given(options.camera.Some?, CameraConds(options.camera.GetOr(Camera("", "")), parameterize));
    wheres, values, valueIndex := WhereSimulation(options, wheres, values, valueIndex, conds);
    conds := conds + Given(SimulationGiven(options), [SimulationIs(options.simulation.GetOr(""))]);
    assert [] + Given(!IncludeHidden(options), [HiddenNotTrue]) == Given(!IncludeHidden(options), [HiddenNotTrue]);
    assert conds == CondsFor(options, parameterize);
  }

  /**
   * `getPhotos`' statement builder: the select, the WHERE section, the
   * ordering and the page, with every option value bound to a placeholder.
   */
  method BuildGetPhotosQuery(options: GetPhotosOptions, priorityOrderEnabled: bool, parameterize: string -> string)
    returns (sql: seq<Clause>, values: seq<Value>)
    ensures ReadStatement(sql, values) == Some(PlanFor(options, priorityOrderEnabled, parameterize))
    ensures Params(Flatten(sql)) == Seq1To(|values|)
    ensures |values| >= 2 && values[|values| - 2] == Number(LimitFor(options)) && values[|values| - 1] == Number(OffsetFor(options))
    ensures |sql| == 4 <==> |CondsFor(options, parameterize)| > 0
  {
    var sortBy := SortFor(options, priorityOrderEnabled);
    var limit := LimitFor(options);
    var offset := OffsetFor(options);

    sql := [[Sql(SelectAll)]];
    var wheres, valueIndex;
    wheres, values, valueIndex := CollectPredicates(options, parameterize);
    sql := sql + WhereClauses(wheres);

    // ORDER BY
    var order := OrderKeyword(sortBy);
    sql := sql + [[Sql(order)]];

    // LIMIT + OFFSET
    sql := sql + [PageClause(valueIndex)];
    assert sql == Statement(wheres, order, |values| + 1);
    StatementMeetsPlan(wheres, values, options, priorityOrderEnabled, parameterize);
    valueIndex := valueIndex + 2;
    values := values + [Number(limit), Number(offset)];
  }

  /** The ORDER BY clause of each sort. */
  function OrderKeyword(sortBy: SortBy): Keyword {
    match sortBy
    case CreatedAt => OrderByCreatedAt
    case TakenAt => OrderByTakenAt
    case Priority => OrderByPriority
  }

  /** The assembled statement, with the page values bound after the predicates', reads back as the plan of the options. */
  lemma StatementMeetsPlan(wheres: seq<Clause>, values: seq<Value>, options: GetPhotosOptions, priorityOrderEnabled: bool,
                           parameterize: string -> string)
    requires Building(wheres, values, CondsFor(options, parameterize))
    ensures var sql := Statement(wheres, OrderKeyword(SortFor(options, priorityOrderEnabled)), |values| + 1);
      var allValues := values + [Number(LimitFor(options)), Number(OffsetFor(options))];
      && ReadStatement(sql, allValues) == Some(PlanFor(options, priorityOrderEnabled, parameterize))
      && Params(Flatten(sql)) == Seq1To(|allValues|)
      && (|sql| == 4 <==> |CondsFor(options, parameterize)| > 0)
  {
    var conds := CondsFor(options, parameterize);
    var sortBy := SortFor(options, priorityOrderEnabled);
    var order := OrderKeyword(sortBy);
    assert ReadOrder([Sql(order)]) == Some(sortBy);
    StatementReads(wheres, values, conds, sortBy, order, LimitFor(options), OffsetFor(options));
    assert PlanFor(options, priorityOrderEnabled, parameterize) == Plan(conds, sortBy, LimitFor(options), OffsetFor(options));
    StatementParams(wheres, order, |values|);
    StatementLength(wheres, order, |values| + 1);
  }

  /** A statement has a WHERE clause exactly when there are predicates. */
  lemma StatementLength(wheres: seq<Clause>, order: Keyword, k: nat)
    ensures |Statement(wheres, order, k)| == if |wheres| > 0 then 4 else 3
  {
  }

  // ---- executing a plan ----

  /** `priority_order ASC`, with NULLs last. */
  predicate PriorityFirst(p: Option<real>, q: Option<real>) {
    match (p, q)
    case (Some(x), Some(y)) => x < y
    case (Some(_), None) => true
    case _ => false
  }

  /** `a` may come before `b` in the given order. */
  predicate Le(a: Row, b: Row, order: SortBy) {
    match order
    case CreatedAt => a.createdAt >= b.createdAt
    case TakenAt => a.cols.takenAt >= b.cols.takenAt
    case Priority =>
      || PriorityFirst(a.cols.priorityOrder, b.cols.priorityOrder)
      || (a.cols.priorityOrder == b.cols.priorityOrder && a.cols.takenAt >= b.cols.takenAt)
  }

  /** Each ordering is total and transitive. */
  lemma LeTotalPreorder(a: Row, b: Row, c: Row, order: SortBy)
    ensures Le(a, b, order) || Le(b, a, order)
    ensures Le(a, b, order) && Le(b, c, order) ==> Le(a, c, order)
  {
  }

  predicate Sorted(s: seq<Row>, order: SortBy) {
    forall i, j :: 0 <= i < j < |s| ==> Le(s[i], s[j], order)
  }

  /** Places `x` before the first row it may precede. */
  function InsertRow(x: Row, s: seq<Row>, order: SortBy): (r: seq<Row>)
    ensures multiset(r) == multiset(s) + multiset{x}
  {
    if s == [] then [x]
    else if Le(x, s[0], order) then [x] + s
    else
      assert s == [s[0]] + s[1..];
      [s[0]] + InsertRow(x, s[1..], order)
  }

  lemma {:induction false} InsertRowSorted(x: Row, s: seq<Row>, order: SortBy)
    requires Sorted(s, order)
    ensures Sorted(InsertRow(x, s, order), order)
  {
    if s == [] {
    } else if Le(x, s[0], order) {
      forall j | 0 <= j < |s| ensures Le(x, s[j], order) {
        if j > 0 { LeTotalPreorder(x, s[0], s[j], order); }
      }
      ConsSorted(x, s, order);
    } else {
      InsertRowSorted(x, s[1..], order);
      HeadPrecedesInsert(x, s, order);
      ConsSorted(s[0], InsertRow(x, s[1..], order), order);
    }
  }

  /** A row that may precede every row of a sorted listing can be put in front of it. */
  lemma ConsSorted(y: Row, rest: seq<Row>, order: SortBy)
    requires Sorted(rest, order)
    requires forall j :: 0 <= j < |rest| ==> Le(y, rest[j], order)
    ensures Sorted([y] + rest, order)
  {
    var r := [y] + rest;
    forall i, j | 0 <= i < j < |r| ensures Le(r[i], r[j], order) {
      assert r[j] == rest[j - 1];
      if i > 0 { assert r[i] == rest[i - 1]; }
    }
  }

  /** When `x` goes after the head, the head may precede everything the rest becomes. */
  lemma HeadPrecedesInsert(x: Row, s: seq<Row>, order: SortBy)
    requires Sorted(s, order) && s != [] && !Le(x, s[0], order)
    ensures forall j :: 0 <= j < |InsertRow(x, s[1..], order)| ==> Le(s[0], InsertRow(x, s[1..], order)[j], order)
  {
    var rest := InsertRow(x, s[1..], order);
    LeTotalPreorder(x, s[0], x, order);
    forall j | 0 <= j < |rest| ensures Le(s[0], rest[j], order) {
      assert rest[j] in multiset(rest);
      if rest[j] != x {
        assert rest[j] in multiset(s[1..]);
        var k :| 0 <= k < |s[1..]| && s[1..][k] == rest[j];
        assert s[k + 1] == rest[j];
      }
    }
  }

  /** The rows in the given order (a stable insertion sort). */
  function SortRows(rows: seq<Row>, order: SortBy): (r: seq<Row>)
    ensures multiset(r) == multiset(rows)
    ensures |r| == |rows|
  {
    if rows == [] then []
    else
      assert rows == [rows[0]] + rows[1..];
      var r := InsertRow(rows[0], SortRows(rows[1..], order), order);
      assert |multiset(r)| == |multiset(rows)|;
      r
  }

  /** The sort's result is in order. */
  lemma {:induction false} SortRowsSorted(rows: seq<Row>, order: SortBy)
    ensures Sorted(SortRows(rows, order), order)
  {
    if rows != [] {
      SortRowsSorted(rows[1..], order);
      InsertRowSorted(rows[0], SortRows(rows[1..], order), order);
    }
  }

  /** Every sorted row is one of the input rows. */
  lemma SortRowsMembers(rows: seq<Row>, order: SortBy)
    ensures forall k :: 0 <= k < |rows| ==> SortRows(rows, order)[k] in rows
  {
    var r := SortRows(rows, order);
    forall k | 0 <= k < |rows| ensures r[k] in rows {
      assert r[k] in multiset(r);
    }
  }

  function FilterRows(rows: seq<Row>, conds: seq<Cond>): (r: seq<Row>)
    ensures |r| <= |rows|
    ensures forall i :: 0 <= i < |r| ==> r[i] in rows && AllHold(conds, r[i])
    ensures forall i :: 0 <= i < |rows| && AllHold(conds, rows[i]) ==> rows[i] in r
  {
    Filter(rows, row => AllHold(conds, row))
  }

  /** Filtering by equivalent conditions gives the same rows. */
  lemma {:induction false} FilterRowsEquivalent(rows: seq<Row>, a: seq<Cond>, b: seq<Cond>)
    requires forall i :: 0 <= i < |rows| ==> (AllHold(a, rows[i]) <==> AllHold(b, rows[i]))
    ensures FilterRows(rows, a) == FilterRows(rows, b)
  {
    if rows != [] {
      FilterRowsEquivalent(rows[1..], a, b);
    }
  }

  /** `LIMIT limit OFFSET offset`: up to `limit` rows, starting after the first `offset`. */
  function Page(s: seq<Row>, offset: nat, limit: nat): (r: seq<Row>)
    ensures |r| == PageLength(|s|, offset, limit)
    ensures |r| <= limit
    ensures r == [] || offset + |r| <= |s|
    ensures forall i :: 0 <= i < |r| ==> r[i] == s[offset + i]
    ensures offset == 0 && limit >= |s| ==> r == s
  {
    var from := if offset <= |s| then offset else |s|;
    var to := if from + limit <= |s| then from + limit else |s|;
    s[from..to]
  }

  /** How many rows a page of a `total`-row listing holds: min(limit, total - offset), and none past the end. */
  function PageLength(total: nat, offset: nat, limit: nat): nat {
    if offset >= total then 0
    else if offset + limit <= total then limit
    else total - offset
  }

  function Execute(plan: Plan, rows: seq<Row>): seq<Row> {
    Page(SortRows(FilterRows(rows, plan.conds), plan.order), plan.offset, plan.limit)
  }

  /**
   * A plan's result: at most `limit` table rows, each satisfying every
   * condition, in order; exactly min(limit, n - offset) of them when `n`
   * rows match.
   */
  lemma ExecuteContract(plan: Plan, rows: seq<Row>)
    ensures var r := Execute(plan, rows);
      && |r| == PageLength(|FilterRows(rows, plan.conds)|, plan.offset, plan.limit)
      && |r| <= plan.limit
      && (forall i :: 0 <= i < |r| ==> r[i] in rows && AllHold(plan.conds, r[i]))
      && Sorted(r, plan.order)
  {
    var filtered := FilterRows(rows, plan.conds);
    var sorted := SortRows(filtered, plan.order);
    var r := Page(sorted, plan.offset, plan.limit);
    SortRowsMembers(filtered, plan.order);
    SortRowsSorted(filtered, plan.order);
    forall i | 0 <= i < |r| ensures r[i] in rows && AllHold(plan.conds, r[i]) {
      assert r[i] == sorted[plan.offset + i];
      var j :| 0 <= j < |filtered| && filtered[j] == r[i];
    }
    PageSorted(sorted, plan.order, plan.offset, plan.limit);
  }

  /** A page of a sorted listing is sorted. */
  lemma PageSorted(s: seq<Row>, order: SortBy, offset: nat, limit: nat)
    requires Sorted(s, order)
    ensures Sorted(Page(s, offset, limit), order)
  {
    var r := Page(s, offset, limit);
    forall i, j | 0 <= i < j < |r| ensures Le(r[i], r[j], order) {
      assert r[i] == s[offset + i] && r[j] == s[offset + j];
    }
  }

  /** `getPhotos(options)` on a table: the rows its statement selects, in order. */
  function GetPhotos(rows: seq<Row>, options: GetPhotosOptions, priorityOrderEnabled: bool, parameterize: string -> string): seq<Row> {
    Execute(PlanFor(options, priorityOrderEnabled, parameterize), rows)
  }

  /**
   * A listing has at most `limit` rows, every one of them a table row that
   * satisfies every option (so no hidden row unless `includeHidden`), in the
   * selected order. When `n` rows match, it has min(limit, n - offset) rows.
   */
  lemma GetPhotosContract(rows: seq<Row>, options: GetPhotosOptions, priorityOrderEnabled: bool, parameterize: string -> string)
    ensures var r := GetPhotos(rows, options, priorityOrderEnabled, parameterize);
      && |r| == PageLength(|FilterRows(rows, CondsFor(options, parameterize))|, OffsetFor(options), LimitFor(options))
      && |r| <= LimitFor(options)
      && (forall i :: 0 <= i < |r| ==> r[i] in rows && Matches(options, r[i], parameterize))
      && (!IncludeHidden(options) ==> forall i :: 0 <= i < |r| ==> r[i].cols.hidden != Some(true))
      && Sorted(r, SortFor(options, priorityOrderEnabled))
  {
    var r := GetPhotos(rows, options, priorityOrderEnabled, parameterize);
    ExecuteContract(PlanFor(options, priorityOrderEnabled, parameterize), rows);
    forall i | 0 <= i < |r| ensures Matches(options, r[i], parameterize) {
      CondsForMeaning(options, r[i], parameterize);
    }
  }

  /** With no offset and a limit no smaller than the number of matches, every matching row is listed, each once. */
  lemma GetPhotosComplete(rows: seq<Row>, options: GetPhotosOptions, priorityOrderEnabled: bool, parameterize: string -> string)
    requires OffsetFor(options) == 0 && LimitFor(options) >= |FilterRows(rows, CondsFor(options, parameterize))|
    ensures var r := GetPhotos(rows, options, priorityOrderEnabled, parameterize);
      multiset(r) == multiset(FilterRows(rows, CondsFor(options, parameterize)))
  {
    var plan := PlanFor(options, priorityOrderEnabled, parameterize);
    var sorted := SortRows(FilterRows(rows, plan.conds), plan.order);
    assert Page(sorted, 0, plan.limit) == sorted;
  }

  // ---- single photo ----

  /**
   * `getPhoto`: the id is first translated (short and forwarded ids become
   * stored ids), then the row with that id, if any, is parsed into a photo.
   */
  function GetPhoto(rows: seq<Row>, id: string, translatePhotoId: string -> string, parsePhotoFromDb: Row -> Photo)
    : (photo: Option<Photo>)
    ensures photo.Some? <==> HasId(rows, translatePhotoId(id))
    ensures photo.Some? ==>
      exists i :: 0 <= i < |rows| && rows[i].id == translatePhotoId(id) && photo.value == parsePhotoFromDb(rows[i])
  {
    match FindRow(rows, translatePhotoId(id))
    case None => None
    case Some(row) => Some(parsePhotoFromDb(row))
  }

  // ---- neighbour window ----

  /** The position of the first row with this id. */
  function IndexOfId(s: seq<Row>, id: string): (r: Option<nat>)
    ensures r.Some? ==> r.value < |s| && s[r.value].id == id
    ensures r.None? <==> forall i :: 0 <= i < |s| ==> s[i].id != id
  {
    if s == [] then None
    else if s[0].id == id then Some(0)
    else match IndexOfId(s[1..], id)
      case None => (assert forall i :: 1 <= i < |s| ==> s[i] == s[1..][i - 1]; None)
      case Some(i) => Some(i + 1)
  }

  /**
   * From the row before the target onwards, at most `limit` rows, in the
   * given order; nothing when the target is not there. `row_number() - 1`
   * is the position in `ordered`.
   */
  function Window(ordered: seq<Row>, id: string, limit: nat): (r: seq<Row>)
    ensures |r| <= limit
  {
    match IndexOfId(ordered, id)
    case None => []
    case Some(i) => Run(ordered, if i == 0 then 0 else i - 1, limit)
  }

  /** At most `limit` consecutive rows of `ordered` from position `start` on. */
  function Run(ordered: seq<Row>, start: nat, limit: nat): (r: seq<Row>)
    requires start <= |ordered|
    ensures |r| == (if start + limit <= |ordered| then limit else |ordered| - start)
    ensures forall k :: 0 <= k < |r| ==> r[k] == ordered[start + k]
  {
    ordered[start..if start + limit <= |ordered| then start + limit else |ordered|]
  }

  /** The non-hidden rows in the default order: the `twi` of the neighbour query. */
  function VisibleInDefaultOrder(rows: seq<Row>, priorityOrderEnabled: bool): seq<Row> {
    SortRows(FilterRows(rows, [HiddenNotTrue]), DefaultSortBy(priorityOrderEnabled))
  }

  /**
   * `getPhotosNearId(id, limit)`. The final SELECT of the source has no
   * ORDER BY; the window is taken in the window's order.
   */
  function GetPhotosNearId(rows: seq<Row>, id: string, limit: nat, priorityOrderEnabled: bool): seq<Row> {
    Window(VisibleInDefaultOrder(rows, priorityOrderEnabled), id, limit)
  }

  /**
   * The window is the run of the ordered catalog that starts one before the
   * target, or at the target when it is first.
   */
  lemma WindowShape(ordered: seq<Row>, id: string, limit: nat)
    requires IndexOfId(ordered, id).Some?
    ensures var i := IndexOfId(ordered, id).value;
      Window(ordered, id, limit) == Run(ordered, if i == 0 then 0 else i - 1, limit)
  {
  }

  /** A window of three around a target with rows on both sides: previous, target, next. */
  lemma WindowOfThree(ordered: seq<Row>, id: string)
    requires IndexOfId(ordered, id).Some? && 1 <= IndexOfId(ordered, id).value < |ordered| - 1
    ensures var i := IndexOfId(ordered, id).value;
      Window(ordered, id, 3) == [ordered[i - 1], ordered[i], ordered[i + 1]]
  {
    var i := IndexOfId(ordered, id).value;
    WindowShape(ordered, id, 3);
    var r := Run(ordered, i - 1, 3);
    assert r[0] == ordered[i - 1] && r[1] == ordered[i] && r[2] == ordered[i + 1];
  }

  /**
   * `getPhotosNearId` on a table: a run of consecutive rows of the visible
   * catalog in the default order, from one before the target (or the target
   * when it is first), as long as `limit` allows and the catalog lasts.
   */
  lemma NearIdWindow(rows: seq<Row>, id: string, limit: nat, priorityOrderEnabled: bool)
    requires IndexOfId(VisibleInDefaultOrder(rows, priorityOrderEnabled), id).Some?
    ensures var ordered := VisibleInDefaultOrder(rows, priorityOrderEnabled);
      var i := IndexOfId(ordered, id).value;
      var start := if i == 0 then 0 else i - 1;
      var r := GetPhotosNearId(rows, id, limit, priorityOrderEnabled);
      && |r| == (if start + limit <= |ordered| then limit else |ordered| - start)
      && (forall k :: 0 <= k < |r| ==> r[k] == ordered[start + k])
  {
    var ordered := VisibleInDefaultOrder(rows, priorityOrderEnabled);
    WindowShape(ordered, id, limit);
  }

  /** A hidden or missing target gives an empty window. */
  lemma NearIdEmptyWithoutVisibleTarget(rows: seq<Row>, id: string, limit: nat, priorityOrderEnabled: bool)
    requires forall i :: 0 <= i < |rows| && rows[i].id == id ==> rows[i].cols.hidden == Some(true)
    ensures GetPhotosNearId(rows, id, limit, priorityOrderEnabled) == []
  {
    var visible := FilterRows(rows, [HiddenNotTrue]);
    var ordered := VisibleInDefaultOrder(rows, priorityOrderEnabled);
    SortRowsMembers(visible, DefaultSortBy(priorityOrderEnabled));
    forall k | 0 <= k < |ordered| ensures ordered[k].id != id {
      var j :| 0 <= j < |visible| && visible[j] == ordered[k];
      assert AllHold([HiddenNotTrue], visible[j]);
      assert Holds([HiddenNotTrue][0], visible[j]);
    }
  }

  // ---- counts ----

  /** `SELECT COUNT(*) FROM photos WHERE hidden IS NOT TRUE`. */
  function PhotosCount(rows: seq<Row>): nat {
    |FilterRows(rows, [HiddenNotTrue])|
  }

  /** `SELECT COUNT(*) FROM photos`. */
  function PhotosCountIncludingHidden(rows: seq<Row>): nat {
    |rows|
  }

  function PhotosTagCount(rows: seq<Row>, tag: string): nat {
    |FilterRows(rows, [HasTag(tag), HiddenNotTrue])|
  }

  function PhotosCameraCount(rows: seq<Row>, camera: Camera, parameterize: string -> string): nat {
    |FilterRows(rows, [MakeIs(parameterize(camera.make)), ModelIs(parameterize(camera.model)), HiddenNotTrue])|
  }

  function PhotosFilmSimulationCount(rows: seq<Row>, simulation: string): nat {
    |FilterRows(rows, [SimulationIs(simulation), HiddenNotTrue])|
  }

  /** A listing that starts at 0 with a limit covering its matches has as many rows as its conditions select. */
  lemma ListingSize(rows: seq<Row>, options: GetPhotosOptions, priorityOrderEnabled: bool, parameterize: string -> string)
    requires OffsetFor(options) == 0 && LimitFor(options) >= |FilterRows(rows, CondsFor(options, parameterize))|
    ensures |GetPhotos(rows, options, priorityOrderEnabled, parameterize)| == |FilterRows(rows, CondsFor(options, parameterize))|
  {
    var plan := PlanFor(options, priorityOrderEnabled, parameterize);
    var sorted := SortRows(FilterRows(rows, plan.conds), plan.order);
    assert Page(sorted, 0, plan.limit) == sorted;
  }

  /** Conditions that hold together in either order select the same rows. */
  lemma SwapConds(rows: seq<Row>, a: seq<Cond>, b: seq<Cond>)
    ensures FilterRows(rows, a + b) == FilterRows(rows, b + a)
  {
    forall i | 0 <= i < |rows| ensures AllHold(a + b, rows[i]) <==> AllHold(b + a, rows[i]) {
      AllHoldAppend(a, b, rows[i]);
      AllHoldAppend(b, a, rows[i]);
    }
    FilterRowsEquivalent(rows, a + b, b + a);
  }

  /** The visible-photo count is the length of the unfiltered listing, and never above the total. */
  lemma PhotosCountIsListingSize(rows: seq<Row>, priorityOrderEnabled: bool, parameterize: string -> string)
    ensures PhotosCount(rows) == |GetPhotos(rows, NoOptions.(limit := Some(|rows|)), priorityOrderEnabled, parameterize)|
    ensures PhotosCount(rows) <= PhotosCountIncludingHidden(rows)
  {
    var options := NoOptions.(limit := Some(|rows|));
    ListingSize(rows, options, priorityOrderEnabled, parameterize);
    SingleFilterConds(|rows|, "-", Camera("", ""), "-", parameterize);
  }

  /** The conditions of a listing that filters on one option only. */
  lemma SingleFilterConds(n: nat, tag: string, camera: Camera, simulation: string, parameterize: string -> string)
    requires tag != "" && simulation != ""
    ensures CondsFor(NoOptions.(limit := Some(n)), parameterize) == [HiddenNotTrue]
    ensures CondsFor(NoOptions.(limit := Some(n), tag := Some(tag)), parameterize) == [HiddenNotTrue] + [HasTag(tag)]
    ensures CondsFor(NoOptions.(limit := Some(n), camera := Some(camera)), parameterize)
      == [HiddenNotTrue] + CameraConds(camera, parameterize)
    ensures CondsFor(NoOptions.(limit := Some(n), simulation := Some(simulation)), parameterize)
      == [HiddenNotTrue] + [SimulationIs(simulation)]
  {
  }

  /** The tag count is the length of the tag's listing. */
  lemma TagCountIsListingSize(rows: seq<Row>, tag: string, priorityOrderEnabled: bool, parameterize: string -> string)
    requires tag != ""
    ensures PhotosTagCount(rows, tag) ==
      |GetPhotos(rows, NoOptions.(limit := Some(|rows|), tag := Some(tag)), priorityOrderEnabled, parameterize)|
  {
    var options := NoOptions.(limit := Some(|rows|), tag := Some(tag));
    ListingSize(rows, options, priorityOrderEnabled, parameterize);
    SingleFilterConds(|rows|, tag, Camera("", ""), "-", parameterize);
    assert [HasTag(tag)] + [HiddenNotTrue] == [HasTag(tag), HiddenNotTrue];
    SwapConds(rows, [HasTag(tag)], [HiddenNotTrue]);
  }

  /** The camera count is the length of the camera's listing. */
  lemma CameraCountIsListingSize(rows: seq<Row>, camera: Camera, priorityOrderEnabled: bool, parameterize: string -> string)
    ensures PhotosCameraCount(rows, camera, parameterize) ==
      |GetPhotos(rows, NoOptions.(limit := Some(|rows|), camera := Some(camera)), priorityOrderEnabled, parameterize)|
  {
    var options := NoOptions.(limit := Some(|rows|), camera := Some(camera));
    ListingSize(rows, options, priorityOrderEnabled, parameterize);
    var cs := CameraConds(camera, parameterize);
    SingleFilterConds(|rows|, "-", camera, "-", parameterize);
    assert cs + [HiddenNotTrue] == [MakeIs(parameterize(camera.make)), ModelIs(parameterize(camera.model)), HiddenNotTrue];
    SwapConds(rows, cs, [HiddenNotTrue]);
  }

  /** The film simulation count is the length of the simulation's listing. */
  lemma SimulationCountIsListingSize(rows: seq<Row>, simulation: string, priorityOrderEnabled: bool,
                                     parameterize: string -> string)
    requires simulation != ""
    ensures PhotosFilmSimulationCount(rows, simulation) ==
      |GetPhotos(rows, NoOptions.(limit := Some(|rows|), simulation := Some(simulation)), priorityOrderEnabled, parameterize)|
  {
    var options := NoOptions.(limit := Some(|rows|), simulation := Some(simulation));
    ListingSize(rows, options, priorityOrderEnabled, parameterize);
    SingleFilterConds(|rows|, "-", Camera("", ""), simulation, parameterize);
    assert [SimulationIs(simulation)] + [HiddenNotTrue] == [SimulationIs(simulation), HiddenNotTrue];
    SwapConds(rows, [SimulationIs(simulation)], [HiddenNotTrue]);
  }
}
