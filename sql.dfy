/**
 * The SQL the repositories build, as clause datatypes, together with a
 * renderer to text and a meaning for WHERE clauses over candidate tuples.
 *
 * Separators are explicit (`comma`) because several builders place their
 * commas by hand; `WellFormed` states when the separators make a list that
 * MySQL accepts. Meaning is two-valued: a comparison with NULL, UNKNOWN in
 * SQL, is false here. No clause the repositories build contains NOT, so a
 * WHERE list holds here exactly when it is TRUE in SQL.
 */
module Sql {
  import opened Js

  /** A column reference; an unqualified column belongs to the statement's own table. */
  datatype Column = Column(qualifier: Option<string>, name: string)

  /** The right-hand side of `key = ...` inside a `(SELECT id FROM t WHERE ...)` lookup. */
  datatype KeyValue = ByParam(param: string) | ByText(text: string)

  datatype KeyMatch = KeyMatch(column: string, value: KeyValue)

  datatype Expr =
    | Col(column: Column)
    | Param(name: string)                         // :name
    | Now                                         // NOW()
    | NullLit                                     // null
    | FreshUuid                                   // UUID()
    | SubSelect(table: string, keys: seq<KeyMatch>) // (SELECT id FROM table WHERE k1 = v1 AND ...)
    | Equals(lhs: Expr, rhs: Expr)                // a = b used as a value

  datatype CmpOp = Eq | Le | Gt

  datatype Cond =
    | Always                             // true
    | Cmp(op: CmpOp, lhs: Expr, rhs: Expr)
    | IsNull(operand: Expr)
    | Either(left: Cond, right: Cond)    // (a OR b)
    | Like(operand: Expr, param: string) // LIKE CONCAT('%', :param, '%')
    | InList(operand: Expr, param: string) // in(:param)

  datatype Selected =
    | All(qualifier: Option<string>)   // *, r.*
    | Field(column: Column)
    | CountAll                         // COUNT(*)
    | CountDistinct(column: Column)    // COUNT(DISTINCT(c))

  datatype SelectItem = SelectItem(what: Selected, alias: Option<string>, comma: bool)

  datatype JoinKind = Inner | LeftOuter

  datatype Join = Join(kind: JoinKind, table: string, alias: string, on: seq<Cond>)

  /** The fragment `pagination({ limit, page })` returns; its text is not part of this model. */
  datatype Page = Page(limit: Value, page: Value)

  /** A table in FROM or UPDATE, and the name its columns are qualified with (`AS` alias, or the bare table name). */
  datatype Source = Source(table: string, name: string, aliased: bool)

  datatype Select = Select(items: seq<SelectItem>, from: Source, joins: seq<Join>, where: seq<Cond>, page: Option<Page>)

  datatype Assignment = Assignment(column: Column, value: Expr, comma: bool)

  datatype Update = Update(target: Source, sets: seq<Assignment>, where: seq<Cond>)

  datatype InsertValue = InsertValue(value: Expr, comma: bool)

  datatype Insert = Insert(table: string, columns: seq<string>, values: seq<InsertValue>)

  datatype Delete = Delete(from: Source, where: seq<Cond>)

  datatype Statement =
    | SelectStmt(select: Select)
    | UpdateStmt(update: Update)
    | InsertStmt(insert: Insert)
    | DeleteStmt(delete: Delete)

  /** The statements one builder returns, in order (`...; SELECT ...`). */
  type Script = seq<Statement>

  // ---------------------------------------------------------------------
  // Building blocks the repositories share

  function Qualified(q: string, name: string): Expr
  {
    Col(Column(Some(q), name))
  }

  function Plain(name: string): Expr
  {
    Col(Column(None, name))
  }

  /** `q.created <= at AND (q.deleted > at OR q.deleted IS NULL)`, the visibility window of `q` at time `at`. */
  function Window(q: Option<string>, at: Expr): seq<Cond>
  {
    [Cmp(Le, Col(Column(q, "created")), at),
     Either(Cmp(Gt, Col(Column(q, "deleted")), at), IsNull(Col(Column(q, "deleted"))))]
  }

  /**
   * `${c1 ? x1 : ''} ${c2 ? x2 : ''} ...`: each fragment, in order, only when
   * the builder parameter paired with it is truthy.
   */
  function Present<T>(opts: seq<(Value, T)>): seq<T>
  {
    if opts == [] then []
    else (if Truthy(opts[0].0) then [opts[0].1] else []) + Present(opts[1..])
  }

  /** A single optional fragment is there exactly when its switch is truthy. */
  lemma PresentOne<T>(v: Value, x: T)
    ensures Present([(v, x)]) == if Truthy(v) then [x] else []
  {
    assert [(v, x)][1..] == [];
  }

  /** A fragment is present exactly when one of its switches is truthy. */
  lemma {:induction false} PresentMembership<T>(opts: seq<(Value, T)>, x: T)
    ensures x in Present(opts) <==> exists i | 0 <= i < |opts| :: Truthy(opts[i].0) && opts[i].1 == x
    decreases |opts|
  {
    if opts != [] {
      PresentMembership(opts[1..], x);
      var head := if Truthy(opts[0].0) then [opts[0].1] else [];
      assert Present(opts) == head + Present(opts[1..]);
      if exists i | 0 <= i < |opts| :: Truthy(opts[i].0) && opts[i].1 == x {
        var i :| 0 <= i < |opts| && Truthy(opts[i].0) && opts[i].1 == x;
        if i > 0 {
          assert opts[1..][i - 1] == opts[i];
        }
      }
      if exists i | 0 <= i < |opts[1..]| :: Truthy(opts[1..][i].0) && opts[1..][i].1 == x {
        var i :| 0 <= i < |opts[1..]| && Truthy(opts[1..][i].0) && opts[1..][i].1 == x;
        assert opts[i + 1] == opts[1..][i];
      }
    }
  }

  /** A fragment that nothing else in the list equals is in the list exactly when its own switch is truthy. */
  lemma GatedPresence<T>(fixed: seq<T>, opts: seq<(Value, T)>, i: nat)
    requires i < |opts| && opts[i].1 !in fixed
    requires forall j | 0 <= j < |opts| && j != i :: opts[j].1 != opts[i].1
    ensures opts[i].1 in fixed + Present(opts) <==> Truthy(opts[i].0)
  {
    PresentMembership(opts, opts[i].1);
  }

  /** `_pagination` of the list builders: the fragment on the list query, nothing on the count query. */
  function PageOf(p: Props): Page
  {
    Page(Get(p, "limit"), Get(p, "page"))
  }

  /** A select list in which every item but the last is followed by a comma. */
  function Items(selected: seq<(Selected, Option<string>)>): (r: seq<SelectItem>)
    ensures |r| == |selected|
    ensures forall i :: 0 <= i < |r| ==> r[i].what == selected[i].0 && r[i].alias == selected[i].1
    ensures forall i :: 0 <= i < |r| ==> (r[i].comma <==> i < |r| - 1)
  {
    seq(|selected|, i requires 0 <= i < |selected| => SelectItem(selected[i].0, selected[i].1, i < |selected| - 1))
  }

  /** `count || default`: the count expression replaces the whole default select list. */
  function CountOr(count: Option<SelectItem>, default: seq<SelectItem>): seq<SelectItem>
  {
    if count.Some? then [count.value] else default
  }

  // ---------------------------------------------------------------------
  // Separators

  /** A comma-separated list: non-empty, a comma after every item but the last, none after the last. */
  predicate Separated(commas: seq<bool>)
  {
    |commas| >= 1 && !commas[|commas| - 1] && forall i :: 0 <= i < |commas| - 1 ==> commas[i]
  }

  function ItemCommas(items: seq<SelectItem>): seq<bool>
  {
    seq(|items|, i requires 0 <= i < |items| => items[i].comma)
  }

  function SetCommas(sets: seq<Assignment>): seq<bool>
  {
    seq(|sets|, i requires 0 <= i < |sets| => sets[i].comma)
  }

  function ValueCommas(values: seq<InsertValue>): seq<bool>
  {
    seq(|values|, i requires 0 <= i < |values| => values[i].comma)
  }

  /** The statement's hand-placed separators make lists MySQL accepts. */
  predicate WellFormed(s: Statement)
  {
    match s
    case SelectStmt(q) => Separated(ItemCommas(q.items))
    case UpdateStmt(u) => Separated(SetCommas(u.sets))
    case InsertStmt(i) => Separated(ValueCommas(i.values)) && |i.values| == |i.columns|
    case DeleteStmt(_) => true
  }

  predicate ScriptWellFormed(script: Script)
  {
    forall k :: 0 <= k < |script| ==> WellFormed(script[k])
  }

  // ---------------------------------------------------------------------
  // Rendering (whitespace normalised to single spaces)

  function JoinText(parts: seq<string>, sep: string): string
  {
    if parts == [] then ""
    else if |parts| == 1 then parts[0]
    else parts[0] + sep + JoinText(parts[1..], sep)
  }

  function ColumnText(c: Column): string
  {
    if c.qualifier.Some? then c.qualifier.value + "." + c.name else c.name
  }

  function KeyText(k: KeyMatch): string
  {
    k.column + " = " + (match k.value case ByParam(p) => ":" + p case ByText(t) => "'" + t + "'")
  }

  function KeysText(keys: seq<KeyMatch>): string
  {
    if keys == [] then ""
    else if |keys| == 1 then KeyText(keys[0])
    else KeyText(keys[0]) + " AND " + KeysText(keys[1..])
  }

  function ExprText(e: Expr): string
  {
    match e
    case Col(c) => ColumnText(c)
    case Param(n) => ":" + n
    case Now => "NOW()"
    case NullLit => "null"
    case FreshUuid => "UUID()"
    case SubSelect(t, keys) => "(SELECT id FROM " + t + " WHERE " + KeysText(keys) + ")"
    case Equals(l, r) => ExprText(l) + " = " + ExprText(r)
  }

  function CondText(c: Cond): string
  {
    match c
    case Always => "true"
    case Cmp(op, l, r) => ExprText(l) + (match op case Eq => " = " case Le => " <= " case Gt => " > ") + ExprText(r)
    case IsNull(e) => ExprText(e) + " IS NULL"
    case Either(a, b) => "(" + CondText(a) + " OR " + CondText(b) + ")"
    case Like(e, p) => ExprText(e) + " LIKE CONCAT('%',:" + p + ",'%')"
    case InList(e, p) => ExprText(e) + " in(:" + p + ")"
  }

  function CondsText(cs: seq<Cond>): string
  {
    if cs == [] then ""
    else if |cs| == 1 then CondText(cs[0])
    else CondText(cs[0]) + " AND " + CondsText(cs[1..])
  }

  function Comma(c: bool): string
  {
    if c then ", " else " "
  }

  function SelectedText(s: Selected): string
  {
    match s
    case All(q) => if q.Some? then q.value + ".*" else "*"
    case Field(c) => ColumnText(c)
    case CountAll => "COUNT(*)"
    case CountDistinct(c) => "COUNT(DISTINCT(" + ColumnText(c) + "))"
  }

  function ItemsText(items: seq<SelectItem>): string
  {
    if items == [] then ""
    else
      var it := items[0];
      SelectedText(it.what) + (if it.alias.Some? then " AS " + it.alias.value else "") + Comma(it.comma) + ItemsText(items[1..])
  }

  function JoinsText(joins: seq<Join>): string
  {
    if joins == [] then ""
    else
      var j := joins[0];
      (if j.kind == Inner then "JOIN " else "LEFT JOIN ") + j.table + " AS " + j.alias + " ON " + CondsText(j.on) + " " + JoinsText(joins[1..])
  }

  function SetsText(sets: seq<Assignment>): string
  {
    if sets == [] then ""
    else ColumnText(sets[0].column) + " = " + ExprText(sets[0].value) + Comma(sets[0].comma) + SetsText(sets[1..])
  }

  function ValuesText(values: seq<InsertValue>): string
  {
    if values == [] then ""
    else ExprText(values[0].value) + Comma(values[0].comma) + ValuesText(values[1..])
  }

  function SourceText(f: Source): string
  {
    f.table + (if f.aliased then " AS " + f.name else "")
  }

  function WhereText(cs: seq<Cond>): string
  {
    if cs == [] then "" else " WHERE " + CondsText(cs)
  }

  /** The text of one statement; `pageText` stands for the text `pagination()` returned. */
  function StatementText(s: Statement, pageText: string): string
  {
    match s
    case SelectStmt(q) =>
      "SELECT " + ItemsText(q.items) + "FROM " + SourceText(q.from) + " " + JoinsText(q.joins) +
      WhereText(q.where) + (if q.page.Some? then " " + pageText else "")
    case UpdateStmt(u) =>
      "UPDATE " + SourceText(u.target) + " SET " + SetsText(u.sets) + WhereText(u.where)
    case InsertStmt(i) =>
      "INSERT INTO " + i.table + " (" + JoinText(i.columns, ", ") + ") VALUES (" + ValuesText(i.values) + ")"
    case DeleteStmt(d) =>
      "DELETE FROM " + SourceText(d.from) + WhereText(d.where)
  }

  function ScriptText(script: Script, pageText: string): string
  {
    if script == [] then "" else StatementText(script[0], pageText) + ";\n" + ScriptText(script[1..], pageText)
  }

  /** Text found in `rest` is still found after a prefix is put before it. */
  lemma ContainsAfter(head: string, rest: string, p: string)
    requires Contains(rest, p)
    ensures Contains(head + rest, p)
  {
    var i :| 0 <= i <= |rest| - |p| && OccursAt(rest, p, i);
    assert (head + rest)[|head| + i..|head| + i + |p|] == rest[i..i + |p|];
    assert OccursAt(head + rest, p, |head| + i);
  }

  /** Every condition of a WHERE list appears, as text, in the rendered list. */
  lemma {:induction false} CondTextInWhere(cs: seq<Cond>, k: nat)
    requires k < |cs|
    ensures Contains(CondsText(cs), CondText(cs[k]))
    decreases |cs|
  {
    var whole := CondsText(cs);
    var c := CondText(cs[0]);
    if |cs| == 1 {
      assert whole == c;
      assert OccursAt(whole, c, 0);
    } else {
      var rest := CondsText(cs[1..]);
      assert whole == c + (" AND " + rest);
      if k == 0 {
        assert OccursAt(whole, c, 0);
      } else {
        CondTextInWhere(cs[1..], k - 1);
        assert cs[1..][k - 1] == cs[k];
        ContainsAfter(c + " AND ", rest, CondText(cs[k]));
        assert c + (" AND " + rest) == (c + " AND ") + rest;
      }
    }
  }

  // ---------------------------------------------------------------------
  // Meaning of conditions over a candidate tuple

  /**
   * A candidate tuple: the row each alias of the FROM and JOIN clauses
   * stands for; an alias a LEFT JOIN found no row for is absent.
   */
  type Tuple = map<string, Props>

  /**
   * The id `(SELECT id FROM table WHERE column = value AND ...)` finds for
   * the given columns and values (NULL when no row matches).
   */
  type Lookup = (string, seq<(string, Value)>) -> Value

  /**
   * What a statement runs against: its named parameters, the database clock
   * (for NOW()), the id lookups and the value UUID() generates. Timestamps
   * are numbers.
   */
  datatype Env = Env(params: Props, dbNow: real, ids: Lookup, newUuid: Value)

  /** `undefined` reaches SQL as NULL. */
  function Sqlish(v: Value): Value
  {
    if v == Undefined then Null else v
  }

  predicate IsNullValue(v: Value)
  {
    v == Null || v == Undefined
  }

  function RowOf(t: Tuple, alias: string): Props
  {
    if alias in t then t[alias] else map[]
  }

  /** The columns and values of a sub-select's WHERE, parameters filled in. */
  function KeyValues(keys: seq<KeyMatch>, params: Props): (r: seq<(string, Value)>)
    ensures |r| == |keys|
    ensures forall i | 0 <= i < |r| :: r[i].0 == keys[i].column
  {
    if keys == [] then []
    else
      var v := match keys[0].value case ByParam(p) => Sqlish(Get(params, p)) case ByText(t) => Str(t);
      [(keys[0].column, v)] + KeyValues(keys[1..], params)
  }

  /** SQL `=` on two non-NULL values. */
  predicate SqlEq(a: Value, b: Value)
  {
    !IsNullValue(a) && !IsNullValue(b) && a == b
  }

  predicate Before(a: Value, b: Value)
  {
    a.Num? && b.Num? && a.n <= b.n
  }

  predicate After(a: Value, b: Value)
  {
    a.Num? && b.Num? && a.n > b.n
  }

  function Eval(e: Expr, env: Env, t: Tuple, home: string): Value
  {
    match e
    case Col(c) => Sqlish(Get(RowOf(t, if c.qualifier.Some? then c.qualifier.value else home), c.name))
    case Param(n) => Sqlish(Get(env.params, n))
    case Now => Num(env.dbNow)
    case NullLit => Null
    case FreshUuid => env.newUuid
    case SubSelect(table, keys) => Sqlish(env.ids(table, KeyValues(keys, env.params)))
    case Equals(l, r) =>
      var a, b := Eval(l, env, t, home), Eval(r, env, t, home);
      if IsNullValue(a) || IsNullValue(b) then Null else if a == b then Num(1.0) else Num(0.0)
  }

  predicate InValues(v: Value, items: seq<Value>)
  {
    exists i | 0 <= i < |items| :: SqlEq(v, items[i])
  }

  /** `a LIKE CONCAT('%', pat, '%')`: the pattern text occurs in the value's text. */
  predicate Substring(a: Value, pat: Value)
  {
    a.Str? && pat.Str? && Contains(a.s, pat.s)
  }

  /** `a in(:list)`: the driver expands an array into a value list; a single value stands alone. */
  predicate OneOf(a: Value, list: Value)
  {
    if list.Arr? then InValues(a, list.items) else SqlEq(a, list)
  }

  predicate Compares(op: CmpOp, a: Value, b: Value)
  {
    match op
    case Eq => SqlEq(a, b)
    case Le => Before(a, b)
    case Gt => After(a, b)
  }

  predicate Holds(c: Cond, env: Env, t: Tuple, home: string)
  {
    match c
    case Always => true
    case Cmp(op, l, r) =>
      Compares(op, Eval(l, env, t, home), Eval(r, env, t, home))
    case IsNull(e) => IsNullValue(Eval(e, env, t, home))
    case Either(x, y) => Holds(x, env, t, home) || Holds(y, env, t, home)
    case Like(e, p) => Substring(Eval(e, env, t, home), Get(env.params, p))
    case InList(e, p) => OneOf(Eval(e, env, t, home), Sqlish(Get(env.params, p)))
  }

  /** All conditions of a list hold: the conjunction a WHERE or ON clause spells with AND. */
  predicate AllHold(cs: seq<Cond>, env: Env, t: Tuple, home: string)
  {
    cs == [] || (Holds(cs[0], env, t, home) && AllHold(cs[1..], env, t, home))
  }

  lemma {:induction false} AllHoldAppend(a: seq<Cond>, b: seq<Cond>, env: Env, t: Tuple, home: string)
    ensures AllHold(a + b, env, t, home) <==> AllHold(a, env, t, home) && AllHold(b, env, t, home)
    decreases |a|
  {
    if a != [] {
      assert (a + b)[0] == a[0];
      assert (a + b)[1..] == a[1..] + b;
      AllHoldAppend(a[1..], b, env, t, home);
    } else {
      assert a + b == b;
    }
  }

  /** A list headed by one condition holds when that condition and the rest hold. */
  lemma AllHoldCons(c: Cond, rest: seq<Cond>, env: Env, t: Tuple, home: string)
    ensures AllHold([c] + rest, env, t, home) <==> Holds(c, env, t, home) && AllHold(rest, env, t, home)
  {
    assert ([c] + rest)[1..] == rest;
  }

  /** The gated conditions hold exactly when each one whose switch is truthy holds; a falsy switch constrains nothing. */
  lemma {:induction false} AllHoldPresent(opts: seq<(Value, Cond)>, env: Env, t: Tuple, home: string)
    ensures AllHold(Present(opts), env, t, home) <==>
            forall i | 0 <= i < |opts| :: Truthy(opts[i].0) ==> Holds(opts[i].1, env, t, home)
    decreases |opts|
  {
    if opts != [] {
      AllHoldPresent(opts[1..], env, t, home);
      var head := if Truthy(opts[0].0) then [opts[0].1] else [];
      assert Present(opts) == head + Present(opts[1..]);
      AllHoldAppend(head, Present(opts[1..]), env, t, home);
      if Truthy(opts[0].0) {
        assert head[1..] == [];
      }
      assert forall i | 1 <= i < |opts| :: opts[i] == opts[1..][i - 1];
    }
  }

  /** A tuple is selected by a query when every inner join's ON condition and every WHERE condition hold. */
  predicate Admits(q: Select, env: Env, t: Tuple)
  {
    (forall k :: 0 <= k < |q.joins| && q.joins[k].kind == Inner ==> AllHold(q.joins[k].on, env, t, q.from.name)) &&
    AllHold(q.where, env, t, q.from.name)
  }

  // ---------------------------------------------------------------------
  // Name resolution

  /** The unqualified columns an expression names; a sub-select's own columns resolve inside it. */
  function ExprPlainNames(e: Expr): set<string>
  {
    match e
    case Col(c) => if c.qualifier.None? then {c.name} else {}
    case Equals(lhs, rhs) => ExprPlainNames(lhs) + ExprPlainNames(rhs)
    case _ => {}
  }

  function CondPlainNames(c: Cond): set<string>
  {
    match c
    case Always => {}
    case Cmp(_, lhs, rhs) => ExprPlainNames(lhs) + ExprPlainNames(rhs)
    case IsNull(e) => ExprPlainNames(e)
    case Either(l, r) => CondPlainNames(l) + CondPlainNames(r)
    case Like(e, _) => ExprPlainNames(e)
    case InList(e, _) => ExprPlainNames(e)
  }

  function CondsPlainNames(cs: seq<Cond>): set<string>
  {
    set k, n | 0 <= k < |cs| && n in CondPlainNames(cs[k]) :: n
  }

  /** The names of a concatenation are both parts' names. */
  lemma CondsPlainNamesAppend(a: seq<Cond>, b: seq<Cond>)
    ensures CondsPlainNames(a + b) == CondsPlainNames(a) + CondsPlainNames(b)
  {
    forall n | n in CondsPlainNames(a + b)
      ensures n in CondsPlainNames(a) + CondsPlainNames(b)
    {
      var k :| 0 <= k < |a + b| && n in CondPlainNames((a + b)[k]);
      if k >= |a| {
        assert (a + b)[k] == b[k - |a|];
      }
    }
    forall n | n in CondsPlainNames(a)
      ensures n in CondsPlainNames(a + b)
    {
      var k :| 0 <= k < |a| && n in CondPlainNames(a[k]);
      assert (a + b)[k] == a[k];
    }
    forall n | n in CondsPlainNames(b)
      ensures n in CondsPlainNames(a + b)
    {
      var k :| 0 <= k < |b| && n in CondPlainNames(b[k]);
      assert (a + b)[|a| + k] == b[k];
    }
  }

  /** A single condition's list names what the condition names. */
  lemma CondsPlainNamesOne(c: Cond)
    ensures CondsPlainNames([c]) == CondPlainNames(c)
  {
    forall n | n in CondPlainNames(c)
      ensures n in CondsPlainNames([c])
    {
      assert [c][0] == c;
    }
  }

  /** The unqualified columns of a query's WHERE and ON conditions. */
  function PlainNames(q: Select): set<string>
  {
    CondsPlainNames(q.where) + (set j, n | 0 <= j < |q.joins| && n in CondsPlainNames(q.joins[j].on) :: n)
  }

  /** The tables a query reads: the FROM table, then each joined one. */
  function SourceTables(q: Select): seq<string>
  {
    [q.from.table] + seq(|q.joins|, j requires 0 <= j < |q.joins| => q.joins[j].table)
  }

  /**
   * Two of the tables a query reads have a column `name`, by the table
   * columns `columns`: MySQL refuses an unqualified `name` as ambiguous
   * (error 1052) and runs nothing.
   */
  predicate Ambiguous(q: Select, name: string, columns: string -> set<string>)
  {
    var tables := SourceTables(q);
    exists i, j | 0 <= i < j < |tables| :: name in columns(tables[i]) && name in columns(tables[j])
  }

  /** Every unqualified column of the query's conditions is a column of at most one of its tables. */
  predicate Resolves(q: Select, columns: string -> set<string>)
  {
    forall n | n in PlainNames(q) :: !Ambiguous(q, n, columns)
  }

  /** Resolution depends only on the tables and the conditions: two queries that share them resolve alike. */
  lemma ResolvesAlike(q1: Select, q2: Select, columns: string -> set<string>)
    requires q1.from == q2.from && q1.joins == q2.joins && q1.where == q2.where
    ensures Resolves(q1, columns) <==> Resolves(q2, columns)
  {
    assert PlainNames(q1) == PlainNames(q2);
    assert SourceTables(q1) == SourceTables(q2);
  }

  // ---------------------------------------------------------------------
  // The visibility window

  /** A row is visible at `now` when it was created no later than `now` and is not deleted, or deleted only after `now`. */
  predicate Visible(row: Props, now: Value)
  {
    Before(Get(row, "created"), now) && (After(Get(row, "deleted"), now) || IsNullValue(Get(row, "deleted")))
  }

  /** The window conditions hold exactly when the alias's row is visible at the window's time. */
  lemma WindowMeans(q: string, at: Expr, env: Env, t: Tuple, home: string)
    requires at == Param("now") || at == Now
    ensures AllHold(Window(Some(q), at), env, t, home) <==> Visible(RowOf(t, q), Eval(at, env, t, home))
  {
    var w := Window(Some(q), at);
    assert w[1..][1..] == [];
    var row := RowOf(t, q);
    var now := Eval(at, env, t, home);
    assert Holds(w[0], env, t, home) <==> Before(Get(row, "created"), now);
    assert Holds(w[1], env, t, home) <==> After(Get(row, "deleted"), now) || IsNullValue(Get(row, "deleted"));
    assert AllHold(w[1..][1..], env, t, home);
    assert AllHold(w[1..], env, t, home) <==> Holds(w[1], env, t, home);
    assert AllHold(w, env, t, home) <==> Holds(w[0], env, t, home) && AllHold(w[1..], env, t, home);
  }

  /** The same, for a statement's own unqualified table. */
  lemma HomeWindowMeans(at: Expr, env: Env, t: Tuple, home: string)
    requires at == Param("now") || at == Now
    ensures AllHold(Window(None, at), env, t, home) <==> Visible(RowOf(t, home), Eval(at, env, t, home))
  {
    var w := Window(None, at);
    assert w[1..][1..] == [];
    var row := RowOf(t, home);
    var now := Eval(at, env, t, home);
    assert Holds(w[0], env, t, home) <==> Before(Get(row, "created"), now);
    assert Holds(w[1], env, t, home) <==> After(Get(row, "deleted"), now) || IsNullValue(Get(row, "deleted"));
    assert AllHold(w[1..][1..], env, t, home);
    assert AllHold(w[1..], env, t, home) <==> Holds(w[1], env, t, home);
    assert AllHold(w, env, t, home) <==> Holds(w[0], env, t, home) && AllHold(w[1..], env, t, home);
  }

  /**
   * The shape of every list query's WHERE: the window of `q` at `:now`,
   * `true`, then the filters. It holds exactly when the row of `q` is
   * visible and the filters hold.
   */
  lemma WindowThen(q: Option<string>, rest: seq<Cond>, env: Env, t: Tuple, home: string)
    ensures AllHold(Window(q, Param("now")) + [Always] + rest, env, t, home) <==>
            Visible(RowOf(t, if q.Some? then q.value else home), Get(env.params, "now")) && AllHold(rest, env, t, home)
  {
    var w := Window(q, Param("now"));
    AllHoldAppend(w + [Always], rest, env, t, home);
    AllHoldAppend(w, [Always], env, t, home);
    assert [Always][1..] == [];
    if q.Some? {
      WindowMeans(q.value, Param("now"), env, t, home);
    } else {
      HomeWindowMeans(Param("now"), env, t, home);
    }
  }

  lemma ContainsWithin(a: string, m: string, b: string, p: string)
    requires Contains(m, p)
    ensures Contains(a + m + b, p)
  {
    var i :| 0 <= i <= |m| - |p| && OccursAt(m, p, i);
    var whole := a + m + b;
    assert whole[|a| + i..|a| + i + |p|] == m[i..i + |p|];
    assert OccursAt(whole, p, |a| + i);
  }

  /** Each WHERE condition of a SELECT appears, as text, in the rendered statement. */
  lemma WhereCondInText(q: Select, pageText: string, k: nat)
    requires k < |q.where|
    ensures Contains(StatementText(SelectStmt(q), pageText), CondText(q.where[k]))
  {
    CondTextInWhere(q.where, k);
    var head := "SELECT " + ItemsText(q.items) + "FROM " + SourceText(q.from) + " " + JoinsText(q.joins);
    var conds := CondsText(q.where);
    var after := if q.page.Some? then " " + pageText else "";
    assert WhereText(q.where) == " WHERE " + conds;
    assert StatementText(SelectStmt(q), pageText) == head + WhereText(q.where) + after;
    assert head + (" WHERE " + conds) + after == (head + " WHERE ") + conds + after;
    ContainsWithin(head + " WHERE ", conds, after, CondText(q.where[k]));
  }

  // ---------------------------------------------------------------------
  // Updates

  /** An UPDATE changes the row when its WHERE list holds of it. */
  predicate Touches(u: Update, env: Env, row: Props)
  {
    AllHold(u.where, env, map[u.target.name := row], u.target.name)
  }

  /** The row after the assignments, each evaluated against the row as it was. */
  function Assign(sets: seq<Assignment>, env: Env, home: string, row: Props): Props
  {
    if sets == [] then row
    else Assign(sets[1..], env, home, row)[sets[0].column.name := Eval(sets[0].value, env, map[home := row], home)]
  }

  /** The row an UPDATE leaves: assigned when touched, unchanged otherwise. */
  function ApplyUpdate(u: Update, env: Env, row: Props): (r: Props)
    ensures !Touches(u, env, row) ==> r == row
  {
    if Touches(u, env, row) then Assign(u.sets, env, u.target.name, row) else row
  }

  /** The last assignment to a column is the one that sticks; an unassigned column is unchanged. */
  lemma {:induction false} AssignColumn(sets: seq<Assignment>, env: Env, home: string, row: Props, name: string)
    ensures (exists k | 0 <= k < |sets| :: sets[k].column.name == name) ==> name in Assign(sets, env, home, row)
    ensures (forall k | 0 <= k < |sets| :: sets[k].column.name != name) ==> Get(Assign(sets, env, home, row), name) == Get(row, name)
    ensures |sets| > 0 && sets[0].column.name == name && (forall k | 1 <= k < |sets| :: sets[k].column.name != name) ==>
              Assign(sets, env, home, row)[name] == Eval(sets[0].value, env, map[home := row], home)
  {
    if sets != [] {
      AssignColumn(sets[1..], env, home, row, name);
      if exists k | 0 <= k < |sets| :: sets[k].column.name == name {
        var k :| 0 <= k < |sets| && sets[k].column.name == name;
        if k > 0 {
          assert sets[1..][k - 1].column.name == name;
        }
      }
      if forall k | 0 <= k < |sets| :: sets[k].column.name != name {
        assert forall k | 0 <= k < |sets[1..]| :: sets[1..][k].column.name != name by {
          forall k | 0 <= k < |sets[1..]| ensures sets[1..][k].column.name != name {
            assert sets[1..][k] == sets[k + 1];
          }
        }
      }
    }
  }

  /**
   * A soft delete guarded by `deleted IS NULL` that stamps a non-NULL
   * `deleted` touches nothing the second time: it matches only rows not yet
   * deleted, and the row it stamped is deleted.
   */
  lemma SoftDeleteOnce(u: Update, env: Env, row: Props, k: nat)
    requires k < |u.where| && u.where[k] in {IsNull(Plain("deleted")), IsNull(Qualified(u.target.name, "deleted"))}
    requires |u.sets| > 0 && u.sets[0].column.name == "deleted"
    requires forall j | 1 <= j < |u.sets| :: u.sets[j].column.name != "deleted"
    requires !IsNullValue(Eval(u.sets[0].value, env, map[u.target.name := row], u.target.name))
    ensures Touches(u, env, row) ==> IsNullValue(Get(row, "deleted"))
    ensures Touches(u, env, row) ==> !Touches(u, env, ApplyUpdate(u, env, row))
  {
    var home := u.target.name;
    forall r: Props | Touches(u, env, r)
      ensures IsNullValue(Get(r, "deleted"))
    {
      AllHoldAt(u.where, env, map[home := r], home, k);
    }
    if Touches(u, env, row) {
      AssignColumn(u.sets, env, home, row, "deleted");
    }
  }

  /** Each condition of a list that holds, holds. */
  lemma {:induction false} AllHoldAt(cs: seq<Cond>, env: Env, t: Tuple, home: string, k: nat)
    requires k < |cs| && AllHold(cs, env, t, home)
    ensures Holds(cs[k], env, t, home)
    decreases k
  {
    if k > 0 {
      AllHoldAt(cs[1..], env, t, home, k - 1);
    }
  }

  // ---------------------------------------------------------------------
  // Shapes the write builders share

  /** `<q.>uuid = :uuid` */
  function ByUuid(q: Option<string>): Cond
  {
    Cmp(Eq, Col(Column(q, "uuid")), Param("uuid"))
  }

  /** `SELECT <star>.* FROM <table> WHERE <q.>uuid = :uuid`, the re-read after a write. */
  function Reselect(table: string, name: string, star: Option<string>, q: Option<string>): Select
  {
    Select([SelectItem(All(star), None, false)], Source(table, name, false), [], [ByUuid(q)], None)
  }

  /** `<q.>deleted IS NULL` */
  function NotDeleted(q: Option<string>): Cond
  {
    IsNull(Col(Column(q, "deleted")))
  }

  /** Both qualifications name the statement's own table. */
  predicate OwnTable(q: Option<string>, name: string)
  {
    q.None? || q == Some(name)
  }

  /** `WHERE uuid = :uuid AND deleted IS NULL` changes exactly the uuid's row, and only while it is not deleted. */
  lemma UuidGuardMeans(u: Update, env: Env, row: Props, q1: Option<string>, q2: Option<string>)
    requires OwnTable(q1, u.target.name) && OwnTable(q2, u.target.name)
    requires u.where == [ByUuid(q1), NotDeleted(q2)]
    ensures Touches(u, env, row) <==> SqlEq(Get(row, "uuid"), Get(env.params, "uuid")) && IsNullValue(Get(row, "deleted"))
  {
    var home := u.target.name;
    var t := map[home := row];
    assert RowOf(t, home) == row;
    assert u.where[1..][1..] == [];
    assert Holds(u.where[0], env, t, home) <==> SqlEq(Get(row, "uuid"), Get(env.params, "uuid"));
    assert Holds(u.where[1], env, t, home) <==> IsNullValue(Get(row, "deleted"));
    assert AllHold(u.where[1..][1..], env, t, home);
    assert AllHold(u.where[1..], env, t, home) <==> Holds(u.where[1], env, t, home);
  }

  /**
   * The soft delete shape, `SET deleted = v, ... WHERE uuid = :uuid AND
   * deleted IS NULL`: it changes only the uuid's row while that row is not
   * deleted, stamps `deleted` with `v`, and, when `v` is not NULL, a second
   * run changes nothing.
   */
  lemma SoftDeleteMeans(u: Update, env: Env, row: Props, q1: Option<string>, q2: Option<string>)
    requires OwnTable(q1, u.target.name) && OwnTable(q2, u.target.name)
    requires u.where == [ByUuid(q1), NotDeleted(q2)]
    requires |u.sets| > 0 && u.sets[0].column.name == "deleted"
    requires forall j | 1 <= j < |u.sets| :: u.sets[j].column.name != "deleted"
    ensures Touches(u, env, row) <==> SqlEq(Get(row, "uuid"), Get(env.params, "uuid")) && IsNullValue(Get(row, "deleted"))
    ensures Touches(u, env, row) ==>
              Get(ApplyUpdate(u, env, row), "deleted") == Eval(u.sets[0].value, env, map[u.target.name := row], u.target.name)
    ensures Touches(u, env, row) && !IsNullValue(Eval(u.sets[0].value, env, map[u.target.name := row], u.target.name)) ==>
              !Touches(u, env, ApplyUpdate(u, env, row))
  {
    UuidGuardMeans(u, env, row, q1, q2);
    if Touches(u, env, row) {
      AssignColumn(u.sets, env, u.target.name, row, "deleted");
      if !IsNullValue(Eval(u.sets[0].value, env, map[u.target.name := row], u.target.name)) {
        SoftDeleteOnce(u, env, row, 1);
      }
    }
  }

  /** A DELETE removes the rows its WHERE list holds of. */
  predicate Removes(d: Delete, env: Env, row: Props)
  {
    AllHold(d.where, env, map[d.from.name := row], d.from.name)
  }

  /** `DELETE ... WHERE uuid = :uuid` removes the uuid's row whether or not it is already soft-deleted. */
  lemma HardDeleteMeans(d: Delete, env: Env, row: Props, q: Option<string>)
    requires OwnTable(q, d.from.name) && d.where == [ByUuid(q)]
    ensures Removes(d, env, row) <==> SqlEq(Get(row, "uuid"), Get(env.params, "uuid"))
  {
    var home := d.from.name;
    var t := map[home := row];
    assert RowOf(t, home) == row;
    assert d.where[1..] == [];
    assert Holds(d.where[0], env, t, home) <==> SqlEq(Get(row, "uuid"), Get(env.params, "uuid"));
    assert AllHold(d.where[1..], env, t, home);
  }

  /** The value the first assignment to `name` whose switch is truthy gives, if any. */
  function GatedValue(opts: seq<(Value, Assignment)>, name: string): Option<Expr>
  {
    if opts == [] then None
    else if Truthy(opts[0].0) && opts[0].1.column.name == name then Some(opts[0].1.value)
    else GatedValue(opts[1..], name)
  }

  /**
   * Gated assignments followed by fixed ones: a column the fixed part does
   * not assign ends up with the value of its gated assignment when that is
   * switched on, and keeps its old value otherwise.
   */
  lemma {:induction false} GatedAssignEffect(opts: seq<(Value, Assignment)>, fixed: seq<Assignment>,
                                             env: Env, home: string, row: Props, name: string)
    requires forall k | 0 <= k < |fixed| :: fixed[k].column.name != name
    ensures Get(Assign(Present(opts) + fixed, env, home, row), name) ==
            match GatedValue(opts, name)
            case Some(e) => Eval(e, env, map[home := row], home)
            case None => Get(row, name)
    decreases |opts|
  {
    if opts == [] {
      assert Present(opts) + fixed == fixed;
      AssignColumn(fixed, env, home, row, name);
    } else {
      GatedAssignEffect(opts[1..], fixed, env, home, row, name);
      var rest := Present(opts[1..]) + fixed;
      if Truthy(opts[0].0) {
        assert Present(opts) == [opts[0].1] + Present(opts[1..]);
        assert Present(opts) + fixed == [opts[0].1] + rest;
        AssignFirst(opts[0].1, rest, env, home, row, name);
        assert GatedValue(opts, name) == if opts[0].1.column.name == name then Some(opts[0].1.value) else GatedValue(opts[1..], name);
      } else {
        assert Present(opts) == Present(opts[1..]);
        assert GatedValue(opts, name) == GatedValue(opts[1..], name);
      }
    }
  }

  /** Gated assignments to other columns, then `last`: the column `last` assigns ends with its value. */
  lemma GatedThenLast(opts: seq<(Value, Assignment)>, last: Assignment, env: Env, home: string, row: Props)
    requires forall i | 0 <= i < |opts| :: opts[i].1.column.name != last.column.name
    ensures Get(Assign(Present(opts) + [last], env, home, row), last.column.name) == Eval(last.value, env, map[home := row], home)
  {
    var ps := Present(opts);
    forall k | 0 <= k < |ps|
      ensures ps[k].column.name != last.column.name
    {
      PresentMembership(opts, ps[k]);
    }
    AssignSkip(ps, [last], env, home, row, last.column.name);
    AssignFirst(last, [], env, home, row, last.column.name);
    assert [last] + [] == [last];
  }

  /** The first assignment of a list is overridden by nothing but a later one to the same column. */
  lemma AssignFirst(a: Assignment, rest: seq<Assignment>, env: Env, home: string, row: Props, name: string)
    ensures Get(Assign([a] + rest, env, home, row), name) ==
            if a.column.name == name then Eval(a.value, env, map[home := row], home) else Get(Assign(rest, env, home, row), name)
  {
    assert ([a] + rest)[1..] == rest;
  }

  /** Assignments to other columns in front of a list do not change what the list gives a column. */
  lemma {:induction false} AssignSkip(a: seq<Assignment>, b: seq<Assignment>, env: Env, home: string, row: Props, name: string)
    requires forall k | 0 <= k < |a| :: a[k].column.name != name
    ensures Get(Assign(a + b, env, home, row), name) == Get(Assign(b, env, home, row), name)
    decreases |a|
  {
    if a != [] {
      assert (a + b)[1..] == a[1..] + b;
      AssignSkip(a[1..], b, env, home, row, name);
    } else {
      assert a + b == b;
    }
  }

  /** Gated items that each carry their comma, closed by one item without: the list is well separated. */
  lemma {:induction false} GatedSetsSeparated(opts: seq<(Value, Assignment)>, last: Assignment)
    requires forall i | 0 <= i < |opts| :: opts[i].1.comma
    requires !last.comma
    ensures Separated(SetCommas(Present(opts) + [last]))
  {
    var ps := Present(opts);
    forall k | 0 <= k < |ps|
      ensures ps[k].comma
    {
      PresentMembership(opts, ps[k]);
    }
    var s := ps + [last];
    assert forall i | 0 <= i < |s| - 1 :: SetCommas(s)[i] == ps[i].comma;
  }

  /** The value an INSERT writes into `column`, matched by position. */
  function ValueOf(i: Insert, column: string): Option<Expr>
  {
    ValueAt(i.columns, i.values, column)
  }

  function ValueAt(columns: seq<string>, values: seq<InsertValue>, column: string): Option<Expr>
  {
    if columns == [] || values == [] then None
    else if columns[0] == column then Some(values[0].value)
    else ValueAt(columns[1..], values[1..], column)
  }

  /** A column listed once is written the value at its own position. */
  lemma {:induction false} ValueAtIndex(columns: seq<string>, values: seq<InsertValue>, k: nat)
    requires |values| == |columns| && k < |columns|
    requires forall j | 0 <= j < k :: columns[j] != columns[k]
    ensures ValueAt(columns, values, columns[k]) == Some(values[k].value)
    decreases k
  {
    if k > 0 {
      assert columns[1..][k - 1] == columns[k];
      ValueAtIndex(columns[1..], values[1..], k - 1);
    }
  }

  /** The switch of the one gated assignment to `name` decides whether it takes effect. */
  lemma {:induction false} GatedValueAt(opts: seq<(Value, Assignment)>, name: string, k: nat)
    requires k < |opts| && opts[k].1.column.name == name
    requires forall j | 0 <= j < |opts| && j != k :: opts[j].1.column.name != name
    ensures GatedValue(opts, name) == if Truthy(opts[k].0) then Some(opts[k].1.value) else None
    decreases k
  {
    if k > 0 {
      GatedValueAt(opts[1..], name, k - 1);
    } else {
      GatedValueNone(opts[1..], name);
    }
  }

  /** No gated assignment to `name`, no gated value. */
  lemma {:induction false} GatedValueNone(opts: seq<(Value, Assignment)>, name: string)
    requires forall j | 0 <= j < |opts| :: opts[j].1.column.name != name
    ensures GatedValue(opts, name) == None
    decreases |opts|
  {
    if opts != [] {
      GatedValueNone(opts[1..], name);
    }
  }
}
