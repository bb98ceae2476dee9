/**
 * The part of the relational store's semantics the Go code relies on, stated
 * on values: bound arguments, UPDATE statements made of SET clauses with
 * numbered placeholders, the driver's check that placeholders and arguments
 * match, SELECT ... ORDER BY as a sorted selection of a table, and
 * LIMIT / OFFSET.
 */
module Sql {
  import opened Base

  /** A bound argument or a column value. */
  datatype SqlValue =
    | SqlNull
    | SqlText(text: Bytes)
    | SqlTextArray(items: seq<Bytes>)
    | SqlBool(b: bool)
    | SqlInt(i: int)
    | SqlTime(t: Time)

  /** One assignment of an UPDATE's SET list, over the column type C of a table. */
  datatype SetClause<C> =
    | SetNow(column: C)                       // column = NOW()
    | SetParam(column: C, param: nat)         // column = $param
    | SetParamIfNull(column: C, param: nat)   // column = COALESCE(column, $param)
    | SetLiteral(column: C, literal: SqlValue) // column = 'PUBLISHED', true, NULL, ...
    | IncrementCount(column: C)               // column = COALESCE(column, 0) + 1

  /** UPDATE <table> SET <set> WHERE id = $<whereParam>. */
  datatype UpdateStmt<C> = UpdateStmt(assignments: seq<SetClause<C>>, whereParam: nat)

  // ---------------------------------------------------------------------------
  // Placeholders
  // ---------------------------------------------------------------------------

  /** The placeholders of a SET list, in textual order. */
  function ClauseParams<C>(cs: seq<SetClause<C>>): seq<nat>
    decreases |cs|
  {
    if cs == [] then []
    else
      var c := cs[|cs| - 1];
      ClauseParams(cs[..|cs| - 1]) + (if c.SetParam? || c.SetParamIfNull? then [c.param] else [])
  }

  /** The placeholders of an UPDATE statement, in textual order. */
  function StmtParams<C>(stmt: UpdateStmt<C>): seq<nat> {
    ClauseParams(stmt.assignments) + [stmt.whereParam]
  }

  /** Placeholders $1, $2, ... numbered consecutively from 1. */
  predicate Consecutive(ps: seq<nat>) {
    forall i :: 0 <= i < |ps| ==> ps[i] == i + 1
  }

  /**
   * What the driver and server accept: every placeholder refers to one of the
   * n bound arguments and every argument is referred to.
   */
  predicate ParamsMatch(ps: seq<nat>, n: nat) {
    && (forall i :: 0 <= i < |ps| ==> 1 <= ps[i] <= n)
    && (forall k :: 1 <= k <= n ==> k in ps)
  }

  lemma ConsecutiveParamsMatch(ps: seq<nat>)
    requires Consecutive(ps)
    ensures ParamsMatch(ps, |ps|)
  {
    forall k | 1 <= k <= |ps| ensures k in ps {
      assert ps[k - 1] == k;
    }
  }

  lemma {:induction false} ClauseParamsAppend<C>(cs: seq<SetClause<C>>, c: SetClause<C>)
    ensures ClauseParams(cs + [c]) ==
            ClauseParams(cs) + (if c.SetParam? || c.SetParamIfNull? then [c.param] else [])
  {
    assert (cs + [c])[..|cs|] == cs;
  }

  // ---------------------------------------------------------------------------
  // Evaluating a SET list against one row
  // ---------------------------------------------------------------------------

  /** The value a clause assigns; every expression reads the row as it was before the statement. */
  function EvalClause<R, C>(base: R, c: SetClause<C>, args: seq<SqlValue>, now: Time,
                            read: (R, C) -> SqlValue): Result<SqlValue>
  {
    match c
    case SetNow(_) => Ok(SqlTime(now))
    case SetParam(_, k) =>
      if 1 <= k <= |args| then Ok(args[k - 1]) else Err(Sql(BadParameters))
    case SetParamIfNull(col, k) =>
      if !(1 <= k <= |args|) then Err(Sql(BadParameters))
      else if read(base, col) == SqlNull then Ok(args[k - 1])
      else Ok(read(base, col))
    case SetLiteral(_, v) => Ok(v)
    case IncrementCount(col) =>
      match read(base, col)
      case SqlNull => Ok(SqlInt(1))
      case SqlInt(n) => if n + 1 <= MaxInt32 then Ok(SqlInt(n + 1)) else Err(Sql(IntegerOutOfRange))
      case _ => Err(Sql(TypeMismatch))
  }

  /** The row after a SET list, or the error the statement raises. */
  function ApplySet<R, C>(base: R, cs: seq<SetClause<C>>, args: seq<SqlValue>, now: Time,
                          read: (R, C) -> SqlValue, assign: (R, C, SqlValue) -> Option<R>): Result<R>
    decreases |cs|
  {
    if cs == [] then Ok(base)
    else
      var c := cs[|cs| - 1];
      match ApplySet(base, cs[..|cs| - 1], args, now, read, assign)
      case Err(e) => Err(e)
      case Ok(acc) =>
        match EvalClause(base, c, args, now, read)
        case Err(e) => Err(e)
        case Ok(v) =>
          match assign(acc, c.column, v)
          case None => Err(Sql(TypeMismatch))
          case Some(r) => Ok(r)
  }

  /** One more clause at the end of the SET list acts on the row the others produced. */
  lemma ApplySetAppend<R, C>(base: R, cs: seq<SetClause<C>>, c: SetClause<C>, args: seq<SqlValue>, now: Time,
                             read: (R, C) -> SqlValue, assign: (R, C, SqlValue) -> Option<R>)
    ensures ApplySet(base, cs + [c], args, now, read, assign) ==
            match ApplySet(base, cs, args, now, read, assign)
            case Err(e) => Err(e)
            case Ok(acc) =>
              match EvalClause(base, c, args, now, read)
              case Err(e) => Err(e)
              case Ok(v) =>
                match assign(acc, c.column, v)
                case None => Err(Sql(TypeMismatch))
                case Some(r) => Ok(r)
  {
    assert (cs + [c])[..|cs|] == cs;
  }

  /** Binding more arguments does not change clauses whose placeholders are all bound already. */
  lemma {:induction false} ApplySetMoreArgs<R, C>(base: R, cs: seq<SetClause<C>>, args: seq<SqlValue>,
                                                  more: seq<SqlValue>, now: Time,
                                                  read: (R, C) -> SqlValue, assign: (R, C, SqlValue) -> Option<R>)
    requires forall i :: 0 <= i < |ClauseParams(cs)| ==> 1 <= ClauseParams(cs)[i] <= |args|
    ensures ApplySet(base, cs, args + more, now, read, assign) == ApplySet(base, cs, args, now, read, assign)
    decreases |cs|
  {
    if cs != [] {
      var init := cs[..|cs| - 1];
      var c := cs[|cs| - 1];
      assert cs == init + [c];
      ClauseParamsAppend(init, c);
      assert forall i :: 0 <= i < |ClauseParams(init)| ==> ClauseParams(init)[i] == ClauseParams(cs)[i];
      ApplySetMoreArgs(base, init, args, more, now, read, assign);
      if c.SetParam? || c.SetParamIfNull? {
        assert ClauseParams(cs)[|ClauseParams(cs)| - 1] == c.param;
        assert (args + more)[c.param - 1] == args[c.param - 1];
      }
      assert EvalClause(base, c, args + more, now, read) == EvalClause(base, c, args, now, read);
    }
  }

  // ---------------------------------------------------------------------------
  // SET lists assembled from optional assignments, as the update builders do
  // ---------------------------------------------------------------------------

  /** One optional `column = $k` (or `column = COALESCE(column, $k)`) with the argument it binds. */
  datatype SetItem<C> = SetItem(present: bool, column: C, value: SqlValue, ifNull: bool)

  function ItemClause<C>(it: SetItem<C>, k: nat): SetClause<C> {
    if it.ifNull then SetParamIfNull(it.column, k) else SetParam(it.column, k)
  }

  /**
   * The builder's step for one item: when present, append its clause with the
   * next placeholder number and bind its argument.
   */
  function AddItem<C>(acc: (seq<SetClause<C>>, seq<SqlValue>), it: SetItem<C>): (seq<SetClause<C>>, seq<SqlValue>) {
    if it.present then (acc.0 + [ItemClause(it, |acc.1| + 1)], acc.1 + [it.value]) else acc
  }

  /** What one item does to the row built so far (COALESCE reads the row as it was before the statement). */
  function StepItem<R, C>(acc: Result<R>, base: R, it: SetItem<C>,
                          read: (R, C) -> SqlValue, assign: (R, C, SqlValue) -> Option<R>): Result<R>
  {
    if !it.present then acc
    else
      match acc
      case Err(e) => Err(e)
      case Ok(r) =>
        var v := if it.ifNull && read(base, it.column) != SqlNull then read(base, it.column) else it.value;
        match assign(r, it.column, v)
        case None => Err(Sql(TypeMismatch))
        case Some(r') => Ok(r')
  }

  /** SET lists whose placeholders are $1 .. $n for their n bound arguments. */
  predicate Numbered<C>(acc: (seq<SetClause<C>>, seq<SqlValue>)) {
    Consecutive(ClauseParams(acc.0)) && |acc.1| == |ClauseParams(acc.0)|
  }

  /**
   * Adding an item keeps the placeholders numbered, and the longer SET list
   * does to any row what the shorter one did followed by the item.
   */
  lemma AddItemSpec<R, C>(base: R, acc: (seq<SetClause<C>>, seq<SqlValue>), it: SetItem<C>, now: Time,
                          read: (R, C) -> SqlValue, assign: (R, C, SqlValue) -> Option<R>)
    requires Numbered(acc)
    ensures Numbered(AddItem(acc, it))
    ensures ApplySet(base, AddItem(acc, it).0, AddItem(acc, it).1, now, read, assign) ==
            StepItem(ApplySet(base, acc.0, acc.1, now, read, assign), base, it, read, assign)
  {
    if it.present {
      var c := ItemClause(it, |acc.1| + 1);
      var args1 := acc.1 + [it.value];
      ClauseParamsAppend(acc.0, c);
      ApplySetAppend(base, acc.0, c, args1, now, read, assign);
      ApplySetMoreArgs(base, acc.0, acc.1, [it.value], now, read, assign);
      assert args1[c.param - 1] == it.value;
    }
  }

  // ---------------------------------------------------------------------------
  // SELECT ... WHERE ... ORDER BY: a sorted selection of a keyed table
  // ---------------------------------------------------------------------------

  /** `le(a, b)`: under the ORDER BY, row a may come before row b. */
  ghost predicate TotalPreorder<R(!new)>(le: (R, R) -> bool) {
    && (forall a, b :: le(a, b) || le(b, a))
    && (forall a, b, c :: le(a, b) && le(b, c) ==> le(a, c))
  }

  ghost predicate SortedRows<R>(rows: seq<(Id, R)>, le: (R, R) -> bool) {
    forall i, j :: 0 <= i < j < |rows| ==> le(rows[i].1, rows[j].1)
  }

  /**
   * The rows a SELECT returns: exactly the entries of the table that satisfy
   * the WHERE clause, each once, in an order allowed by the ORDER BY (rows
   * that tie may come in any order).
   */
  ghost predicate IsSelection<R>(rows: seq<(Id, R)>, table: map<Id, R>, keep: (Id, R) -> bool,
                                 le: (R, R) -> bool)
  {
    && (forall i :: 0 <= i < |rows| ==>
          rows[i].0 in table && table[rows[i].0] == rows[i].1 && keep(rows[i].0, rows[i].1))
    && (forall id :: id in table && keep(id, table[id]) ==>
          exists i :: 0 <= i < |rows| && rows[i].0 == id)
    && (forall i, j :: 0 <= i < j < |rows| ==> rows[i].0 != rows[j].0)
    && SortedRows(rows, le)
  }

  /** The position at which x goes into sorted rows: after every row that may precede it. */
  function InsertionPoint<R>(rows: seq<(Id, R)>, x: R, le: (R, R) -> bool): (k: nat)
    ensures k <= |rows|
    ensures forall i :: 0 <= i < k ==> le(rows[i].1, x)
    ensures k < |rows| ==> !le(rows[k].1, x)
    decreases |rows|
  {
    if rows == [] || !le(rows[0].1, x) then 0
    else 1 + InsertionPoint(rows[1..], x, le)
  }

  lemma InsertKeepsSorted<R(!new)>(rows: seq<(Id, R)>, e: (Id, R), le: (R, R) -> bool)
    requires TotalPreorder(le) && SortedRows(rows, le)
    ensures var k := InsertionPoint(rows, e.1, le);
            SortedRows(rows[..k] + [e] + rows[k..], le)
  {
    var k := InsertionPoint(rows, e.1, le);
    var r := rows[..k] + [e] + rows[k..];
    forall i, j | 0 <= i < j < |r| ensures le(r[i].1, r[j].1) {
      if j == k {
        assert r[i] == rows[i];
      } else if i == k {
        assert r[j] == rows[j - 1];
        assert le(e.1, rows[k].1);
      } else {
        var i' := if i < k then i else i - 1;
        var j' := if j < k then j else j - 1;
        assert r[i] == rows[i'] && r[j] == rows[j'];
      }
    }
  }

  /** The selection restricted to the entries whose ids are in `done`. */
  ghost predicate PartialSelection<R>(rows: seq<(Id, R)>, table: map<Id, R>, keep: (Id, R) -> bool,
                                      le: (R, R) -> bool, done: set<Id>)
  {
    && (forall i :: 0 <= i < |rows| ==>
          rows[i].0 in done && rows[i].0 in table && table[rows[i].0] == rows[i].1 && keep(rows[i].0, rows[i].1))
    && (forall id :: id in done && id in table && keep(id, table[id]) ==>
          exists i :: 0 <= i < |rows| && rows[i].0 == id)
    && (forall i, j :: 0 <= i < j < |rows| ==> rows[i].0 != rows[j].0)
    && SortedRows(rows, le)
  }

  /** Where the rows of `rows` sit once e is inserted at position k. */
  lemma InsertIndexing<R>(rows: seq<(Id, R)>, k: nat, e: (Id, R))
    requires k <= |rows|
    ensures var r := rows[..k] + [e] + rows[k..];
            && |r| == |rows| + 1 && r[k] == e
            && (forall i :: 0 <= i < k ==> r[i] == rows[i])
            && (forall i :: k < i < |r| ==> r[i] == rows[i - 1])
  {
  }

  /** Inserting a row whose id is new keeps the ids distinct. */
  lemma InsertIds<R>(rows: seq<(Id, R)>, k: nat, e: (Id, R))
    requires k <= |rows|
    requires forall i, j :: 0 <= i < j < |rows| ==> rows[i].0 != rows[j].0
    requires forall i :: 0 <= i < |rows| ==> rows[i].0 != e.0
    ensures var r := rows[..k] + [e] + rows[k..];
            forall i, j :: 0 <= i < j < |r| ==> r[i].0 != r[j].0
  {
    var r := rows[..k] + [e] + rows[k..];
    InsertIndexing(rows, k, e);
    forall i, j | 0 <= i < j < |r| ensures r[i].0 != r[j].0 {
      if i != k && j != k {
        var i' := if i < k then i else i - 1;
        var j' := if j < k then j else j - 1;
        assert r[i] == rows[i'] && r[j] == rows[j'];
      } else if i == k {
        assert r[j] == rows[j - 1];
      } else {
        assert r[i] == rows[i];
      }
    }
  }

  /** Visiting one more entry that the WHERE clause keeps: it is inserted at k. */
  lemma VisitKeptEntry<R>(rows: seq<(Id, R)>, table: map<Id, R>, keep: (Id, R) -> bool,
                          le: (R, R) -> bool, done: set<Id>, id: Id, k: nat)
    requires PartialSelection(rows, table, keep, le, done)
    requires id in table && id !in done && keep(id, table[id]) && k <= |rows|
    requires SortedRows(rows[..k] + [(id, table[id])] + rows[k..], le)
    ensures PartialSelection(rows[..k] + [(id, table[id])] + rows[k..], table, keep, le, done + {id})
  {
    InsertIds(rows, k, (id, table[id]));
    KeptEntryRows(rows, table, keep, le, done, id, k);
    KeptEntryCovered(rows, table, keep, le, done, id, k);
  }

  lemma KeptEntryRows<R>(rows: seq<(Id, R)>, table: map<Id, R>, keep: (Id, R) -> bool,
                         le: (R, R) -> bool, done: set<Id>, id: Id, k: nat)
    requires PartialSelection(rows, table, keep, le, done)
    requires id in table && keep(id, table[id]) && k <= |rows|
    ensures var r := rows[..k] + [(id, table[id])] + rows[k..];
            forall i :: 0 <= i < |r| ==>
              r[i].0 in done + {id} && r[i].0 in table && table[r[i].0] == r[i].1 && keep(r[i].0, r[i].1)
  {
    var r := rows[..k] + [(id, table[id])] + rows[k..];
    InsertIndexing(rows, k, (id, table[id]));
    forall i | 0 <= i < |r|
      ensures r[i].0 in done + {id} && r[i].0 in table && table[r[i].0] == r[i].1 && keep(r[i].0, r[i].1)
    {
      if i < k {
        assert r[i] == rows[i];
      } else if i > k {
        assert r[i] == rows[i - 1];
      }
    }
  }

  lemma KeptEntryCovered<R>(rows: seq<(Id, R)>, table: map<Id, R>, keep: (Id, R) -> bool,
                            le: (R, R) -> bool, done: set<Id>, id: Id, k: nat)
    requires PartialSelection(rows, table, keep, le, done)
    requires id in table && k <= |rows|
    ensures var r := rows[..k] + [(id, table[id])] + rows[k..];
            forall id' :: id' in done + {id} && id' in table && keep(id', table[id']) ==>
              exists i :: 0 <= i < |r| && r[i].0 == id'
  {
    var r := rows[..k] + [(id, table[id])] + rows[k..];
    InsertIndexing(rows, k, (id, table[id]));
    forall id' | id' in done + {id} && id' in table && keep(id', table[id'])
      ensures exists i :: 0 <= i < |r| && r[i].0 == id'
    {
      if id' == id {
        assert r[k].0 == id';
      } else {
        var i' :| 0 <= i' < |rows| && rows[i'].0 == id';
        if i' < k {
          assert r[i'].0 == id';
        } else {
          assert r[i' + 1].0 == id';
        }
      }
    }
  }

  /** Visiting one more entry that the WHERE clause drops. */
  lemma VisitDroppedEntry<R>(rows: seq<(Id, R)>, table: map<Id, R>, keep: (Id, R) -> bool,
                             le: (R, R) -> bool, done: set<Id>, id: Id)
    requires PartialSelection(rows, table, keep, le, done)
    requires id in table && !keep(id, table[id])
    ensures PartialSelection(rows, table, keep, le, done + {id})
  {
  }

  /** The store's execution of a SELECT: visit the table's entries and insert each kept one in order. */
  method SortedSelect<R(!new)>(table: map<Id, R>, keep: (Id, R) -> bool, le: (R, R) -> bool)
    returns (rows: seq<(Id, R)>)
    requires TotalPreorder(le)
    ensures IsSelection(rows, table, keep, le)
  {
    rows := [];
    var todo := table.Keys;
    while todo != {}
      invariant todo <= table.Keys
      invariant PartialSelection(rows, table, keep, le, table.Keys - todo)
      decreases todo
    {
      var id :| id in todo;
      assert (table.Keys - todo) + {id} == table.Keys - (todo - {id});
      if keep(id, table[id]) {
        var k := InsertionPoint(rows, table[id], le);
        InsertKeepsSorted(rows, (id, table[id]), le);
        VisitKeptEntry(rows, table, keep, le, table.Keys - todo, id, k);
        rows := rows[..k] + [(id, table[id])] + rows[k..];
      } else {
        VisitDroppedEntry(rows, table, keep, le, table.Keys - todo, id);
      }
      todo := todo - {id};
    }
    assert table.Keys - todo == table.Keys;
  }

  /** Two WHERE clauses that keep the same rows select the same rows. */
  lemma SelectionSameWhere<R>(rows: seq<(Id, R)>, table: map<Id, R>, keep: (Id, R) -> bool,
                              keep': (Id, R) -> bool, le: (R, R) -> bool)
    requires IsSelection(rows, table, keep, le)
    requires forall id, r :: keep(id, r) == keep'(id, r)
    ensures IsSelection(rows, table, keep', le)
  {
  }

  /** A WHERE clause that keeps at most one id selects that entry first, or nothing. */
  lemma SelectionOfOneId<R>(rows: seq<(Id, R)>, table: map<Id, R>, keep: (Id, R) -> bool,
                            le: (R, R) -> bool, id: Id)
    requires IsSelection(rows, table, keep, le)
    requires forall id', r :: keep(id', r) ==> id' == id
    ensures rows == if id in table && keep(id, table[id]) then [(id, table[id])] else []
  {
    assert rows != [] ==> rows[0].0 == id && rows[0].1 == table[id] && keep(id, table[id]);
    assert |rows| >= 2 ==> rows[0].0 == id && rows[1].0 == id;
  }

  /** LIMIT / OFFSET: skip `offset` rows, then keep at most `limit`; negative values are errors. */
  function Page<T>(rows: seq<T>, limit: Option<int>, offset: Option<int>): (r: Result<seq<T>>)
    ensures r.Err? <==> (limit.Some? && limit.value < 0) || (offset.Some? && offset.value < 0)
    ensures r.Ok? ==>
      var start := if offset.Some? && offset.value < |rows| then offset.value
                   else if offset.Some? then |rows| else 0;
      && |r.value| <= |rows| - start
      && (limit.Some? ==> |r.value| <= limit.value)
      && r.value == rows[start..start + |r.value|]
      && (|r.value| < |rows| - start ==> limit.Some? && |r.value| == limit.value)
  {
    if offset.Some? && offset.value < 0 then Err(Sql(NegativeOffset))
    else if limit.Some? && limit.value < 0 then Err(Sql(NegativeLimit))
    else
      var skipped := if offset.Some? && offset.value < |rows| then rows[offset.value..]
                     else if offset.Some? then [] else rows;
      Ok(if limit.Some? && limit.value < |skipped| then skipped[..limit.value] else skipped)
  }
}
