/**
 * A small abstract stand-in for the Eloquent layer the trait runs on: relation
 * objects reduced to a kind, a table and a foreign-key column; the database
 * reduced to a list of rows with integer-valued fields; `count()` and bulk
 * `update()` on a relation, and `beginTransaction` / `rollBack` as snapshot
 * and restore of the rows.
 */
module Eloquent {
  import opened Wrappers

  /** The exact class of a relation object (`get_class($relation)`). */
  datatype RelationKind =
    | BelongsTo | MorphTo
    | HasOneOrMany | HasOne | HasMany
    | MorphOneOrMany | MorphOne | MorphMany
    | HasManyThrough | HasOneThrough
    | BelongsToMany | MorphToMany
      /** Any other subclass of Relation, a user's subclass of one of the above included. */
    | OtherRelation(className: string)

  /**
   * A relation bound to a model: the rows of `table` whose column `foreignKey`
   * holds that model's key. For the through kinds, `table` is the through table.
   */
  datatype Relation = Relation(kind: RelationKind, table: string, foreignKey: string)

  /** A column of a table, as (table, column name). */
  type Column = (string, string)

  function ColumnOf(relation: Relation): Column {
    (relation.table, relation.foreignKey)
  }

  /** A stored row: its table, its primary key and its other fields. */
  datatype Row = Row(table: string, id: int, fields: map<string, int>)

  /**
   * A model class: its name (as `get_class` gives it), its table, whether it
   * implements NoDanglingRelationships, its `$transferable` property (None when
   * undeclared or null), and the value each method name returns when called
   * (names absent from `relations` return something that is not a Relation).
   */
  datatype ModelClass = ModelClass(
    className: string,
    table: string,
    noDangling: bool,
    transferable: Option<seq<string>>,
    relations: map<string, Relation>)

  /** A model instance: its class and its primary key (`getKey()`). */
  datatype Model = Model(schema: ModelClass, key: int)

  predicate Matches(row: Row, column: Column, key: int) {
    row.table == column.0 && column.1 in row.fields && row.fields[column.1] == key
  }

  /** `SELECT count(*) FROM table WHERE column = key`. */
  function Count(rows: seq<Row>, column: Column, key: int): nat
    decreases |rows|
  {
    if rows == [] then 0
    else (if Matches(rows[0], column, key) then 1 else 0) + Count(rows[1..], column, key)
  }

  /** The row after every one of `columns` (of its table) that held `from` is set to `to`. */
  function MoveRow(row: Row, columns: set<Column>, from: int, to: int): Row {
    row.(fields := map c | c in row.fields ::
      if (row.table, c) in columns && row.fields[c] == from then to else row.fields[c])
  }

  /** Every row moved: `UPDATE ... SET c = to WHERE c = from` for each column c in `columns`. */
  function MoveAll(rows: seq<Row>, columns: set<Column>, from: int, to: int): seq<Row> {
    seq(|rows|, j requires 0 <= j < |rows| => MoveRow(rows[j], columns, from, to))
  }

  /** `DELETE FROM table WHERE id = key`: every other row stays, as often as it occurred. */
  function RemoveRow(rows: seq<Row>, table: string, id: int): (rest: seq<Row>)
    ensures forall r :: r in rest <==> r in rows && !(r.table == table && r.id == id)
    ensures forall r :: multiset(rest)[r] == if r.table == table && r.id == id then 0 else multiset(rows)[r]
    ensures |rest| <= |rows|
    decreases |rows|
  {
    assert rows != [] ==> rows == [rows[0]] + rows[1..];
    if rows == [] then []
    else if rows[0].table == table && rows[0].id == id then RemoveRow(rows[1..], table, id)
    else [rows[0]] + RemoveRow(rows[1..], table, id)
  }

  /** Deleting a row of one table leaves every count over another table unchanged. */
  lemma {:induction false} RemoveRowKeepsOtherTables(rows: seq<Row>, table: string, id: int, column: Column, key: int)
    requires column.0 != table
    ensures Count(RemoveRow(rows, table, id), column, key) == Count(rows, column, key)
    decreases |rows|
  {
    if rows != [] {
      RemoveRowKeepsOtherTables(rows[1..], table, id, column, key);
      if !(rows[0].table == table && rows[0].id == id) {
        assert ([rows[0]] + RemoveRow(rows[1..], table, id))[1..] == RemoveRow(rows[1..], table, id);
      }
    }
  }

  lemma MoveAllTail(rows: seq<Row>, columns: set<Column>, from: int, to: int)
    requires rows != []
    ensures MoveAll(rows, columns, from, to)[0] == MoveRow(rows[0], columns, from, to)
    ensures MoveAll(rows, columns, from, to)[1..] == MoveAll(rows[1..], columns, from, to)
  {
  }

  /** After the move, no row of a moved column still points at `from`. */
  lemma {:induction false} MoveAllEmptiesSource(rows: seq<Row>, columns: set<Column>, from: int, to: int, column: Column)
    requires from != to && column in columns
    ensures Count(MoveAll(rows, columns, from, to), column, from) == 0
    decreases |rows|
  {
    if rows != [] {
      MoveAllTail(rows, columns, from, to);
      MoveAllEmptiesSource(rows[1..], columns, from, to, column);
    }
  }

  /** After the move, a moved column points at `to` from every row that pointed at either key. */
  lemma {:induction false} MoveAllGathersTarget(rows: seq<Row>, columns: set<Column>, from: int, to: int, column: Column)
    requires from != to && column in columns
    ensures Count(MoveAll(rows, columns, from, to), column, to) == Count(rows, column, from) + Count(rows, column, to)
    decreases |rows|
  {
    if rows != [] {
      MoveAllTail(rows, columns, from, to);
      MoveAllGathersTarget(rows[1..], columns, from, to, column);
    }
  }

  /** A column that is not moved keeps all its counts. */
  lemma {:induction false} MoveAllKeepsOtherColumns(rows: seq<Row>, columns: set<Column>, from: int, to: int, column: Column, key: int)
    requires column !in columns
    ensures Count(MoveAll(rows, columns, from, to), column, key) == Count(rows, column, key)
    decreases |rows|
  {
    if rows != [] {
      MoveAllTail(rows, columns, from, to);
      MoveAllKeepsOtherColumns(rows[1..], columns, from, to, column, key);
    }
  }

  /** A key other than the two involved keeps all its counts. */
  lemma {:induction false} MoveAllKeepsOtherKeys(rows: seq<Row>, columns: set<Column>, from: int, to: int, column: Column, key: int)
    requires key != from && key != to
    ensures Count(MoveAll(rows, columns, from, to), column, key) == Count(rows, column, key)
    decreases |rows|
  {
    if rows != [] {
      MoveAllTail(rows, columns, from, to);
      MoveAllKeepsOtherKeys(rows[1..], columns, from, to, column, key);
    }
  }

  /** A row none of whose moved columns holds `from` is left exactly as it was. */
  lemma MoveRowUnmatched(row: Row, columns: set<Column>, from: int, to: int)
    requires forall c :: c in row.fields ==> (row.table, c) !in columns || row.fields[c] != from
    ensures MoveRow(row, columns, from, to) == row
  {
  }

  /** Moving nothing changes nothing. */
  lemma MoveAllNothing(rows: seq<Row>, from: int, to: int)
    ensures MoveAll(rows, {}, from, to) == rows
  {
    forall j | 0 <= j < |rows|
      ensures MoveAll(rows, {}, from, to)[j] == rows[j]
    {
      MoveRowUnmatched(rows[j], {}, from, to);
    }
  }

  /** Two successive moves between the same keys are one move of both column sets. */
  lemma MoveAllCompose(rows: seq<Row>, first: set<Column>, second: set<Column>, from: int, to: int)
    requires from != to
    ensures MoveAll(MoveAll(rows, first, from, to), second, from, to) == MoveAll(rows, first + second, from, to)
  {
    var lhs := MoveAll(MoveAll(rows, first, from, to), second, from, to);
    var rhs := MoveAll(rows, first + second, from, to);
    forall j | 0 <= j < |rows|
      ensures lhs[j] == rhs[j]
    {
      var row := rows[j];
      var twice := MoveRow(MoveRow(row, first, from, to), second, from, to);
      var once := MoveRow(row, first + second, from, to);
      assert twice.fields.Keys == once.fields.Keys;
      assert forall c :: c in row.fields ==> twice.fields[c] == once.fields[c];
    }
  }

  /**
   * The database connection: the stored rows, and one snapshot of the rows
   * for each transaction that is open (the last one is the innermost).
   */
  class Database {
    var rows: seq<Row>
    var transactions: seq<seq<Row>>

    constructor (rows: seq<Row>)
      ensures this.rows == rows && transactions == []
    {
      this.rows := rows;
      transactions := [];
    }

    /** `DB::beginTransaction()`: remembers the current rows. */
    method BeginTransaction()
      modifies this
      ensures rows == old(rows)
      ensures transactions == old(transactions) + [old(rows)]
    {
      transactions := transactions + [rows];
    }

    /** `DB::rollBack()`: restores the innermost snapshot; without an open transaction it does nothing. */
    method RollBack()
      modifies this
      ensures old(transactions) == [] ==> rows == old(rows) && transactions == []
      ensures old(transactions) != [] ==>
        && rows == old(transactions)[|old(transactions)| - 1]
        && transactions == old(transactions)[..|old(transactions)| - 1]
    {
      if transactions != [] {
        rows := transactions[|transactions| - 1];
        transactions := transactions[..|transactions| - 1];
      }
    }

    /** `$relation->update([column => to])` on the rows where the column holds `from`; returns the rows matched. */
    method Update(column: Column, from: int, to: int) returns (affected: nat)
      modifies this
      ensures rows == MoveAll(old(rows), {column}, from, to)
      ensures affected == Count(old(rows), column, from)
      ensures transactions == old(transactions)
    {
      affected := Count(rows, column, from);
      rows := MoveAll(rows, {column}, from, to);
    }

    /** The delete query of `$model->delete()`, once its deleting hooks have let it proceed. */
    method DeleteRow(table: string, id: int)
      modifies this
      ensures rows == RemoveRow(old(rows), table, id)
      ensures transactions == old(transactions)
    {
      rows := RemoveRow(rows, table, id);
    }
  }
}
