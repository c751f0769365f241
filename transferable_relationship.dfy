/**
 * The TransferableRelationship trait: resolving a model's declared
 * relationships to foreign-key columns, counting the rows that still point at
 * the model, re-pointing them at another model of the same class (optionally
 * as a dry run inside a transaction that is rolled back), and the deleting
 * hook that refuses to delete a NoDanglingRelationships model while rows
 * still point at it.
 */
module TransferableRelationship {
  import opened Wrappers
  import opened Eloquent
  import opened Exceptions

  /** `$this->transferable ?? []`: the declared relationship names, or none when undeclared. */
  function GetTransferableRelationships(model: Model): (names: seq<string>)
    ensures model.schema.transferable.Some? ==> names == model.schema.transferable.value
    ensures model.schema.transferable.None? ==> names == []
  {
    match model.schema.transferable
    case Some(declared) => declared
    case None => []
  }

  /** The relation classes whose foreign-key column getFk knows how to name. */
  const SupportedKinds: set<RelationKind> := {
    BelongsTo, MorphTo,
    HasOneOrMany, HasOne, HasMany, MorphOneOrMany, MorphOne, MorphMany,
    HasManyThrough, HasOneThrough
  }

  /**
   * `getFk($relation)`: the foreign-key column name for the supported relation
   * classes (the through table's column for the through kinds); any other
   * class, many-to-many included, throws FailedToResolveRelationship.
   */
  function GetFk(relation: Relation): (fk: Result<string, Failure>)
    ensures fk.Success? <==> relation.kind in SupportedKinds
    ensures fk.Success? ==> fk.value == relation.foreignKey
    ensures fk.Failure? ==>
      fk.error == Unresolved(FailedToResolveRelationship("Can't resolve relationship", relation))
  {
    match relation.kind
    case BelongsTo | MorphTo => Success(relation.foreignKey)
    case HasOneOrMany | HasOne | HasMany | MorphOneOrMany | MorphOne | MorphMany => Success(relation.foreignKey)
    case HasManyThrough | HasOneThrough => Success(relation.foreignKey)
    case _ => Failure(Unresolved(FailedToResolveRelationship("Can't resolve relationship", relation)))
  }

  /** `call_user_func_array([$this, $name], [])`, keeping the result only if it is a Relation. */
  function Resolve(model: Model, name: string): Option<Relation> {
    if name in model.schema.relations then Some(model.schema.relations[name]) else None
  }

  /** The rows the named relationship of the model matches (0 for a name that is not a relation). */
  function CountOne(rows: seq<Row>, model: Model, name: string): nat {
    match Resolve(model, name)
    case None => 0
    case Some(relation) => Count(rows, ColumnOf(relation), model.key)
  }

  /** The rows matched by the model's relations among `names`, summed relation by relation. */
  function CountNames(rows: seq<Row>, model: Model, names: seq<string>): nat
    decreases |names|
  {
    if names == [] then 0
    else CountNames(rows, model, names[..|names| - 1]) + CountOne(rows, model, names[|names| - 1])
  }

  /** What `countTransferable()` returns for the model on these rows. */
  function CountTransferableOf(rows: seq<Row>, model: Model): nat {
    CountNames(rows, model, GetTransferableRelationships(model))
  }

  /** The names among `names` that resolve to a relation, in order. */
  function RelationNames(model: Model, names: seq<string>): (kept: seq<string>)
    ensures forall i :: 0 <= i < |kept| ==> kept[i] in model.schema.relations
    decreases |names|
  {
    if names == [] then []
    else
      var front := RelationNames(model, names[..|names| - 1]);
      if names[|names| - 1] in model.schema.relations then front + [names[|names| - 1]] else front
  }

  /** Counting is additive over the declared list. */
  lemma {:induction false} CountNamesAppend(rows: seq<Row>, model: Model, a: seq<string>, b: seq<string>)
    ensures CountNames(rows, model, a + b) == CountNames(rows, model, a) + CountNames(rows, model, b)
    decreases |b|
  {
    if b != [] {
      assert (a + b)[..|a + b| - 1] == a + b[..|b| - 1];
      CountNamesAppend(rows, model, a, b[..|b| - 1]);
    } else {
      assert a + b == a;
    }
  }

  /** Names that do not resolve to a relation contribute nothing to the count. */
  lemma {:induction false} CountSkipsNonRelations(rows: seq<Row>, model: Model, names: seq<string>)
    ensures CountNames(rows, model, RelationNames(model, names)) == CountNames(rows, model, names)
    decreases |names|
  {
    if names != [] {
      var front := names[..|names| - 1];
      var last := names[|names| - 1];
      CountSkipsNonRelations(rows, model, front);
      if last in model.schema.relations {
        CountNamesAppend(rows, model, RelationNames(model, front), [last]);
        assert [last][..0] == [];
      }
    }
  }

  /** The (table, column) pairs written by a transfer over `names`. */
  function Columns(model: Model, names: seq<string>): set<Column>
    decreases |names|
  {
    if names == [] then {}
    else
      Columns(model, names[..|names| - 1]) +
        match Resolve(model, names[|names| - 1])
        case None => {}
        case Some(relation) => {ColumnOf(relation)}
  }

  /** No two declared names resolve to relations over the same (table, column). */
  predicate DistinctColumns(model: Model, names: seq<string>) {
    forall i, j :: 0 <= i < j < |names| && names[i] in model.schema.relations && names[j] in model.schema.relations
      ==> ColumnOf(model.schema.relations[names[i]]) != ColumnOf(model.schema.relations[names[j]])
  }

  /** Every name resolves either to nothing or to a relation getFk supports. */
  predicate AllResolvable(model: Model, names: seq<string>) {
    forall i :: 0 <= i < |names| ==> Resolve(model, names[i]).None? || Resolve(model, names[i]).value.kind in SupportedKinds
  }

  /** A column no declared name resolves to is not written by the transfer. */
  lemma {:induction false} ColumnsExclude(model: Model, names: seq<string>, column: Column)
    requires forall i :: 0 <= i < |names| && names[i] in model.schema.relations
               ==> ColumnOf(model.schema.relations[names[i]]) != column
    ensures column !in Columns(model, names)
    decreases |names|
  {
    if names != [] {
      var front := names[..|names| - 1];
      assert forall i :: 0 <= i < |front| ==> front[i] == names[i];
      ColumnsExclude(model, front, column);
    }
  }

  /** The state of the transfer loop: still running with the rows and count so far, or thrown. */
  datatype TransferState =
    | Running(rows: seq<Row>, affected: nat)
    | Failed(rows: seq<Row>, failure: Failure)

  /** One iteration of the transfer loop for the declared name `name`. */
  function TransferStep(state: TransferState, model: Model, name: string, newKey: int): TransferState {
    match state
    case Failed(_, _) => state
    case Running(rows, affected) =>
      match Resolve(model, name)
      case None => state
      case Some(relation) =>
        match GetFk(relation)
        case Failure(e) => Failed(rows, e)
        case Success(fk) =>
          Running(MoveAll(rows, {(relation.table, fk)}, model.key, newKey),
                  affected + Count(rows, (relation.table, fk), model.key))
  }

  /** The transfer loop run over `names`, in declaration order, from the given rows. */
  function TransferNames(rows: seq<Row>, model: Model, names: seq<string>, newKey: int): TransferState
    decreases |names|
  {
    if names == [] then Running(rows, 0)
    else TransferStep(TransferNames(rows, model, names[..|names| - 1], newKey), model, names[|names| - 1], newKey)
  }

  /** Once a name has thrown, the rest of the loop is never run. */
  lemma {:induction false} FailureSticks(rows: seq<Row>, model: Model, names: seq<string>, newKey: int, j: nat)
    requires j <= |names| && TransferNames(rows, model, names[..j], newKey).Failed?
    ensures TransferNames(rows, model, names, newKey) == TransferNames(rows, model, names[..j], newKey)
    decreases |names| - j
  {
    if j < |names| {
      assert names[..|names| - 1][..j] == names[..j];
      FailureSticks(rows, model, names[..|names| - 1], newKey, j);
    } else {
      assert names[..j] == names;
    }
  }

  /**
   * The transfer loop finishes exactly when every declared relation is of a
   * supported kind; otherwise it throws FailedToResolveRelationship for a
   * declared relation of an unsupported kind.
   */
  lemma {:induction false} TransferSucceedsIff(rows: seq<Row>, model: Model, names: seq<string>, newKey: int)
    ensures TransferNames(rows, model, names, newKey).Running? <==> AllResolvable(model, names)
    ensures TransferNames(rows, model, names, newKey).Failed? ==>
      exists i :: 0 <= i < |names| && names[i] in model.schema.relations
        && model.schema.relations[names[i]].kind !in SupportedKinds
        && TransferNames(rows, model, names, newKey).failure
           == Unresolved(FailedToResolveRelationship("Can't resolve relationship", model.schema.relations[names[i]]))
    decreases |names|
  {
    if names != [] {
      var front := names[..|names| - 1];
      var last := names[|names| - 1];
      TransferSucceedsIff(rows, model, front, newKey);
      assert forall i :: 0 <= i < |front| ==> front[i] == names[i];
      if TransferNames(rows, model, front, newKey).Failed? {
        var i :| 0 <= i < |front| && front[i] in model.schema.relations
          && model.schema.relations[front[i]].kind !in SupportedKinds
          && TransferNames(rows, model, front, newKey).failure
             == Unresolved(FailedToResolveRelationship("Can't resolve relationship", model.schema.relations[front[i]]));
        assert !(Resolve(model, names[i]).None? || Resolve(model, names[i]).value.kind in SupportedKinds);
      } else if TransferNames(rows, model, names, newKey).Failed? {
        assert names[|names| - 1] == last;
      }
    }
  }

  /**
   * A transfer that throws does so at the first declared name, in declaration
   * order, whose relation getFk cannot resolve, with the exception built from
   * that relation; the rows it leaves are those with every earlier declared
   * column already moved to the new key.
   */
  lemma {:induction false} TransferFailsAtFirst(rows: seq<Row>, model: Model, names: seq<string>, newKey: int)
    requires model.key != newKey
    requires TransferNames(rows, model, names, newKey).Failed?
    ensures exists j ::
      && 0 <= j < |names|
      && AllResolvable(model, names[..j])
      && names[j] in model.schema.relations
      && model.schema.relations[names[j]].kind !in SupportedKinds
      && TransferNames(rows, model, names, newKey).failure
         == Unresolved(FailedToResolveRelationship("Can't resolve relationship", model.schema.relations[names[j]]))
      && TransferNames(rows, model, names, newKey).rows == MoveAll(rows, Columns(model, names[..j]), model.key, newKey)
    decreases |names|
  {
    var front := names[..|names| - 1];
    var before := TransferNames(rows, model, front, newKey);
    if before.Failed? {
      TransferFailsAtFirst(rows, model, front, newKey);
      var j :| 0 <= j < |front|
        && AllResolvable(model, front[..j])
        && front[j] in model.schema.relations
        && model.schema.relations[front[j]].kind !in SupportedKinds
        && before.failure
           == Unresolved(FailedToResolveRelationship("Can't resolve relationship", model.schema.relations[front[j]]))
        && before.rows == MoveAll(rows, Columns(model, front[..j]), model.key, newKey);
      assert names[..j] == front[..j] && names[j] == front[j];
    } else {
      var j := |names| - 1;
      assert names[..j] == front;
      TransferSucceedsIff(rows, model, front, newKey);
      TransferMovesRows(rows, model, front, newKey);
    }
  }

  /**
   * A finished transfer between different keys has moved every declared
   * column from the old key to the new one and nothing else; its count never
   * exceeds the rows the relations matched beforehand, and equals it when no
   * two relations share a column.
   */
  lemma {:induction false} TransferMovesRows(rows: seq<Row>, model: Model, names: seq<string>, newKey: int)
    requires model.key != newKey
    requires TransferNames(rows, model, names, newKey).Running?
    ensures TransferNames(rows, model, names, newKey).rows == MoveAll(rows, Columns(model, names), model.key, newKey)
    ensures TransferNames(rows, model, names, newKey).affected <= CountNames(rows, model, names)
    ensures DistinctColumns(model, names) ==>
      TransferNames(rows, model, names, newKey).affected == CountNames(rows, model, names)
    decreases |names|
  {
    if names == [] {
      MoveAllNothing(rows, model.key, newKey);
    } else {
      var front := names[..|names| - 1];
      var last := names[|names| - 1];
      var before := TransferNames(rows, model, front, newKey);
      assert before.Running?;
      TransferMovesRows(rows, model, front, newKey);
      assert DistinctColumns(model, names) ==> DistinctColumns(model, front) by {
        if DistinctColumns(model, names) {
          forall i, j | 0 <= i < j < |front| && front[i] in model.schema.relations && front[j] in model.schema.relations
            ensures ColumnOf(model.schema.relations[front[i]]) != ColumnOf(model.schema.relations[front[j]])
          {
            assert front[i] == names[i] && front[j] == names[j];
          }
        }
      }
      var moved := Columns(model, front);
      match Resolve(model, last)
      case None =>
        assert Columns(model, names) == moved;
      case Some(relation) =>
        var column := ColumnOf(relation);
        MoveAllCompose(rows, moved, {column}, model.key, newKey);
        if column in moved {
          MoveAllEmptiesSource(rows, moved, model.key, newKey, column);
        } else {
          MoveAllKeepsOtherColumns(rows, moved, model.key, newKey, column, model.key);
        }
        if DistinctColumns(model, names) {
          forall i | 0 <= i < |front| && front[i] in model.schema.relations
            ensures ColumnOf(model.schema.relations[front[i]]) != column
          {
            assert front[i] == names[i];
          }
          ColumnsExclude(model, front, column);
        }
    }
  }

  lemma {:induction false} CountNamesEmptied(rows: seq<Row>, model: Model, names: seq<string>, moved: set<Column>, newKey: int)
    requires model.key != newKey && Columns(model, names) <= moved
    ensures CountNames(MoveAll(rows, moved, model.key, newKey), model, names) == 0
    decreases |names|
  {
    if names != [] {
      CountNamesEmptied(rows, model, names[..|names| - 1], moved, newKey);
      match Resolve(model, names[|names| - 1])
      case None =>
      case Some(relation) =>
        MoveAllEmptiesSource(rows, moved, model.key, newKey, ColumnOf(relation));
    }
  }

  lemma {:induction false} CountNamesGathered(rows: seq<Row>, model: Model, target: Model, names: seq<string>, moved: set<Column>)
    requires target.schema == model.schema && model.key != target.key && Columns(model, names) <= moved
    ensures CountNames(MoveAll(rows, moved, model.key, target.key), target, names)
         == CountNames(rows, model, names) + CountNames(rows, target, names)
    decreases |names|
  {
    if names != [] {
      CountNamesGathered(rows, model, target, names[..|names| - 1], moved);
      match Resolve(model, names[|names| - 1])
      case None =>
      case Some(relation) =>
        MoveAllGathersTarget(rows, moved, model.key, target.key, ColumnOf(relation));
    }
  }

  lemma {:induction false} CountNamesUntouched(rows: seq<Row>, from: int, to: int, moved: set<Column>, other: Model, names: seq<string>)
    requires other.key != from && other.key != to
    ensures CountNames(MoveAll(rows, moved, from, to), other, names) == CountNames(rows, other, names)
    decreases |names|
  {
    if names != [] {
      CountNamesUntouched(rows, from, to, moved, other, names[..|names| - 1]);
      match Resolve(other, names[|names| - 1])
      case None =>
      case Some(relation) =>
        MoveAllKeepsOtherKeys(rows, moved, from, to, ColumnOf(relation), other.key);
    }
  }

  /**
   * Conservation for a finished transfer from `model` to `target` of the same
   * class: nothing points at `model` any more, `target` has its own rows and
   * all of `model`'s, a model with any third key keeps its count, and a row
   * that pointed at `model` through none of the declared columns is unchanged.
   */
  lemma TransferConserves(rows: seq<Row>, model: Model, target: Model, other: Model)
    requires target.schema == model.schema && model.key != target.key
    requires TransferNames(rows, model, GetTransferableRelationships(model), target.key).Running?
    requires other.key != model.key && other.key != target.key
    ensures var after := TransferNames(rows, model, GetTransferableRelationships(model), target.key).rows;
      && CountTransferableOf(after, model) == 0
      && CountTransferableOf(after, target) == CountTransferableOf(rows, model) + CountTransferableOf(rows, target)
      && CountTransferableOf(after, other) == CountTransferableOf(rows, other)
      && |after| == |rows|
      && forall j :: 0 <= j < |rows| && !PointsThrough(rows[j], Columns(model, GetTransferableRelationships(model)), model.key)
           ==> after[j] == rows[j]
  {
    var names := GetTransferableRelationships(model);
    var moved := Columns(model, names);
    TransferMovesRows(rows, model, names, target.key);
    CountNamesEmptied(rows, model, names, moved, target.key);
    CountNamesGathered(rows, model, target, names, moved);
    CountNamesUntouched(rows, model.key, target.key, moved, other, GetTransferableRelationships(other));
    forall j | 0 <= j < |rows| && !PointsThrough(rows[j], moved, model.key)
      ensures MoveAll(rows, moved, model.key, target.key)[j] == rows[j]
    {
      MoveRowUnmatched(rows[j], moved, model.key, target.key);
    }
  }

  /** Some field of the row, in one of `columns`, holds `key`. */
  predicate PointsThrough(row: Row, columns: set<Column>, key: int) {
    exists c :: c in row.fields && (row.table, c) in columns && row.fields[c] == key
  }

  /** `$model->countTransferable()`: the rows still pointing at the model. */
  method CountTransferable(db: Database, model: Model) returns (affected: nat)
    ensures affected == CountTransferableOf(db.rows, model)
  {
    affected := 0;
    var names := GetTransferableRelationships(model);
    for i := 0 to |names|
      invariant affected == CountNames(db.rows, model, names[..i])
    {
      assert names[..i + 1][..i] == names[..i];
      var relation := Resolve(model, names[i]);
      if relation.None? {
        continue;
      }
      affected := affected + Count(db.rows, ColumnOf(relation.value), model.key);
    }
    assert names[..|names|] == names;
  }

  /**
   * `$model->checkDangling($throwException)`: 0 when nothing points at the
   * model; otherwise DanglingRelationships when asked to throw, else the count.
   */
  method CheckDangling(db: Database, model: Model, throwException: bool) returns (r: Result<nat, Failure>)
    ensures r == Success(0) <==> CountTransferableOf(db.rows, model) == 0
    ensures r.Failure? <==> throwException && CountTransferableOf(db.rows, model) != 0
    ensures r.Success? ==> r.value == CountTransferableOf(db.rows, model)
    ensures r.Failure? ==>
      r.error == Dangling(NewDanglingRelationships(model, CountTransferableOf(db.rows, model)))
  {
    var dangling := CountTransferable(db, model);
    if dangling != 0 {
      if throwException {
        return Failure(Dangling(NewDanglingRelationships(model, dangling)));
      }
      return Success(dangling);
    }
    return Success(0);
  }

  /**
   * `$model->transferTo($newModel, $dryRun)`: re-points the rows of every
   * declared relation at the new model's key and returns the rows updated.
   * The same key returns 0 and touches nothing. A dry run returns the same
   * count and leaves the rows as they were. A relation getFk cannot resolve
   * throws, leaving the updates made before it in place (and, in a dry run,
   * the transaction open).
   */
  method TransferTo(db: Database, model: Model, newModel: Model, dryRun: bool) returns (r: Result<nat, Failure>)
    requires newModel.schema == model.schema
    modifies db
    ensures model.key == newModel.key ==>
      r == Success(0) && db.rows == old(db.rows) && db.transactions == old(db.transactions)
    ensures model.key != newModel.key ==>
      var run := TransferNames(old(db.rows), model, GetTransferableRelationships(model), newModel.key);
      && (r.Success? <==> run.Running?)
      && (run.Running? ==>
            && r.value == run.affected
            && db.rows == (if dryRun then old(db.rows) else run.rows)
            && db.transactions == old(db.transactions))
      && (run.Failed? ==>
            && r.error == run.failure
            && db.rows == run.rows
            && db.transactions == (if dryRun then old(db.transactions) + [old(db.rows)] else old(db.transactions)))
  {
    if model.key == newModel.key {
      return Success(0);
    }
    if dryRun {
      db.BeginTransaction();
    }
    var affected := 0;
    var names := GetTransferableRelationships(model);
    for i := 0 to |names|
      invariant TransferNames(old(db.rows), model, names[..i], newModel.key) == Running(db.rows, affected)
      invariant db.transactions == if dryRun then old(db.transactions) + [old(db.rows)] else old(db.transactions)
    {
      assert names[..i + 1][..i] == names[..i];
      var relation := Resolve(model, names[i]);
      if relation.None? {
        continue;
      }
      var fkName := GetFk(relation.value);
      if fkName.Failure? {
        FailureSticks(old(db.rows), model, names, newModel.key, i + 1);
        return Failure(fkName.error);
      }
      var updated := db.Update((relation.value.table, fkName.value), model.key, newModel.key);
      affected := affected + updated;
    }
    assert names[..|names|] == names;
    if dryRun {
      db.RollBack();
    }
    return Success(affected);
  }

  /**
   * The deleting hook: for a NoDanglingRelationships model, `checkDangling()`
   * with its default of throwing; any other model passes.
   */
  method Deleting(db: Database, model: Model) returns (r: Result<(), Failure>)
    ensures r.Failure? <==> model.schema.noDangling && CountTransferableOf(db.rows, model) != 0
    ensures r.Failure? ==>
      r.error == Dangling(NewDanglingRelationships(model, CountTransferableOf(db.rows, model)))
  {
    if model.schema.noDangling {
      var checked := CheckDangling(db, model, true);
      if checked.Failure? {
        return Failure(checked.error);
      }
    }
    return Success(());
  }

  /**
   * `$model->delete()` with the hook registered by
   * `bootTransferableRelationship`: a NoDanglingRelationships model that rows
   * still point at is not deleted and DanglingRelationships is thrown; any
   * other model's row is deleted, whatever still points at it.
   */
  method Delete(db: Database, model: Model) returns (r: Result<(), Failure>)
    modifies db
    ensures r.Failure? <==> model.schema.noDangling && CountTransferableOf(old(db.rows), model) != 0
    ensures r.Failure? ==>
      && r.error == Dangling(NewDanglingRelationships(model, CountTransferableOf(old(db.rows), model)))
      && db.rows == old(db.rows)
    ensures r.Success? ==> db.rows == RemoveRow(old(db.rows), model.schema.table, model.key)
    ensures db.transactions == old(db.transactions)
  {
    var guard := Deleting(db, model);
    if guard.Failure? {
      return guard;
    }
    db.DeleteRow(model.schema.table, model.key);
    return Success(());
  }
}
