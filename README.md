# Transferable relationships, modelled in Dafny

This project models the core of the `nhalstead/transferable` Laravel package: the
`TransferableRelationship` trait and the `DanglingRelationships` exception.

A model class lists relationship names in its `$transferable` property. The trait then offers four things:

- It counts the rows that still point at a model through those relationships (`countTransferable`, `checkDangling`).
- It re-points those rows at another model of the same class (`transferTo`), optionally as a dry run inside a transaction that is rolled back.
- For a class that implements `NoDanglingRelationships`, it refuses a delete while such rows remain.
- `getFk` maps each relation class to the name of its foreign-key column. It throws `FailedToResolveRelationship` for any class it does not know, many-to-many included.

The Eloquent layer underneath is replaced by a small abstract store (module `Eloquent`):

- The database is a list of rows. Each row has a table, an id and integer fields.
- A relation bound to a model is the set of rows of the relation's table whose foreign-key column holds the model's key.
- `count()` is `Eloquent.Count`. The bulk `update()` is `Eloquent.Database.Update`, specified by `Eloquent.MoveAll`.
- `beginTransaction` / `rollBack` push and restore snapshots of the rows.
- A model class is a value (`ModelClass`) with these parts:
  - its class name and table;
  - a flag for the `NoDanglingRelationships` marker;
  - its `$transferable` property;
  - a map from method names to the relation each one returns.

  A name missing from that map returns something that is not a Relation.

Modules:

- `Wrappers`: the `Option` and `Result` types.
- `PhpStrings`: `explode`/`implode` and integer interpolation.
- `Eloquent`: the store.
- `Exceptions`: the exception messages.
- `TransferableRelationship`: the trait.
- `AggregateScenario`: the fixture of the package's test.

The trait's loops (`countTransferable`, `transferTo`) are methods with loop invariants. Each is proved against a specification function: `CountNames` and `TransferNames`. The accounting properties are then proved as lemmas about those functions.

The model follows the code in three places where a reader might expect something else:

- **Non-dry-run transfers are not atomic.** The code opens a transaction only for a dry run (src/Traits/TransferableRelationship.php:168). A `getFk` failure part-way through therefore leaves the earlier relations' updates applied. In a dry run it also leaves the transaction open. `TransferTo`'s contract states this. `TransferFailsAtFirst` adds that the exception is thrown for the first unresolvable name in declaration order, and that the rows left are those with every earlier declared column already moved.
- **Rollback restores the target's count.** The package's dry-run test expects the target's count to be 4 after the rollback (tests/AggregateTest.php:62). The rollback at src/Traits/TransferableRelationship.php:190 restores the rows, so the model gives the target's original count. This matches the unchanged source count asserted at tests/AggregateTest.php:63.
- **The return value can be less than the prior count.** `transferTo` returns the prior `countTransferable` whenever no two declared names resolve to relations over the same (table, column). `TransferMovesRows` proves this, and proves `<=` in general. When two declared names do share a column, the rows in it that hold the model's key are counted once per declaration but rewritten only once, so when there are any such rows the transfer returns less. `AggregateScenario.DuplicateDeclarationCountsTwice` shows this on the test fixture.

## Model

| member | source | states |
|---|---|---|
| `TransferableRelationship.GetTransferableRelationships` | src/Traits/TransferableRelationship.php:44-47 | the declared `$transferable` list, or the empty list when it is undeclared |
| `TransferableRelationship.GetFk` | src/Traits/TransferableRelationship.php:56-99 | succeeds exactly for BelongsTo, MorphTo, HasOneOrMany, HasOne, HasMany, MorphOneOrMany, MorphOne, MorphMany, HasManyThrough and HasOneThrough, and then gives the relation's foreign-key column; every other class, many-to-many and user subclasses included, throws FailedToResolveRelationship carrying the relation |
| `TransferableRelationship.CountTransferable` | src/Traits/TransferableRelationship.php:131-150 | the loop returns the sum, over the declared names that resolve to a relation, of the rows that relation matches; it changes nothing |
| `TransferableRelationship.CountNamesAppend` | src/Traits/TransferableRelationship.php:133-149 | the count is additive over the declared list |
| `TransferableRelationship.CountSkipsNonRelations` | src/Traits/TransferableRelationship.php:135-139 | names that do not resolve to a relation contribute nothing: counting only the relation names gives the same total |
| `TransferableRelationship.CheckDangling` | src/Traits/TransferableRelationship.php:112-124 | returns 0 exactly when the count is 0; with a nonzero count it throws DanglingRelationships (built from the model and the count) exactly when asked to, and otherwise returns the count |
| `TransferableRelationship.TransferTo` | src/Traits/TransferableRelationship.php:160-192 | equal keys return 0 and change nothing, even with unresolvable relations; otherwise the result and new rows are those of the transfer loop `TransferNames`; a dry run returns the same count as a real run and leaves the rows and the open transactions as they were; a failure leaves the earlier updates (and, in a dry run, the transaction) in place |
| `TransferableRelationship.FailureSticks` | src/Traits/TransferableRelationship.php:178 | once `getFk` has thrown, the rest of the loop is not run: the outcome of the whole loop is that of the prefix that threw |
| `TransferableRelationship.TransferSucceedsIff` | src/Traits/TransferableRelationship.php:172-188 | the transfer loop finishes exactly when every declared relation is of a kind `getFk` supports; otherwise it throws FailedToResolveRelationship for a declared relation of an unsupported kind |
| `TransferableRelationship.TransferFailsAtFirst` | src/Traits/TransferableRelationship.php:172-187 | a transfer that throws does so at the first declared name, in declaration order, whose relation is of an unsupported kind; the exception is FailedToResolveRelationship carrying that relation; the rows left have every earlier declared column moved to the new key |
| `TransferableRelationship.ColumnsExclude` | src/Traits/TransferableRelationship.php:178-187 | a column that no declared name resolves to is never written by the transfer |
| `TransferableRelationship.TransferMovesRows` | src/Traits/TransferableRelationship.php:172-188 | a finished transfer has re-pointed exactly the declared columns from the old key to the new one; the count it returns is at most what the relations matched before, and equal to it when no two relations share a column |
| `TransferableRelationship.CountNamesEmptied` | src/Traits/TransferableRelationship.php:185-187 | after the declared columns are moved away from the model's key, the model's count over those names is 0 |
| `TransferableRelationship.CountNamesGathered` | src/Traits/TransferableRelationship.php:185-187 | after the move, the target's count is the source's prior count plus the target's prior count |
| `TransferableRelationship.CountNamesUntouched` | src/Traits/TransferableRelationship.php:185-187 | the move leaves the count of a model with any third key unchanged |
| `TransferableRelationship.TransferConserves` | src/Traits/TransferableRelationship.php:172-191 | after a finished transfer between two models of one class, the source's count is 0, the target's is the sum of both prior counts, every other model's count is unchanged, and a row that pointed at the source through none of the declared columns is unchanged |
| `TransferableRelationship.Deleting` | src/Traits/TransferableRelationship.php:29-36 | the deleting hook throws DanglingRelationships exactly for a NoDanglingRelationships model with a nonzero count, and lets every other model through |
| `TransferableRelationship.Delete` | src/Traits/TransferableRelationship.php:26-38 | a NoDanglingRelationships model with a nonzero count is not deleted (rows unchanged, DanglingRelationships thrown); any other model's row is removed, whatever still points at it |
| `Exceptions.ShortName` | src/Exceptions/DanglingRelationships.php:23-24 | the class name's segment after its last backslash: free of backslashes, a suffix of the name, preceded by a backslash unless it is the whole name; with no backslash it is the whole name |
| `Exceptions.Keyword` | src/Exceptions/DanglingRelationships.php:27-31 | "must" exactly for a NoDanglingRelationships model, "can" exactly for any other |
| `Exceptions.NewDanglingRelationships` | src/Exceptions/DanglingRelationships.php:21-34 | the exception's code is always 1 and its message is "Model NAME(KEY) still has N items that KEYWORD be transferred." with the short name, the key, the count and the keyword |
| `Exceptions.MessageRevealsMarker` | src/Exceptions/DanglingRelationships.php:27-33 | the message ends in " must be transferred." exactly when the model implements NoDanglingRelationships |
| `Exceptions.MessageNamesModel` | src/Exceptions/DanglingRelationships.php:33 | the message starts with "Model ", the short class name, "(" and the key |
| `Exceptions.MessageDeterminesCount` | src/Exceptions/DanglingRelationships.php:33 | two messages about one model that agree in their text report the same count |
| `Exceptions.MessageDeterminesKey` | src/Exceptions/DanglingRelationships.php:33 | two messages about models of one class, with one count, that agree in their text name the same key |
| `PhpStrings.Explode` | src/Exceptions/DanglingRelationships.php:23 | `explode` with a one-character delimiter gives at least one segment, no segment holds the delimiter, and joining the segments gives back the input |
| `PhpStrings.ImplodeEndsWithLast` | src/Exceptions/DanglingRelationships.php:23-24 | joined text ends with its last segment, right after a delimiter when there are several segments |
| `PhpStrings.IntToDecimalRoundTrip` | src/Exceptions/DanglingRelationships.php:33 | an interpolated integer reads back as the same integer |
| `Eloquent.Database.Update` | src/Traits/TransferableRelationship.php:185-187 | the bulk update sets the column to the new key on exactly the rows where it held the old key, and returns the number of rows matched |
| `Eloquent.Database.BeginTransaction` | src/Traits/TransferableRelationship.php:168 | opening a transaction remembers the rows and changes nothing else |
| `Eloquent.Database.RollBack` | src/Traits/TransferableRelationship.php:190 | rolling back restores the rows remembered by the innermost open transaction and closes it; with no open transaction it does nothing |
| `Eloquent.MoveAllEmptiesSource` | src/Traits/TransferableRelationship.php:185-187 | after the update, no row of an updated column still holds the old key |
| `Eloquent.MoveAllGathersTarget` | src/Traits/TransferableRelationship.php:185-187 | after the update, an updated column holds the new key in every row that held either key before |
| `Eloquent.MoveAllKeepsOtherColumns` | src/Traits/TransferableRelationship.php:185-187 | columns not named by the update keep every count |
| `Eloquent.MoveAllKeepsOtherKeys` | src/Traits/TransferableRelationship.php:185-187 | keys other than the two involved keep every count |
| `Eloquent.MoveAllCompose` | src/Traits/TransferableRelationship.php:172-188 | successive updates between the same two keys amount to one update of all their columns |
| `Eloquent.MoveRowUnmatched` | src/Traits/TransferableRelationship.php:185-187 | a row none of whose updated columns holds the old key is left exactly as it was |
| `Eloquent.RemoveRow` | tests/AggregateTest.php:79 | the delete query removes exactly the rows with the model's table and key, and keeps every other row as often as it occurred |
| `Eloquent.RemoveRowKeepsOtherTables` | tests/AggregateTest.php:79 | deleting a model's row leaves every count over another table unchanged, so the rows pointing at a deleted lenient model remain |
| `AggregateScenario.FixtureCounts` | tests/AggregateTest.php:33-40 | each of the three genres of the test fixture has two books |
| `AggregateScenario.DuplicateDeclarationCountsTwice` | src/Traits/TransferableRelationship.php:129-157 | declaring one relationship twice counts its rows twice, yet the transfer returns them once |

## Left out

- Eloquent and the query builder. SQL semantics, `get_class`, `call_user_func_array` and `getForeignKeyName` come from a library outside this model. A relation is reduced to its class, its table and its foreign-key column, and matches the rows whose column holds the model's key. This is the same for every kind: the reversed direction of BelongsTo/MorphTo and the far table of the through kinds are not modelled.
- Extra query conditions. The model's counts are exact only for plain relations. MorphOne, MorphMany and MorphTo also filter on the `*_type` discriminator column, and a declared relation may add its own `where` conditions. Neither filter is modelled, so for such relations the model matches every row whose foreign-key column holds the key.
- Calling a name that is no method at all. Through Eloquent's `__call` this would throw; the model treats it like any value that is not a Relation, which is skipped.
- Transactions. Savepoints, isolation levels, other connections and concurrency are not modelled. Transactions are only snapshot and restore of the rows.
- Keys. Keys are unbounded integers. String and null keys, and PHP's 64-bit integer overflow, are not modelled. The strict `===` key comparison becomes integer equality.
- TransferTo: the `self` parameter type is the requirement that both models share one `ModelClass`. Instances of subclasses are not modelled.
- Deletion events. The `static::deleting` registration is modelled as the explicit pre-delete check in `TransferableRelationship.Delete`. Eloquent's delete also checks whether the model exists and fires other listeners; neither is modelled.
- src/Interfaces/NoDanglingRelationships.php is an empty marker interface. It is modelled as the `noDangling` flag.
- FailedToResolveRelationship's own class is not part of this model. Its exception is modelled as the message and the relation that the trait passes to it.
- tests/TestCase.php (database bootstrap and migrations) is not part of this model.
