/**
 * The genre and book fixture of the package's aggregate test, replayed
 * against the model's contracts: three genres with two books each.
 */
module AggregateScenario {
  import opened Wrappers
  import opened Eloquent
  import opened Exceptions
  import opened TransferableRelationship

  /** The Genre class: implements NoDanglingRelationships and declares `books` (a HasMany on books.genre_id). */
  function GenreClass(): ModelClass {
    ModelClass("nhalstead\\Transferable\\Tests\\Genre", "genres", true, Some(["books"]),
               map["books" := Relation(HasMany, "books", "genre_id")])
  }

  function Book(id: int, genre: int): Row {
    Row("books", id, map["genre_id" := genre])
  }

  function Fixture(): seq<Row> {
    [ Row("genres", 1, map[]), Row("genres", 2, map[]), Row("genres", 3, map[]),
      Book(1, 1), Book(2, 1), Book(3, 2), Book(4, 2), Book(5, 3), Book(6, 3) ]
  }

  lemma FixtureCounts()
    ensures CountTransferableOf(Fixture(), Model(GenreClass(), 1)) == 2
    ensures CountTransferableOf(Fixture(), Model(GenreClass(), 2)) == 2
    ensures CountTransferableOf(Fixture(), Model(GenreClass(), 3)) == 2
  {
    assert GetTransferableRelationships(Model(GenreClass(), 1)) == ["books"];
    assert ["books"][..0] == [];
  }

  /**
   * Declaring `books` twice counts each book twice, while the transfer
   * rewrites each book once: the count is 4, the transfer returns 2.
   */
  lemma DuplicateDeclarationCountsTwice()
    ensures var twice := Model(GenreClass().(transferable := Some(["books", "books"])), 2);
      && CountTransferableOf(Fixture(), twice) == 4
      && TransferNames(Fixture(), twice, ["books", "books"], 1).Running?
      && TransferNames(Fixture(), twice, ["books", "books"], 1).affected == 2
  {
    var twice := Model(GenreClass().(transferable := Some(["books", "books"])), 2);
    var column := ("books", "genre_id");
    assert ["books", "books"][..1] == ["books"];
    assert ["books"][..0] == [];
    assert CountTransferableOf(Fixture(), twice) == 4;
    MoveAllEmptiesSource(Fixture(), {column}, 2, 1, column);
  }

  method Scenario() {
    var fiction, sciFi := Model(GenreClass(), 1), Model(GenreClass(), 2);
    var db := new Database(Fixture());
    FixtureCounts();

    var blocked := Delete(db, sciFi);
    assert blocked.Failure?;

    var dry := TransferTo(db, sciFi, fiction, true);
    TransferMovesRows(Fixture(), sciFi, ["books"], 1);
    assert dry == Success(2);
    assert db.rows == Fixture();

    var moved := TransferTo(db, sciFi, fiction, false);
    assert moved == Success(2);
    TransferConserves(Fixture(), sciFi, fiction, Model(GenreClass(), 3));
    assert CountTransferableOf(db.rows, fiction) == 4;
    assert CountTransferableOf(db.rows, sciFi) == 0;

    var deleted := Delete(db, sciFi);
    assert deleted.Success?;
  }
}
