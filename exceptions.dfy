/**
 * The exceptions the trait throws. DanglingRelationships builds its message
 * from the model; FailedToResolveRelationship carries the relation it could
 * not translate into a foreign-key column.
 */
module Exceptions {
  import opened PhpStrings
  import opened Eloquent

  /** An Exception's message and code. */
  datatype DanglingRelationships = DanglingRelationships(message: string, code: int)

  datatype FailedToResolveRelationship = FailedToResolveRelationship(message: string, relation: Relation)

  /** Everything the trait's operations can throw. */
  datatype Failure =
    | Dangling(dangling: DanglingRelationships)
    | Unresolved(unresolved: FailedToResolveRelationship)

  /**
   * The class name without its namespace: the last segment of
   * `explode("\\", $className)`. It holds no backslash, it ends the class
   * name, and it is the whole name or starts right after a backslash.
   */
  function ShortName(className: string): (name: string)
    ensures '\\' !in name
    ensures |name| <= |className| && className[|className| - |name|..] == name
    ensures name == className || className[|className| - |name| - 1] == '\\'
    ensures '\\' !in className ==> name == className
  {
    var parts := Explode('\\', className);
    ImplodeEndsWithLast('\\', parts);
    parts[|parts| - 1]
  }

  /** "must" for a model that implements NoDanglingRelationships, "can" for any other. */
  function Keyword(noDangling: bool): (keyword: string)
    ensures keyword == "must" <==> noDangling
    ensures keyword == "can" <==> !noDangling
  {
    if noDangling then "must" else "can"
  }

  /** "Model <name>(<key>) still has <dangling> items that <keyword> be transferred." */
  function Message(name: string, key: int, dangling: int, keyword: string): string {
    MessageHead(name, key) + IntToDecimal(dangling) + MessageTail(keyword)
  }

  function MessageHead(name: string, key: int): string {
    "Model " + name + "(" + IntToDecimal(key) + ") still has "
  }

  function MessageTail(keyword: string): string {
    " items that " + keyword + " be transferred."
  }

  /** `new DanglingRelationships($model, $dangling)`. */
  function NewDanglingRelationships(model: Model, dangling: int): (e: DanglingRelationships)
    ensures e.code == 1
    ensures e.message == Message(ShortName(model.schema.className), model.key, dangling, Keyword(model.schema.noDangling))
  {
    DanglingRelationships(
      Message(ShortName(model.schema.className), model.key, dangling, Keyword(model.schema.noDangling)),
      1)
  }

  predicate EndsWith(s: string, suffix: string) {
    |suffix| <= |s| && s[|s| - |suffix|..] == suffix
  }

  /** A text that differs only in one middle part differs in that part. */
  lemma CancelAround(prefix: string, x: string, y: string, suffix: string)
    requires prefix + x + suffix == prefix + y + suffix
    ensures x == y
  {
    var s := prefix + x + suffix;
    assert |x| == |y|;
    assert x == s[|prefix|..|prefix| + |x|];
    assert y == (prefix + y + suffix)[|prefix|..|prefix| + |y|];
  }

  lemma EndsWithConcat(a: string, b: string)
    ensures EndsWith(a + b, b)
  {
  }

  lemma CharBeforeSuffix(a: string, b: string)
    requires |a| > 0
    ensures (a + b)[|a + b| - |b| - 1] == a[|a| - 1]
  {
  }

  lemma TailSplit(front: string, keyword: string)
    ensures front + MessageTail(keyword) == (front + " items that") + (" " + keyword + " be transferred.")
  {
  }

  lemma LastOfConcat(a: string, b: string)
    requires |b| > 0
    ensures (a + b)[|a + b| - 1] == b[|b| - 1]
  {
  }

  lemma TailRevealsMarker(front: string, noDangling: bool)
    ensures EndsWith(front + MessageTail(Keyword(noDangling)), " must be transferred.") <==> noDangling
  {
    var m := front + MessageTail(Keyword(noDangling));
    var ending := " " + Keyword(noDangling) + " be transferred.";
    TailSplit(front, Keyword(noDangling));
    if noDangling {
      EndsWithConcat(front + " items that", ending);
      assert ending == " must be transferred.";
    } else {
      assert |ending| == 20;
      CharBeforeSuffix(front + " items that", ending);
      LastOfConcat(front, " items that");
      assert m[|m| - 21] == 't';
    }
  }

  /** The message says "must be transferred" exactly when the model implements NoDanglingRelationships. */
  lemma MessageRevealsMarker(model: Model, dangling: int)
    ensures EndsWith(NewDanglingRelationships(model, dangling).message, " must be transferred.")
      <==> model.schema.noDangling
  {
    var front := MessageHead(ShortName(model.schema.className), model.key) + IntToDecimal(dangling);
    TailRevealsMarker(front, model.schema.noDangling);
  }

  /** The message starts with the model's short class name followed by its key in brackets. */
  lemma MessageNamesModel(model: Model, dangling: int)
    ensures var m, p := NewDanglingRelationships(model, dangling).message,
                        "Model " + ShortName(model.schema.className) + "(" + IntToDecimal(model.key);
      |p| <= |m| && m[..|p|] == p
  {
  }

  /** Two messages about the same model that agree in text report the same number of dangling items. */
  lemma MessageDeterminesCount(model: Model, d1: int, d2: int)
    requires NewDanglingRelationships(model, d1).message == NewDanglingRelationships(model, d2).message
    ensures d1 == d2
  {
    var head := MessageHead(ShortName(model.schema.className), model.key);
    var tail := MessageTail(Keyword(model.schema.noDangling));
    CancelAround(head, IntToDecimal(d1), IntToDecimal(d2), tail);
    IntToDecimalInjective(d1, d2);
  }

  lemma Regroup(a: string, b: string, c: string, d: string, e: string)
    ensures a + b + c + d + e == a + b + (c + d + e)
  {
  }

  /** Two messages about models of one class with the same count that agree in text name the same key. */
  lemma MessageDeterminesKey(schema: ModelClass, k1: int, k2: int, dangling: int)
    requires NewDanglingRelationships(Model(schema, k1), dangling).message
          == NewDanglingRelationships(Model(schema, k2), dangling).message
    ensures k1 == k2
  {
    var prefix := "Model " + ShortName(schema.className) + "(";
    var middle := ") still has ";
    var d := IntToDecimal(dangling);
    var tail := MessageTail(Keyword(schema.noDangling));
    Regroup(prefix, IntToDecimal(k1), middle, d, tail);
    Regroup(prefix, IntToDecimal(k2), middle, d, tail);
    CancelAround(prefix, IntToDecimal(k1), IntToDecimal(k2), middle + d + tail);
    IntToDecimalInjective(k1, k2);
  }
}
