/** Concrete cases from the repository's unit tests, stated as lemmas about
    the model. */
module Scenarios {
  import opened PhpValue
  import opened PhpKey
  import opened PhpArray
  import ScalarChecker
  import ClassChecker
  import JsonChecker
  import ArrayChecker

  /** A PHP list literal `[x0, x1, ...]`. */
  function List(xs: seq<Value>): Value {
    Arr(ListOf(xs))
  }

  /** `checkIndex('0')` on [1, 2, 3] is 1; `checkIndex('10')` is a missing key. */
  lemma CheckIndexOnList()
    ensures ArrayChecker.CheckIndex(List([Int(1), Int(2), Int(3)]), "0") == Ok(Int(1))
    ensures ArrayChecker.CheckIndex(List([Int(1), Int(2), Int(3)]), "10") == Err(KeyNotFound("10"))
  {
    CanonicalKeyOfIntString(0);
    CanonicalKeyOfIntString(10);
    assert IntToString(10) == "10";
  }

  /** checkIndexInteger: '0' of ['1', '2', '3'] is a string, not an int; '3'
      is a missing key, whatever the element types. */
  lemma CheckIndexIntegerOnStrings()
    ensures ArrayChecker.CheckIndexInteger(List([Str("1"), Str("2"), Str("3")]), "0")
            == Err(TypeInvalid("int", Some("string")))
    ensures ArrayChecker.CheckIndexInteger(List([Str("1"), Str("2"), Str("3")]), "3")
            == Err(KeyNotFound("3"))
  {
    CanonicalKeyOfIntString(0);
    CanonicalKeyOfIntString(3);
  }

  /** [1, 2, 3] is sequential and not associative; a string-keyed array is
      associative and not sequential. */
  lemma SequentialAndAssociativeCases()
    ensures ArrayChecker.CheckSequential(List([Int(1), Int(2), Int(3)])).Ok?
    ensures ArrayChecker.CheckAssoziative(List([Int(1), Int(2), Int(3)]))
            == Err(TypeInvalid("array-associative", Some("array-sequential")))
    ensures ArrayChecker.CheckAssoziative(Arr([Entry(StrKey("key1"), Str("value 1"))])).Ok?
    ensures ArrayChecker.CheckSequential(Arr([Entry(StrKey("key1"), Str("value 1"))])).Err?
  {
    ArrayChecker.SequentialIffNonEmptyList(List([Int(1), Int(2), Int(3)]));
    var assoc := Arr([Entry(StrKey("key1"), Str("value 1"))]);
    assert assoc.entries[0].key != IntKey(0);
    ArrayChecker.SequentialIffNonEmptyList(assoc);
  }

  /** checkFlat rejects [[1], [2], [3]] on its first element; checkString
      rejects ['1', '2', 3] on its third. */
  lemma ElementChecksReportFirstOffender()
    ensures ArrayChecker.Elements(List([List([Int(1)]), List([Int(2)]), List([Int(3)])]), ArrayChecker.Flat)
            == Err(TypeInvalid("flat", Some("array")))
    ensures ArrayChecker.Elements(List([Str("1"), Str("2"), Int(3)]), ArrayChecker.Strings)
            == Err(TypeInvalid("string", Some("integer")))
  {
    var v := List([Str("1"), Str("2"), Int(3)]);
    assert v.entries[1..][1..] == [Entry(IntKey(2), Int(3))];
  }

  /** A news row with a title, a text and a description. */
  function NewsRow(): seq<Entry> {
    [Entry(StrKey("title"), Str("T1")), Entry(StrKey("text"), Str("X1")),
     Entry(StrKey("description"), Str("D1"))]
  }

  /** Non-numeric filter keys address string keys. */
  lemma TitleAndTextAreStringKeys()
    ensures CanonicalKey("title") == StrKey("title")
    ensures CanonicalKey("text") == StrKey("text")
  {
    assert !IsDigit("title"[0]);
    assert !IsDigit("text"[0]);
  }

  /** The row projected on ['title', 'text'] keeps those two keys, in that
      order, and drops the description. */
  lemma ProjectNewsRow()
    ensures ArrayChecker.ProjectRow(NewsRow(), ["title", "text"], [])
            == Ok([Entry(StrKey("title"), Str("T1")), Entry(StrKey("text"), Str("X1"))])
  {
    TitleAndTextAreStringKeys();
    var first := [Entry(StrKey("title"), Str("T1"))];
    assert ArraySet([], StrKey("title"), Str("T1")) == first;
    assert !HasKey(first, StrKey("text"));
    assert ["title", "text"][1..] == ["text"];
    var row := NewsRow();
    assert Lookup(row, StrKey("title")) == Some(Str("T1"));
    assert row[1..][0].key == StrKey("text");
    assert Lookup(row, StrKey("text")) == Some(Str("X1"));
    var both := ArraySet(first, StrKey("text"), Str("X1"));
    assert both == [Entry(StrKey("title"), Str("T1")), Entry(StrKey("text"), Str("X1"))];
    assert ArrayChecker.ProjectRow(row, ["text"], first) == ArrayChecker.ProjectRow(row, [], both);
  }

  /** checkArray(['test']) on rows that are not arrays fails. */
  lemma CheckArrayRejectsScalarRows()
    ensures ArrayChecker.ArrayRows(List([Int(1), Int(2)]), ["test"]) == Err(TypeInvalid("array", None))
  {
  }

  /** checkArray(['title', 'text']) keeps exactly those two keys of every row. */
  lemma CheckArrayProjection()
    ensures ArrayChecker.ArrayRows(List([Arr(NewsRow())]), ["title", "text"])
            == Ok(List([Arr([Entry(StrKey("title"), Str("T1")), Entry(StrKey("text"), Str("X1"))])]))
  {
    ProjectNewsRow();
    var projected := Arr([Entry(StrKey("title"), Str("T1")), Entry(StrKey("text"), Str("X1"))]);
    var rows := List([Arr(NewsRow())]);
    assert rows.entries[0].val == Arr(NewsRow());
    assert ArrayChecker.RowResult(Arr(NewsRow()), ["title", "text"]) == Ok(projected);
    assert rows.entries[1..] == [];
    assert [] + [projected] == [projected];
    assert ArrayChecker.CollectRows(rows.entries, ["title", "text"], [])
        == ArrayChecker.CollectRows([], ["title", "text"], [projected]);
    assert ListOf([projected]) == List([projected]).entries;
  }

  /** Exact scalar types, no coercion. */
  lemma ScalarCases()
    ensures ScalarChecker.CheckInteger(Str("0")) == Err(TypeInvalid("int", Some("string")))
    ensures ScalarChecker.CheckFloat(Str(".0")) == Err(TypeInvalid("float", Some("string")))
    ensures ScalarChecker.CheckString(Null) == Err(TypeInvalid("string", Some("NULL")))
    ensures ScalarChecker.CheckStringOrNull(Null) == Ok(Null)
    ensures ScalarChecker.CheckStringOrNull(Float(".0")) == Err(TypeInvalid("string", Some("double")))
    ensures ScalarChecker.CheckIterable(Str("0")).Err? && ScalarChecker.CheckIterable(Arr([])).Ok?
  {
  }

  /** checkStdClass on null names gettype 'NULL'; isJson is false for an
      array, false and null. */
  lemma ClassAndJsonCases(decodes: JsonChecker.JsonDecoder)
    ensures ClassChecker.CheckStdClass(Null) == Err(TypeInvalid("stdClass", Some("NULL")))
    ensures !JsonChecker.IsJsonValue(Arr([]), decodes)
    ensures !JsonChecker.IsJsonValue(Bool(false), decodes)
    ensures !JsonChecker.IsJsonValue(Null, decodes)
    ensures JsonChecker.JsonResult(Null, decodes) == Err(TypeInvalid("string", Some("NULL")))
  {
  }
}
