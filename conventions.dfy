/** The conventions package: the `Example` record, its constructor, its one
    method, and the package's `main` routine treated as an ordinary procedure
    (the package is not `main`, so it is never a program entry point).
 */
module Conventions {
  import opened GoText

  /** The record. Nothing ever updates it after construction, and `Method`
      takes it by value, so it is a datatype. `irrelevant` is the unexported
      field that no code sets or reads. */
  datatype Example = Example(id: Int, name: String, description: String, irrelevant: String)

  /** The constructor: the public fields are the arguments, verbatim; the
      unexported field keeps Go's zero value for a string, the empty string.
      There is no validation and no failure path. */
  function NewExample(id: Int, name: String, description: String): (e: Example)
    ensures e.id == id && e.name == name && e.description == description
    ensures e.irrelevant == []
  {
    Example(id, name, description, [])
  }

  /** The name-length check. `len` counts the bytes of the name, and the
      error result is always nil. */
  function Method(e: Example): (r: (bool, Option<Error>))
    ensures r.0 <==> |e.name| < 10
    ensures r.1 == None
  {
    var nameLength := |e.name|;
    (nameLength < 10, None)
  }

  /** Go's `min` on `int`, as an independent reference for the multiplier. */
  function Min(a: Int, b: Int): (m: Int)
    ensures m <= a && m <= b
    ensures m == a || m == b
  {
    if a <= b then a else b
  }

  /** A record is exactly what `NewExample` builds from its own public fields
      when, and only when, its unexported field is still empty: the
      constructor loses nothing and adds nothing. */
  lemma NewExampleFromFields(e: Example)
    ensures NewExample(e.id, e.name, e.description) == e <==> e.irrelevant == []
  {
  }

  /** Against a description of the check in characters: a name whose literal
      is ASCII is short exactly when it has fewer than 10 characters, and any
      name that passes has fewer than 10 characters, but the converse fails
      (`BytesNotCharacters`). */
  lemma MethodOnLiteral(id: Int, name: string, description: String)
    ensures Method(NewExample(id, Literal(name), description)).0 ==> |name| < 10
    ensures IsAscii(name) ==>
              (Method(NewExample(id, Literal(name), description)).0 <==> |name| < 10)
  {
  }

  /** Five two-byte characters make a 10-byte name: fewer than 10 characters,
      yet `Method` reports `false`. */
  lemma BytesNotCharacters()
    ensures |"\U{E9}\U{E9}\U{E9}\U{E9}\U{E9}"| == 5
    ensures !Method(NewExample(0, Literal("\U{E9}\U{E9}\U{E9}\U{E9}\U{E9}"), [])).0
  {
  }

  /** The record `main` builds: "conventions" is 11 bytes, so `Method`
      reports `false` for it, and its error is nil. */
  lemma MainRecordName()
    ensures |Literal("conventions")| == 11
    ensures Method(NewExample(1, Literal("conventions"), Literal("this is getting quite meta"))) == (false, None)
  {
  }

  /** `main` from the point where the record exists: call `Method`, panic on
      a non-nil error, then clamp the identifier to at most 10. The panic
      cannot happen, and only the identifier decides the multiplier. The
      returned value is what `main` would print after "Multiplier: ". */
  method RunWith(example: Example) returns (multiplier: Int)
    ensures example.id > 10 ==> multiplier == 10
    ensures example.id <= 10 ==> multiplier == example.id
    ensures multiplier <= 10
    ensures multiplier == Min(example.id, 10)
  {
    var (_, err) := Method(example);
    if err != None {
      // the panic: unreachable, since Method never returns an error
      assert false;
    }

    multiplier := 0;
    if example.id > 10 {
      multiplier := 10;
    } else {
      multiplier := example.id;
    }
  }

  /** `main` in full, with its hard-coded record: the multiplier is 1. */
  method Run() returns (multiplier: Int)
    ensures multiplier == 1
  {
    var example := NewExample(
      1,
      Literal("conventions"),
      Literal("this is getting quite meta"));
    multiplier := RunWith(example);
  }
}
