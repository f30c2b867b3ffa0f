/** The conventions command: a program whose `main` repeats the package's
    own `main` against the exported constructor and method.
 */
module Command {
  import opened GoText
  import opened Conventions

  /** `main` from the point where the record exists: the two-clause `if`
      scopes the error to the panic check, which cannot fire; then the
      identifier is clamped to at most 10. Name and description play no
      part. The returned value is what is printed after "Multiplier: ". */
  method RunWith(example: Example) returns (multiplier: Int)
    ensures example.id > 10 ==> multiplier == 10
    ensures example.id <= 10 ==> multiplier == example.id
    ensures multiplier <= 10
    ensures multiplier == Min(example.id, 10)
  {
    {
      var (_, err) := Method(example);
      if err != None {
        // the panic: unreachable, since Method never returns an error
        assert false;
      }
    }

    var m: Int := 0;
    if example.id > 10 {
      m := 10;
    } else {
      m := example.id;
    }
    multiplier := m;
  }

  /** The program run in full: it prints "Multiplier: 1". */
  method Run() returns (multiplier: Int)
    ensures multiplier == 1
  {
    var example := NewExample(
      1,
      Literal("conventions"),
      Literal("this is getting quite meta"));
    multiplier := RunWith(example);
  }
}
