/** The documentation example of the conventions package. */
module ConventionsExample {
  import opened GoText
  import opened Conventions

  /** Builds the record and returns the identifier the example prints; its
      recorded output is 1. */
  method ExampleNew() returns (printed: Int)
    ensures printed == 1
  {
    var example := NewExample(
      1,
      Literal("conventions"),
      Literal("this is getting quite meta"));
    printed := example.id;
  }
}
