# conventions, modelled in Dafny

The repository is a Go style guide written as code. Its executable content is
small: an `Example` record with a constructor `NewExample`, a method `Method`
that reports whether the record's name is shorter than 10 bytes and never
fails, and a `main` routine, present twice (in the package and in the
`cmd/conventions` program), that builds one record, panics if `Method`
reports an error, and derives a "multiplier" from the record's identifier
clamped to at most 10.

Modules:

- `GoText` (`go_text.dfy`): Go's `int` (64-bit), `byte`, `string` as a byte
  sequence, `error` as an optional message, and `Literal`, the UTF-8 bytes a
  Go string literal denotes, so the source's literals can be used as written.
- `Conventions` (`conventions.dfy`): `conventions.go`.
- `Command` (`cmd_conventions.dfy`): `cmd/conventions/main.go`.
- `ConventionsExample` (`example_test.dfy`): the documentation example in
  `example_test.go`.

`Example` is a datatype: the source never changes a record after building it,
and `Method` has a value receiver, so calling it can change nothing and
repeated calls give the same answer. Each `main` is split in two: `RunWith`
is the part after the record is built (the panic check and the clamp) for any
record, and `Run` is the whole routine with its hard-coded record. The panic
branch holds `assert false`: the verifier proves it unreachable for every
record, because `Method` always returns a nil error.

`Method` counts bytes, as Go's `len` on a string does, not characters. For
ASCII names the two agree; for other names they do not: five copies of the
two-byte character U+00E9 make a 5-character, 10-byte name that `Method`
rejects (`Conventions.BytesNotCharacters`). The model follows the code.

## Model

| member | source | states |
|---|---|---|
| `Conventions.NewExample` | conventions.go:86-92 | for any identifier, name and description (no precondition, no failure) the record's public fields equal the arguments and the unexported field is the empty string |
| `Conventions.NewExampleFromFields` | conventions.go:70-92 | a record equals the one `NewExample` builds from its own public fields exactly when its unexported field is empty |
| `Conventions.Method` | conventions.go:101-110 | the result is true exactly when the name has fewer than 10 bytes (so 10 bytes gives false), and the error is always nil, so no error value is ever returned |
| `Conventions.MethodOnLiteral` | conventions.go:104-105 | for a name written as a literal, passing implies fewer than 10 characters; for an ASCII name, passing is equivalent to fewer than 10 characters |
| `Conventions.BytesNotCharacters` | conventions.go:104-105 | a 5-character name of two-byte characters is 10 bytes long and fails the check |
| `Conventions.MainRecordName` | conventions.go:122-128 | the hard-coded name "conventions" is 11 bytes, so `Method` gives false for the hard-coded record, with a nil error |
| `Conventions.Min` | conventions.go:138-143 | the reference minimum: no larger than either argument and equal to one of them |
| `Conventions.RunWith` | conventions.go:128-143 | for any record the panic branch is unreachable; the multiplier is 10 when the identifier exceeds 10 and the identifier otherwise (10 and negative values included), hence at most 10 and equal to min(identifier, 10), depending on nothing else |
| `Conventions.Run` | conventions.go:119-144 | with the hard-coded record (1, "conventions", "this is getting quite meta") the multiplier is 1 |
| `Command.RunWith` | cmd/conventions/main.go:39-54 | for any record the panic under the two-clause `if` is unreachable; the multiplier is 10 when the identifier exceeds 10 and the identifier otherwise, at most 10 and equal to min(identifier, 10) |
| `Command.Run` | cmd/conventions/main.go:28-56 | with the hard-coded record the multiplier, printed as `Multiplier: 1`, is 1 |
| `ConventionsExample.ExampleNew` | example_test.go:20-29 | a record built with identifier 1 reads back identifier 1, the documented output |
| `GoText.Literal` | conventions.go:124 | a literal's byte length lies between its character count and four times it, and equals the character count exactly when every character is ASCII |
| `GoText.LiteralOfAscii` | conventions.go:124 | an ASCII literal's bytes are its character codes, one per character |

## Left out

- Printing: the `fmt.Printf` calls are console output; the model returns the
  integer they would print. The two format strings differ only in a trailing
  newline in the command.
- `panic` as process abort: not modelled; its guard is proved false instead.
- The empty `init` functions have no behaviour.
- The blank imports of the lint package and of `subpkg` exist only for their
  side effects, in code that is not part of this model.
- The unused `iota` constants and the `ErrStupidMistake` value: neither is
  used by any operation. That the error is never returned follows from
  `Method` always returning nil.
- Pointers: `NewExample` returns a pointer to a fresh record; the model
  returns the record as a value. Nothing ever writes through the pointer, so
  no aliasing can be observed.
- Go's `int` is taken to be 64 bits wide; the code does no arithmetic on it,
  so the width only bounds the identifiers a record can hold.
