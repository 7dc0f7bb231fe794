# cfua document model and serialiser, in Dafny

This project models the writing side of the Rust crate `cfua`. That crate stores a
configuration document as an ordered list of key/value pairs.

- **The document** (`Cfua`, `src/cfua.rs`). It is a class whose one field, `data`, is
  the sequence of `(key, value)` pairs. The `Write*` methods only append to that field,
  and duplicate keys are kept. Each `Read*` lookup searches for the first pair with the
  key (`Find`, the model of `iter().find`). It yields that pair's payload only when the
  pair holds the asked-for kind of value. `GetAll` returns the pairs in the order they
  were written.
- **The builders** (`src/array.rs`). `IntegerArray`, `FloatArray`, `BooleanArray` and
  `StringArray` are classes over a sequence of elements. `Push` appends one element of
  the builder's variant and returns the builder. `Finish` hands the elements over as an
  `Array` value. `FinishVec` is `finish` on a plain vector.
- **The serialiser** (`to_string`, `src/write.rs`). `ToString` is a method that grows
  its output string pair by pair. `AppendValue`, `AppendArray`, `AppendElements`,
  `AppendElement` and `AppendQuoted` are the match and the nested loops of the source:
  `AppendValue` is the match on the value, `AppendElement` one round of the element
  loop, and the others one loop each. Each method is proved against a specification function:
  - `DocumentText` for the whole document;
  - `PairLine` for one pair;
  - `ValueText` for one value;
  - `ArrayText` and `ElementsText` for arrays;
  - `Quoted` for strings.

  Lemmas then state what that text is:
  - a section renders as `@name`, and any other pair as `key: value`, each ending its
    line;
  - a string renders as its newline-separated fragments, each behind a `'`, and
    removing the inserted quotes gives the string back;
  - an array without strings renders in comma form `[a, b]`;
  - an array of strings renders in hash form, one `#`-marked item per line;
  - the text of a document is the texts of its parts, in order.

  An array that mixes strings with other elements is rendered element by element, as
  the source's loop does. It matches neither form, and no lemma describes its shape.

Helper modules:
- `Strings` models `str::split('\n')`, joining with a separator, and replacing newlines.
- `Decimal` models the decimal text of an `i64`.
- `Wrappers` holds `Option`.

`CfuaTests` redoes the crate's three unit tests against the contracts alone.
`BasicStructure` checks the pairs two writes leave. `ToStringBasic` and
`ToStringArrays` build their documents with the modelled methods and prove that
`ToString` yields the expected text. That text is written as a concatenation of its
literal pieces, and the `fibonacci` numbers as their decimal texts joined by `, `.

## Model

| member | source | states |
|---|---|---|
| CfuaData.Find | src/cfua.rs:110 | the position found is the first pair carrying the key; there is none exactly when no pair carries the key |
| CfuaData.FindAppend | src/cfua.rs:69-72 | appending a pair leaves an earlier key's first match where it was; an absent key is then found at the new pair or not at all |
| CfuaData.Cfua.Create | src/cfua.rs:62-66 | a new document holds no pairs |
| CfuaData.Cfua.WriteInteger | src/cfua.rs:69-72 | appends exactly `(key, Integer(value))` after the earlier pairs; on a fresh key `ReadInteger` then yields `value` |
| CfuaData.Cfua.WriteFloat | src/cfua.rs:75-78 | appends exactly `(key, Float(value))`; on a fresh key `ReadFloat` then yields `value` |
| CfuaData.Cfua.WriteString | src/cfua.rs:81-84 | appends exactly `(key, String(value))`; on a fresh key `ReadString` then yields `value` |
| CfuaData.Cfua.WriteBool | src/cfua.rs:87-90 | appends exactly `(key, Bool(value))`; on a fresh key `ReadBool` then yields `value` |
| CfuaData.Cfua.WriteSection | src/cfua.rs:93-96 | appends exactly `(key, Section)` after the earlier pairs |
| CfuaData.Cfua.WriteArray | src/cfua.rs:100-104 | for the `Array` value that `finish` returns, appends exactly `(key, value)`; on a fresh key `ReadArray` then yields its elements |
| CfuaData.Cfua.ReadInteger | src/cfua.rs:108-115 | `None` when no pair has the key; otherwise the payload of the first pair with the key if that pair is an integer, and `None` if it holds anything else, whatever later pairs hold |
| CfuaData.Cfua.ReadFloat | src/cfua.rs:119-126 | the same first-match rule for floats |
| CfuaData.Cfua.ReadString | src/cfua.rs:130-137 | the same first-match rule for strings |
| CfuaData.Cfua.ReadBool | src/cfua.rs:141-148 | the same first-match rule for booleans |
| CfuaData.Cfua.ReadArray | src/cfua.rs:152-159 | the same first-match rule for arrays, yielding the elements |
| CfuaData.Cfua.GetAll | src/cfua.rs:162-164 | all pairs, in the order written, duplicates included |
| CfuaData.AtMostOneReadSucceeds | src/cfua.rs:108-159 | the five lookups never both succeed for one key, and all fail when the first pair with the key is a section |
| CfuaArray.FinishVec | src/array.rs:31-35 | a plain vector becomes an `Array` of exactly its elements |
| CfuaArray.IntegerArray.New | src/array.rs:46-50 | a new builder holds no elements |
| CfuaArray.IntegerArray.Push | src/array.rs:53-56 | appends exactly `Integer(value)`, keeps every element an integer, returns the same builder |
| CfuaArray.IntegerArray.Finish | src/array.rs:60-62 | an `Array` of the pushed elements, in push order, all integers |
| CfuaArray.FloatArray.New | src/array.rs:46-50 | a new builder holds no elements |
| CfuaArray.FloatArray.Push | src/array.rs:53-56 | appends exactly `Float(value)`, keeps every element a float, returns the same builder |
| CfuaArray.FloatArray.Finish | src/array.rs:60-62 | an `Array` of the pushed elements, all floats |
| CfuaArray.BooleanArray.New | src/array.rs:46-50 | a new builder holds no elements |
| CfuaArray.BooleanArray.Push | src/array.rs:53-56 | appends exactly `Bool(value)`, keeps every element a boolean, returns the same builder |
| CfuaArray.BooleanArray.Finish | src/array.rs:60-62 | an `Array` of the pushed elements, all booleans |
| CfuaArray.StringArray.New | src/array.rs:46-50 | a new builder holds no elements |
| CfuaArray.StringArray.Push | src/array.rs:53-56 | appends exactly `String(value)`, keeps every element a string, returns the same builder |
| CfuaArray.StringArray.Finish | src/array.rs:60-62 | an `Array` of the pushed elements, all strings |
| Strings.Split | src/write.rs:21 | splitting yields at least one fragment |
| Strings.SplitFragmentsHaveNoNewline | src/write.rs:21 | no fragment contains a newline |
| Strings.ReplaceWithoutNewline | src/write.rs:20-29 | a string without newlines is unchanged by the escaping |
| Strings.ReplaceAppend | src/write.rs:20-29 | escaping newlines distributes over concatenation |
| Strings.JoinSplit | src/write.rs:21-28 | joining the split fragments with a separator is replacing each newline by that separator |
| Strings.SplitJoinRoundTrip | src/write.rs:21 | joining the fragments with newlines gives back the string |
| Decimal.Digits | src/write.rs:18 | the decimal digits of a natural number: at least one digit, with a leading zero only for zero |
| Decimal.DigitsValue | src/write.rs:18 | the digits read back as the number |
| Decimal.IntText | src/write.rs:18 | well-formed decimal text with a minus sign exactly for negative numbers, and a leading zero digit only for zero |
| Decimal.IntTextValue | src/write.rs:18 | the text of an integer reads back as that integer |
| CfuaWrite.FragmentsJoined | src/write.rs:22-28 | after `n` rounds the fragment loop has written the first `n` fragments, each behind `'`, joined by newlines, with a newline when more follow |
| CfuaWrite.QuotedFragments | src/write.rs:20-29 | a string renders as `'` plus its fragments joined by a newline and `'`, which is what the fragment loop writes |
| CfuaWrite.UnescapeReplace | src/write.rs:20-29 | removing the `'` after each newline undoes the escaping |
| CfuaWrite.UnquoteQuoted | src/write.rs:20-29 | removing the inserted quotes from a rendered string gives the string back |
| CfuaWrite.ScalarTexts | src/write.rs:35 | one text per integer, float or boolean element, in order |
| CfuaWrite.CommaPrefix | src/write.rs:33-61 | after `n` rounds over an array without strings, the loop has written the first `n` element texts joined by `, `, plus `, ` while more follow |
| CfuaWrite.CommaForm | src/write.rs:31-63 | an array without strings renders as `[`, its element texts joined by `, `, then `]`; so an empty array renders as `[]` |
| CfuaWrite.HashPrefix | src/write.rs:33-61 | after `n > 0` rounds over an array of strings, the loop has written a newline and then one `#` item line per element |
| CfuaWrite.HashForm | src/write.rs:31-63 | an array of strings renders as `[`, a newline, a `#`-marked quoted item per line, then `]`; an empty one as `[]` |
| CfuaWrite.DocumentAppend | src/write.rs:10-68 | the text of two documents run together is the first's text followed by the second's |
| CfuaWrite.DocumentLines | src/write.rs:10-68 | a document renders as its first pair's line followed by the text of the rest |
| CfuaWrite.IntegerArrayCommaForm | src/write.rs:31-63 | what an integer builder finishes with renders in comma form |
| CfuaWrite.StringArrayHashForm | src/write.rs:31-63 | what a string builder finishes with renders in hash form |
| CfuaWrite.AppendQuoted | src/write.rs:20-29 | the fragment loop appends exactly the rendering of the string |
| CfuaWrite.AppendElement | src/write.rs:34-60 | one round of the element loop appends exactly that element's text |
| CfuaWrite.AppendElements | src/write.rs:33-61 | the element loop appends exactly the texts of all elements, in order |
| CfuaWrite.AppendArray | src/write.rs:31-63 | appends exactly the array's rendering, brackets included |
| CfuaWrite.AppendValue | src/write.rs:17-65 | appends exactly the rendering of a value that is not a section |
| CfuaWrite.ToString | src/write.rs:7-71 | the output is exactly the document's text: each pair's line, in document order |
| CfuaTests.StringLine | src/write.rs:82-87 | under any key, a pair holding a string without newlines renders as `key: '`, the string, then a newline |
| CfuaTests.NumberLine | src/write.rs:81-86 | the pair `number-value` holding 1 renders as `number-value: 1` and a newline |
| CfuaTests.FloatLine | src/write.rs:83-88 | the pair `another-number` holding -0.123 renders as `another-number: -0.123` and a newline, given that text for the float |
| CfuaTests.ThreeLines | src/write.rs:7-71 | a document of three serialisable pairs renders as their three lines, in order |
| CfuaTests.BasicLines | src/write.rs:79-91 | the three pairs of the basic test render as its three expected lines |
| CfuaTests.TwoLineItem | src/write.rs:113-129 | a two-line string item renders as `#'` first line, newline, `'` second line, newline |
| CfuaTests.CommaThree | src/write.rs:94-119 | three integers render as `[`, their decimal texts joined by `, `, then `]`, as the start of the `fibonacci` line |
| CfuaTests.PlainItem | src/write.rs:120-122 | a string item without newlines renders as `#'`, the string, then a newline |
| CfuaTests.FibonacciScalarTexts | src/write.rs:96-107 | the ten `fibonacci` elements have the texts `1`, `1`, `2`, `3`, `5`, `8`, `13`, `21`, `34`, `55` |
| CfuaTests.FibonacciArray | src/write.rs:119 | the `fibonacci` array renders as `[`, those texts joined by `, `, then `]` |
| CfuaTests.FruitsArray | src/write.rs:120-124 | the `fruits` array renders as `[`, a newline, one `#'` line each for `Apple`, `Banana` and `Lemon`, then `]` |
| CfuaTests.SplitArray | src/write.rs:125-129 | the `split-array` array renders as `[`, a newline, `#'multi`, `'line`, `#'single line` on their own lines, then `]` |
| CfuaTests.ArraysDocument | src/write.rs:93-132 | the document of the arrays test is serialisable and renders as its three expected lines |
| CfuaTests.BasicStructure | src/cfua.rs:171-182 | two writes leave exactly those two pairs, in the order written |
| CfuaTests.ToStringBasic | src/write.rs:79-91 | the document written by the basic test serialises to exactly its expected text |
| CfuaTests.ToStringArrays | src/write.rs:93-132 | the document the arrays test builds with the builders serialises to exactly its expected text |

## Left out

- Parsing is not modelled. `src/parser.rs` has `parse` as an unimplemented stub, and
  `from_string` in `src/read.rs` returns an empty document without parsing its input. So
  no parse/serialise round trip can be stated.
- `from_file_path` in `src/read.rs`, the example programs, and `src/lib.rs` are left out.
  They are file I/O, printing, and module declarations.
- Floating-point values are not modelled. `F` is an abstract type with equality.
  - Equality on `F` is plain equality, so NaN's inequality to itself is not modelled.
  - The text `f64::to_string` gives a float is the serialiser's parameter `floatText`.
    Its formatting is not modelled.
  - The `-0.123` of the basic test is a precondition on that parameter.
- CfuaData.Cfua.WriteArray takes the value that `finish()` returned, not the builder
  itself. `ToCfuaArray` lives in a module that `src/lib.rs` does not re-export, so
  only types inside the crate implement it: the four builders and `Vec<CfuaType>`
  (`src/array.rs:31-35`). Every `finish` returns an `Array`, so the model requires an
  `Array` value. `read_array` and `get_all` hand `CfuaType` values to callers, so a
  `Vec` given to `write_array` can hold a section or another array; that is how the
  `unreachable!()` below can be reached.
- CfuaArray.BooleanArray uses the `Bool` variant. `src/array.rs:72` names
  `CfuaType::Boolean`, which the enum at `src/cfua.rs:49-58` does not have.
- CfuaWrite.ToString requires every array element to be an integer, float, string or
  boolean. The source reaches `unreachable!()` on a nested array or a section inside an
  array, and the model does not describe that panic.
- The `Section(())` payload of the source is dropped: `Section` carries nothing.
- Integers are `Int64`, a subset of `int`. No arithmetic is done on them, so overflow
  does not arise.
- `get_all` and the `read_*` lookups return copies in the source. The model returns the
  same values, because values have no identity in Dafny.
