# cppargparse lookup-and-conversion core, in Dafny

This project models the core of cppargparse, a C++ command-line argument parser. It covers:

- the parser's registry of flag/option and positional descriptors (`ArgumentParserBase`);
- the presence test for flags and the usage text;
- the position resolver (`find_arg_position`, `find_arg`);
- the value collector (`get_option_positions`);
- the typed conversions: string values in both API generations, numerical values through a caller-supplied converter, vectors of values, and the older float lookup that writes through a pointer;
- the error hierarchy.

A command line is a `seq<string>`. A position is an index into it, and the index `|cmd|` is the end iterator, which means "not found" or "no value". Exceptions are values: `Exceptions.Result` is either a returned value or the exception thrown instead. `Exceptions.Exception` is one of three things:

- one of the library's own errors;
- the parser's `ParserError`;
- a standard-library exception that a converter threw.

Modules, one per source file:

- `Types`: the `Argument` descriptor, a value (id, alternate id, description, recorded position).
- `Errors` (`include/cppargparse/errors.h`): the error kinds, `what()`, and which handler catches which error.
- `Exceptions`: the `Result` type and what can be thrown.
- `Algorithm` (`test/test_algorithm.cpp`): the position resolver and the value collector. Their implementation file is not part of this model. They are functions defined to meet every case the tests fix. Where the tests are silent, the first match wins, and an alternate identifier is only searched for when it is not empty.
- `Parser` (`include/cppargparse/parser/base.h`): a class. It holds the command line as a constant, and the two descriptor lists as fields that the `add_*` methods append to. The usage text is built by methods whose loops mirror the source, and each method is proved against a specification function (`UsageLines`, `MaxIdLength`).
- `NumericalArgument` (`include/cppargparse/arguments/numerical.h`): `convert` and `error_message`. The converter (std::stoi, std::stof, ...) is a function parameter that can throw.
- `StringArgument` (`include/cppargparse/arguments/string.h`) and `StringTypeTrait` (`include/cppargparse/type_traits/string.h`): the two generations of the string lookup. Their global token lists are passed in as parameters.
- `VectorArgument` (`include/cppargparse/arguments/vector.h`): a method with a loop. It is proved equal to the recursive function `ConvertAll`, and lemmas characterise `ConvertAll`.
- `FloatTypeTrait` (`src/type_traits/type_traits_float.h`): methods that write through a one-field `FloatSlot` object, the model of the `float *` out-parameter. They return `Success(bool)`, or `Failure` for an exception that escapes the two catch clauses.

Notes on the code, which the model follows:

- The command line includes `argv[0]` (base.h:29).
- `get_option` and `get_positional` are stubs in `base.h`.
- The usage padding is always `usage_argid_length` blanks. It is not reduced by the line's own identifier length, so descriptions line up only when `|id|` plus the length of `"|" + id_alt` (nothing when there is no alternate) is the same on every line (`UsageLineLayout`).
- `numerical_argument::convert` translates only `invalid_argument`. `out_of_range` and every other converter exception propagate unchanged.
- The older float lookup reports failures as `false`, not as errors.
- A Dafny `char` stands for one C++ `char`, so `|id|` and `IdLength` are the byte counts that `std::string::size()` gives `usage_argid_length`; an identifier with multi-byte characters pads by its byte length.

## Model

| member | source | states |
|---|---|---|
| `Errors.What` | include/cppargparse/errors.h:22-25 | what() is "Error: " followed by the message, nothing else |
| `Errors.NewError` | include/cppargparse/errors.h:22-25 | a base Error's what() is "Error: " + message |
| `Errors.NewCommandLineArgumentError` | include/cppargparse/errors.h:40-43 | forwards the message unchanged: what() is "Error: " + message, kind CommandLineArgumentError |
| `Errors.NewCommandLineOptionError` | include/cppargparse/errors.h:58-61 | forwards the message unchanged: what() is "Error: " + message, kind CommandLineOptionError |
| `Errors.BaseHandlerCatchesAll` | include/cppargparse/errors.h:14-62 | a handler for Error catches both derived kinds and Error itself |
| `Errors.DerivedHandlersAreDisjoint` | include/cppargparse/errors.h:32-50 | the two derived kinds are siblings: neither one's handler catches the other, nor a base Error |
| `Errors.WhatDeterminesMessage` | include/cppargparse/errors.h:22-25 | two errors with the same what() text carry the same message |
| `Algorithm.IndexOf` | src/type_traits/type_traits_float.h:58-64 | std::find: the first index holding the key, or end exactly when the key is absent |
| `Algorithm.FindArgPosition` | test/test_algorithm.cpp:98-147 | end iff neither identifier occurs (an empty alternate never matches); otherwise the first occurrence of the identifier, or failing that the first occurrence of the alternate |
| `Algorithm.FindArg` | test/test_algorithm.cpp:13-92 | the first descriptor that the name identifies by id or alternate id; end when none does |
| `Algorithm.OptionPositions` | test/test_algorithm.cpp:153-183 | the consecutive positions after the key, none holding a registered identifier, stopped by an identifier token or the end |
| `Algorithm.OptionPositionsUnique` | test/test_algorithm.cpp:153-183 | the collected run is the only run with those properties |
| `Algorithm.AlternateIdentifierResolvesAlike` | include/cppargparse/parser/base.h:123-132 | writing the alternate identifier in place of the identifier, at any position of a command line that holds neither elsewhere, resolves to that same position |
| `Algorithm.FindArgInEmptyRegistry` | test/test_algorithm.cpp:13-21 | find_arg over an empty registry is end |
| `Algorithm.FindArgByEitherIdentifier` | test/test_algorithm.cpp:27-68 | a descriptor is found by its id and by its alternate id |
| `Algorithm.FindArgByInvalidIdentifiers` | test/test_algorithm.cpp:74-92 | a name that is neither id nor alternate id of any descriptor gives end |
| `Algorithm.FindArgPositionInEmptyCommandLine` | test/test_algorithm.cpp:98-107 | find_arg_position on an empty command line is end |
| `Algorithm.FindArgPositionAtFront` | test/test_algorithm.cpp:113-124 | an identifier at token 0 is found at position 0 |
| `Algorithm.FindArgPositionOfAbsentIdentifiers` | test/test_algorithm.cpp:130-147 | identifiers absent from `-t 3 -f 5` give end |
| `Algorithm.GetOptionPositionsStopsAtIdentifier` | test/test_algorithm.cpp:153-183 | on `-t 3 6 20 -f 5` the run after `-t` is exactly [1, 2, 3]; it stops at the token "-f" although "-f" was registered at position 5 |
| `Parser.MaxIdLengthIsMaximum` | include/cppargparse/parser/base.h:221-236 | the running maximum bounds every descriptor's id + alternate-id length and is attained by one of them |
| `Parser.UsageLineLayout` | include/cppargparse/parser/base.h:252-272 | a usage line is two blanks, the id, "\|" + alternate id only when there is one, exactly `width` blanks, the description and a newline |
| `Parser.UsageLinesAppend` | include/cppargparse/parser/base.h:252-272 | the usage lines follow registration order: the text of a concatenation is the concatenation of the texts |
| `Parser.UsageLinesSnoc` | include/cppargparse/parser/base.h:252-272 | registering one more descriptor adds its line at the end and changes no other line |
| `Parser.UsageLineHasOneNewline` | include/cppargparse/parser/base.h:254-271 | a line built from texts without line breaks holds exactly one newline |
| `Parser.UsageLinesCount` | include/cppargparse/parser/base.h:252-272 | one line per registered flag/option: the text holds exactly one newline per descriptor |
| `Parser.WriteUsageLine` | include/cppargparse/parser/base.h:254-271 | the loop body of usage_cmdargs writes exactly the specified line, padding included |
| `Parser.ArgumentParserBase.constructor` | include/cppargparse/parser/base.h:28-34 | the command line is argv[0 .. argc), program name included; both registries start empty |
| `Parser.ArgumentParserBase.AddPosarg` | include/cppargparse/parser/base.h:60-69 | appends exactly one positional descriptor with empty ids and the given description, at the last flag/option's position + 1, or 0 when none is registered; the flag/option list is unchanged |
| `Parser.ArgumentParserBase.AddBarePosarg` | include/cppargparse/parser/base.h:82-85 | the same with an empty description |
| `Parser.ArgumentParserBase.AddArg` | include/cppargparse/parser/base.h:92-95 | appends the given descriptor to the flag/option list and nothing else |
| `Parser.ArgumentParserBase.AddArgId` | include/cppargparse/parser/base.h:104-113 | appends and returns one descriptor: the id, empty alternate id and description, at find_arg_position of the id |
| `Parser.ArgumentParserBase.AddArgIds` | include/cppargparse/parser/base.h:123-132 | appends and returns one descriptor with both ids, empty description, at find_arg_position of the pair |
| `Parser.ArgumentParserBase.AddArgDescribed` | include/cppargparse/parser/base.h:143-152 | appends and returns one descriptor with both ids and the description, at find_arg_position of the pair |
| `Parser.ArgumentParserBase.AddHelp` | include/cppargparse/parser/base.h:160-163 | registers "-h", "--help", "Display this information" |
| `Parser.ArgumentParserBase.GetFlag` | include/cppargparse/parser/base.h:187-190 | true iff the id, or a non-empty alternate id, occurs on the command line |
| `Parser.PositionalAfterFlag` | include/cppargparse/parser/base.h:60-69 | registering flag "-v" on `prog -v file` and then a positional records the flag at position 1 and the positional, with empty ids, at position 2 |
| `Parser.ArgumentParserBase.GetPositional` | include/cppargparse/parser/base.h:174-177 | stub: the value-initialised T(), whatever the command line holds |
| `Parser.ArgumentParserBase.GetOption` | include/cppargparse/parser/base.h:200-203 | stub: the value-initialised T(), whatever the command line holds |
| `Parser.ArgumentParserBase.GetOptionOrDefault` | include/cppargparse/parser/base.h:215-218 | stub: the default, whether or not the option occurs |
| `Parser.ArgumentParserBase.UsageArgidLength` | include/cppargparse/parser/base.h:221-236 | 3 + the largest id + alternate-id length; 3 with no flag/option; at least 3 more than every descriptor's and equal to 3 more than some descriptor's |
| `Parser.ArgumentParserBase.UsagePosargs` | include/cppargparse/parser/base.h:238-243 | the positional usage text is empty |
| `Parser.ArgumentParserBase.UsageCmdargs` | include/cppargparse/parser/base.h:245-275 | the usage lines of all flags/options in registration order, padded by usage_argid_length |
| `Parser.ArgumentParserBase.UsageStream` | include/cppargparse/parser/base.h:277-283 | the empty positional part followed by the flag/option lines |
| `Parser.ArgumentParserBase.Usage` | include/cppargparse/parser/base.h:285-296 | the header, two newlines, then the usage lines |
| `Parser.ArgumentParserBase.ApplicationUsage` | include/cppargparse/parser/base.h:298-309 | usage() with the application description as the header |
| `NumericalArgument.ErrorMessage` | include/cppargparse/arguments/numerical.h:59-66 | "Couldn't convert '" then the token, "' to type <", the type name and ">.", each at its place |
| `NumericalArgument.Convert` | include/cppargparse/arguments/numerical.h:29-49 | at end: a CommandLineOptionError naming the last token; otherwise succeeds iff the converter does, with its value; invalid_argument becomes a CommandLineOptionError naming the token; every other converter exception propagates unchanged |
| `NumericalArgument.ConvertErrorNamesTokenAndType` | include/cppargparse/arguments/numerical.h:35-48 | on a missing value or an invalid argument, what() is "Error: Couldn't convert '" + offending token + ... + type name + ">." |
| `NumericalArgument.ConvertAtEndIgnoresConverter` | include/cppargparse/arguments/numerical.h:35-42 | at end the converter is not invoked: the result is the same for any converter |
| `NumericalArgument.ConvertRaisesOnlyOptionErrors` | include/cppargparse/arguments/numerical.h:40-48 | every library error convert raises is a CommandLineOptionError, raised only at end or on invalid_argument |
| `StringArgument.Convert` | include/cppargparse/arguments/string.h:44-52 | the token at the position, verbatim; a ParserError exactly at end |
| `StringArgument.Parse` | include/cppargparse/arguments/string.h:32-35 | convert of the position after the key: the next token, or a ParserError when the key is the last token |
| `StringArgument.ParseOfLastTokenFails` | include/cppargparse/arguments/string.h:32-49 | parsing the last token fails with a ParserError |
| `StringArgument.ParseTakesIdentifierAsValue` | include/cppargparse/arguments/string.h:51 | no validation: on `-o -x` the value of `-o` is "-x" |
| `StringTypeTrait.Parse` | include/cppargparse/type_traits/string.h:31-41 | the token immediately after the key; a ParserError when the key is the last token |
| `StringTypeTrait.AgreesWithStringArgument` | include/cppargparse/type_traits/string.h:31-41 | the older and the newer string lookup agree on every input |
| `StringTypeTrait.ParseTakesIdentifierAsValue` | include/cppargparse/type_traits/string.h:33-40 | a next token that looks like an identifier is still returned as the value |
| `VectorArgument.Parse` | include/cppargparse/arguments/vector.h:32-43 | one value per collected position, in order, when all convert; otherwise the exception of the first failing element, all before it converted |
| `VectorArgument.ConvertAllSucceeds` | include/cppargparse/arguments/vector.h:37-40 | length equals the number of positions and element i is the conversion of position i, duplicates kept |
| `VectorArgument.ConvertAllFailsAtFirst` | include/cppargparse/arguments/vector.h:37-42 | the first failing element aborts the whole parse with its exception; no partial vector |
| `VectorArgument.ConvertAllIgnoresLaterElements` | include/cppargparse/arguments/vector.h:37-40 | elements after the first failing one are never converted: changing their conversion changes nothing |
| `VectorArgument.EmptyRunIsEmptyVector` | include/cppargparse/arguments/vector.h:34-42 | a key followed by an identifier or the end gives an empty vector, not an error |
| `VectorArgument.ParseIntegerRun` | include/cppargparse/arguments/vector.h:32-43 | on `-t 3 6 20 -f 5` the integer vector of `-t` is [3, 6, 20] |
| `VectorArgument.ParseIntegerRunFailsFast` | include/cppargparse/arguments/vector.h:37-42 | on `-t 3 x 20 -f 5` the parse fails with the CommandLineOptionError naming "x" |
| `FloatTypeTrait.Parse` | src/type_traits/type_traits_float.h:55-91 | true and the float stored iff the key occurs, a token follows its first occurrence and the conversion succeeds; on a missing key, a missing value, invalid_argument or out_of_range it returns false with the float unchanged; any other exception escapes with the float unchanged |
| `FloatTypeTrait.ParseWithDefault` | src/type_traits/type_traits_float.h:29-45 | an absent key stores the default and returns false; a present key behaves as parse(key, value), and the default is not stored even when that fails |
| `FloatTypeTrait.MalformedValueKeepsFloat` | src/type_traits/type_traits_float.h:29-90 | `-y abc` with a converter that rejects "abc" as invalid_argument returns false and leaves the float as it was, without storing the default |
| `FloatTypeTrait.AbsentKeyStoresDefault` | src/type_traits/type_traits_float.h:32-41 | with "-y" absent from the command line the default is stored and false is returned |
| `FloatTypeTrait.PresentKeyStoresConversion` | src/type_traits/type_traits_float.h:77-81 | `-y 2.5` stores the converted value of "2.5" and returns true |

## Left out

- The destructor's `clear()` calls and the copying of `argv` are not modelled. Only the consequence is kept: token 0 is `argv[0]`.
- `usage(const std::ostringstream &)` is the same as `usage(header)` in the model, because a stream is its string.
- The implementations of `find_arg_position`, `find_arg`, `get_option_positions` and `collect_arg_values` (algorithm.h) are not part of this model. They are modelled by the cases their tests fix. `collect_arg_values` is modelled by `Algorithm.OptionPositions`, with the registry passed explicitly instead of read from a global.
- Duplicate registrations are not rejected, as in the source. Every lookup picks the first match.
- `parse_arg`, `collect_cmdargs` and the demo driver `test/main.cpp` are not part of this model.
- Numeric conversion itself is not modelled. `std::stoi`, `std::stof` and the other converters are parameters that return a value or throw. The float type is a type parameter.
- StringArgument.Convert: the ParserError carries no message. The source builds it from a dangling `c_str()` pointer and dereferences the end iterator to do so.
- StringTypeTrait.Parse: the ParserError carries no message, for the same reasons.
- The vector `error_message` is never called and is not modelled.
- Parser.ArgumentParserBase.UsageArgidLength: the lengths are unbounded naturals, so a `size_t` overflow is not modelled. It would need identifiers longer than memory allows.
- Parser.ArgumentParserBase.GetOption: the stubs cannot build `T()` for an arbitrary type in the model, so the caller passes the value-initialised value in. The same holds for `GetPositional`.
- Undefined behaviour in the source is excluded by preconditions rather than modelled:
  - `add_posarg` when the last flag/option was not found (stepping past the end iterator);
  - the string `parse` with a key at the end;
  - the vector `parse` with the key iterator at the end of the command line (collecting its values would step past the end);
  - `numerical_argument::convert` at the end of an empty command line.
