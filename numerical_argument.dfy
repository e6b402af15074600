/** numerical_argument<T>: converts the token at a position with a
    caller-supplied converter (std::stoi, std::stof, ... in the library),
    turning a missing value and an `invalid_argument` from the converter
    into a CommandLineOptionError. */
module NumericalArgument {
  import opened Types
  import opened Errors
  import opened Exceptions

  const ConvertHead: string := "Couldn't convert '"
  const TypeHead: string := "' to type <"
  const Tail: string := ">."

  /** error_message: names the offending token and the target type. */
  function ErrorMessage(token: string, typeString: string): (m: string)
    ensures |m| == |ConvertHead| + |token| + |TypeHead| + |typeString| + |Tail|
    ensures m[..|ConvertHead|] == ConvertHead
    ensures m[|ConvertHead|..|ConvertHead| + |token|] == token
    ensures m[|ConvertHead| + |token|..|ConvertHead| + |token| + |TypeHead|] == TypeHead
    ensures m[|m| - |Tail| - |typeString|..|m| - |Tail|] == typeString
    ensures m[|m| - |Tail|..] == Tail
  {
    ConvertHead + token + TypeHead + typeString + Tail
  }

  /** The error `convert` raises for the token `token`. */
  function ConversionError(token: string, typeString: string): Exception
  {
    LibraryError(NewCommandLineOptionError(ErrorMessage(token, typeString)))
  }

  /** convert: at the end of the command line it fails, naming the last
      token (the identifier whose value is missing); otherwise it returns
      what the converter returns for the token, translating only
      `invalid_argument` into a CommandLineOptionError and letting every
      other exception of the converter through unchanged. */
  function Convert<T>(cmd: CommandLine, position: nat, converter: string -> Result<T>, typeString: string): (r: Result<T>)
    requires position <= |cmd|
    requires position == |cmd| ==> |cmd| > 0
    ensures position == |cmd| ==> r == Failure(ConversionError(cmd[|cmd| - 1], typeString))
    ensures r.Success? <==> position < |cmd| && converter(cmd[position]).Success?
    ensures r.Success? ==> r.value == converter(cmd[position]).value
    ensures position < |cmd| && converter(cmd[position]) == Failure(StdError(InvalidArgument)) ==>
              r == Failure(ConversionError(cmd[position], typeString))
    ensures position < |cmd| && converter(cmd[position]).Failure? &&
            converter(cmd[position]).exception != StdError(InvalidArgument) ==>
              r == converter(cmd[position])
  {
    if position == |cmd| then
      Failure(ConversionError(cmd[position - 1], typeString))
    else
      match converter(cmd[position])
      case Success(v) => Success(v)
      case Failure(StdError(InvalidArgument)) => Failure(ConversionError(cmd[position], typeString))
      case Failure(e) => Failure(e)
  }

  /** A slice of the right operand of a concatenation, read through it. */
  lemma SliceOfConcat(a: string, b: string, i: nat, j: nat)
    requires i <= j <= |b|
    ensures (a + b)[|a| + i..|a| + j] == b[i..j]
  {
    assert forall k :: 0 <= k < j - i ==> (a + b)[|a| + i..|a| + j][k] == b[i..j][k];
  }

  /** The `what()` text of the error `convert` raises for `token`. */
  lemma WhatOfConversionError(token: string, typeString: string)
    ensures var w := What(ConversionError(token, typeString).error);
            && w[..|Prefix|] == Prefix
            && w[|Prefix|..|Prefix| + |ConvertHead|] == ConvertHead
            && w[|Prefix| + |ConvertHead|..|Prefix| + |ConvertHead| + |token|] == token
            && w[|w| - |Tail| - |typeString|..|w| - |Tail|] == typeString
  {
    var m := ErrorMessage(token, typeString);
    var w := What(NewCommandLineOptionError(m));
    assert w == Prefix + m;
    SliceOfConcat(Prefix, m, 0, |ConvertHead|);
    SliceOfConcat(Prefix, m, |ConvertHead|, |ConvertHead| + |token|);
    SliceOfConcat(Prefix, m, |m| - |Tail| - |typeString|, |m| - |Tail|);
  }

  /** When the value is missing or the converter rejects it as an invalid
      argument, `convert` raises a CommandLineOptionError whose `what()`
      text is "Error: " followed by a message naming the offending token
      and the type. */
  lemma ConvertErrorNamesTokenAndType<T>(cmd: CommandLine, position: nat, converter: string -> Result<T>, typeString: string)
    requires position <= |cmd|
    requires position == |cmd| ==> |cmd| > 0
    requires position < |cmd| ==> converter(cmd[position]) == Failure(StdError(InvalidArgument))
    ensures var r := Convert(cmd, position, converter, typeString);
            var token := cmd[if position == |cmd| then position - 1 else position];
            && r.Failure? && r.exception.LibraryError?
            && r.exception.error.kind == CommandLineOptionError
            && var w := What(r.exception.error);
            && w[..|Prefix|] == Prefix
            && w[|Prefix|..|Prefix| + |ConvertHead|] == ConvertHead
            && w[|Prefix| + |ConvertHead|..|Prefix| + |ConvertHead| + |token|] == token
            && w[|w| - |Tail| - |typeString|..|w| - |Tail|] == typeString
  {
    var token := cmd[if position == |cmd| then position - 1 else position];
    assert Convert(cmd, position, converter, typeString) == Failure(ConversionError(token, typeString));
    WhatOfConversionError(token, typeString);
  }

  /** The converter is not invoked at the end of the command line: there
      the result does not depend on it. */
  lemma ConvertAtEndIgnoresConverter<T>(cmd: CommandLine, c1: string -> Result<T>, c2: string -> Result<T>, typeString: string)
    requires |cmd| > 0
    ensures Convert(cmd, |cmd|, c1, typeString) == Convert(cmd, |cmd|, c2, typeString)
  {
  }

  /** The only library errors `convert` raises are the two it makes
      itself: a missing value, or a token the converter rejects as an
      invalid argument. */
  lemma ConvertRaisesOnlyOptionErrors<T>(cmd: CommandLine, position: nat, converter: string -> Result<T>, typeString: string)
    requires position <= |cmd|
    requires position == |cmd| ==> |cmd| > 0
    requires forall s :: converter(s).Success? || converter(s).exception.StdError?
    ensures var r := Convert(cmd, position, converter, typeString);
            r.Failure? && r.exception.LibraryError? ==>
              r.exception.error.kind == CommandLineOptionError &&
              (position == |cmd| || converter(cmd[position]) == Failure(StdError(InvalidArgument)))
  {
  }
}
