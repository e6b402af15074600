/** argument<std::string>: the value of a string option is the token
    that follows its key, taken as it is. The global token list of this
    API generation is passed in as `cmdargs`. */
module StringArgument {
  import opened Types
  import opened Exceptions

  /** convert: the token at `value`, verbatim; a ParserError at the end. */
  function Convert(cmdargs: CommandLine, value: nat): (r: Result<string>)
    requires value <= |cmdargs|
    ensures r.Success? <==> value < |cmdargs|
    ensures r.Success? ==> r.value == cmdargs[value]
    ensures r.Failure? ==> r.exception == ParserError
  {
    if value == |cmdargs| then Failure(ParserError) else Success(cmdargs[value])
  }

  /** parse: converts the position after the key. */
  function Parse(cmdargs: CommandLine, key: nat): (r: Result<string>)
    requires key < |cmdargs|
    ensures r == Convert(cmdargs, key + 1)
    ensures r.Success? <==> key + 1 < |cmdargs|
    ensures r.Success? ==> r.value == cmdargs[key + 1]
  {
    Convert(cmdargs, key + 1)
  }

  /** A key that is the last token has no value: parsing it fails. */
  lemma ParseOfLastTokenFails(cmdargs: CommandLine)
    requires |cmdargs| > 0
    ensures Parse(cmdargs, |cmdargs| - 1) == Failure(ParserError)
  {
  }

  /** No validation: a following token that looks like an identifier is
      returned as the value. */
  lemma ParseTakesIdentifierAsValue()
    ensures Parse(["-o", "-x"], 0) == Success("-x")
  {
  }
}
