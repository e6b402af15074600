/** type_trait<std::string>, the older generation of the string value
    lookup: the token after the key, read from the global argument list,
    which is passed in as `args` and only read. */
module StringTypeTrait {
  import opened Types
  import opened Exceptions
  import StringArgument

  /** parse: the token immediately after `key`; a ParserError when the
      key is the last token. */
  function Parse(args: CommandLine, key: nat): (r: Result<string>)
    requires key < |args|
    ensures r.Success? <==> key + 1 < |args|
    ensures r.Success? ==> r.value == args[key + 1]
    ensures r.Failure? ==> r.exception == ParserError
  {
    var value := key + 1;
    if value == |args| then Failure(ParserError) else Success(args[value])
  }

  /** Both generations of the string lookup agree on every input. */
  lemma AgreesWithStringArgument(args: CommandLine, key: nat)
    requires key < |args|
    ensures Parse(args, key) == StringArgument.Parse(args, key)
  {
  }

  /** The next token is the value even when it is another identifier. */
  lemma ParseTakesIdentifierAsValue(args: CommandLine, key: nat)
    requires key + 1 < |args| && |args[key + 1]| > 0 && args[key + 1][0] == '-'
    ensures Parse(args, key) == Success(args[key + 1])
  {
  }
}
