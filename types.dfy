/** The values the parser passes around: a command line is a sequence of
    tokens, a position is an index into it, and the index |cmd| is the
    "end" sentinel that means "not found" or "no value". */
module Types {

  type CommandLine = seq<string>

  /** A registered flag, option or positional argument: its identifier,
      its alternate identifier ("" when there is none), its description
      and the command-line position recorded when it was registered. */
  datatype Argument = Argument(id: string, idAlt: string, description: string, position: nat)

  /** Whether `name` is one of the descriptor's identifiers; an empty
      alternate identifier names nothing. */
  predicate Names(arg: Argument, name: string)
  {
    arg.id == name || (arg.idAlt != "" && arg.idAlt == name)
  }
}
