/** The library's error hierarchy: a base `Error` that prefixes every
    message with "Error: ", and two kinds derived from it that forward
    their message to the base unchanged. */
module Errors {

  /** The three error classes; BaseError is the base of the other two. */
  datatype Kind = BaseError | CommandLineArgumentError | CommandLineOptionError

  /** An error object: its class and the message its constructor was given. */
  datatype Error = Error(kind: Kind, message: string)

  const Prefix: string := "Error: "

  /** The text `what()` reports: the prefix, then the message. */
  function What(e: Error): (w: string)
    ensures |w| == |Prefix| + |e.message|
    ensures w[..|Prefix|] == Prefix && w[|Prefix|..] == e.message
  {
    Prefix + e.message
  }

  /** The base class's constructor. */
  function NewError(message: string): (e: Error)
    ensures e.kind == BaseError
    ensures What(e) == "Error: " + message
  {
    Error(BaseError, message)
  }

  /** CommandLineArgumentError forwards its message to the base unchanged. */
  function NewCommandLineArgumentError(message: string): (e: Error)
    ensures e.kind == CommandLineArgumentError
    ensures What(e) == "Error: " + message
  {
    Error(CommandLineArgumentError, message)
  }

  /** CommandLineOptionError forwards its message to the base unchanged. */
  function NewCommandLineOptionError(message: string): (e: Error)
    ensures e.kind == CommandLineOptionError
    ensures What(e) == "Error: " + message
  {
    Error(CommandLineOptionError, message)
  }

  /** Whether a handler for class `handler` catches `e`: the base class
      catches every error, a derived class only its own. */
  predicate Catches(handler: Kind, e: Error)
  {
    handler == BaseError || handler == e.kind
  }

  /** A handler for the base class covers both derived kinds. */
  lemma BaseHandlerCatchesAll(message: string)
    ensures Catches(BaseError, NewError(message))
    ensures Catches(BaseError, NewCommandLineArgumentError(message))
    ensures Catches(BaseError, NewCommandLineOptionError(message))
  {
  }

  /** The two derived kinds are siblings: neither handler catches the other. */
  lemma DerivedHandlersAreDisjoint(message: string)
    ensures !Catches(CommandLineOptionError, NewCommandLineArgumentError(message))
    ensures !Catches(CommandLineArgumentError, NewCommandLineOptionError(message))
    ensures !Catches(CommandLineOptionError, NewError(message))
    ensures !Catches(CommandLineArgumentError, NewError(message))
  {
  }

  /** The reported text determines the message: What loses nothing. */
  lemma WhatDeterminesMessage(e1: Error, e2: Error)
    requires What(e1) == What(e2)
    ensures e1.message == e2.message
  {
    assert e1.message == What(e1)[|Prefix|..];
  }
}
