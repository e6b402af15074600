/** ArgumentParserBase: the parser facade's registry of flag/option
    descriptors and positional descriptors, the presence test for flags,
    and the usage text. The command line is the whole argument vector,
    program name included, so argv[0] is token 0. */
module Parser {
  import opened Types
  import Algorithm

  /** The width one descriptor asks of the identifier column: the lengths
      of its identifier and its alternate identifier. */
  function IdLength(arg: Argument): nat
  {
    |arg.id| + |arg.idAlt|
  }

  /** The largest IdLength among `args`; 0 when there are none. */
  function MaxIdLength(args: seq<Argument>): nat
  {
    if args == [] then 0
    else
      var longest := MaxIdLength(args[..|args| - 1]);
      var last := IdLength(args[|args| - 1]);
      if last > longest then last else longest
  }

  /** MaxIdLength is the maximum: no descriptor exceeds it, and some
      descriptor attains it when there is one. */
  lemma {:induction false} MaxIdLengthIsMaximum(args: seq<Argument>)
    ensures forall i :: 0 <= i < |args| ==> IdLength(args[i]) <= MaxIdLength(args)
    ensures args != [] ==> exists i :: 0 <= i < |args| && IdLength(args[i]) == MaxIdLength(args)
  {
    if args != [] {
      var init := args[..|args| - 1];
      MaxIdLengthIsMaximum(init);
      assert forall i :: 0 <= i < |init| ==> init[i] == args[i];
      if init != [] && MaxIdLength(args) == MaxIdLength(init) {
        var i :| 0 <= i < |init| && IdLength(init[i]) == MaxIdLength(init);
        assert IdLength(args[i]) == MaxIdLength(args);
      } else {
        assert IdLength(args[|args| - 1]) == MaxIdLength(args);
      }
    }
  }

  /** `n` blanks. */
  function Spaces(n: nat): (s: string)
    ensures |s| == n
    ensures forall i :: 0 <= i < n ==> s[i] == ' '
  {
    if n == 0 then "" else Spaces(n - 1) + " "
  }

  /** "|" and the alternate identifier, or nothing when there is none. */
  function AltColumn(arg: Argument): string
  {
    if arg.idAlt != "" then "|" + arg.idAlt else ""
  }

  /** One line of the usage text. The padding is always `width` blanks:
      it is not reduced by the line's own identifier length. */
  function UsageLine(arg: Argument, width: nat): string
  {
    "  " + arg.id + AltColumn(arg) + Spaces(width) + arg.description + "\n"
  }

  /** The usage lines of `args`, in registration order. */
  function UsageLines(args: seq<Argument>, width: nat): string
  {
    if args == [] then ""
    else UsageLine(args[0], width) + UsageLines(args[1..], width)
  }

  /** The column at which a line's description starts. */
  function DescriptionColumn(arg: Argument, width: nat): nat
  {
    2 + |arg.id| + |AltColumn(arg)| + width
  }

  /** The layout of one usage line: two blanks, the identifier, the
      alternate column, exactly `width` blanks, the description, and a
      newline. The description's column therefore moves with the length
      of the line's own identifiers. */
  lemma UsageLineLayout(arg: Argument, width: nat)
    ensures var line := UsageLine(arg, width);
            var col := DescriptionColumn(arg, width);
            && |line| == col + |arg.description| + 1
            && line[..2] == "  "
            && line[2..2 + |arg.id|] == arg.id
            && line[2 + |arg.id|..col - width] == AltColumn(arg)
            && (forall i :: col - width <= i < col ==> line[i] == ' ')
            && line[col..col + |arg.description|] == arg.description
            && line[|line| - 1] == '\n'
  {
    var head := "  " + arg.id + AltColumn(arg);
    var pad := Spaces(width);
    var line := UsageLine(arg, width);
    assert line == head + pad + arg.description + "\n";
    assert line[..|head|] == head;
    assert head[..2] == "  " && head[2..2 + |arg.id|] == arg.id && head[2 + |arg.id|..] == AltColumn(arg);
    assert line[|head|..|head| + width] == pad;
    assert line[|head| + width..|head| + width + |arg.description|] == arg.description;
  }

  /** The usage text of a concatenation is the concatenation of the usage
      texts: lines appear in registration order. */
  lemma {:induction false} UsageLinesAppend(a: seq<Argument>, b: seq<Argument>, width: nat)
    ensures UsageLines(a + b, width) == UsageLines(a, width) + UsageLines(b, width)
  {
    if a == [] {
      assert a + b == b;
    } else {
      assert (a + b)[1..] == a[1..] + b;
      UsageLinesAppend(a[1..], b, width);
      var line := UsageLine(a[0], width);
      assert UsageLines(a + b, width) == line + UsageLines(a[1..] + b, width);
      assert line + (UsageLines(a[1..], width) + UsageLines(b, width))
          == (line + UsageLines(a[1..], width)) + UsageLines(b, width);
    }
  }

  /** Registering one more descriptor adds its line at the end. */
  lemma UsageLinesSnoc(args: seq<Argument>, arg: Argument, width: nat)
    ensures UsageLines(args + [arg], width) == UsageLines(args, width) + UsageLine(arg, width)
  {
    UsageLinesAppend(args, [arg], width);
    assert UsageLines([arg], width) == UsageLine(arg, width) + UsageLines([], width);
  }

  /** The number of occurrences of `c` in `s`. */
  function Occurrences(s: string, c: char): nat
  {
    if s == [] then 0 else (if s[0] == c then 1 else 0) + Occurrences(s[1..], c)
  }

  lemma {:induction false} OccurrencesAppend(s: string, t: string, c: char)
    ensures Occurrences(s + t, c) == Occurrences(s, c) + Occurrences(t, c)
  {
    if s != [] {
      assert (s + t)[1..] == s[1..] + t;
      OccurrencesAppend(s[1..], t, c);
    } else {
      assert s + t == t;
    }
  }

  lemma {:induction false} OccurrencesAbsent(s: string, c: char)
    requires c !in s
    ensures Occurrences(s, c) == 0
  {
    if s != [] {
      OccurrencesAbsent(s[1..], c);
    }
  }

  /** Whether a descriptor's texts are free of line breaks. */
  predicate SingleLine(arg: Argument)
  {
    '\n' !in arg.id && '\n' !in arg.idAlt && '\n' !in arg.description
  }

  /** A usage line of a descriptor without line breaks holds exactly one:
      its terminating newline. */
  lemma UsageLineHasOneNewline(arg: Argument, width: nat)
    requires SingleLine(arg)
    ensures Occurrences(UsageLine(arg, width), '\n') == 1
  {
    var alt := AltColumn(arg);
    assert '\n' !in alt;
    assert '\n' !in Spaces(width);
    OccurrencesAbsent("  ", '\n');
    OccurrencesAbsent(arg.id, '\n');
    OccurrencesAbsent(alt, '\n');
    OccurrencesAbsent(Spaces(width), '\n');
    OccurrencesAbsent(arg.description, '\n');
    OccurrencesAppend("  ", arg.id, '\n');
    OccurrencesAppend("  " + arg.id, alt, '\n');
    OccurrencesAppend("  " + arg.id + alt, Spaces(width), '\n');
    OccurrencesAppend("  " + arg.id + alt + Spaces(width), arg.description, '\n');
    OccurrencesAppend("  " + arg.id + alt + Spaces(width) + arg.description, "\n", '\n');
  }

  /** One line per descriptor: when no identifier or description holds a
      line break, the usage text holds exactly one per descriptor. */
  lemma {:induction false} UsageLinesCount(args: seq<Argument>, width: nat)
    requires forall i :: 0 <= i < |args| ==> SingleLine(args[i])
    ensures Occurrences(UsageLines(args, width), '\n') == |args|
  {
    if args != [] {
      assert forall i :: 0 <= i < |args[1..]| ==> args[1..][i] == args[i + 1];
      UsageLinesCount(args[1..], width);
      UsageLineHasOneNewline(args[0], width);
      OccurrencesAppend(UsageLine(args[0], width), UsageLines(args[1..], width), '\n');
    }
  }

  /** The body of usage_cmdargs's loop: the line of one descriptor, the
      padding written one blank at a time. */
  method WriteUsageLine(arg: Argument, width: nat) returns (line: string)
    ensures line == UsageLine(arg, width)
  {
    line := "  " + arg.id;
    if arg.idAlt != "" {
      line := line + "|" + arg.idAlt;
    }
    ghost var head := line;
    assert head == "  " + arg.id + AltColumn(arg);
    for i := 0 to width
      invariant line == head + Spaces(i)
    {
      line := line + " ";
    }
    if arg.description != "" {
      line := line + arg.description;
    } else {
      assert line + arg.description == line;
    }
    line := line + "\n";
  }

  class ArgumentParserBase {
    /** The command line, argv[0] included. */
    const cmd: CommandLine
    /** The flag/option descriptors, in registration order. */
    var cmdargs: seq<Argument>
    /** The positional descriptors, in registration order. */
    var posargs: seq<Argument>
    const applicationDescription: string

    /** Every recorded position is a position of the command line or end. */
    ghost predicate Valid()
      reads this
    {
      && (forall i :: 0 <= i < |cmdargs| ==> cmdargs[i].position <= |cmd|)
      && (forall i :: 0 <= i < |posargs| ==> posargs[i].position <= |cmd|)
    }

    /** The command line is argv[0 .. argc), so token 0 is the program name. */
    constructor (argv: CommandLine, applicationDescription: string)
      ensures Valid()
      ensures cmd == argv && cmdargs == [] && posargs == []
      ensures this.applicationDescription == applicationDescription
    {
      cmd := argv;
      cmdargs := [];
      posargs := [];
      this.applicationDescription := applicationDescription;
    }

    /** add_posarg(description): registers a positional argument at the
        position after the last registered flag/option, or at position 0
        when none is registered. Stepping past the end is undefined, so
        the last flag/option must not be at end. */
    method AddPosarg(description: string) returns (arg: Argument)
      requires Valid()
      requires cmdargs != [] ==> cmdargs[|cmdargs| - 1].position < |cmd|
      modifies this
      ensures Valid()
      ensures arg.id == "" && arg.idAlt == "" && arg.description == description
      ensures old(cmdargs) == [] ==> arg.position == 0
      ensures old(cmdargs) != [] ==> arg.position == old(cmdargs)[|old(cmdargs)| - 1].position + 1
      ensures posargs == old(posargs) + [arg]
      ensures cmdargs == old(cmdargs)
    {
      var position := if |cmdargs| > 0 then cmdargs[|cmdargs| - 1].position + 1 else 0;
      arg := Argument("", "", description, position);
      posargs := posargs + [arg];
    }

    /** add_posarg(): the same with an empty description. */
    method AddBarePosarg() returns (arg: Argument)
      requires Valid()
      requires cmdargs != [] ==> cmdargs[|cmdargs| - 1].position < |cmd|
      modifies this
      ensures Valid()
      ensures arg.id == "" && arg.idAlt == "" && arg.description == ""
      ensures old(cmdargs) == [] ==> arg.position == 0
      ensures old(cmdargs) != [] ==> arg.position == old(cmdargs)[|old(cmdargs)| - 1].position + 1
      ensures posargs == old(posargs) + [arg]
      ensures cmdargs == old(cmdargs)
    {
      arg := AddPosarg("");
    }

    /** add_arg(cmdarg): appends a descriptor built by the caller. */
    method AddArg(arg: Argument)
      requires Valid()
      requires arg.position <= |cmd|
      modifies this
      ensures Valid()
      ensures cmdargs == old(cmdargs) + [arg]
      ensures posargs == old(posargs)
    {
      cmdargs := cmdargs + [arg];
    }

    /** add_arg(id): a descriptor with no alternate identifier and no
        description, at the position where `id` occurs (or end). */
    method AddArgId(id: string) returns (arg: Argument)
      requires Valid()
      modifies this
      ensures Valid()
      ensures arg == Argument(id, "", "", Algorithm.FindArgPosition(cmd, id, ""))
      ensures cmdargs == old(cmdargs) + [arg]
      ensures posargs == old(posargs)
    {
      arg := Argument(id, "", "", Algorithm.FindArgPosition(cmd, id, ""));
      AddArg(arg);
    }

    /** add_arg(id, id_alt): no description. */
    method AddArgIds(id: string, idAlt: string) returns (arg: Argument)
      requires Valid()
      modifies this
      ensures Valid()
      ensures arg == Argument(id, idAlt, "", Algorithm.FindArgPosition(cmd, id, idAlt))
      ensures cmdargs == old(cmdargs) + [arg]
      ensures posargs == old(posargs)
    {
      arg := Argument(id, idAlt, "", Algorithm.FindArgPosition(cmd, id, idAlt));
      AddArg(arg);
    }

    /** add_arg(id, id_alt, description). */
    method AddArgDescribed(id: string, idAlt: string, description: string) returns (arg: Argument)
      requires Valid()
      modifies this
      ensures Valid()
      ensures arg == Argument(id, idAlt, description, Algorithm.FindArgPosition(cmd, id, idAlt))
      ensures cmdargs == old(cmdargs) + [arg]
      ensures posargs == old(posargs)
    {
      arg := Argument(id, idAlt, description, Algorithm.FindArgPosition(cmd, id, idAlt));
      AddArg(arg);
    }

    /** add_help: registers -h / --help. */
    method AddHelp() returns (arg: Argument)
      requires Valid()
      modifies this
      ensures Valid()
      ensures arg == Argument("-h", "--help", "Display this information",
                              Algorithm.FindArgPosition(cmd, "-h", "--help"))
      ensures cmdargs == old(cmdargs) + [arg]
      ensures posargs == old(posargs)
    {
      arg := AddArgDescribed("-h", "--help", "Display this information");
    }

    /** get_flag: whether either identifier occurs on the command line. */
    function GetFlag(arg: Argument): (present: bool)
      ensures present <==> arg.id in cmd || (arg.idAlt != "" && arg.idAlt in cmd)
    {
      Algorithm.FindArgPosition(cmd, arg.id, arg.idAlt) != |cmd|
    }

    /** get_positional, a stub: T() whatever the command line holds. The
        value-initialised T() is passed in as `valueInitialized`. */
    function GetPositional<T>(arg: Argument, valueInitialized: T): (r: T)
      ensures r == valueInitialized
    {
      valueInitialized
    }

    /** get_option(arg), a stub: T() whatever the command line holds. */
    function GetOption<T>(arg: Argument, valueInitialized: T): (r: T)
      ensures r == valueInitialized
    {
      valueInitialized
    }

    /** get_option(arg, default_value), a stub: the default, whether or
        not the argument occurs. */
    function GetOptionOrDefault<T>(arg: Argument, default: T): (r: T)
      ensures r == default
    {
      default
    }

    /** usage_argid_length: 3 more than the longest identifier pair. */
    method UsageArgidLength() returns (n: nat)
      ensures n == 3 + MaxIdLength(cmdargs)
      ensures forall i :: 0 <= i < |cmdargs| ==> IdLength(cmdargs[i]) + 3 <= n
      ensures cmdargs == [] ==> n == 3
      ensures cmdargs != [] ==> exists i :: 0 <= i < |cmdargs| && n == IdLength(cmdargs[i]) + 3
    {
      var argidLength := 0;
      for k := 0 to |cmdargs|
        invariant argidLength == MaxIdLength(cmdargs[..k])
      {
        assert cmdargs[..k + 1][..k] == cmdargs[..k];
        var idLength := |cmdargs[k].id| + |cmdargs[k].idAlt|;
        if idLength > argidLength {
          argidLength := idLength;
        }
      }
      assert cmdargs[..|cmdargs|] == cmdargs;
      MaxIdLengthIsMaximum(cmdargs);
      n := argidLength + 3;
    }

    /** usage_posargs: always empty. */
    function UsagePosargs(): (s: string)
      ensures |s| == 0
    {
      ""
    }

    /** usage_cmdargs: one line per flag/option, in registration order. */
    method UsageCmdargs() returns (s: string)
      ensures s == UsageLines(cmdargs, 3 + MaxIdLength(cmdargs))
    {
      var argidLength := UsageArgidLength();
      s := "";
      for k := 0 to |cmdargs|
        invariant s == UsageLines(cmdargs[..k], argidLength)
      {
        var line := WriteUsageLine(cmdargs[k], argidLength);
        assert cmdargs[..k + 1] == cmdargs[..k] + [cmdargs[k]];
        UsageLinesSnoc(cmdargs[..k], cmdargs[k], argidLength);
        s := s + line;
      }
      assert cmdargs[..|cmdargs|] == cmdargs;
    }

    /** usage_stream: the positional part (empty) and the flag/option part. */
    method UsageStream() returns (s: string)
      ensures s == UsageLines(cmdargs, 3 + MaxIdLength(cmdargs))
    {
      var cmdargsText := UsageCmdargs();
      s := UsagePosargs() + cmdargsText;
    }

    /** usage(header): the header, a blank line, then the usage lines. */
    method Usage(header: string) returns (s: string)
      ensures s == header + "\n\n" + UsageLines(cmdargs, 3 + MaxIdLength(cmdargs))
    {
      var body := UsageStream();
      s := header + "\n" + "\n" + body;
    }

    /** usage(): the application description is the header. */
    method ApplicationUsage() returns (s: string)
      ensures s == applicationDescription + "\n\n" + UsageLines(cmdargs, 3 + MaxIdLength(cmdargs))
    {
      s := Usage(applicationDescription);
    }
  }
  /** `prog -v file`: the command line keeps the program name as token 0,
      `-v` is registered at position 1, and a positional argument added
      after it is recorded at position 2, the token "file". */
  method PositionalAfterFlag() returns (flag: Argument, input: Argument)
    ensures flag == Argument("-v", "", "", 1)
    ensures input == Argument("", "", "input file", 2)
  {
    var parser := new ArgumentParserBase(["prog", "-v", "file"], "demo");
    assert parser.cmd[1] == "-v" && "-v" !in parser.cmd[..1];
    flag := parser.AddArgId("-v");
    input := parser.AddPosarg("input file");
    assert parser.cmd[input.position] == "file";
  }
}
