/** argument<std::vector<T>>: the values of a sequence option are the run
    of tokens after its key (collected by the value collector), each
    converted with the element type's `convert`, in order. The first
    element that fails to convert aborts the whole parse. */
module VectorArgument {
  import opened Types
  import opened Exceptions
  import Algorithm
  import NumericalArgument

  /** The values of a run of positions: each position converted in turn,
      stopping at the first failure. */
  function ConvertAll<T>(positions: seq<nat>, convert: nat -> Result<T>): Result<seq<T>>
  {
    if positions == [] then Success([])
    else
      match convert(positions[0])
      case Failure(e) => Failure(e)
      case Success(v) =>
        match ConvertAll(positions[1..], convert)
        case Failure(e) => Failure(e)
        case Success(vs) => Success([v] + vs)
  }

  /** When every element converts, the result has one value per position,
      in the order of the positions, duplicates kept. */
  lemma {:induction false} ConvertAllSucceeds<T>(positions: seq<nat>, convert: nat -> Result<T>)
    requires forall i :: 0 <= i < |positions| ==> convert(positions[i]).Success?
    ensures ConvertAll(positions, convert).Success?
    ensures |ConvertAll(positions, convert).value| == |positions|
    ensures forall i :: 0 <= i < |positions| ==>
              ConvertAll(positions, convert).value[i] == convert(positions[i]).value
  {
    if positions != [] {
      var rest := positions[1..];
      assert forall i :: 0 <= i < |rest| ==> rest[i] == positions[i + 1];
      ConvertAllSucceeds(rest, convert);
      var vs := ConvertAll(rest, convert).value;
      assert ConvertAll(positions, convert).value == [convert(positions[0]).value] + vs;
    }
  }

  /** When element k is the first that fails, the whole conversion fails
      with element k's exception: no partial sequence. */
  lemma {:induction false} ConvertAllFailsAtFirst<T>(positions: seq<nat>, convert: nat -> Result<T>, k: nat)
    requires k < |positions| && convert(positions[k]).Failure?
    requires forall j :: 0 <= j < k ==> convert(positions[j]).Success?
    ensures ConvertAll(positions, convert) == Failure(convert(positions[k]).exception)
  {
    if k > 0 {
      var rest := positions[1..];
      assert forall j :: 0 <= j < k - 1 ==> rest[j] == positions[j + 1];
      ConvertAllFailsAtFirst(rest, convert, k - 1);
    }
  }

  /** Elements after the first failing one are never converted: a
      converter that differs only on them gives the same result. */
  lemma {:induction false} ConvertAllIgnoresLaterElements<T>(positions: seq<nat>, c1: nat -> Result<T>, c2: nat -> Result<T>, k: nat)
    requires k < |positions| && c1(positions[k]).Failure?
    requires forall j :: 0 <= j <= k ==> c1(positions[j]) == c2(positions[j])
    ensures ConvertAll(positions, c1) == ConvertAll(positions, c2)
  {
    if c1(positions[0]).Success? && k > 0 {
      var rest := positions[1..];
      assert forall j :: 0 <= j <= k - 1 ==> rest[j] == positions[j + 1];
      ConvertAllIgnoresLaterElements(rest, c1, c2, k - 1);
    }
  }

  /** parse: collects the run of value positions after `key` and converts
      each one with the element type's `convert`. */
  method Parse<T>(cmd: CommandLine, key: nat, cmdargs: seq<Argument>, convert: nat -> Result<T>)
    returns (r: Result<seq<T>>)
    requires key < |cmd|
    ensures var ps := Algorithm.OptionPositions(cmd, key, cmdargs);
            (forall i :: 0 <= i < |ps| ==> convert(ps[i]).Success?) ==>
              r.Success? && |r.value| == |ps| &&
              forall i :: 0 <= i < |ps| ==> r.value[i] == convert(ps[i]).value
    ensures var ps := Algorithm.OptionPositions(cmd, key, cmdargs);
            r.Failure? ==> exists k :: 0 <= k < |ps| && convert(ps[k]) == Failure(r.exception) &&
                                       forall j :: 0 <= j < k ==> convert(ps[j]).Success?
    ensures r == ConvertAll(Algorithm.OptionPositions(cmd, key, cmdargs), convert)
  {
    var positions := Algorithm.OptionPositions(cmd, key, cmdargs);
    var values: seq<T> := [];
    for i := 0 to |positions|
      invariant |values| == i
      invariant forall j :: 0 <= j < i ==> convert(positions[j]) == Success(values[j])
    {
      var v := convert(positions[i]);
      if v.Failure? {
        ConvertAllFailsAtFirst(positions, convert, i);
        return Failure(v.exception);
      }
      values := values + [v.value];
    }
    ConvertAllSucceeds(positions, convert);
    assert values == ConvertAll(positions, convert).value;
    r := Success(values);
  }

  /** An empty run of values is an empty vector, not an error. */
  lemma EmptyRunIsEmptyVector<T>(cmd: CommandLine, key: nat, cmdargs: seq<Argument>, convert: nat -> Result<T>)
    requires key < |cmd|
    requires key + 1 == |cmd| || Algorithm.IsIdentifier(cmdargs, cmd[key + 1])
    ensures ConvertAll(Algorithm.OptionPositions(cmd, key, cmdargs), convert) == Success([])
  {
    Algorithm.OptionPositionsUnique(cmd, key, cmdargs, []);
  }

  /** argument<T>::convert for a numerical T, as the element converter of
      a vector: NumericalArgument.Convert on the command line `cmd`. */
  function NumericalElement<T>(cmd: CommandLine, converter: string -> Result<T>, typeString: string): nat -> Result<T>
  {
    (p: nat) =>
      if p < |cmd| || (p == |cmd| && |cmd| > 0) then NumericalArgument.Convert(cmd, p, converter, typeString)
      else Failure(ParserError)
  }

  /** `-t 3 6 20 -f 5` with an integer converter that reads 3, 6 and 20:
      the values of `-t` are [3, 6, 20]; the run stops at `-f`. */
  lemma ParseIntegerRun(conv: string -> Result<int>)
    requires conv("3") == Success(3) && conv("6") == Success(6) && conv("20") == Success(20)
    ensures var cmd: CommandLine := ["-t", "3", "6", "20", "-f", "5"];
            ConvertAll(Algorithm.OptionPositions(cmd, 0, [Argument("-t", "", "", 0), Argument("-f", "", "", 5)]),
                       NumericalElement(cmd, conv, "int"))
              == Success([3, 6, 20])
  {
    var cmd: CommandLine := ["-t", "3", "6", "20", "-f", "5"];
    var convert := NumericalElement(cmd, conv, "int");
    Algorithm.GetOptionPositionsStopsAtIdentifier();
    assert convert(1) == Success(3) && convert(2) == Success(6) && convert(3) == Success(20);
    ConvertAllSucceeds([1, 2, 3], convert);
    var vs := ConvertAll([1, 2, 3], convert).value;
    assert vs == [3, 6, 20];
  }

  /** `-t 3 x 20 -f 5` where the converter rejects "x": the whole parse
      fails with the error naming "x", although "20" would convert. */
  lemma ParseIntegerRunFailsFast(conv: string -> Result<int>)
    requires conv("3") == Success(3) && conv("x") == Failure(StdError(InvalidArgument))
    ensures var cmd: CommandLine := ["-t", "3", "x", "20", "-f", "5"];
            ConvertAll(Algorithm.OptionPositions(cmd, 0, [Argument("-t", "", "", 0), Argument("-f", "", "", 5)]),
                       NumericalElement(cmd, conv, "int"))
              == Failure(NumericalArgument.ConversionError("x", "int"))
  {
    var cmd: CommandLine := ["-t", "3", "x", "20", "-f", "5"];
    var reg := [Argument("-t", "", "", 0), Argument("-f", "", "", 5)];
    var convert := NumericalElement(cmd, conv, "int");
    assert !Algorithm.IsIdentifier(reg, cmd[1]) && !Algorithm.IsIdentifier(reg, cmd[2]) && !Algorithm.IsIdentifier(reg, cmd[3]);
    assert Algorithm.IsIdentifier(reg, cmd[4]);
    Algorithm.OptionPositionsUnique(cmd, 0, reg, [1, 2, 3]);
    ConvertAllFailsAtFirst([1, 2, 3], convert, 1);
  }
}
