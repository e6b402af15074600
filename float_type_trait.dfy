/** type_trait<float>, the older generation of the float lookup: the
    value is written through a pointer and success is reported as a bool.
    The global argument list is passed in as `args`; std::stof is the
    parameter `stof`. A call either returns a bool (Success) or lets an
    exception escape (Failure). */
module FloatTypeTrait {
  import opened Types
  import opened Exceptions
  import Algorithm

  /** The float the caller's pointer designates. */
  class FloatSlot<F> {
    var value: F

    constructor (initial: F)
      ensures value == initial
    {
      value := initial;
    }
  }

  /** The exceptions the catch clauses of parse handle. */
  predicate Handled(e: Exception)
  {
    e == StdError(InvalidArgument) || e == StdError(OutOfRange)
  }

  /** parse(key, value): finds the first occurrence of `key`, converts the
      token after it and stores the float on success. A missing key, a key
      with no token after it and a conversion that fails with
      invalid_argument or out_of_range return false and leave the float
      alone; any other exception escapes, the float untouched. */
  method Parse<F>(args: CommandLine, key: string, slot: FloatSlot<F>, stof: string -> Result<F>)
    returns (r: Result<bool>)
    modifies slot
    ensures var k := Algorithm.IndexOf(args, key);
            r == Success(true) <==> k + 1 < |args| && stof(args[k + 1]).Success?
    ensures var k := Algorithm.IndexOf(args, key);
            r == Success(true) ==> slot.value == stof(args[k + 1]).value
    ensures r != Success(true) ==> slot.value == old(slot.value)
    ensures var k := Algorithm.IndexOf(args, key);
            r.Failure? <==> k + 1 < |args| && stof(args[k + 1]).Failure? && !Handled(stof(args[k + 1]).exception)
    ensures var k := Algorithm.IndexOf(args, key);
            r.Failure? ==> r.exception == stof(args[k + 1]).exception
  {
    var keyIndex := Algorithm.IndexOf(args, key);
    if keyIndex == |args| {
      return Success(false);
    }
    var valueIndex := keyIndex + 1;
    if valueIndex == |args| {
      return Success(false);
    }
    match stof(args[valueIndex])
    case Success(v) =>
      slot.value := v;
      r := Success(true);
    case Failure(e) =>
      if Handled(e) {
        r := Success(false);
      } else {
        r := Failure(e);
      }
  }

  /** parse(key, value, default_value): when `key` is absent the default is
      stored and false returned; when it is present the call is parse(key,
      value), and the default is not stored, not even when that fails. */
  method ParseWithDefault<F>(args: CommandLine, key: string, slot: FloatSlot<F>, default: F, stof: string -> Result<F>)
    returns (r: Result<bool>)
    modifies slot
    ensures key !in args ==> r == Success(false) && slot.value == default
    ensures var k := Algorithm.IndexOf(args, key);
            key in args ==> (r == Success(true) <==> k + 1 < |args| && stof(args[k + 1]).Success?)
    ensures var k := Algorithm.IndexOf(args, key);
            key in args && r == Success(true) ==> slot.value == stof(args[k + 1]).value
    ensures key in args && r != Success(true) ==> slot.value == old(slot.value)
    ensures var k := Algorithm.IndexOf(args, key);
            key in args ==>
              (r.Failure? <==> k + 1 < |args| && stof(args[k + 1]).Failure? && !Handled(stof(args[k + 1]).exception))
    ensures var k := Algorithm.IndexOf(args, key);
            key in args && r.Failure? ==> k + 1 < |args| && r.exception == stof(args[k + 1]).exception
  {
    var keyIndex := Algorithm.IndexOf(args, key);
    if keyIndex == |args| {
      slot.value := default;
      return Success(false);
    }
    r := Parse(args, key, slot, stof);
  }
  /** `-y abc` where "abc" is not a float: false, and neither the default
      nor anything else is stored; the default covers only absence. */
  method MalformedValueKeepsFloat<F>(initial: F, default: F, stof: string -> Result<F>)
    returns (r: Result<bool>, stored: F)
    requires stof("abc") == Failure(StdError(InvalidArgument))
    ensures r == Success(false) && stored == initial
  {
    var slot := new FloatSlot(initial);
    var args: CommandLine := ["-y", "abc"];
    assert args[0] == "-y" && "-y" in args && Algorithm.IndexOf(args, "-y") == 0 && args[1] == "abc";
    r := ParseWithDefault(args, "-y", slot, default, stof);
    assert r != Success(true) && r.Success?;
    assert r == Success(r.value);
    assert !r.value;
    stored := slot.value;
    assert stored == initial;
  }

  /** `-d 3.5` without `-y`: looking up `-y` stores the default and
      returns false. */
  method AbsentKeyStoresDefault<F>(initial: F, default: F, stof: string -> Result<F>)
    returns (r: Result<bool>, stored: F)
    ensures r == Success(false) && stored == default
  {
    var slot := new FloatSlot(initial);
    r := ParseWithDefault(["-d", "3.5"], "-y", slot, default, stof);
    stored := slot.value;
  }

  /** `-y 2.5` where "2.5" converts: true, and the converted float is stored. */
  method PresentKeyStoresConversion<F>(initial: F, default: F, converted: F, stof: string -> Result<F>)
    returns (r: Result<bool>, stored: F)
    requires stof("2.5") == Success(converted)
    ensures r == Success(true) && stored == converted
  {
    var slot := new FloatSlot(initial);
    r := ParseWithDefault(["-y", "2.5"], "-y", slot, default, stof);
    stored := slot.value;
  }
}
