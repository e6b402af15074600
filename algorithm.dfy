/** The position resolver and the value collector. Their implementation
    file is not part of this model; these functions are defined to meet
    the cases the repository's tests fix (test/test_algorithm.cpp), and
    otherwise the first occurrence wins: the identifier first, then a
    non-empty alternate identifier. */
module Algorithm {
  import opened Types

  /** The index of the first token equal to `x`, or |s| when there is none
      (what std::find returns). */
  function IndexOf(s: seq<string>, x: string): (i: nat)
    ensures i <= |s|
    ensures i < |s| ==> s[i] == x
    ensures forall j :: 0 <= j < i ==> s[j] != x
    ensures i == |s| <==> x !in s
  {
    if s == [] then 0
    else if s[0] == x then 0
    else 1 + IndexOf(s[1..], x)
  }

  /** find_arg_position: the first token equal to the identifier; when
      there is none and the alternate identifier is not empty, the first
      token equal to the alternate identifier; otherwise end. */
  function FindArgPosition(cmd: CommandLine, id: string, idAlt: string): (p: nat)
    ensures p <= |cmd|
    ensures p == |cmd| <==> id !in cmd && (idAlt == "" || idAlt !in cmd)
    ensures id in cmd ==> cmd[p] == id && id !in cmd[..p]
    ensures id !in cmd && p < |cmd| ==> idAlt != "" && cmd[p] == idAlt && idAlt !in cmd[..p]
  {
    var i := IndexOf(cmd, id);
    if i < |cmd| || idAlt == "" then i else IndexOf(cmd, idAlt)
  }

  /** find_arg: the index of the first registered descriptor that one of
      `name`'s identifiers names, or |cmdargs| when none does. */
  function FindArg(cmdargs: seq<Argument>, name: string): (i: nat)
    ensures i <= |cmdargs|
    ensures i < |cmdargs| ==> Names(cmdargs[i], name)
    ensures forall j :: 0 <= j < i ==> !Names(cmdargs[j], name)
  {
    if cmdargs == [] then 0
    else if Names(cmdargs[0], name) then 0
    else 1 + FindArg(cmdargs[1..], name)
  }

  /** Whether a token is the identifier of some registered descriptor. */
  predicate IsIdentifier(cmdargs: seq<Argument>, token: string)
  {
    FindArg(cmdargs, token) < |cmdargs|
  }

  /** The first position at or after `from` that holds a registered
      identifier, or end. */
  function RunEnd(cmd: CommandLine, from: nat, cmdargs: seq<Argument>): (e: nat)
    requires from <= |cmd|
    ensures from <= e <= |cmd|
    ensures e < |cmd| ==> IsIdentifier(cmdargs, cmd[e])
    ensures forall k :: from <= k < e ==> !IsIdentifier(cmdargs, cmd[k])
    decreases |cmd| - from
  {
    if from == |cmd| then from
    else if IsIdentifier(cmdargs, cmd[from]) then from
    else RunEnd(cmd, from + 1, cmdargs)
  }

  /** get_option_positions: the positions of the values that follow the
      identifier at `key`, in order, up to the next token that is a
      registered identifier or the end of the command line. The stop is
      decided by the token's text, not by the positions recorded in the
      registry. */
  function OptionPositions(cmd: CommandLine, key: nat, cmdargs: seq<Argument>): (ps: seq<nat>)
    requires key < |cmd|
    ensures forall i :: 0 <= i < |ps| ==> ps[i] == key + 1 + i
    ensures key + 1 + |ps| <= |cmd|
    ensures forall i :: 0 <= i < |ps| ==> !IsIdentifier(cmdargs, cmd[ps[i]])
    ensures key + 1 + |ps| == |cmd| || IsIdentifier(cmdargs, cmd[key + 1 + |ps|])
  {
    var stop := RunEnd(cmd, key + 1, cmdargs);
    seq(stop - key - 1, i => key + 1 + i)
  }

  /** The run OptionPositions returns is the only one with its three
      properties: consecutive positions after the key, none of them an
      identifier, and stopped by an identifier or the end. */
  lemma {:induction false} OptionPositionsUnique(cmd: CommandLine, key: nat, cmdargs: seq<Argument>, ps: seq<nat>)
    requires key < |cmd|
    requires forall i :: 0 <= i < |ps| ==> ps[i] == key + 1 + i
    requires key + 1 + |ps| <= |cmd|
    requires forall i :: 0 <= i < |ps| ==> !IsIdentifier(cmdargs, cmd[ps[i]])
    requires key + 1 + |ps| == |cmd| || IsIdentifier(cmdargs, cmd[key + 1 + |ps|])
    ensures ps == OptionPositions(cmd, key, cmdargs)
  {
    var qs := OptionPositions(cmd, key, cmdargs);
    forall k | key + 1 <= k < key + 1 + |ps|
      ensures !IsIdentifier(cmdargs, cmd[k])
    {
      assert ps[k - key - 1] == k;
    }
    forall k | key + 1 <= k < key + 1 + |qs|
      ensures !IsIdentifier(cmdargs, cmd[k])
    {
      assert qs[k - key - 1] == k;
    }
    assert |ps| == |qs|;
  }

  /** Resolution by either identifier: writing the alternate identifier
      in place of the identifier, at any position of a command line that
      holds neither elsewhere, resolves to that same position. */
  lemma AlternateIdentifierResolvesAlike(id: string, idAlt: string, pre: CommandLine, rest: CommandLine)
    requires idAlt != "" && id != idAlt
    requires id !in pre && idAlt !in pre && id !in rest && idAlt !in rest
    ensures FindArgPosition(pre + [id] + rest, id, idAlt) == |pre|
    ensures FindArgPosition(pre + [idAlt] + rest, id, idAlt) == |pre|
  {
    var withId, withAlt := pre + [id] + rest, pre + [idAlt] + rest;
    assert withId[|pre|] == id;
    assert withAlt[|pre|] == idAlt;
    assert forall i | 0 <= i < |pre| :: withId[i] == pre[i] && withAlt[i] == pre[i];
    assert forall i | |pre| < i < |withAlt| :: withAlt[i] == rest[i - |pre| - 1];
  }

  // The cases test/test_algorithm.cpp fixes.

  /** FindArgByInvalidID: an empty registry holds nothing. */
  lemma FindArgInEmptyRegistry(name: string)
    ensures FindArg([], name) == 0
  {
  }

  /** FindArgByValidID and FindArgByValidAlternativeID. */
  lemma FindArgByEitherIdentifier()
    ensures FindArg([Argument("-t", "", "", 0)], "-t") == 0
    ensures FindArg([Argument("-t", "--time", "", 0)], "--time") == 0
  {
  }

  /** FindArgByInvalidIDs: a name no descriptor carries is not found. */
  lemma FindArgByInvalidIdentifiers()
    ensures FindArg([Argument("-f", "--frozen", "", 2)], "--time") == 1
  {
  }

  /** FindArgPositionWithEmptyCMD. */
  lemma FindArgPositionInEmptyCommandLine(id: string, idAlt: string)
    ensures FindArgPosition([], id, idAlt) == 0
  {
  }

  /** FindArgPositionByValidID, generalised: an identifier in front is
      found at position 0. */
  lemma FindArgPositionAtFront(cmd: CommandLine, id: string, idAlt: string)
    requires |cmd| > 0 && cmd[0] == id
    ensures FindArgPosition(cmd, id, idAlt) == 0
  {
  }

  /** FindArgPositionByInvalidID. */
  lemma FindArgPositionOfAbsentIdentifiers()
    ensures FindArgPosition(["-t", "3", "-f", "5"], "-y", "--yes") == 4
  {
  }

  /** GetOptionPositions: on `-t 3 6 20 -f 5` the run after `-t` is
      positions 1, 2 and 3, and stops at the token "-f" even though the
      position registered for "-f" is 5. */
  lemma GetOptionPositionsStopsAtIdentifier()
    ensures OptionPositions(["-t", "3", "6", "20", "-f", "5"], 0,
                            [Argument("-t", "", "", 0), Argument("-f", "", "", 5)]) == [1, 2, 3]
  {
    var cmd: CommandLine := ["-t", "3", "6", "20", "-f", "5"];
    var reg := [Argument("-t", "", "", 0), Argument("-f", "", "", 5)];
    assert !IsIdentifier(reg, cmd[1]) && !IsIdentifier(reg, cmd[2]) && !IsIdentifier(reg, cmd[3]);
    assert IsIdentifier(reg, cmd[4]);
    OptionPositionsUnique(cmd, 0, reg, [1, 2, 3]);
  }
}
