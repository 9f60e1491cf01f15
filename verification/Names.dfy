/** Names and arguments built from strings: volume names and port arguments. */
module Names {
  import opened Wrappers
  import opened Text

  /** util.ProcessNameToVolumeName; None stands for the slice-bounds panic. */
  function ProcessNameToVolumeName(name: string): Option<string> {
    var slices := Split(name, '-');
    if |slices| < 2 then None else Some(Join(slices[..|slices| - 2], '-'))
  }

  /** The volume name comes back from v-a-b for any v, dashes included, and dash-free a, b. */
  lemma VolumeNameRecovered(v: string, a: string, b: string)
    requires '-' !in a && '-' !in b
    ensures ProcessNameToVolumeName(v + "-" + a + "-" + b) == Some(v)
  {
    var name := v + "-" + a + "-" + b;
    assert name == (v + "-" + a) + "-" + b;
    SplitAt(v + "-" + a, b, '-');
    SplitAt(v, a, '-');
    SplitPlain(a, '-');
    SplitPlain(b, '-');
    var s := Split(v, '-');
    assert Split(name, '-') == (s + [a]) + [b];
    assert ((s + [a]) + [b])[..|s|] == s;
    JoinSplit(v, '-');
  }

  /** The engine-process pattern of the common library: something, "-e-", no dash after. */
  ghost predicate IsEngineProcess(name: string) {
    exists x, y :: x != "" && x[|x| - 1] != '\n' && '-' !in y && EngineName(x, y) == name
  }

  function EngineName(x: string, y: string): string { x + "-" + "e" + "-" + y }

  lemma {:induction false} NoDashOneSlice(name: string)
    ensures |Split(name, '-')| < 2 <==> '-' !in name
  {
    if name != "" { NoDashOneSlice(name[1..]); }
  }

  /** The function panics exactly on names without a dash, so never on an engine's name,
      which is the only kind the condition check passes to it. */
  lemma PanicsOnlyWithoutDash(name: string)
    ensures ProcessNameToVolumeName(name).None? <==> '-' !in name
    ensures IsEngineProcess(name) ==> ProcessNameToVolumeName(name).Some?
  {
    NoDashOneSlice(name);
    if IsEngineProcess(name) {
      var x, y :| x != "" && '-' !in y && EngineName(x, y) == name;
      VolumeNameRecovered(x, "e", y);
    }
  }

  // ----- port arguments -----

  /** What one port argument adds to the command line. */
  function Piece(arg: string, port: nat): seq<string> { Split(arg + Show(port, 10), ',') }

  /** What allocateProcessPorts appends for the given arguments and first port. */
  function PortArguments(portArgs: seq<string>, first: nat): seq<string> {
    if portArgs == [] then []
    else
      var n := |portArgs| - 1;
      PortArguments(portArgs[..n], first) + Piece(portArgs[n], first + n)
  }

  lemma ArgumentsExtend(portArgs: seq<string>, first: nat, i: nat)
    requires i < |portArgs|
    ensures PortArguments(portArgs[..i + 1], first)
         == PortArguments(portArgs[..i], first) + Split(portArgs[i] + Show(first + i, 10), ',')
  {
    hide Split, Show;
    assert portArgs[..i + 1][..i] == portArgs[..i];
  }

  /** Each argument's pieces are its own comma-separated parts with the port at the end of the last. */
  lemma PieceShape(arg: string, port: nat)
    ensures var p := Split(arg, ','); Piece(arg, port) == p[..|p| - 1] + [p[|p| - 1] + Show(port, 10)]
    ensures Join(Piece(arg, port), ',') == arg + Show(port, 10)
  {
    ParseShow(port, 10);
    SplitAppend(arg, Show(port, 10), ',');
    JoinSplit(arg + Show(port, 10), ',');
  }

  /** Argument i contributes its pieces, in order, with port first + i, right after those of the
      arguments before it; nothing else is added, and nothing at all without arguments. */
  lemma {:induction false} PieceOfArgument(portArgs: seq<string>, first: nat, i: nat) returns (k: nat)
    requires i < |portArgs|
    ensures k + |Piece(portArgs[i], first + i)| <= |PortArguments(portArgs, first)|
    ensures PortArguments(portArgs, first)[k..k + |Piece(portArgs[i], first + i)|] == Piece(portArgs[i], first + i)
    ensures k == |PortArguments(portArgs[..i], first)|
    ensures k + |Piece(portArgs[i], first + i)| == |PortArguments(portArgs[..i + 1], first)|
    ensures PortArguments([], first) == []
  {
    hide Piece;
    assert portArgs[..i + 1][..i] == portArgs[..i];
    var n := |portArgs| - 1;
    var init := PortArguments(portArgs[..n], first);
    if i == n {
      k := |init|;
    } else {
      k := PieceOfArgument(portArgs[..n], first, i);
      assert portArgs[..n][..i] == portArgs[..i];
      var m := |Piece(portArgs[i], first + i)|;
      assert PortArguments(portArgs, first)[k..k + m] == init[k..k + m];
    }
  }

  /** With no more arguments than ports, every argument gets a port of its own inside the range. */
  lemma PortArgumentsFit(portArgs: seq<string>, first: nat, last: nat, count: nat, i: nat, j: nat)
    requires |portArgs| <= count && last == first + count - 1 && i < j < |portArgs|
    ensures first <= first + i < first + j <= last
    ensures Show(first + i, 10) != Show(first + j, 10)
  {
    if Show(first + i, 10) == Show(first + j, 10) { ShowInjective(first + i, first + j, 10); }
  }
}
