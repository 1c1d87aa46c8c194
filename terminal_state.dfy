/** What the two terminal front ends share: the message-history submit rule
    they attach to their text input (on Return with non-empty input, the
    input is appended to the transmitted history and, as a local echo, to the
    received history, and the input is cleared) and the dropdown entry lists
    of the configuration menu. */
module TerminalState {

  /** The baud-rate dropdown's entries, in menu order. */
  const BaudrateEntries: seq<string> :=
    ["9600", "4800", "19200", "38400", "57600", "115200", "230400", "460800", "921600"]

  /** The placeholder list every other dropdown shows. */
  const DummyEntries: seq<string> := ["dummy"]

  /** Index 0, the default selection, is 9600; the list holds nine rates. */
  lemma DefaultBaudrate()
    ensures |BaudrateEntries| == 9 && BaudrateEntries[0] == "9600"
    ensures BaudrateEntries[5] == "115200"
    ensures |DummyEntries| == 1
  {
  }

  /** A terminal event as the handler sees it: Return, or any other event
      (characters, arrows, mouse), which it does not handle. */
  datatype Event = Return | Other(name: string)

  /** The three pieces of state the handler touches. */
  datatype Log = Log(transmitted: seq<string>, received: seq<string>, input: string)

  /** The state after the handler and whether it consumed the event. */
  datatype Outcome = Outcome(log: Log, handled: bool)

  /** The CatchEvent handler. */
  function Submit(l: Log, e: Event): (r: Outcome)
    ensures r.handled <==> e == Return && l.input != ""
    ensures r.handled ==>
      && |r.log.transmitted| == |l.transmitted| + 1
      && r.log.transmitted[..|l.transmitted|] == l.transmitted
      && r.log.transmitted[|l.transmitted|] == l.input
      && |r.log.received| == |l.received| + 1
      && r.log.received[..|l.received|] == l.received
      && r.log.received[|l.received|] == l.input
      && r.log.input == ""
    ensures !r.handled ==> r.log == l
  {
    if e == Return && l.input != "" then
      Outcome(Log(l.transmitted + [l.input], l.received + [l.input], ""), true)
    else
      Outcome(l, false)
  }

  /** What happens to the state between two handler calls: the input widget
      replaces the input text, or an event reaches the handler. */
  datatype Step = Edit(text: string) | Key(event: Event)

  function Apply(l: Log, s: Step): Log {
    match s
    case Edit(text) => l.(input := text)
    case Key(e) => Submit(l, e).log
  }

  /** The state after a sequence of steps. */
  function Run(l: Log, steps: seq<Step>): Log
    decreases |steps|
  {
    if steps == [] then l else Run(Apply(l, steps[0]), steps[1..])
  }

  /** Both histories are append-only: every earlier entry keeps its position
      and its value. */
  lemma {:induction false} RunAppendOnly(l: Log, steps: seq<Step>)
    ensures l.transmitted <= Run(l, steps).transmitted
    ensures l.received <= Run(l, steps).received
    decreases |steps|
  {
    if steps != [] {
      RunAppendOnly(Apply(l, steps[0]), steps[1..]);
    }
  }

  /** Local echo: the entries a run adds to the received history are exactly
      the entries, in the same order, it adds to the transmitted history. */
  lemma {:induction false} RunEchoes(l: Log, steps: seq<Step>)
    ensures |l.transmitted| <= |Run(l, steps).transmitted|
    ensures |l.received| <= |Run(l, steps).received|
    ensures Run(l, steps).transmitted[|l.transmitted|..] == Run(l, steps).received[|l.received|..]
    decreases |steps|
  {
    if steps != [] {
      var l' := Apply(l, steps[0]);
      var r := Run(l', steps[1..]);
      RunEchoes(l', steps[1..]);
      if steps[0].Key? && Submit(l, steps[0].event).handled {
        RunAppendOnly(l', steps[1..]);
        assert r.transmitted[|l.transmitted|..] == [l.input] + r.transmitted[|l'.transmitted|..] by {
          assert r.transmitted[|l.transmitted|] == l'.transmitted[|l.transmitted|];
        }
        assert r.received[|l.received|..] == [l.input] + r.received[|l'.received|..] by {
          assert r.received[|l.received|] == l'.received[|l.received|];
        }
      }
    }
  }

  /** The histories grow in lockstep: equal lengths stay equal. */
  lemma LockstepLengths(l: Log, steps: seq<Step>)
    requires |l.transmitted| == |l.received|
    ensures |Run(l, steps).transmitted| == |Run(l, steps).received|
  {
    RunEchoes(l, steps);
  }

  /** The guard keeps empty messages out: every entry a run adds is
      non-empty. */
  lemma {:induction false} RunAddsNonEmpty(l: Log, steps: seq<Step>)
    ensures |l.transmitted| <= |Run(l, steps).transmitted|
    ensures forall i :: |l.transmitted| <= i < |Run(l, steps).transmitted| ==> Run(l, steps).transmitted[i] != ""
    decreases |steps|
  {
    if steps != [] {
      var l' := Apply(l, steps[0]);
      RunAddsNonEmpty(l', steps[1..]);
      RunAppendOnly(l', steps[1..]);
      var r := Run(l', steps[1..]);
      assert forall i :: |l.transmitted| <= i < |l'.transmitted| ==> r.transmitted[i] == l'.transmitted[i];
    }
  }

  /** A second Return right after a submit is not handled: the input is
      empty by then, so a message is never sent twice by one keystroke. */
  lemma NoDoubleSubmit(l: Log)
    requires Submit(l, Return).handled
    ensures !Submit(Submit(l, Return).log, Return).handled
  {
  }
}
