/** The TerminalUI class: the state the FTXUI components are bound to, and
    the submit handler of its transmitter pane. */
module TerminalUi {
  import opened TerminalState

  class TerminalUI {
    // outer (left/right) and inner (top/bottom) split sizes and bounds
    var lrSize: int
    var lrMin: int
    var lrMax: int
    var tbSize: int
    var tbMin: int
    var tbMax: int

    var inputText: string
    var receivedMessages: seq<string>
    var transmittedMessages: seq<string>

    // configuration menu entries and selections
    var entriesBaudrate: seq<string>
    var entriesParity: seq<string>
    var entriesStopbits: seq<string>
    var entriesDatabits: seq<string>
    var selectedBaudrate: int
    var selectedParity: int
    var selectedStopbits: int
    var selectedDatabits: int

    /** Each split size lies within its bounds and each selection indexes
        its entry list. */
    ghost predicate Valid()
      reads this
    {
      && lrMin <= lrSize <= lrMax
      && tbMin <= tbSize <= tbMax
      && 0 <= selectedBaudrate < |entriesBaudrate|
      && 0 <= selectedParity < |entriesParity|
      && 0 <= selectedStopbits < |entriesStopbits|
      && 0 <= selectedDatabits < |entriesDatabits|
    }

    /** The part of the state the submit handler reads and writes. */
    function History(): Log
      reads this
    {
      Log(transmittedMessages, receivedMessages, inputText)
    }

    /** The member initialisers of the class: empty histories and input,
        40 in [10, 200] and 10 in [3, 50] for the splits, every selection
        at index 0, which for the baud rate is 9600. */
    constructor ()
      ensures Valid()
      ensures receivedMessages == [] && transmittedMessages == [] && inputText == ""
      ensures lrSize == 40 && lrMin == 10 && lrMax == 200
      ensures tbSize == 10 && tbMin == 3 && tbMax == 50
      ensures entriesBaudrate == BaudrateEntries
      ensures entriesParity == DummyEntries && entriesStopbits == DummyEntries && entriesDatabits == DummyEntries
      ensures selectedBaudrate == 0 && selectedParity == 0 && selectedStopbits == 0 && selectedDatabits == 0
      ensures entriesBaudrate[selectedBaudrate] == "9600"
    {
      lrSize, lrMin, lrMax := 40, 10, 200;
      tbSize, tbMin, tbMax := 10, 3, 50;
      inputText := "";
      receivedMessages := [];
      transmittedMessages := [];
      entriesBaudrate := BaudrateEntries;
      entriesParity := DummyEntries;
      entriesStopbits := DummyEntries;
      entriesDatabits := DummyEntries;
      selectedBaudrate, selectedParity, selectedStopbits, selectedDatabits := 0, 0, 0, 0;
    }

    /** The CatchEvent handler of InputWithScrollableHistory. */
    method OnInputEvent(event: Event) returns (handled: bool)
      requires Valid()
      modifies this`transmittedMessages, this`receivedMessages, this`inputText
      ensures Valid()
      ensures Outcome(History(), handled) == Submit(old(History()), event)
    {
      if event == Return && inputText != "" {
        transmittedMessages := transmittedMessages + [inputText];
        receivedMessages := receivedMessages + [inputText];
        inputText := "";
        return true;
      }
      return false;
    }
  }
}
