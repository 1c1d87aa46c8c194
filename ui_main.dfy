/** The older front end, on file- and function-level statics: the same
    submit handler over global histories, and a configuration menu whose six
    dropdowns write through four shared selection indices. */
module UiMain {
  import opened TerminalState

  /** The menu's dropdowns, by title. */
  datatype Dropdown = ComPort | Baudrate | Parity | StopBits | DataBits | Connect

  /** The static selection indices the dropdowns are bound to. */
  datatype Slot = Selected1 | Selected2 | Selected3 | Selected4

  /** The static entry lists the dropdowns show. */
  datatype EntryList = Entries | EntriesBaudrate

  /** Which index each dropdown writes: Parity and Data bits both get
      selected_3, Stop bits and Connect both get selected_4. */
  function SlotOf(d: Dropdown): Slot {
    match d
    case ComPort => Selected1
    case Baudrate => Selected2
    case Parity => Selected3
    case StopBits => Selected4
    case DataBits => Selected3
    case Connect => Selected4
  }

  /** Which list each dropdown shows: all but the baud rate show `entries`. */
  function ListOf(d: Dropdown): EntryList {
    if d == Baudrate then EntriesBaudrate else Entries
  }

  /** Two different dropdowns share an index exactly when they are Parity
      and Data bits, or Stop bits and Connect. */
  lemma SharedSlots(d1: Dropdown, d2: Dropdown)
    ensures d1 != d2 && SlotOf(d1) == SlotOf(d2) <==>
      {d1, d2} == {Parity, DataBits} || {d1, d2} == {StopBits, Connect}
  {
  }

  /** Dropdowns that share an index also share their entry list, so the
      aliasing never leaves an index outside the list it is shown against. */
  lemma AliasesShareEntries(d1: Dropdown, d2: Dropdown)
    requires SlotOf(d1) == SlotOf(d2)
    ensures ListOf(d1) == ListOf(d2)
  {
  }

  /** The statics of the older front end. */
  class Globals {
    var receivedMessages: seq<string>
    var transmittedMessages: seq<string>
    var inputText: string

    var entriesBaudrate: seq<string>
    var entriesParity: seq<string>
    var entriesStopBits: seq<string>
    var entriesDataBits: seq<string>
    var entries: seq<string>
    var selected1: int
    var selected2: int
    var selected3: int
    var selected4: int

    /** The index a dropdown shows and writes. */
    function Selection(d: Dropdown): int
      reads this
    {
      match SlotOf(d)
      case Selected1 => selected1
      case Selected2 => selected2
      case Selected3 => selected3
      case Selected4 => selected4
    }

    /** The entries a dropdown shows. */
    function EntriesOf(d: Dropdown): seq<string>
      reads this
    {
      match ListOf(d)
      case Entries => entries
      case EntriesBaudrate => entriesBaudrate
    }

    /** Every dropdown's index lies within the list it shows. */
    ghost predicate Valid()
      reads this
    {
      forall d :: 0 <= Selection(d) < |EntriesOf(d)|
    }

    function History(): Log
      reads this
    {
      Log(transmittedMessages, receivedMessages, inputText)
    }

    /** Static initialisation: empty histories and input, every index 0,
        which for the baud rate is 9600. */
    constructor ()
      ensures Valid()
      ensures receivedMessages == [] && transmittedMessages == [] && inputText == ""
      ensures entriesBaudrate == BaudrateEntries && entries == DummyEntries
      ensures entriesParity == DummyEntries && entriesStopBits == DummyEntries && entriesDataBits == DummyEntries
      ensures forall d :: Selection(d) == 0
      ensures EntriesOf(Baudrate)[Selection(Baudrate)] == "9600"
    {
      receivedMessages := [];
      transmittedMessages := [];
      inputText := "";
      entriesBaudrate := BaudrateEntries;
      entriesParity := DummyEntries;
      entriesStopBits := DummyEntries;
      entriesDataBits := DummyEntries;
      entries := DummyEntries;
      selected1, selected2, selected3, selected4 := 0, 0, 0, 0;
    }

    /** The CatchEvent handler of InputWithScrollableHistory, on the globals. */
    method OnInputEvent(event: Event) returns (handled: bool)
      requires Valid()
      modifies this`transmittedMessages, this`receivedMessages, this`inputText
      ensures Valid()
      ensures Outcome(History(), handled) == Submit(old(History()), event)
    {
      if event == Return && inputText != "" {
        transmittedMessages := transmittedMessages + [inputText];
        receivedMessages := receivedMessages + [inputText];
        inputText := "";
        forall d ensures 0 <= Selection(d) < |EntriesOf(d)| {
          assert Selection(d) == old(Selection(d)) && EntriesOf(d) == old(EntriesOf(d));
        }
        return true;
      }
      return false;
    }

    /** A dropdown picks one of its entries: the write goes to its static
        index, so its partner's selection changes with it and every other
        dropdown's stays. */
    method Choose(d: Dropdown, index: int)
      requires Valid()
      requires 0 <= index < |EntriesOf(d)|
      modifies this`selected1, this`selected2, this`selected3, this`selected4
      ensures Valid()
      ensures forall d' :: Selection(d') == if SlotOf(d') == SlotOf(d) then index else old(Selection(d'))
    {
      match SlotOf(d) {
        case Selected1 => selected1 := index;
        case Selected2 => selected2 := index;
        case Selected3 => selected3 := index;
        case Selected4 => selected4 := index;
      }
      forall d' ensures 0 <= Selection(d') < |EntriesOf(d')| {
        if SlotOf(d') == SlotOf(d) {
          AliasesShareEntries(d, d');
        } else {
          assert Selection(d') == old(Selection(d'));
        }
      }
    }
  }
}
