/**
 * The dialogue text box: it walks through the messages of a dialogue,
 * revealing each one character by character, lets one key press complete
 * the line and a second press move to the next message, and closes when
 * the dialogue is exhausted.
 */
module TextBoxUi {

  /** A command the box knows by name (the debug command, or another). */
  datatype Command = DebugCommand | OtherCommand(id: nat)

  /** The box's observable state. */
  datatype Box = Box(
    dialogue: seq<string>,
    index: int,
    message: string,
    subMessage: string,
    subMessageIndex: int,
    isOpen: bool,
    skip: bool)

  /** The message index never passes the end of the dialogue. */
  predicate Inv(b: Box)
  {
    0 <= b.index <= |b.dialogue| && b.subMessageIndex >= 0
  }

  /** Closing clears the message and rewinds the dialogue. */
  function Closed(b: Box): Box
  {
    b.(isOpen := false, message := "", index := 0)
  }

  /** Whether a reveal step would take a prefix longer than the message (and throw). */
  predicate RevealFails(b: Box)
  {
    !(b.skip || |b.message| - 1 == b.subMessageIndex) && b.isOpen && !(0 <= b.subMessageIndex <= |b.message|)
  }

  /**
   * One reveal step. When skipping, or at the last character, the whole
   * message shows and skipping is set; otherwise an open box shows one
   * character more than before, and a closed box stays as it is.
   */
  function Revealed(b: Box): Box
    requires !RevealFails(b)
  {
    if b.skip || |b.message| - 1 == b.subMessageIndex then
      b.(subMessageIndex := |b.message|, skip := true, subMessage := b.message)
    else if b.isOpen then
      b.(subMessage := b.message[..b.subMessageIndex], subMessageIndex := b.subMessageIndex + 1)
    else b
  }

  /**
   * Clears skipping and the reveal, then starts revealing the next message
   * of the dialogue if there is one, and closes the box if not.
   */
  function Advanced(b: Box): (r: Box)
  {
    var c := b.(skip := false, subMessageIndex := 0);
    if 0 <= c.index < |c.dialogue| then
      var d := c.(message := c.dialogue[c.index]);
      Revealed(d).(index := d.index + 1)
    else Closed(c)
  }

  function Opened(b: Box): Box
  {
    Advanced(b.(isOpen := true))
  }

  function Toggled(b: Box): Box
  {
    if b.isOpen then Closed(b) else Opened(b)
  }

  /** A key press: the first completes the line, a second moves on. */
  function Skipped(b: Box): Box
  {
    if b.skip then Advanced(b) else b.(skip := true)
  }

  function WithDialogue(b: Box, dialogue: seq<string>): Box
  {
    Opened(b.(dialogue := dialogue, index := 0, subMessageIndex := 0))
  }

  /** The state the fields start in, before the constructor sets the opening dialogue. */
  const Initial := Box([], 0, "", "", 0, false, false)

  /** What the box can be asked to do. */
  datatype Op = OpenOp | CloseOp | ToggleOp | EscapeOp | NextOp | TickOp | SkipOp | DialogueOp(dialogue: seq<string>)

  /** The box after one operation; a reveal step that would throw leaves it unchanged. */
  function Apply(b: Box, op: Op): Box
  {
    match op
    case OpenOp => Opened(b)
    case CloseOp => Closed(b)
    case ToggleOp => Toggled(b)
    case EscapeOp => Closed(b)
    case NextOp => Advanced(b)
    case TickOp => if RevealFails(b) then b else Revealed(b)
    case SkipOp => Skipped(b)
    case DialogueOp(d) => WithDialogue(b, d)
  }

  function Run(b: Box, ops: seq<Op>): Box
    decreases ops
  {
    if ops == [] then b else Run(Apply(b, ops[0]), ops[1..])
  }

  /** Every operation keeps the message index within the dialogue. */
  lemma ApplyKeepsInv(b: Box, op: Op)
    requires Inv(b)
    ensures Inv(Apply(b, op))
  {
  }

  /** So does any sequence of them. */
  lemma {:induction false} RunKeepsInv(b: Box, ops: seq<Op>)
    requires Inv(b)
    ensures Inv(Run(b, ops))
    decreases ops
  {
    if ops != [] {
      ApplyKeepsInv(b, ops[0]);
      RunKeepsInv(Apply(b, ops[0]), ops[1..]);
    }
  }

  /** Closing and reopening restarts the dialogue at its first message. */
  lemma ReopenRestarts(b: Box)
    requires |b.dialogue| > 0
    ensures Opened(Closed(b)).isOpen && Opened(Closed(b)).message == b.dialogue[0] && Opened(Closed(b)).index == 1
  {
  }

  /** Exhausting the dialogue closes the box and rewinds it. */
  lemma NextAtEndCloses(b: Box)
    requires Inv(b) && b.index == |b.dialogue|
    ensures !Advanced(b).isOpen && Advanced(b).index == 0 && Advanced(b).message == ""
  {
  }

  /** n reveal steps. */
  function Ticks(b: Box, n: nat): Box
    decreases n
  {
    if n == 0 || RevealFails(b) then b else Ticks(Revealed(b), n - 1)
  }

  /**
   * Once a message of length L >= 1 has started on an open box (and no key
   * is pressed), L - 1 reveal steps after the first show it in full and set
   * skipping, so the next press moves on.
   */
  lemma {:induction false} RevealCompletes(b: Box)
    requires b.isOpen && !b.skip && |b.message| >= 1 && b.subMessageIndex == 0
    ensures var r := Ticks(b, |b.message|);
            r.subMessage == r.message == b.message && r.skip && r.subMessageIndex == |b.message|
  {
    RevealFrom(b, |b.message|);
  }

  lemma {:induction false} RevealFrom(b: Box, n: nat)
    requires b.isOpen && !b.skip && |b.message| >= 1
    requires 0 <= b.subMessageIndex < |b.message| && b.subMessageIndex + n == |b.message|
    ensures var r := Ticks(b, n);
            r.subMessage == r.message == b.message && r.skip && r.subMessageIndex == |b.message|
              && r.dialogue == b.dialogue && r.index == b.index && r.isOpen
    decreases n
  {
    if b.subMessageIndex == |b.message| - 1 {
      assert Ticks(b, n) == Ticks(Revealed(b), 0);
    } else {
      RevealFrom(Revealed(b), n - 1);
    }
  }

  /** Two presses on a line still being revealed move to the next message. */
  lemma TwoPressesAdvance(b: Box)
    requires Inv(b) && b.isOpen && !b.skip
    ensures Skipped(Skipped(b)) == Advanced(b)
  {
  }

  class TextBox {
    var commands: map<string, Command>
    var dialogue: seq<string>
    var index: int
    var message: string
    var subMessage: string
    var subMessageIndex: int
    var isOpen: bool
    var skip: bool

    function State(): Box
      reads this
    {
      Box(dialogue, index, message, subMessage, subMessageIndex, isOpen, skip)
    }

    ghost predicate Valid()
      reads this
    {
      Inv(State())
    }

    /** Registers the debug command, then opens on the opening dialogue. */
    constructor (commands: map<string, Command>, opening: seq<string>)
      ensures Valid()
      ensures this.commands == commands["debug" := DebugCommand]
      ensures State() == WithDialogue(Initial, opening)
      ensures |opening| > 0 ==> isOpen && message == opening[0] && index == 1
      ensures |opening| == 0 ==> !isOpen && index == 0
    {
      this.commands := commands;
      dialogue, index, message, subMessage, subMessageIndex, isOpen, skip := [], 0, "", "", 0, false, false;
      new;
      AddCommand("debug", DebugCommand);
      SetDialogueTo(opening);
    }

    method SetOpen()
      requires Valid()
      modifies this
      ensures Valid() && State() == Opened(old(State())) && commands == old(commands)
    {
      isOpen := true;
      NextMessage();
    }

    method ToggleIsOpen()
      requires Valid()
      modifies this
      ensures Valid() && State() == Toggled(old(State())) && commands == old(commands)
    {
      if isOpen {
        SetClosed();
      } else {
        SetOpen();
      }
    }

    method SetClosed()
      requires Valid()
      modifies this
      ensures Valid() && State() == Closed(old(State())) && commands == old(commands)
    {
      isOpen := false;
      message := "";
      index := 0;
    }

    method HandleEscape()
      requires Valid()
      modifies this
      ensures Valid() && State() == Closed(old(State())) && commands == old(commands)
    {
      SetClosed();
    }

    method NextMessage()
      requires Valid()
      modifies this
      ensures Valid() && State() == Advanced(old(State())) && commands == old(commands)
    {
      skip := false;
      subMessageIndex := 0;
      if index < |dialogue| {
        message := dialogue[index];
        var thrown := SetSubMessage();
        index := index + 1;
      } else {
        SetClosed();
      }
    }

    /**
     * One reveal step; the game repeats it every 20 ms. `thrown` reports
     * the prefix running past the message (an empty message, one step
     * after it started), with nothing changed.
     */
    method SetSubMessage() returns (thrown: bool)
      requires Valid()
      modifies this
      ensures Valid() && commands == old(commands)
      ensures thrown == RevealFails(old(State()))
      ensures State() == if thrown then old(State()) else Revealed(old(State()))
    {
      thrown := false;
      if skip || |message| - 1 == subMessageIndex {
        subMessageIndex := |message|;
        skip := true;
        subMessage := message;
      } else if isOpen {
        if !(0 <= subMessageIndex <= |message|) {
          return true;
        }
        subMessage := message[..subMessageIndex];
        subMessageIndex := subMessageIndex + 1;
      }
    }

    method SetSkip()
      requires Valid()
      modifies this
      ensures Valid() && State() == Skipped(old(State())) && commands == old(commands)
    {
      if skip {
        NextMessage();
      } else {
        skip := true;
      }
    }

    /** Stores the command, replacing any already known by that name. */
    method AddCommand(name: string, command: Command)
      modifies this`commands
      ensures commands == old(commands)[name := command]
    {
      commands := commands[name := command];
    }

    method SetDialogueTo(d: seq<string>)
      requires subMessageIndex >= 0
      modifies this
      ensures Valid() && State() == WithDialogue(old(State()), d) && commands == old(commands)
    {
      dialogue := d;
      index := 0;
      subMessageIndex := 0;
      SetOpen();
    }
  }
}
