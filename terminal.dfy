/**
 * The terminal session: the scripted welcome sequence, the character by
 * character reveal of multi-line replies, command submission with its
 * history, echo line and reply routing, and arrow-key history navigation.
 *
 * Each timer callback and each browser event is one method of the
 * `Terminal` class. The reveal loop runs to completion inside one call:
 * while it runs the input field is disabled, so no other event of the
 * session can reach the state in between.
 */
module TerminalSession {
  import opened TextUtil
  import opened TerminalTypes
  import opened Commands

  /** The prompt that precedes every echoed command. */
  const Prompt: string := "gatere@portfolio:~$ "

  /** The two lines of the commands guide, then the six welcome lines;
      the welcome interval appends them in this order. */
  const WelcomeMessages: seq<TerminalLine> := [
    TerminalLine(Info, "help | about | projects | skills | experience | contact | education | certifications | leadership | sudo | clear"),
    TerminalLine(System, ""),
    TerminalLine(Command, "gatere@portfolio:~$ welcome"),
    TerminalLine(Output, "Hi, I'm Mark Gatere, a Software & AI Engineer."),
    TerminalLine(System, ""),
    TerminalLine(Output, "Welcome to my interactive 'AI powered' portfolio terminal!"),
    TerminalLine(Output, "Type 'help' to see available commands."),
    TerminalLine(System, "")
  ]

  // ---------------------------------------------------------------------
  // History navigation, as functions of the index and the history length
  // ---------------------------------------------------------------------

  /** The index ArrowUp selects: the newest entry when not navigating,
      otherwise one older, stopping at the oldest. */
  function UpIndex(index: int, count: nat): int
    requires count > 0
  {
    if index == -1 then count - 1 else if index - 1 < 0 then 0 else index - 1
  }

  /** The index ArrowDown selects while navigating: one newer, or -1 (not
      navigating) past the newest. */
  function DownIndex(index: int, count: nat): int {
    if index + 1 >= count then -1 else index + 1
  }

  /** The index after `k` presses of ArrowUp. */
  function UpPresses(index: int, count: nat, k: nat): int
    requires count > 0
    decreases k
  {
    if k == 0 then index else UpPresses(UpIndex(index, count), count, k - 1)
  }

  /** What the reveal leaves in the transcript: one line holding the whole
      message, or nothing for an empty message. */
  function Revealed(lines: seq<TerminalLine>, message: string, kind: LineType): seq<TerminalLine> {
    if message == [] then lines else lines + [TerminalLine(kind, message)]
  }

  /** Whether a reply is the clear-screen sentinel: an object whose content
      is `CLEAR_SCREEN`, whatever its kind. */
  predicate IsClearScreen(response: Response) {
    response.Line? && response.line.content == ClearScreenSentinel
  }

  /** The transcript once a reply has been routed: emptied for the
      sentinel, a plain string revealed as output, a multi-line object
      revealed with its own kind, any other object appended whole. */
  function Routed(lines: seq<TerminalLine>, response: Response): seq<TerminalLine> {
    if IsClearScreen(response) then []
    else if response.Text? then Revealed(lines, response.text, Output)
    else if '\n' in response.line.content then Revealed(lines, response.line.content, response.line.kind)
    else lines + [response.line]
  }

  class Terminal {
    var lines: seq<TerminalLine>
    var currentInput: string
    var isTyping: bool
    var commandHistory: seq<string>
    var historyIndex: int
    var showInput: bool
    /** The welcome interval's message counter. */
    var welcomeIndex: nat
    /** Whether the welcome interval has been cleared. */
    var welcomeDone: bool
    /** The arguments of the `onCommand` calls made so far, oldest first. */
    var notified: seq<string>

    /** The history index is -1 or a valid index; the welcome counter never
        passes the script; the input shows only once the script is done. */
    predicate Valid()
      reads this
    {
      && -1 <= historyIndex < |commandHistory|
      && welcomeIndex <= |WelcomeMessages|
      && (welcomeDone ==> welcomeIndex == |WelcomeMessages|)
      && (showInput ==> welcomeDone)
    }

    /** The state on mount. */
    constructor ()
      ensures Valid()
      ensures lines == [] && currentInput == "" && !isTyping
      ensures commandHistory == [] && historyIndex == -1
      ensures !showInput && welcomeIndex == 0 && !welcomeDone && notified == []
    {
      lines := [];
      currentInput := "";
      isTyping := false;
      commandHistory := [];
      historyIndex := -1;
      showInput := false;
      welcomeIndex := 0;
      welcomeDone := false;
      notified := [];
    }

    // -------------------------------------------------------------------
    // Timers
    // -------------------------------------------------------------------

    /** One firing of the welcome interval: the next scripted line, or,
        once all are shown, the interval is cleared. A cleared interval
        fires no more. */
    method WelcomeTick()
      requires Valid()
      modifies this
      ensures Valid()
      ensures old(welcomeDone) ==> lines == old(lines) && welcomeDone
      ensures !old(welcomeDone) && old(welcomeIndex) < |WelcomeMessages| ==>
                lines == old(lines) + [WelcomeMessages[old(welcomeIndex)]]
                && welcomeIndex == old(welcomeIndex) + 1 && !welcomeDone
      ensures !old(welcomeDone) && old(welcomeIndex) == |WelcomeMessages| ==>
                lines == old(lines) && welcomeDone
      ensures welcomeIndex >= old(welcomeIndex)
      ensures showInput == old(showInput) && currentInput == old(currentInput)
      ensures isTyping == old(isTyping) && notified == old(notified)
      ensures commandHistory == old(commandHistory) && historyIndex == old(historyIndex)
    {
      if welcomeDone {
        return;
      }
      if welcomeIndex < |WelcomeMessages| {
        lines := lines + [WelcomeMessages[welcomeIndex]];
        welcomeIndex := welcomeIndex + 1;
      } else {
        welcomeDone := true;
      }
    }

    /** The timeout set when the welcome interval is cleared: the input
        appears. */
    method ShowInputFires()
      requires Valid()
      modifies this
      ensures Valid()
      ensures showInput == (old(showInput) || welcomeDone)
      ensures lines == old(lines) && currentInput == old(currentInput) && isTyping == old(isTyping)
      ensures commandHistory == old(commandHistory) && historyIndex == old(historyIndex)
      ensures welcomeIndex == old(welcomeIndex) && welcomeDone == old(welcomeDone)
      ensures notified == old(notified)
    {
      if welcomeDone {
        showInput := true;
      }
    }

    // -------------------------------------------------------------------
    // The reveal
    // -------------------------------------------------------------------

    /** `typeMessage`: reveals `message` one character at a time. The first
        character pushes a new line; each later one replaces the last line,
        when it has the same kind, with the text so far. `shown` records
        what the last line held after each character. */
    method TypeMessage(message: string, kind: LineType) returns (ghost shown: seq<string>)
      modifies this
      ensures lines == Revealed(old(lines), message, kind)
      ensures |shown| == |message|
      ensures forall j :: 0 <= j < |shown| ==> shown[j] == message[..j + 1]
      ensures !isTyping
      ensures currentInput == old(currentInput) && showInput == old(showInput)
      ensures commandHistory == old(commandHistory) && historyIndex == old(historyIndex)
      ensures welcomeIndex == old(welcomeIndex) && welcomeDone == old(welcomeDone)
      ensures notified == old(notified)
    {
      isTyping := true;
      var currentText := "";
      var i := 0;
      shown := [];
      while i < |message|
        invariant 0 <= i <= |message|
        invariant isTyping
        invariant currentText == message[..i]
        invariant i == 0 ==> lines == old(lines)
        invariant i > 0 ==> lines == old(lines) + [TerminalLine(kind, currentText)]
        invariant |shown| == i
        invariant forall j :: 0 <= j < i ==> shown[j] == message[..j + 1]
        invariant currentInput == old(currentInput) && showInput == old(showInput)
        invariant commandHistory == old(commandHistory) && historyIndex == old(historyIndex)
        invariant welcomeIndex == old(welcomeIndex) && welcomeDone == old(welcomeDone)
        invariant notified == old(notified)
      {
        currentText := currentText + [message[i]];
        var last := |lines| - 1;
        if last >= 0 && lines[last].kind == kind && i > 0 {
          lines := lines[last := TerminalLine(kind, currentText)];
        } else if i == 0 {
          lines := lines + [TerminalLine(kind, currentText)];
        }
        assert message[..i + 1] == currentText;
        shown := shown + [lines[|lines| - 1].content];
        i := i + 1;
      }
      assert i > 0 ==> message[..i] == message;
      isTyping := false;
    }

    // -------------------------------------------------------------------
    // Commands
    // -------------------------------------------------------------------

    /** `handleCommand`: a blank command does nothing; any other is
        recorded in the history, echoed after the prompt, answered by the
        dispatcher and routed; the host is told of it unless the screen
        was cleared. */
    method HandleCommand(command: string, now: string)
      requires Valid()
      modifies this
      ensures Valid()
      ensures Trim(command) == "" ==>
                lines == old(lines) && commandHistory == old(commandHistory)
                && historyIndex == old(historyIndex) && notified == old(notified)
                && isTyping == old(isTyping)
      ensures Trim(command) != "" ==>
                && commandHistory == old(commandHistory) + [Trim(command)]
                && historyIndex == -1
                && lines == Routed(old(lines) + [TerminalLine(Command, Prompt + Trim(command))],
                                   CommandHandler(Trim(command), now))
                && notified == old(notified)
                               + (if IsClearScreen(CommandHandler(Trim(command), now)) then [] else [Trim(command)])
      ensures isTyping ==> old(isTyping)
      ensures currentInput == old(currentInput) && showInput == old(showInput)
      ensures welcomeIndex == old(welcomeIndex) && welcomeDone == old(welcomeDone)
    {
      var trimmed := Trim(command);
      if trimmed == "" {
        return;
      }
      EchoCommand(trimmed);
      RouteResponse(trimmed, CommandHandler(trimmed, now));
    }

    /** The first half of `handleCommand`: the history entry, the index
        reset and the echo line. */
    method EchoCommand(trimmed: string)
      requires Valid()
      modifies this
      ensures Valid()
      ensures commandHistory == old(commandHistory) + [trimmed] && historyIndex == -1
      ensures lines == old(lines) + [TerminalLine(Command, Prompt + trimmed)]
      ensures currentInput == old(currentInput) && showInput == old(showInput)
      ensures isTyping == old(isTyping) && notified == old(notified)
      ensures welcomeIndex == old(welcomeIndex) && welcomeDone == old(welcomeDone)
    {
      commandHistory := commandHistory + [trimmed];
      historyIndex := -1;
      lines := lines + [TerminalLine(Command, Prompt + trimmed)];
    }

    /** The second half of `handleCommand`, once the dispatcher has
        answered `trimmed` with `response`. */
    method RouteResponse(trimmed: string, response: Response)
      requires Valid()
      modifies this
      ensures Valid()
      ensures lines == Routed(old(lines), response)
      ensures notified == old(notified) + (if IsClearScreen(response) then [] else [trimmed])
      ensures isTyping ==> old(isTyping)
      ensures currentInput == old(currentInput) && showInput == old(showInput)
      ensures commandHistory == old(commandHistory) && historyIndex == old(historyIndex)
      ensures welcomeIndex == old(welcomeIndex) && welcomeDone == old(welcomeDone)
    {
      if IsClearScreen(response) {
        lines := [];
        return;
      }
      if response.Text? {
        ghost var shown := TypeMessage(response.text, Output);
      } else if '\n' in response.line.content {
        ghost var shown := TypeMessage(response.line.content, response.line.kind);
      } else {
        lines := lines + [response.line];
      }
      notified := notified + [trimmed];
    }

    /** `handleSubmit`: ignored while a reply is being revealed or before
        the input is shown; otherwise handles the current input and clears
        it. */
    method Submit(now: string)
      requires Valid()
      modifies this
      ensures Valid()
      ensures (old(isTyping) || !old(showInput)) ==>
                lines == old(lines) && currentInput == old(currentInput)
                && commandHistory == old(commandHistory) && historyIndex == old(historyIndex)
                && notified == old(notified) && isTyping == old(isTyping)
      ensures !old(isTyping) && old(showInput) ==>
                currentInput == ""
                && (Trim(old(currentInput)) == "" ==>
                      lines == old(lines) && commandHistory == old(commandHistory)
                      && historyIndex == old(historyIndex) && notified == old(notified))
                && (Trim(old(currentInput)) != "" ==>
                      && commandHistory == old(commandHistory) + [Trim(old(currentInput))]
                      && historyIndex == -1
                      && lines == Routed(old(lines) + [TerminalLine(Command, Prompt + Trim(old(currentInput)))],
                                         CommandHandler(Trim(old(currentInput)), now))
                      && notified == old(notified)
                                     + (if IsClearScreen(CommandHandler(Trim(old(currentInput)), now))
                                        then [] else [Trim(old(currentInput))]))
                && !isTyping
      ensures showInput == old(showInput)
      ensures welcomeIndex == old(welcomeIndex) && welcomeDone == old(welcomeDone)
    {
      if isTyping || !showInput {
        return;
      }
      HandleCommand(currentInput, now);
      currentInput := "";
    }

    // -------------------------------------------------------------------
    // The input field
    // -------------------------------------------------------------------

    /** `onChange` of the input field, which is disabled while a reply is
        revealed and absent before the input is shown. */
    method SetInput(text: string)
      requires Valid()
      modifies this
      ensures Valid()
      ensures currentInput == if showInput && !isTyping then text else old(currentInput)
      ensures lines == old(lines) && isTyping == old(isTyping) && showInput == old(showInput)
      ensures commandHistory == old(commandHistory) && historyIndex == old(historyIndex)
      ensures welcomeIndex == old(welcomeIndex) && welcomeDone == old(welcomeDone)
      ensures notified == old(notified)
    {
      if showInput && !isTyping {
        currentInput := text;
      }
    }

    /** `handleKeyDown`: ArrowUp and ArrowDown walk the history; every
        other key (Tab included) leaves the state alone. */
    method KeyDown(key: string)
      requires Valid()
      modifies this
      ensures Valid()
      ensures commandHistory == old(commandHistory)
      ensures (!showInput || isTyping || (key != "ArrowUp" && key != "ArrowDown")) ==>
                historyIndex == old(historyIndex) && currentInput == old(currentInput)
      ensures showInput && !isTyping && key == "ArrowUp" ==>
                if |commandHistory| == 0 then
                  historyIndex == old(historyIndex) && currentInput == old(currentInput)
                else
                  historyIndex == UpIndex(old(historyIndex), |commandHistory|)
                  && currentInput == commandHistory[historyIndex]
      ensures showInput && !isTyping && key == "ArrowDown" ==>
                if old(historyIndex) == -1 then
                  historyIndex == -1 && currentInput == old(currentInput)
                else
                  historyIndex == DownIndex(old(historyIndex), |commandHistory|)
                  && currentInput == (if historyIndex == -1 then "" else commandHistory[historyIndex])
      ensures lines == old(lines) && isTyping == old(isTyping) && showInput == old(showInput)
      ensures welcomeIndex == old(welcomeIndex) && welcomeDone == old(welcomeDone)
      ensures notified == old(notified)
    {
      if !showInput || isTyping {
        return;
      }
      if key == "ArrowUp" {
        if |commandHistory| > 0 {
          var newIndex := if historyIndex == -1 then |commandHistory| - 1
                          else if historyIndex - 1 < 0 then 0 else historyIndex - 1;
          historyIndex := newIndex;
          currentInput := commandHistory[newIndex];
        }
      } else if key == "ArrowDown" {
        if historyIndex != -1 {
          var newIndex := historyIndex + 1;
          if newIndex >= |commandHistory| {
            historyIndex := -1;
            currentInput := "";
          } else {
            historyIndex := newIndex;
            currentInput := commandHistory[newIndex];
          }
        }
      }
    }
  }
}
