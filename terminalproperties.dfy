/**
 * What the terminal session promises: history navigation keeps the index
 * at -1 or in range and ArrowUp and ArrowDown undo each other; a routed
 * reply adds exactly one line and leaves the earlier ones alone (or
 * clears the screen, or adds nothing for an empty plain string); the
 * welcome script shows its eight lines in order before the input appears;
 * and a walk through the history recalls the commands newest first.
 */
module TerminalProperties {
  import opened TextUtil
  import opened TerminalTypes
  import opened Commands
  import opened TerminalSession

  // ---------------------------------------------------------------------
  // History navigation
  // ---------------------------------------------------------------------

  /** Both keys keep the index at -1 or a valid position. */
  lemma NavigationStaysInRange(index: int, count: nat)
    requires -1 <= index < count
    ensures count > 0 ==> 0 <= UpIndex(index, count) < count
    ensures -1 <= DownIndex(index, count) < count
  {
  }

  /** ArrowDown undoes ArrowUp, and from the idle state leaves navigation. */
  lemma DownUndoesUp(index: int, count: nat)
    requires -1 <= index < count && index != 0 && count > 0
    ensures DownIndex(UpIndex(index, count), count) == index
  {
  }

  /** ArrowUp undoes an ArrowDown that stayed inside the history. */
  lemma UpUndoesDown(index: int, count: nat)
    requires 0 <= index && index + 1 < count
    ensures UpIndex(DownIndex(index, count), count) == index
  {
  }

  /** Pressing ArrowUp `k` times from position `index` reaches `index - k`,
      stopping at the oldest entry. */
  lemma {:induction false} UpPressesFrom(index: int, count: nat, k: nat)
    requires 0 <= index < count
    ensures UpPresses(index, count, k) == if index - k < 0 then 0 else index - k
    decreases k
  {
    if k > 0 {
      UpPressesFrom(UpIndex(index, count), count, k - 1);
    }
  }

  /** From the idle state, the `k`-th press of ArrowUp recalls the `k`-th
      newest command, and stays on the oldest after that. */
  lemma UpPressesFromIdle(count: nat, k: nat)
    requires count > 0 && k > 0
    ensures UpPresses(-1, count, k) == if k <= count then count - k else 0
  {
    UpPressesFrom(count - 1, count, k - 1);
  }

  // ---------------------------------------------------------------------
  // Reply routing
  // ---------------------------------------------------------------------

  /** The text a reply carries. */
  function ReplyText(response: Response): string {
    if response.Text? then response.text else response.line.content
  }

  /** The kind of line a reply ends up as: plain strings are output. */
  function ReplyKind(response: Response): LineType {
    if response.Text? then Output else response.line.kind
  }

  /** Apart from the sentinel, which empties the transcript, a reply adds
      exactly one line holding its whole text after the untouched earlier
      lines; only an empty plain string adds nothing. */
  lemma RoutingAddsOneLine(lines: seq<TerminalLine>, response: Response)
    ensures IsClearScreen(response) ==> Routed(lines, response) == []
    ensures !IsClearScreen(response) && ReplyText(response) != "" ==>
              Routed(lines, response) == lines + [TerminalLine(ReplyKind(response), ReplyText(response))]
    ensures !IsClearScreen(response) && ReplyText(response) == "" ==>
              Routed(lines, response) == lines + (if response.Text? then [] else [response.line])
  {
  }

  // ---------------------------------------------------------------------
  // Sessions
  // ---------------------------------------------------------------------

  /** The welcome script from mount: eight ticks show the eight scripted
      lines in order with the input still hidden; the ninth clears the
      interval, and only then can the input appear. */
  method WelcomeScript() returns (shownBefore: bool, lines: seq<TerminalLine>, shownAfter: bool)
    ensures !shownBefore
    ensures lines == WelcomeMessages
    ensures shownAfter
  {
    var t := new Terminal();
    var ticks := 0;
    while ticks < |WelcomeMessages|
      invariant t.Valid()
      invariant 0 <= ticks <= |WelcomeMessages|
      invariant t.welcomeIndex == ticks && !t.welcomeDone && !t.showInput
      invariant t.lines == WelcomeMessages[..ticks]
    {
      t.WelcomeTick();
      ticks := ticks + 1;
    }
    t.ShowInputFires();
    shownBefore := t.showInput;
    lines := t.lines;
    t.WelcomeTick();
    t.ShowInputFires();
    shownAfter := t.showInput;
  }

  /** The rendered transcript after `ticks` welcome ticks when each
      `setLines` updater runs only at the next render, after the `index++`
      that follows it: tick `i` then reads entry `i + 1`, and the last tick
      reads past the end, an `undefined` that the render's
      `filter(line => line)` drops. */
  function DeferredWelcomeLines(ticks: nat): seq<TerminalLine>
    requires ticks <= |WelcomeMessages|
  {
    if ticks == 0 then []
    else DeferredWelcomeLines(ticks - 1)
         + (if ticks < |WelcomeMessages| then [WelcomeMessages[ticks]] else [])
  }

  lemma {:induction false} DeferredWelcomePrefix(ticks: nat)
    requires 0 < ticks < |WelcomeMessages|
    ensures DeferredWelcomeLines(ticks) == WelcomeMessages[1..ticks + 1]
  {
    if ticks > 1 {
      DeferredWelcomePrefix(ticks - 1);
      assert WelcomeMessages[1..ticks + 1] == WelcomeMessages[1..ticks] + [WelcomeMessages[ticks]];
    }
  }

  /** Read with deferred updaters, the eight ticks would show only the
      last seven scripted lines: the commands guide's first line, the only
      info line of the script, never appears. */
  lemma DeferredWelcomeSkipsGuide()
    ensures DeferredWelcomeLines(|WelcomeMessages|) == WelcomeMessages[1..]
    ensures WelcomeMessages[0] !in DeferredWelcomeLines(|WelcomeMessages|)
  {
    var n := |WelcomeMessages|;
    DeferredWelcomePrefix(n - 1);
    assert DeferredWelcomeLines(n) == WelcomeMessages[1..n];
    assert forall j :: 1 <= j < n ==> WelcomeMessages[j].kind != Info;
  }

  /** Starts a session whose input is shown. */
  method ReadySession() returns (t: Terminal)
    ensures fresh(t) && t.Valid() && t.showInput && !t.isTyping
    ensures t.commandHistory == [] && t.historyIndex == -1 && t.currentInput == ""
  {
    t := new Terminal();
    var ticks := 0;
    while ticks <= |WelcomeMessages|
      invariant t.Valid() && !t.isTyping
      invariant 0 <= ticks <= |WelcomeMessages| + 1
      invariant t.welcomeIndex == (if ticks < |WelcomeMessages| then ticks else |WelcomeMessages|)
      invariant t.welcomeDone <==> ticks > |WelcomeMessages|
      invariant t.commandHistory == [] && t.historyIndex == -1 && t.currentInput == ""
    {
      t.WelcomeTick();
      ticks := ticks + 1;
    }
    t.ShowInputFires();
  }

  /** Types `text` into a ready session and submits it. */
  method Enter(t: Terminal, text: string, now: string)
    requires t.Valid() && t.showInput && !t.isTyping && Trim(text) != ""
    modifies t
    ensures t.Valid() && t.showInput && !t.isTyping
    ensures t.commandHistory == old(t.commandHistory) + [Trim(text)]
    ensures t.historyIndex == -1 && t.currentInput == ""
  {
    t.SetInput(text);
    t.Submit(now);
  }

  /** ArrowUp in a ready session with some history: recalls the entry at
      the new index. */
  method PressUp(t: Terminal) returns (shown: string)
    requires t.Valid() && t.showInput && !t.isTyping && |t.commandHistory| > 0
    modifies t
    ensures t.Valid() && t.showInput && !t.isTyping && t.commandHistory == old(t.commandHistory)
    ensures t.historyIndex == UpIndex(old(t.historyIndex), |t.commandHistory|)
    ensures shown == t.currentInput == t.commandHistory[t.historyIndex]
  {
    t.KeyDown("ArrowUp");
    shown := t.currentInput;
  }

  /** ArrowDown in a session that is navigating its history: recalls the
      next newer entry, or clears the input past the newest. */
  method PressDown(t: Terminal) returns (shown: string)
    requires t.Valid() && t.showInput && !t.isTyping && t.historyIndex != -1
    modifies t
    ensures t.Valid() && t.showInput && !t.isTyping && t.commandHistory == old(t.commandHistory)
    ensures t.historyIndex == DownIndex(old(t.historyIndex), |t.commandHistory|)
    ensures shown == t.currentInput
    ensures shown == if t.historyIndex == -1 then "" else t.commandHistory[t.historyIndex]
  {
    t.KeyDown("ArrowDown");
    shown := t.currentInput;
  }

  /** Walking a history of three entries from the idle state: four presses
      of ArrowUp, then three of ArrowDown. */
  method WalkThree(t: Terminal) returns (recalled: seq<string>)
    requires t.Valid() && t.showInput && !t.isTyping
    requires |t.commandHistory| == 3 && t.historyIndex == -1
    modifies t
    ensures t.commandHistory == old(t.commandHistory) && t.historyIndex == -1
    ensures recalled == [t.commandHistory[2], t.commandHistory[1], t.commandHistory[0],
                         t.commandHistory[0], t.commandHistory[1], t.commandHistory[2], ""]
  {
    var u1 := PressUp(t);
    var u2 := PressUp(t);
    var u3 := PressUp(t);
    var u4 := PressUp(t);
    var d1 := PressDown(t);
    var d2 := PressDown(t);
    var d3 := PressDown(t);
    recalled := [u1, u2, u3, u4, d1, d2, d3];
  }

  /** Submits three commands in a row to a ready session with no history. */
  method EnterThree(t: Terminal, first: string, second: string, third: string, now: string)
    requires t.Valid() && t.showInput && !t.isTyping && t.commandHistory == []
    requires Trim(first) != "" && Trim(second) != "" && Trim(third) != ""
    modifies t
    ensures t.Valid() && t.showInput && !t.isTyping && t.historyIndex == -1
    ensures t.commandHistory == [Trim(first), Trim(second), Trim(third)]
  {
    Enter(t, first, now);
    assert t.commandHistory == [Trim(first)];
    Enter(t, second, now);
    assert t.commandHistory == [Trim(first), Trim(second)];
    Enter(t, third, now);
  }

  /** Submitting three commands and then walking the history: ArrowUp
      recalls the trimmed commands newest first and stays on the oldest;
      ArrowDown walks back and, past the newest, clears the input. */
  method HistoryWalk(now: string, first: string, second: string, third: string)
    returns (recalled: seq<string>)
    requires Trim(first) != "" && Trim(second) != "" && Trim(third) != ""
    ensures recalled == [Trim(third), Trim(second), Trim(first), Trim(first),
                         Trim(second), Trim(third), ""]
  {
    var t := ReadySession();
    EnterThree(t, first, second, third, now);
    recalled := WalkThree(t);
  }
}
