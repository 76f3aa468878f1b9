# Portfolio terminal, modelled in Dafny

The repository is a portfolio web page that looks like a terminal. It has three pieces of logic, and this project models and proves properties of each:

- **Command dispatcher** (`src/lib/commands.ts`). `commandHandler` lower-cases the typed line, trims it and splits it on single spaces. It rejects a blank line and answers `clear`/`cls` with the `CLEAR_SCREEN` sentinel. It then looks up the first token by name or alias in a constant table of twelve commands. A rejected handler becomes an error line, and so does an unknown name. The table's handlers build the help, about, skills, projects, resume, contact, chat, theme, whoami, date and ls replies. Their texts are spelled exactly as the source file holds them, including its double-encoded bullets and arrows.
- **Terminal session** (`src/components/Terminal.tsx`). A class `Terminal` has the component's state as fields and one method per timer or browser event:
  - the welcome interval;
  - the timeout that shows the input;
  - `typeMessage`, a loop that reveals a reply one character at a time;
  - `handleCommand` and `handleSubmit`;
  - the input's `onChange`;
  - the arrow-key history navigation.
- **Snake game** (`src/components/SnakeGame.tsx`). A class `SnakeGame` has the methods `moveSnake`, `handleKeyPress` and `resetGame`. Its invariant is that the snake is non-empty, on the board and never overlaps itself, that the score is ten per segment grown, that the direction is one of the four unit vectors, and that the food is on the board.

The modules are:

- `TextUtil`: the JavaScript string operations used, stated over Dafny strings. These are `toLowerCase`, `trim` (with ECMAScript's exact whitespace set), `split`, `join` and decimal rendering.
- `TerminalTypes`: the record types of `src/types/terminal.ts`.
- `Commands`: the table and the dispatcher.
- `CommandProperties` and `ListingProperties`: lemmas about the dispatcher and the listings.
- `TerminalSession` and `TerminalProperties`: the session class and its properties.
- `Snake`: the game.

Some behaviour of the code is easy to miss, and the model keeps it:

- The commands guide in the welcome script names `experience`, `education`, `certifications`, `leadership` and `sudo`. The table registers none of them, so they are answered as unknown commands.
- The help text lists `ascii`, which is not registered either, and it never mentions `ls`.
- The snake's reversal guard compares a key with the direction last *chosen*, not the direction last *moved*. Two turns between ticks can therefore send the snake straight back onto its neck. `Snake.TwoTurnsReverse` and `Snake.ReversingHitsNeck` state this.

## Model

| member | source | states |
|---|---|---|
| `TextUtil.Lower` | src/lib/commands.ts:283 | Each ASCII capital becomes its small letter and every other character is kept, so the length is kept. `toLowerCase` itself does more; see "## Left out". |
| `TextUtil.TrimIsInnerPiece` | src/lib/commands.ts:283 | What `trim` keeps is a contiguous piece of the input. Only whitespace surrounds it, and it has no whitespace at either end. |
| `TextUtil.TrimStartShape` | src/lib/commands.ts:283 | `trim`'s leading half keeps a suffix, drops only whitespace and stops at the first character that is not whitespace. |
| `TextUtil.TrimEndShape` | src/lib/commands.ts:283 | `trim`'s trailing half keeps a prefix, drops only whitespace and stops at the last character that is not whitespace. |
| `TextUtil.Split` | src/lib/commands.ts:283 | The pieces of `split(' ')` contain no space, there is at least one, and joining them with a space gives back the input. |
| `Commands.Parse` | src/lib/commands.ts:283 | Neither the command name nor any argument contains a space, and rejoining them with spaces gives the trimmed, lower-cased line. So the name is the first piece of `split(' ')` and the arguments are the remaining pieces. |
| `Commands.Find` | src/lib/commands.ts:295-297 | `find` returns the first command whose name or alias equals the key, and returns nothing exactly when no command matches. |
| `Commands.BulletItems` | src/lib/commands.ts:119 | Each item becomes one line `"  " + bullet + " " + item`, in order. |
| `Commands.SkillsListing` | src/lib/commands.ts:131-139 | The `forEach` loop gives exactly the header followed by one block per category, in order, trimmed as a whole (so the last block's trailing blank line is cut too). |
| `Commands.AppendProjectEntry` | src/lib/commands.ts:148-155 | One callback appends exactly the project's entry to the text so far. |
| `Commands.HelpHandler` | src/lib/commands.ts:76-105 | The help reply: one info line holding the trimmed help template. `HelpReply` states what it holds. |
| `Commands.AboutHandler` | src/lib/commands.ts:106-126 | The about reply: one output line holding the trimmed about template, filled from the personal data. |
| `Commands.SkillsHandler` | src/lib/commands.ts:127-141 | The skills reply: one output line holding the trimmed skills listing. `SkillsListing`, `SkillBlockAt` and `SkillsTextHeading` state what it holds. |
| `Commands.ProjectsHandler` | src/lib/commands.ts:142-159 | The projects reply: one output line holding the trimmed projects listing. `ProjectsListing`, `ProjectEntryAt` and the entry lemmas state what it holds. |
| `Commands.ResumeHandler` | src/lib/commands.ts:160-185 | The resume reply: one output line holding the trimmed resume template. `ResumeListsKeySkills` and `ResumeKeySkills` state its key skills. |
| `Commands.ContactHandler` | src/lib/commands.ts:186-212 | The contact reply: one output line holding the trimmed contact template. |
| `Commands.ClearHandler` | src/lib/commands.ts:213-221 | The clear registration's reply is the clear-screen line. `OnlyClearHandlerClears` states that no other registration's handler gives it. |
| `Commands.ThemeHandler` | src/lib/commands.ts:222-228 | The theme reply is the plain string "Theme switching coming soon!…". |
| `Commands.ChatHandler` | src/lib/commands.ts:229-251 | The chat reply is the untrimmed chat template, as a plain string. |
| `Commands.WhoamiHandler` | src/lib/commands.ts:252-258 | The whoami reply is the plain string "portfolio-visitor@alexdev-terminal:~$". |
| `Commands.DateHandler` | src/lib/commands.ts:259-265 | The date reply is the clock's rendering, given as `now`, as a plain string. |
| `Commands.LsHandler` | src/lib/commands.ts:266-279 | The ls reply is the untrimmed listing template, as a plain string. |
| `Commands.CommandTable` | src/lib/commands.ts:75-280 | The twelve registrations in table order, with their names, descriptions, aliases and handlers. `NoSharedKeys`, `KeysAreLowerCase` and `HandlersIgnoreArguments` state its properties. |
| `Commands.Answer` | src/lib/commands.ts:285-311 | The answer to a parsed line: the empty-input error, then the clear-screen line for `clear`/`cls`, then the found handler's reply or its failure, and otherwise the unknown-command error. The `CommandProperties` lemmas state each branch. |
| `Commands.Dispatch` | src/lib/commands.ts:282-312 | `commandHandler` over any table: parse the line, then answer it. `BlankInputRejected`, `UnknownCommandReported` and `HandlerFailureReported` hold for every table. |
| `Commands.CommandHandler` | src/lib/commands.ts:282-312 | `commandHandler` over the portfolio's own table. `ClearScreenOnlyForClear`, `WordAnswersWithItsHandler` and `HelpByAnyKey` state its answers. |
| `Commands.ProjectsListing` | src/lib/commands.ts:146-157 | The `forEach` loop gives exactly the header followed by the numbered entries, in order, trimmed as a whole (so the last entry's trailing blank line is cut too). |
| `CommandProperties.BlankIffNoCommandName` | src/lib/commands.ts:283-285 | The command name is empty exactly when the typed line is empty or all whitespace. |
| `CommandProperties.BlankInputRejected` | src/lib/commands.ts:285-287 | A blank line is answered with the "Please enter a command" error line, whatever the table. |
| `CommandProperties.ParseFramedWord` | src/lib/commands.ts:283 | A word with whitespace around it parses to that word, lower-cased, with no arguments. |
| `CommandProperties.ParseWord` | src/lib/commands.ts:283 | A lone word parses to itself, lower-cased, with no arguments. |
| `CommandProperties.FirstTokenIsCommandName` | src/lib/commands.ts:283 | Whatever follows the first word and a space, the command name is the first word, lower-cased. |
| `CommandProperties.ResolutionIgnoresCase` | src/lib/commands.ts:283-297 | Any line gets the same answer as the same line in lower case. |
| `CommandProperties.ClearInAnyCase` | src/lib/commands.ts:289-292 | `clear` or `cls`, in any case and with whitespace around it, gives the clear-screen line without consulting the table. |
| `CommandProperties.ClearIgnoresArguments` | src/lib/commands.ts:283-292 | `clear` or `cls` followed by arguments also clears. |
| `CommandProperties.NoSharedKeys` | src/lib/commands.ts:75-280 | No two registrations share a name or alias. |
| `CommandProperties.LowerOfLowerCase` | src/lib/commands.ts:283 | Lower-casing leaves a string without upper-case letters unchanged. |
| `CommandProperties.KeysAreLowerCase` | src/lib/commands.ts:75-280 | Every name and alias is already lower case, so lower-cased input can reach every registration. |
| `CommandProperties.KeyResolvesToItsCommand` | src/lib/commands.ts:295-297 | Each name or alias resolves to its own registration. |
| `CommandProperties.HandlersIgnoreArguments` | src/lib/commands.ts:75-280 | Every handler of the table resolves (never rejects), and its reply does not depend on the arguments. |
| `CommandProperties.ArgumentsDoNotChangeTheAnswer` | src/lib/commands.ts:283-301 | A command word followed by a space and anything gets the same answer as the word alone. |
| `CommandProperties.KeyAnswersWithItsHandler` | src/lib/commands.ts:295-301 | A parsed key other than `clear`/`cls` is answered by its own registration's handler. |
| `CommandProperties.WordAnswersWithItsHandler` | src/lib/commands.ts:283-301 | A typed word whose lower-cased form is a key is answered by that key's handler. |
| `CommandProperties.HelpReply` | src/lib/commands.ts:80-103 | The help handler answers with one info line holding the help text, kept whole by `trim`. |
| `CommandProperties.HelpByAnyKey` | src/lib/commands.ts:282-305 | Any word that lower-cases to `help`, `h` or `?` gets the help info line. |
| `CommandProperties.HelpExamples` | src/lib/commands.ts:76-105 | `Help`, `h` and `?` as typed get the help info line. |
| `CommandProperties.OnlyClearHandlerClears` | src/lib/commands.ts:75-280 | Only the `clear` registration's handler answers with the clear-screen line. |
| `CommandProperties.ClearScreenOnlyForClear` | src/lib/commands.ts:289-301 | The answer is the clear-screen line if and only if the command name is `clear` or `cls`. |
| `CommandProperties.UnknownMessageMentions` | src/lib/commands.ts:310 | The unknown-command message holds the name at position 9 and `'help'` after it. |
| `CommandProperties.NotAKey` | src/lib/commands.ts:75-280 | A key outside the sixteen registered names and aliases matches no registration. |
| `CommandProperties.UnknownCommandReported` | src/lib/commands.ts:307-311 | A name that no registration knows is answered with an error line whose message contains the lower-cased name and `'help'`. |
| `CommandProperties.UnknownWordReported` | src/lib/commands.ts:283-311 | A typed word whose lower-cased form is no key is reported as unknown under that lower-cased form. |
| `CommandProperties.FooBarIsUnknown` | src/lib/commands.ts:283-311 | `FooBar` lower-cases to `foobar`, which is no key, and is answered "Command 'foobar' not found…". |
| `CommandProperties.HandlerFailureReported` | src/lib/commands.ts:300-304 | A handler that rejects with an error is answered with "Error executing command: " followed by the error, in any table. |
| `ListingProperties.ProjectEntryAt` | src/lib/commands.ts:148-155 | The entry of project `k` sits right after the entries of the projects before it. |
| `ListingProperties.ProjectEntryNumbered` | src/lib/commands.ts:149 | Entry `k` opens with the number `k + 1`, read back as that value, then `. ` and the project's name. |
| `ListingProperties.FeaturedMarked` | src/lib/commands.ts:149 | The title line ends in " (Featured)" if and only if the project is featured, provided the name does not itself end in "(Featured)". |
| `ListingProperties.LiveLineShown` | src/lib/commands.ts:152 | With a present `url`, the "   Live: " line follows the Tech line. |
| `ListingProperties.CodeLineShown` | src/lib/commands.ts:153 | With a present `github`, the "   Code: " line is the last line before the entry's blank separator line. |
| `ListingProperties.ProjectEntryLines` | src/lib/commands.ts:148-155 | An entry of one-line fields has four line feeds plus one per present link. The Live and Code lines therefore appear only when those links are present. |
| `ListingProperties.ProjectsTextHeading` | src/lib/commands.ts:143-157 | The trimmed projects reply begins with "Portfolio Projects". |
| `ListingProperties.SkillBlockAt` | src/lib/commands.ts:133-137 | The block of category `c` sits right after the blocks of the categories before it. |
| `ListingProperties.SkillsTextHeading` | src/lib/commands.ts:128-139 | The trimmed skills reply begins with "Technical Skills & Expertise". |
| `ListingProperties.FlatItemsAt` | src/lib/commands.ts:177 | `flatMap` keeps item `j` of category `c`, right after the items of the categories before `c`. |
| `ListingProperties.ResumeListsKeySkills` | src/lib/commands.ts:177 | For any personal data and skills, the trimmed resume reply holds the line "Key Skills: " followed by the first eight flattened items joined by ", ", or all of them when there are fewer. |
| `ListingProperties.ResumeKeySkills` | src/lib/commands.ts:177 | The portfolio's key skills are the six frontend items followed by Node.js and Python. |
| `TerminalSession.UpIndex` | src/components/Terminal.tsx:137 | The index ArrowUp selects: the newest entry when not navigating, otherwise one older, stopping at the oldest. `NavigationStaysInRange`, `UpPressesFrom` and `UpPressesFromIdle` state its properties. |
| `TerminalSession.DownIndex` | src/components/Terminal.tsx:143-151 | The index ArrowDown selects while navigating: one newer, or -1 past the newest. `DownUndoesUp` and `UpUndoesDown` relate it to `UpIndex`. |
| `TerminalSession.Revealed` | src/components/Terminal.tsx:67-89 | What a reveal leaves: one more line holding the whole message with the given kind, or nothing for an empty message. `TypeMessage`'s loop is proved to end there. |
| `TerminalSession.Routed` | src/components/Terminal.tsx:106-120 | The transcript after a reply is routed: emptied for the sentinel, the reveal for strings and multi-line lines, and one appended line otherwise. `RoutingAddsOneLine` states its effect. |
| `TerminalSession.Terminal.constructor` | src/components/Terminal.tsx:11-16 | The state on mount: no lines, no history, index -1, input hidden. |
| `TerminalSession.Terminal.WelcomeTick` | src/components/Terminal.tsx:50-62 | Each tick appends the next scripted line. After all of them, the interval is cleared and appends nothing more. |
| `TerminalSession.Terminal.ShowInputFires` | src/components/Terminal.tsx:60 | The input shows once the interval is cleared, and not before. |
| `TerminalSession.Terminal.TypeMessage` | src/components/Terminal.tsx:67-89 | Exactly one line is added, with earlier lines untouched, and it ends as the whole message. The tail passes through every prefix of the message. An empty message adds nothing. `isTyping` holds throughout and is off after. |
| `TerminalSession.Terminal.HandleCommand` | src/components/Terminal.tsx:91-123 | A blank command changes nothing. Any other command is added trimmed (case kept) to history, resets the index to -1, is echoed after the prompt and is routed. The host is notified unless the screen was cleared. |
| `TerminalSession.Terminal.EchoCommand` | src/components/Terminal.tsx:95-100 | Adds the history entry, resets the index and appends exactly one command line. |
| `TerminalSession.Terminal.RouteResponse` | src/components/Terminal.tsx:106-122 | `CLEAR_SCREEN` empties the transcript and skips the notification. Strings are revealed as output, multi-line objects are revealed with their kind, and other objects are appended. |
| `TerminalSession.Terminal.Submit` | src/components/Terminal.tsx:125-131 | While typing (or before the input shows) nothing changes. Otherwise the input is handled and then cleared: a non-blank one is added to history, echoed and routed, and the host is notified of it unless the screen was cleared. |
| `TerminalSession.Terminal.SetInput` | src/components/Terminal.tsx:221-229 | The input field's text changes only while it is shown and enabled. |
| `TerminalSession.Terminal.KeyDown` | src/components/Terminal.tsx:133-157 | ArrowUp and ArrowDown move the index as `UpIndex`/`DownIndex`, load that entry (or clear the input past the newest) and never change the history. Other keys change nothing. |
| `TerminalProperties.NavigationStaysInRange` | src/components/Terminal.tsx:133-157 | Both keys keep the index at -1 or a valid position. |
| `TerminalProperties.DownUndoesUp` | src/components/Terminal.tsx:133-157 | ArrowDown undoes ArrowUp, except at the oldest entry. |
| `TerminalProperties.UpUndoesDown` | src/components/Terminal.tsx:133-157 | ArrowUp undoes an ArrowDown that stayed inside the history. |
| `TerminalProperties.UpPressesFrom` | src/components/Terminal.tsx:137 | `k` presses of ArrowUp from a position go `k` entries older, stopping at the oldest. |
| `TerminalProperties.UpPressesFromIdle` | src/components/Terminal.tsx:137 | From idle, the `k`-th press recalls the `k`-th newest command, then stays on the oldest. |
| `TerminalProperties.RoutingAddsOneLine` | src/components/Terminal.tsx:106-120 | A reply that is not the sentinel adds exactly one line with its whole text and kind (output for strings), after the untouched earlier lines, except the empty plain string, which adds nothing. |
| `TerminalProperties.WelcomeScript` | src/components/Terminal.tsx:36-62 | After eight ticks the transcript is the eight scripted lines in order and the input is still hidden. A ninth tick lets it show. |
| `TerminalProperties.DeferredWelcomeLines` | src/components/Terminal.tsx:53-56 | The transcript the welcome ticks would render if each `setLines` updater ran only after the `index++` that follows it. |
| `TerminalProperties.DeferredWelcomeSkipsGuide` | src/components/Terminal.tsx:50-61 | Under that reading, the eight ticks would show only the last seven scripted lines, and the commands guide's first line would never appear. |
| `TerminalProperties.HistoryWalk` | src/components/Terminal.tsx:91-157 | After three submits, ArrowUp recalls them trimmed, newest first, and stays on the oldest. ArrowDown walks back, and past the newest it clears the input. |
| `Snake.Advanced` | src/components/SnakeGame.tsx:53-61 | The snake after its head moves to a free cell: the head is prepended, and the tail is dropped unless it eats. `MoveKeepsShape` states what it keeps. |
| `Snake.Turned` | src/components/SnakeGame.tsx:75-87 | The direction an arrow key selects unless it points straight back; other keys keep the direction. `TurnKeepsUnit` and `TwoTurnsReverse` state its properties. |
| `Snake.SnakeGame.constructor` | src/components/SnakeGame.tsx:13-24 | The initial snake, food and direction, score 0, not started, not over. |
| `Snake.SnakeGame.MoveSnake` | src/components/SnakeGame.tsx:32-65 | Nothing changes unless started and not over. A head off the board or on any segment ends the game and keeps the snake. Otherwise the head is prepended and the tail dropped, or a meal grows the snake by one, adds 10 and places new food. The invariant is kept. |
| `Snake.SnakeGame.HandleKeyPress` | src/components/SnakeGame.tsx:67-92 | Before the start only space has an effect, which starts the game. After it, arrows turn unless pointing straight back, and Escape asks to exit. The invariant is kept. |
| `Snake.SnakeGame.ResetGame` | src/components/SnakeGame.tsx:94-101 | Restores the initial snake, food and direction, score 0 and the not-started, not-over flags. |
| `Snake.MoveKeepsShape` | src/components/SnakeGame.tsx:47-61 | A move onto a free cell keeps the snake non-empty, on the board and distinct, and changes the length by one exactly when eating. The body behind the head is the old snake, without its tail unless it ate. |
| `Snake.TurnKeepsUnit` | src/components/SnakeGame.tsx:76-87 | A key press keeps one of the four directions and never selects the opposite of the current one. |
| `Snake.TurnsStayUnit` | src/components/SnakeGame.tsx:75-91 | After any sequence of key presses the direction is still one of the four. |
| `Snake.TwoTurnsReverse` | src/components/SnakeGame.tsx:76-84 | Left then Down between two ticks turns a snake moving up straight back. |
| `Snake.ReversingHitsNeck` | src/components/SnakeGame.tsx:47-51 | After a move, the cell straight back from the head is the neck, so a move there ends the game. |

## Left out

- I/O and rendering: JSX, framer-motion, focus and auto-scroll effects, and the document keydown listener. `Background3D.tsx` (three.js and floating point) and `pages/Index.tsx` (layout and a page reload) are not part of this model. That reload on `clear` is unreachable anyway, because the terminal returns before calling `onCommand` for `CLEAR_SCREEN`.
- Timer pacing: the 800 ms, 300 ms, 20 ms and 150 ms delays. Each timer firing is one method call; the game interval's tick is `MoveSnake`.
- The 20 ms pause inside `typeMessage`: the reveal loop runs to completion in one call. While it runs, the input field is disabled, so no session event can interleave. Because `TypeMessage` ends with `isTyping` off, `isTyping` is false at every event boundary. The `isTyping` guards of `Submit`, `SetInput` and `KeyDown`, and their promise that nothing changes while typing, therefore hold only vacuously.
- No lock is modelled while `handleCommand` awaits `commandHandler`. The input is still enabled then, because `isTyping` is false. Nothing can interleave only because every handler settles within microtasks, before any further browser event.
- Promises: `Outcome` is a settled handler promise, and `${error}` is given as the error's string form.
- `TextUtil.Lower` lower-cases only the ASCII letters. `toLowerCase` also maps other scripts and can change the length: U+0130 lower-cases to two characters. Some of those mappings reach the table. U+212A (KELVIN SIGN) lower-cases to ASCII `k`, so `S\u212AILLS` resolves to `skills` in the source but is reported unknown by the model.
- Characters are Unicode code points, while JavaScript strings are UTF-16 code units. `split('')` in `typeMessage` would split a character outside the Basic Multilingual Plane in two. The table's texts contain none, so code points and code units coincide there.
- `generateFood` (`Math.random`) is the `newFood` parameter of `MoveSnake`. It is required to be on the board, as `Math.floor(Math.random() * 20)` always is. Nothing claims the food avoids the snake.
- The `date` reply reads the clock. Its text is the `now` parameter.
- `onCommand` and `onExit` are host callbacks. The first is recorded in the `notified` field, and the second is the `exit` result of `HandleKeyPress`.
- The help text is not claimed to list every registered command.
- `Project.image` is carried but not used by any handler.
- TerminalSession.Terminal.WelcomeTick: assumes that every `setLines` updater reads `allMessages[index]` before the `index++` that follows it. This is an assumption about React's scheduling, not something the model derives. React computes an update eagerly only when the component has no other work pending. If React defers the updater to the next render, tick `i` reads entry `i + 1`. The last tick then appends an `undefined` that the render's `filter(line => line)` hides. `DeferredWelcomeLines` and `DeferredWelcomeSkipsGuide` state that transcript. A mixed reading is also possible: only the first tick is computed eagerly, because later ticks find stale pending work. The transcript would then be the first scripted line followed by the third to the eighth, which keeps the guide but drops its blank system line. That reading is not modelled, and nothing here decides which reading React takes.
- TerminalSession.Terminal.HandleCommand: states only that it never turns `isTyping` on, not its exact value. It is off whenever `Submit` calls it, and it stays off.
