/**
 * What the dispatcher and the command table promise: blank input is
 * rejected, `clear`/`cls` short-circuit in any case, resolution is
 * case-insensitive and decided by the first token alone, every name and
 * alias resolves to exactly one registration, unknown names are reported,
 * and the listings number and shape their entries.
 */
module CommandProperties {
  import opened TextUtil
  import opened TerminalTypes
  import opened Commands

  // ---------------------------------------------------------------------
  // Normalisation of the typed line
  // ---------------------------------------------------------------------

  lemma LowerKeepsWhitespaceClass(c: char)
    ensures IsJsWhitespace(LowerChar(c)) <==> IsJsWhitespace(c)
    ensures LowerChar(c) == ' ' <==> c == ' '
  {
  }

  lemma {:induction false} LowerIdempotent(s: string)
    ensures Lower(Lower(s)) == Lower(s)
  {
    var l := Lower(s);
    assert Lower(l) == l by {
      forall i | 0 <= i < |l| ensures Lower(l)[i] == l[i] {
        assert LowerChar(LowerChar(s[i])) == LowerChar(s[i]);
      }
    }
  }

  /** A string of whitespace is blank after lower-casing too. */
  lemma LowerBlank(s: string)
    ensures AllWhitespace(Lower(s)) <==> AllWhitespace(s)
  {
    forall i | 0 <= i < |s| ensures IsJsWhitespace(Lower(s)[i]) <==> IsJsWhitespace(s[i]) {
      LowerKeepsWhitespaceClass(s[i]);
    }
  }

  /** `trim` yields the empty string exactly for blank input. */
  lemma TrimEmptyIffBlank(s: string)
    ensures Trim(s) == "" <==> AllWhitespace(s)
  {
    if AllWhitespace(s) {
      TrimAllWhitespace(s);
    }
    TrimIsInnerPiece(s);
    if Trim(s) == "" {
      var k :| 0 <= k <= |s| && AllWhitespace(s[..k]) && AllWhitespace(s[k..]);
      forall i | 0 <= i < |s| ensures IsJsWhitespace(s[i]) {
        if i < k { assert s[..k][i] == s[i]; } else { assert s[k..][i - k] == s[i]; }
      }
    }
  }

  /** The command name is empty exactly when the typed line is blank:
      empty, or nothing but whitespace. */
  lemma BlankIffNoCommandName(input: string)
    ensures Parse(input).commandName == "" <==> AllWhitespace(input)
  {
    var t := Trim(Lower(input));
    LowerBlank(input);
    TrimEmptyIffBlank(Lower(input));
    SplitHead(t, ' ');
    if t != "" {
      TrimIsInnerPiece(Lower(input));
      assert t[0] != ' ';
      if ' ' in t {
        assert IndexOf(t, ' ') > 0;
      }
    }
  }

  /** Blank input is answered with the "Please enter a command" error,
      whatever the table holds. */
  lemma BlankInputRejected(table: seq<Command>, input: string)
    requires AllWhitespace(input)
    ensures Dispatch(table, input) == ErrorLine(EmptyInputMessage)
  {
    BlankIffNoCommandName(input);
  }

  /** A word without spaces, with no whitespace at its ends, is what
      the first token of a line can be. */
  predicate IsWord(w: string) {
    w != [] && ' ' !in w && !IsJsWhitespace(w[0]) && !IsJsWhitespace(w[|w| - 1])
  }

  lemma LowerWord(w: string)
    requires IsWord(w)
    ensures IsWord(Lower(w))
  {
    LowerKeepsWhitespaceClass(w[0]);
    LowerKeepsWhitespaceClass(w[|w| - 1]);
    var l := Lower(w);
    if ' ' in l {
      var i :| 0 <= i < |l| && l[i] == ' ';
      LowerKeepsWhitespaceClass(w[i]);
    }
  }

  /** A lone word, framed by whitespace, is its own lower-cased command
      name with no arguments. */
  lemma {:induction false} ParseFramedWord(pre: string, w: string, post: string)
    requires AllWhitespace(pre) && AllWhitespace(post) && IsWord(w)
    ensures Parse(pre + w + post) == Parsed(Lower(w), [])
  {
    LowerAppend(pre + w, post);
    LowerAppend(pre, w);
    LowerBlank(pre);
    LowerBlank(post);
    LowerWord(w);
    TrimFramed(Lower(pre), Lower(w), Lower(post));
  }

  lemma {:induction false} LowerWordLine(w: string, rest: string)
    ensures Lower(w + " " + rest) == Lower(w) + " " + Lower(rest)
  {
    LowerAppend(w + " ", rest);
    LowerAppend(w, " ");
    assert Lower(" ") == " ";
  }

  /** Trimming a word followed by a space and anything keeps the word, and
      what is kept after it starts with the space. */
  lemma TrimKeepsLeadingWord(l: string, r: string)
    requires IsWord(l)
    ensures |Trim(l + " " + r)| >= |l|
    ensures Trim(l + " " + r)[..|l|] == l
    ensures |Trim(l + " " + r)| > |l| ==> Trim(l + " " + r)[|l|] == ' '
  {
    var s := l + " " + r;
    assert TrimStart(s) == s by {
      assert "" + s == s && s[0] == l[0];
      TrimStartStops("", s);
    }
    var t := TrimEnd(s);
    assert |t| >= |l| by {
      assert s[|l| - 1] == l[|l| - 1];
      TrimEndKeeps(s, |l| - 1);
    }
    TrimEndShape(s);
    assert t == s[..|t|];
    assert t[..|l|] == l by {
      assert s[..|t|][..|l|] == s[..|l|] == l;
    }
    if |t| > |l| {
      assert t[|l|] == s[|l|] == ' ';
    }
  }

  /** The first piece of `split(' ')` of a line that starts with a word,
      followed by nothing or a space, is that word. */
  lemma SplitHeadIsLeadingWord(t: string, l: string)
    requires IsWord(l) && |t| >= |l| && t[..|l|] == l
    requires |t| > |l| ==> t[|l|] == ' '
    ensures Split(t, ' ')[0] == l
  {
    SplitHead(t, ' ');
    if ' ' in t {
      var i := IndexOf(t, ' ');
    } else {
      assert t == l;
    }
  }

  /** Only the first space-separated token names the command: whatever
      follows it, the command name is the lower-cased first word. */
  lemma FirstTokenIsCommandName(w: string, rest: string)
    requires IsWord(w)
    ensures Parse(w + " " + rest).commandName == Lower(w)
  {
    LowerWord(w);
    LowerWordLine(w, rest);
    var l := Lower(w);
    var t := Trim(l + " " + Lower(rest));
    TrimKeepsLeadingWord(l, Lower(rest));
    SplitHeadIsLeadingWord(t, l);
  }

  /** A word alone parses to its lower-cased self with no arguments. */
  lemma ParseWord(w: string)
    requires IsWord(w)
    ensures Parse(w) == Parsed(Lower(w), [])
  {
    assert "" + w + "" == w;
    ParseFramedWord("", w, "");
  }

  /** Resolution is case-insensitive: the dispatcher answers a line exactly
      as it answers the same line in lower case. */
  lemma ResolutionIgnoresCase(table: seq<Command>, input: string)
    ensures Dispatch(table, input) == Dispatch(table, Lower(input))
  {
    LowerIdempotent(input);
    assert Parse(input) == Parse(Lower(input));
  }

  // ---------------------------------------------------------------------
  // clear / cls
  // ---------------------------------------------------------------------

  /** `clear` and `cls`, in any case and with whitespace around them, yield
      the clear-screen line whatever the table holds. */
  lemma ClearInAnyCase(table: seq<Command>, pre: string, word: string, post: string)
    requires AllWhitespace(pre) && AllWhitespace(post)
    requires Lower(word) == "clear" || Lower(word) == "cls"
    ensures Dispatch(table, pre + word + post) == ClearScreen
  {
    var l := Lower(word);
    forall i | 0 <= i < |word| ensures 'a' <= LowerChar(word[i]) <= 'z' {
      assert LowerChar(word[i]) == l[i];
    }
    LettersAreWord(word);
    ParseFramedWord(pre, word, post);
  }

  /** A non-empty string of letters is a word. */
  lemma LettersAreWord(word: string)
    requires word != [] && forall i :: 0 <= i < |word| ==> 'a' <= LowerChar(word[i]) <= 'z'
    ensures IsWord(word)
  {
    forall i | 0 <= i < |word| ensures word[i] != ' ' && !IsJsWhitespace(word[i]) {
      LowerKeepsWhitespaceClass(word[i]);
    }
  }

  /** `clear` followed by arguments clears too. */
  lemma ClearIgnoresArguments(table: seq<Command>, word: string, rest: string)
    requires IsWord(word) && (Lower(word) == "clear" || Lower(word) == "cls")
    ensures Dispatch(table, word + " " + rest) == ClearScreen
  {
    FirstTokenIsCommandName(word, rest);
  }

  // ---------------------------------------------------------------------
  // The registered names and aliases
  // ---------------------------------------------------------------------

  /** Two different registrations never share a name or alias. */
  lemma NoSharedKeys(now: string)
    ensures forall i, j, key :: 0 <= i < j < |CommandTable(now)| && Matches(CommandTable(now)[i], key)
              ==> !Matches(CommandTable(now)[j], key)
  {
    var t := CommandTable(now);
    forall i, j, key | 0 <= i < j < |t| && Matches(t[i], key) ensures !Matches(t[j], key) {
      assert key == t[i].name || key in t[i].aliases;
    }
  }

  lemma LowerOfLowerCase(s: string)
    requires forall i :: 0 <= i < |s| ==> !('A' <= s[i] <= 'Z')
    ensures Lower(s) == s
  {
  }

  /** Every name and alias is already lower case, so lower-cased input can
      reach every registration. */
  lemma KeysAreLowerCase(now: string, k: nat, key: string)
    requires k < |CommandTable(now)| && Matches(CommandTable(now)[k], key)
    ensures Lower(key) == key
  {
    var t := CommandTable(now);
    assert key == t[k].name || key in t[k].aliases;
    LowerOfLowerCase(key);
  }

  /** Each name or alias resolves to its own registration. */
  lemma KeyResolvesToItsCommand(now: string, k: nat, key: string)
    requires k < |CommandTable(now)| && Matches(CommandTable(now)[k], key)
    ensures Find(CommandTable(now), key) == Some(k)
    ensures key != ""
  {
    NoSharedKeys(now);
  }

  /** The handlers of the table ignore their arguments and never throw. */
  lemma HandlersIgnoreArguments(now: string, k: nat, a: seq<string>, b: seq<string>)
    requires k < |CommandTable(now)|
    ensures CommandTable(now)[k].execute(a) == CommandTable(now)[k].execute(b)
    ensures CommandTable(now)[k].execute(a).Returned?
  {
  }

  /** Arguments never change what the portfolio terminal answers: a command
      word followed by anything is answered as the word alone. */
  lemma ArgumentsDoNotChangeTheAnswer(now: string, word: string, rest: string)
    requires IsWord(word)
    ensures CommandHandler(word + " " + rest, now) == CommandHandler(word, now)
  {
    FirstTokenIsCommandName(word, rest);
    ParseWord(word);
    var t := CommandTable(now);
    var a := Parse(word + " " + rest).args;
    forall k | 0 <= k < |t| ensures t[k].execute(a) == t[k].execute([]) {
      HandlersIgnoreArguments(now, k, a, []);
    }
    SameHandlersSameAnswer(t, Lower(word), a, []);
  }

  /** Two argument lists that every handler of a table treats alike get
      the same answer under any command name. */
  lemma SameHandlersSameAnswer(table: seq<Command>, name: string, a: seq<string>, b: seq<string>)
    requires forall k :: 0 <= k < |table| ==> table[k].execute(a) == table[k].execute(b)
    ensures Answer(table, Parsed(name, a)) == Answer(table, Parsed(name, b))
  {
  }

  /** A parsed line whose command name is a key of the table (other than
      `clear` and `cls`, which never reach the table) is answered by that
      key's handler. */
  lemma KeyAnswersWithItsHandler(now: string, k: nat, key: string, args: seq<string>)
    requires k < |CommandTable(now)| && Matches(CommandTable(now)[k], key)
    requires key != "clear" && key != "cls"
    ensures CommandTable(now)[k].execute(args).Returned?
    ensures Answer(CommandTable(now), Parsed(key, args)) == CommandTable(now)[k].execute(args).response
  {
    KeyResolvesToItsCommand(now, k, key);
    HandlersIgnoreArguments(now, k, args, args);
    FoundKeyAnswers(CommandTable(now), k, key, args);
  }

  /** In any table, a found key other than `clear` and `cls` is answered by
      what its handler resolves to. */
  lemma FoundKeyAnswers(table: seq<Command>, k: nat, key: string, args: seq<string>)
    requires key != "" && key != "clear" && key != "cls"
    requires Find(table, key) == Some(k) && table[k].execute(args).Returned?
    ensures Answer(table, Parsed(key, args)) == table[k].execute(args).response
  {
  }

  /** A typed word that lower-cases to a key is answered by that key's
      handler. */
  lemma WordAnswersWithItsHandler(now: string, w: string, k: nat)
    requires IsWord(w) && k < |CommandTable(now)| && Matches(CommandTable(now)[k], Lower(w))
    requires Lower(w) != "clear" && Lower(w) != "cls"
    ensures CommandTable(now)[k].execute([]).Returned?
    ensures CommandHandler(w, now) == CommandTable(now)[k].execute([]).response
  {
    ParseWord(w);
    KeyAnswersWithItsHandler(now, k, Lower(w), []);
  }

  /** The help text is kept whole by `trim`. */
  lemma HelpReply(now: string, args: seq<string>)
    ensures CommandTable(now)[0].execute(args) == Returned(Line(TerminalLine(Info, HelpBody)))
  {
    TrimFramed("\n", HelpBody, "\n      ");
  }

  /** Whatever the case it is typed in, `help`, `h` or `?` reaches the help
      registration, which answers with one info line holding the help text. */
  lemma HelpByAnyKey(now: string, w: string)
    requires IsWord(w) && Lower(w) in ["help", "h", "?"]
    ensures CommandHandler(w, now) == Line(TerminalLine(Info, HelpBody))
  {
    assert CommandHandler(w, now) == CommandTable(now)[0].execute([]).response by {
      WordAnswersWithItsHandler(now, w, 0);
    }
    HelpReply(now, []);
  }

  /** `Help`, `h` and `?` as typed. */
  lemma HelpExamples(now: string, w: string)
    requires w == "Help" || w == "h" || w == "?"
    ensures CommandHandler(w, now) == Line(TerminalLine(Info, HelpBody))
  {
    assert Lower("Help") == "help";
    LowerOfLowerCase("h");
    LowerOfLowerCase("?");
    HelpByAnyKey(now, w);
  }

  /** No key other than `clear` and `cls` leads to a handler answering
      with the clear-screen line: the others answer with text, or with
      lines of another kind. */
  lemma OnlyClearHandlerClears(now: string, k: nat, key: string, args: seq<string>)
    requires k < |CommandTable(now)| && Matches(CommandTable(now)[k], key)
    requires key != "clear" && key != "cls"
    ensures CommandTable(now)[k].execute(args) != Returned(ClearScreen)
  {
  }

  /** The screen is cleared exactly when the command name is `clear` or
      `cls`. */
  lemma ClearScreenOnlyForClear(now: string, input: string)
    ensures CommandHandler(input, now) == ClearScreen
            <==> Parse(input).commandName == "clear" || Parse(input).commandName == "cls"
  {
    var p := Parse(input);
    var t := CommandTable(now);
    assert CommandHandler(input, now) == Answer(t, p);
    if p.commandName != "" && p.commandName != "clear" && p.commandName != "cls" {
      match Find(t, p.commandName)
      case Some(k) =>
        OnlyClearHandlerClears(now, k, p.commandName, p.args);
      case None =>
    }
  }

  // ---------------------------------------------------------------------
  // Unknown commands and failing handlers
  // ---------------------------------------------------------------------

  /** The unknown-command message quotes the name and points to `help`. */
  lemma UnknownMessageMentions(name: string)
    ensures OccursAt(UnknownCommandMessage(name), name, 9)
    ensures OccursAt(UnknownCommandMessage(name), "'help'", 9 + |name| + 18)
  {
    var p, q, h, r := "Command '", "' not found. Type ", "'help'", " for available commands.";
    var m := UnknownCommandMessage(name);
    assert m == p + name + q + h + r;
    assert m == p + name + (q + h + r);
    OccursBetween(p, name, q + h + r);
    OccursBetween(p + name + q, h, r);
  }

  /** A command name no registration knows is answered with an error line
      whose message quotes the (lower-cased) name and points to `help`. */
  lemma UnknownCommandReported(table: seq<Command>, input: string)
    requires Parse(input).commandName != "" && Parse(input).commandName != "clear"
    requires Parse(input).commandName != "cls"
    requires Find(table, Parse(input).commandName).None?
    ensures Dispatch(table, input) == ErrorLine(UnknownCommandMessage(Parse(input).commandName))
    ensures Contains(UnknownCommandMessage(Parse(input).commandName), Parse(input).commandName)
    ensures Contains(UnknownCommandMessage(Parse(input).commandName), "'help'")
  {
    var name := Parse(input).commandName;
    UnknownMessageMentions(name);
    ContainsAt(UnknownCommandMessage(name), name, 9);
    ContainsAt(UnknownCommandMessage(name), "'help'", 9 + |name| + 18);
  }

  /** A typed word that lower-cases to no name or alias is reported as
      unknown, quoting its lower-cased form. */
  lemma UnknownWordReported(now: string, w: string)
    requires IsWord(w) && Lower(w) != "clear" && Lower(w) != "cls"
    requires forall k :: 0 <= k < |CommandTable(now)| ==> !Matches(CommandTable(now)[k], Lower(w))
    ensures CommandHandler(w, now) == ErrorLine(UnknownCommandMessage(Lower(w)))
  {
    ParseWord(w);
  }

  /** Every name and alias of the table, in table order. */
  const RegisteredKeys: seq<string> :=
    ["help", "h", "?", "about", "skills", "projects", "resume", "contact",
     "clear", "cls", "theme", "chat", "ai", "whoami", "date", "ls"]

  /** A key that is not among the registered names and aliases matches no
      registration. */
  lemma NotAKey(now: string, key: string)
    requires key !in RegisteredKeys
    ensures forall k :: 0 <= k < |CommandTable(now)| ==> !Matches(CommandTable(now)[k], key)
  {
    var t := CommandTable(now);
    forall k | 0 <= k < |t| ensures !Matches(t[k], key) {
      assert t[k].name in RegisteredKeys;
      assert forall a :: a in t[k].aliases ==> a in RegisteredKeys;
    }
  }

  /** `FooBar` is not a command: the reply is an error naming `foobar`. */
  lemma FooBarIsUnknown(now: string, w: string)
    requires w == "FooBar"
    ensures Lower(w) == "foobar"
    ensures CommandHandler(w, now) == ErrorLine(UnknownCommandMessage(Lower(w)))
  {
    var l := Lower(w);
    assert l == "foobar";
    assert l !in RegisteredKeys;
    NotAKey(now, l);
    UnknownWordReported(now, w);
  }

  /** A handler that rejects is answered with an error line carrying the
      error's text, for any table. */
  lemma HandlerFailureReported(table: seq<Command>, input: string, k: nat, error: string)
    requires Parse(input).commandName != "" && Parse(input).commandName != "clear"
    requires Parse(input).commandName != "cls"
    requires Find(table, Parse(input).commandName) == Some(k)
    requires table[k].execute(Parse(input).args) == Threw(error)
    ensures Dispatch(table, input) == ErrorLine("Error executing command: " + error)
  {
  }
}
