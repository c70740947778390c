/** The terminal interface (src/ui_controller.rs): the prompt buffer and how
    keys edit it, the command parser behind Enter, the history of formatted
    lines, and the scroll offset that keeps the latest lines in view.
    Rendering and styling are not modelled: a history line is the plain text
    of its spans. */
module Ui {
  import opened Basics
  import opened Crypto
  import opened Utils
  import Hex

  /** `char::is_whitespace`: the characters with the Unicode White_Space property. */
  predicate IsWhitespace(c: char)
  {
    var n := c as int;
    || 9 <= n <= 13 || n == 0x20 || n == 0x85 || n == 0xA0 || n == 0x1680
    || 0x2000 <= n <= 0x200A || n == 0x2028 || n == 0x2029 || n == 0x202F
    || n == 0x205F || n == 0x3000
  }

  /** `str::trim_start`: the suffix left after the leading whitespace. */
  function TrimStart(s: string): (r: string)
    ensures |r| <= |s| && r == s[|s| - |r|..]
    ensures forall i :: 0 <= i < |s| - |r| ==> IsWhitespace(s[i])
    ensures r != [] ==> !IsWhitespace(r[0])
    decreases |s|
  {
    if s != [] && IsWhitespace(s[0]) then TrimStart(s[1..]) else s
  }

  /** `str::split(sep).collect()`: the pieces between the separators, empty
      pieces included. */
  function Split(s: string, sep: char): (r: seq<string>)
    ensures |r| >= 1
    ensures forall i :: 0 <= i < |r| ==> sep !in r[i]
    decreases |s|
  {
    if s == [] then [[]]
    else
      var rest := Split(s[1..], sep);
      if s[0] == sep then [[]] + rest
      else [[s[0]] + rest[0]] + rest[1..]
  }

  /** There is always one piece more than there are separators, so repeated
      separators give empty pieces. */
  lemma {:induction false} SplitCount(s: string, sep: char)
    ensures |Split(s, sep)| == multiset(s)[sep] + 1
    decreases |s|
  {
    if s != [] {
      SplitCount(s[1..], sep);
      assert s == [s[0]] + s[1..];
    }
  }

  /** The pieces put back together with the separator between them. */
  function Join(parts: seq<string>, sep: char): string
    requires |parts| >= 1
    decreases |parts|
  {
    if |parts| == 1 then parts[0] else parts[0] + [sep] + Join(parts[1..], sep)
  }

  /** Splitting loses nothing: joining the pieces gives the text back. */
  lemma {:induction false} JoinSplit(s: string, sep: char)
    ensures Join(Split(s, sep), sep) == s
    decreases |s|
  {
    if s != [] {
      JoinSplit(s[1..], sep);
      var rest := Split(s[1..], sep);
      if s[0] != sep {
        if |rest| == 1 {
          assert Join(rest, sep) == rest[0];
        } else {
          assert rest[1..][0] == rest[1];
          assert Join(rest, sep) == rest[0] + [sep] + Join(rest[1..], sep);
        }
      }
    }
  }

  lemma {:induction false} SplitWithoutSeparator(p: string, sep: char)
    requires sep !in p
    ensures Split(p, sep) == [p]
    decreases |p|
  {
    if p != [] {
      SplitWithoutSeparator(p[1..], sep);
      assert [p[0]] + p[1..] == p;
    }
  }

  lemma {:induction false} SplitAtSeparator(p: string, sep: char, rest: string)
    requires sep !in p
    ensures Split(p + [sep] + rest, sep) == [p] + Split(rest, sep)
    decreases |p|
  {
    var s := p + [sep] + rest;
    if p == [] {
      assert s[1..] == rest;
    } else {
      assert s[1..] == p[1..] + [sep] + rest;
      SplitAtSeparator(p[1..], sep, rest);
      assert [p[0]] + p[1..] == p;
    }
  }

  /** Joining pieces free of the separator and splitting again gives the pieces back. */
  lemma {:induction false} SplitJoin(parts: seq<string>, sep: char)
    requires |parts| >= 1
    requires forall i :: 0 <= i < |parts| ==> sep !in parts[i]
    ensures Split(Join(parts, sep), sep) == parts
    decreases |parts|
  {
    if |parts| == 1 {
      SplitWithoutSeparator(parts[0], sep);
    } else {
      SplitJoin(parts[1..], sep);
      SplitAtSeparator(parts[0], sep, Join(parts[1..], sep));
    }
  }

  const NotImplemented := "Not implemented."

  const AliasUsage := "Not enough arguments. Usage: /alias <your_alias>"

  function UnknownCommand(token: string): string
  {
    "Unknown command \"" + token + "\"."
  }

  /** `starts_with("/")`. */
  predicate IsCommand(p: string)
  {
    |p| >= 1 && p[0] == '/'
  }

  /** What Enter on a prompt leads to: one action sent to the engine, one
      line shown in the history, or nothing. */
  datatype PromptOutcome = Send(action: UIAction) | Show(message: UIMessage) | Nothing

  /** The first pieces `prompt_enter` recognises. */
  const KnownCommands: set<string> := {"/dm", "/exit", "/q", "/list", "/topic", "/alias", "/help"}

  /** What a command does, by its first piece. Only `/alias` with exactly
      one argument sends anything, and then it sends that argument; whatever
      is shown is an error. */
  function RunCommand(props: seq<string>): (r: PromptOutcome)
    requires |props| >= 1
    ensures r.Send? <==> props[0] == "/alias" && |props| == 2
    ensures r.Send? ==> r.action == ChangeAlias(props[1])
    ensures r.Show? ==> r.message.SystemError?
    ensures props[0] == "/dm" || props[0] == "/list" || props[0] == "/topic" ==> r == Show(SystemError(NotImplemented))
    ensures props[0] == "/exit" || props[0] == "/q" || props[0] == "/help" ==> r == Nothing
    ensures props[0] == "/alias" && |props| != 2 ==> r == Show(SystemError(AliasUsage))
    ensures props[0] !in KnownCommands ==> r == Show(SystemError(UnknownCommand(props[0])))
    ensures r == Nothing <==> props[0] == "/exit" || props[0] == "/q" || props[0] == "/help"
  {
    var command := props[0];
    if command == "/dm" || command == "/list" || command == "/topic" then
      Show(SystemError(NotImplemented))
    else if command == "/exit" || command == "/q" || command == "/help" then
      Nothing
    else if command == "/alias" then
      if |props| != 2 then Show(SystemError(AliasUsage)) else Send(ChangeAlias(props[1]))
    else
      Show(SystemError(UnknownCommand(command)))
  }

  /** The decision `prompt_enter` takes. Plain text (after the leading
      whitespace) is sent as a chat message; a command is split on single
      spaces and its first piece selects what happens. Only chat messages and
      alias changes are ever sent, only errors are ever shown, and an alias
      sent never holds a space. */
  function Interpret(prompt: string): (r: PromptOutcome)
    ensures (r.Send? && r.action.SendMessage?) <==> !IsCommand(TrimStart(prompt))
    ensures IsCommand(TrimStart(prompt)) ==> r == RunCommand(Split(TrimStart(prompt), ' '))
    ensures r.Send? && r.action.SendMessage? ==> r.action.message == TrimStart(prompt)
    ensures r.Send? ==> r.action.SendMessage? || r.action.ChangeAlias?
    ensures r.Send? && r.action.ChangeAlias? ==> ' ' !in r.action.alias
    ensures r.Show? ==> r.message.SystemError?
  {
    var p := TrimStart(prompt);
    if IsCommand(p) then
      var props := Split(p, ' ');
      assert forall i :: 0 <= i < |props| ==> ' ' !in props[i];
      RunCommand(props)
    else
      Send(SendMessage(p))
  }

  /** `/alias` followed by one space and a space-free alias asks the engine
      to change to exactly that alias, the empty alias included. */
  lemma AliasCommand(alias: string)
    requires ' ' !in alias
    ensures Interpret("/alias " + alias) == Send(ChangeAlias(alias))
  {
    var prompt := "/alias " + alias;
    assert TrimStart(prompt) == prompt;
    assert prompt == "/alias" + [' '] + alias;
    SplitAtSeparator("/alias", ' ', alias);
    SplitWithoutSeparator(alias, ' ');
    assert Split(prompt, ' ') == ["/alias", alias];
  }

  /** Two spaces after `/alias` make an empty piece, so the command has three
      pieces and is refused with the usage text. */
  lemma AliasWithDoubleSpace(alias: string)
    requires ' ' !in alias
    ensures Interpret("/alias  " + alias) == Show(SystemError(AliasUsage))
  {
    var prompt := "/alias  " + alias;
    assert TrimStart(prompt) == prompt;
    assert prompt == "/alias" + [' '] + ([] + [' '] + alias);
    SplitAtSeparator("/alias", ' ', [] + [' '] + alias);
    SplitAtSeparator([], ' ', alias);
    SplitWithoutSeparator(alias, ' ');
    assert |Split(prompt, ' ')| == 3;
  }

  /** The six characters shown after an alias: the key fingerprint, or
      `......` when the key has no PEM text. The fallback never looks like a
      fingerprint. */
  function Fingerprint(c: Suite, client: ChatClient): (r: string)
    ensures |r| == 6
    ensures r == "......" <==> c.publicKeyToPem(client.pubkey).None?
  {
    match PubkeyHash(c, client)
    case Some(h) =>
      assert Hex.IsLowerHexDigit(h[0]);
      h
    case None => "......"
  }

  /** The label that opens each kind of history line. */
  function Label(m: UIMessage): (tag: string)
    ensures |tag| == 6
  {
    match m
    case System(_) => "[SYSM]"
    case SystemError(_) => "[SYSE]"
    case Chat(_, _) => "[CHAT]"
    case DM(_, _, _) => "[ DM ]"
  }

  /** The separator between the two parties of a direct message, exactly as
      the source spells it: the UTF-8 bytes of an arrow read back as
      Windows-1252 text. */
  const DirectArrow := " \U{E2}\U{2020}\U{2019} "

  /** What stands between the label and the text: nothing for system
      lines, the author and fingerprint for a chat line, both parties for a
      direct message. */
  function Attribution(c: Suite, m: UIMessage): string
  {
    match m
    case System(_) => ""
    case SystemError(_) => ""
    case Chat(author, _) => author.alias + " " + Fingerprint(c, author) + ": "
    case DM(author1, author2, _) =>
      author1.alias + Fingerprint(c, author1) + DirectArrow + author2.alias + Fingerprint(c, author2) + ": "
  }

  /** `format_ui_message`, as plain text: every line opens with the label of
      its kind and ends with the message text. */
  function FormatUIMessage(c: Suite, m: UIMessage): (line: string)
    ensures |line| >= 7 && line[..6] == Label(m) && line[6] == ' '
    ensures |line| >= |m.text| && line[|line| - |m.text|..] == m.text
  {
    var tag, middle := Label(m), Attribution(c, m);
    var line := tag + " " + middle + m.text;
    assert line[..6] == tag;
    line
  }

  /** A key event as `handle_events` distinguishes it. */
  datatype KeyPress = CharKey(c: char, control: bool) | Backspace | Enter | OtherKey

  predicate IsInterrupt(k: KeyPress)
  {
    k == CharKey('c', true)
  }

  /** How a key changes the prompt buffer: a character is appended,
      Backspace drops the last character, Enter empties it; Ctrl+C and other
      keys leave it alone. */
  function EditPrompt(prompt: string, k: KeyPress): (r: string)
    ensures k == Enter ==> r == []
    ensures k.CharKey? && !IsInterrupt(k) ==> r == prompt + [k.c]
    ensures k == Backspace && prompt != [] ==> r + [prompt[|prompt| - 1]] == prompt
    ensures IsInterrupt(k) || k == OtherKey || (k == Backspace && prompt == []) ==> r == prompt
  {
    match k
    case CharKey(c, control) => if c == 'c' && control then prompt else prompt + [c]
    case Backspace => if prompt == [] then prompt else prompt[..|prompt| - 1]
    case Enter => []
    case OtherKey => prompt
  }

  function EditAll(prompt: string, keys: seq<KeyPress>): string
    decreases |keys|
  {
    if keys == [] then prompt else EditAll(EditPrompt(prompt, keys[0]), keys[1..])
  }

  /** The keys that type a text, without modifiers. */
  function Typing(s: string): (keys: seq<KeyPress>)
    ensures |keys| == |s|
    decreases |s|
  {
    if s == [] then [] else [CharKey(s[0], false)] + Typing(s[1..])
  }

  function Backspaces(n: nat): (keys: seq<KeyPress>)
    ensures |keys| == n
  {
    if n == 0 then [] else [Backspace] + Backspaces(n - 1)
  }

  /** Typing a text appends it to the prompt. */
  lemma {:induction false} TypingAppends(prompt: string, s: string)
    ensures EditAll(prompt, Typing(s)) == prompt + s
    decreases |s|
  {
    if s != [] {
      TypingAppends(prompt + [s[0]], s[1..]);
      assert prompt + [s[0]] + s[1..] == prompt + s;
    }
  }

  /** Each Backspace removes one character, and nothing once the prompt is empty. */
  lemma {:induction false} BackspacesErase(prompt: string, n: nat)
    ensures EditAll(prompt, Backspaces(n)) == prompt[..if n <= |prompt| then |prompt| - n else 0]
    decreases n
  {
    if n > 0 {
      var keys, p1 := Backspaces(n), EditPrompt(prompt, Backspace);
      assert keys[0] == Backspace && keys[1..] == Backspaces(n - 1);
      assert EditAll(prompt, keys) == EditAll(p1, Backspaces(n - 1));
      BackspacesErase(p1, n - 1);
      if prompt != [] {
        var k := if n <= |prompt| then |prompt| - n else 0;
        assert p1 == prompt[..|prompt| - 1];
        assert p1[..k] == prompt[..k];
      }
    }
  }

  /** Typing a text and erasing as many characters restores the prompt. */
  lemma TypeThenErase(prompt: string, s: string)
    ensures EditAll(prompt, Typing(s) + Backspaces(|s|)) == prompt
  {
    EditAllConcat(prompt, Typing(s), Backspaces(|s|));
    TypingAppends(prompt, s);
    BackspacesErase(prompt + s, |s|);
    assert (prompt + s)[..|prompt|] == prompt;
  }

  lemma {:induction false} EditAllConcat(prompt: string, keys1: seq<KeyPress>, keys2: seq<KeyPress>)
    ensures EditAll(prompt, keys1 + keys2) == EditAll(EditAll(prompt, keys1), keys2)
    decreases |keys1|
  {
    if keys1 != [] {
      var p1 := EditPrompt(prompt, keys1[0]);
      assert (keys1 + keys2)[0] == keys1[0];
      assert (keys1 + keys2)[1..] == keys1[1..] + keys2;
      assert EditAll(prompt, keys1 + keys2) == EditAll(p1, keys1[1..] + keys2);
      assert EditAll(prompt, keys1) == EditAll(p1, keys1[1..]);
      EditAllConcat(p1, keys1[1..], keys2);
    } else {
      assert keys1 + keys2 == keys2;
    }
  }

  /** The interface state the key and message handling changes. */
  datatype Screen = Screen(history: seq<string>, prompt: string, actionsOut: seq<UIAction>)

  /** An outcome carried out: the action is sent, or the line is added to the history. */
  function Apply(c: Suite, st: Screen, outcome: PromptOutcome): (r: Screen)
    ensures r.prompt == st.prompt
  {
    match outcome
    case Send(a) => st.(actionsOut := st.actionsOut + [a])
    case Show(m) => st.(history := st.history + [FormatUIMessage(c, m)])
    case Nothing => st
  }

  /** `prompt_enter`: the prompt is read, not changed; at most one line or
      one action results. */
  function AfterEnter(c: Suite, st: Screen): (r: Screen)
    ensures r.prompt == st.prompt
    ensures || (r.history == st.history && r.actionsOut == st.actionsOut)
            || (r.history == st.history && |r.actionsOut| == |st.actionsOut| + 1 && r.actionsOut[..|st.actionsOut|] == st.actionsOut)
            || (r.actionsOut == st.actionsOut && |r.history| == |st.history| + 1 && r.history[..|st.history|] == st.history)
  {
    Apply(c, st, Interpret(st.prompt))
  }

  /** What one `handle_events` call did: the new state and whether to quit. */
  datatype Handled = Handled(screen: Screen, quit: bool)

  /** The first half of `handle_events`: a received message, if any, is
      formatted and appended to the history. */
  function Receive(c: Suite, st: Screen, received: Option<UIMessage>): (r: Screen)
    ensures r.prompt == st.prompt && r.actionsOut == st.actionsOut
    ensures st.history <= r.history
    ensures received.None? ==> r.history == st.history
    ensures received.Some? ==> |r.history| == |st.history| + 1 && r.history[|st.history|] == FormatUIMessage(c, received.value)
  {
    if received.Some? then st.(history := st.history + [FormatUIMessage(c, received.value)]) else st
  }

  /** The second half: one key. Only Ctrl+C quits; only Enter touches the
      history or the actions, and it leaves the prompt empty. */
  function AfterKey(c: Suite, st: Screen, key: KeyPress): (r: Handled)
    ensures r.quit <==> IsInterrupt(key)
    ensures r.screen.prompt == EditPrompt(st.prompt, key)
    ensures key != Enter ==> r.screen.history == st.history && r.screen.actionsOut == st.actionsOut
    ensures key == Enter ==> r.screen == AfterEnter(c, st).(prompt := [])
  {
    if IsInterrupt(key) then Handled(st, true)
    else if key == Enter then Handled(AfterEnter(c, st).(prompt := []), false)
    else Handled(st.(prompt := EditPrompt(st.prompt, key)), false)
  }

  /** `handle_events`: at most one received message enters the history, at
      the end; then at most one key is handled. Only Ctrl+C quits, and only
      Enter can produce a further line or an action. */
  function AfterEvents(c: Suite, st: Screen, received: Option<UIMessage>, key: Option<KeyPress>): (r: Handled)
    ensures r.quit <==> key.Some? && IsInterrupt(key.value)
    ensures r.screen.prompt == if key.Some? then EditPrompt(st.prompt, key.value) else st.prompt
    ensures st.history <= r.screen.history && |r.screen.history| <= |st.history| + 2
    ensures received.Some? ==> |r.screen.history| > |st.history| && r.screen.history[|st.history|] == FormatUIMessage(c, received.value)
    ensures key != Some(Enter) ==> r.screen.actionsOut == st.actionsOut && |r.screen.history| == |st.history| + (if received.Some? then 1 else 0)
    ensures st.actionsOut <= r.screen.actionsOut && |r.screen.actionsOut| <= |st.actionsOut| + 1
  {
    var s1 := Receive(c, st, received);
    if key.None? then Handled(s1, false)
    else
      var r := AfterKey(c, s1, key.value);
      assert s1.history <= r.screen.history;
      r
  }

  /** `history.len() as u16` keeps the low sixteen bits. */
  function AsU16(n: nat): u16
  {
    n % 0x1_0000
  }

  /** The offset computed in `ui`: the chat area is the frame less the three
      prompt rows, and its bordered inside holds two rows fewer. `None` when
      a `u16` subtraction underflows, which a frame under five rows causes.
      Otherwise the rows from the offset show the last (truncated) line and
      are all filled once the history is longer than the inside. */
  function ScrollOffset(historyLen: nat, frameHeight: u16): (r: Option<u16>)
    ensures r.Some? <==> frameHeight >= 5
    ensures r.Some? ==>
      var n, rows := AsU16(historyLen), frameHeight - 5;
      r.value <= n <= r.value + rows && (r.value > 0 ==> n == r.value + rows)
  {
    if frameHeight < 3 then None
    else
      var chatHeight := frameHeight - 3;
      if chatHeight < 2 then None
      else if AsU16(historyLen) <= chatHeight - 2 then Some(0)
      else Some(AsU16(historyLen) - (chatHeight - 2))
  }

  /** With 65536 lines or more, the truncated length makes the view jump
      back to the oldest lines: here 65536 lines, more than the 10 rows a
      frame of 15 leaves for the history, show lines 0 to 9 instead of the
      last ten, which start at 65526. */
  lemma ScrollOffsetWraps()
    ensures ScrollOffset(65536, 15) == Some(0)
    ensures IntendedScrollOffset(65536, 15) == Some(65526)
  {
  }

  /** The offset the formula evidently intends, on the full history length. */
  function IntendedScrollOffset(historyLen: nat, frameHeight: u16): (r: Option<nat>)
    ensures r.Some? <==> frameHeight >= 5
    ensures r.Some? ==>
      var rows := frameHeight - 5;
      r.value <= historyLen <= r.value + rows && (r.value > 0 ==> historyLen == r.value + rows)
  {
    if frameHeight < 5 then None
    else if historyLen <= frameHeight - 5 then Some(0)
    else Some(historyLen - (frameHeight - 5))
  }

  /** Below 65536 lines the source's offset is the intended one. */
  lemma ScrollOffsetAgrees(historyLen: nat, frameHeight: u16)
    requires historyLen < 0x1_0000
    ensures ScrollOffset(historyLen, frameHeight).Some? <==> IntendedScrollOffset(historyLen, frameHeight).Some?
    ensures ScrollOffset(historyLen, frameHeight).Some? ==>
      ScrollOffset(historyLen, frameHeight).value == IntendedScrollOffset(historyLen, frameHeight).value
  {
  }

  /** `UIController`: the history of formatted lines, the prompt buffer and
      the actions sent to the engine. */
  class UIController {
    const suite: Suite
    var history: seq<string>
    var prompt: string
    var actionsOut: seq<UIAction>

    function State(): Screen
      reads this
    {
      Screen(history, prompt, actionsOut)
    }

    constructor (suite: Suite)
      ensures this.suite == suite && State() == Screen([], [], [])
    {
      this.suite := suite;
      history := [];
      prompt := [];
      actionsOut := [];
    }

    /** `handle_events`: `received` is what the message channel held, `key`
        the key event the poll returned, if any. */
    method HandleEvents(received: Option<UIMessage>, key: Option<KeyPress>) returns (quit: bool)
      modifies this
      ensures Handled(State(), quit) == AfterEvents(suite, old(State()), received, key)
    {
      if received.Some? {
        history := history + [FormatUIMessage(suite, received.value)];
      }
      ghost var received' := State();
      assert received' == Receive(suite, old(State()), received);
      if key.Some? {
        assert AfterEvents(suite, old(State()), received, key) == AfterKey(suite, received', key.value);
        match key.value
        case CharKey(c, control) =>
          if c == 'c' && control {
            return true;
          }
          prompt := prompt + [c];
        case Backspace =>
          if prompt != [] {
            prompt := prompt[..|prompt| - 1];
          }
        case Enter =>
          PromptEnter();
          prompt := [];
        case OtherKey =>
      }
      return false;
    }

    /** `prompt_enter`. */
    method PromptEnter()
      modifies this`history, this`actionsOut
      ensures State() == AfterEnter(suite, old(State()))
    {
      var p := TrimStart(prompt);
      if |p| >= 1 && p[0] == '/' {
        var props := Split(p, ' ');
        assert Interpret(prompt) == RunCommand(props);
        RunCommandOn(props);
      } else {
        assert Interpret(prompt) == Send(SendMessage(p));
        actionsOut := actionsOut + [SendMessage(p)];
      }
    }

    /** The `match` on the first piece of a command in `prompt_enter`. */
    method RunCommandOn(props: seq<string>)
      requires |props| >= 1
      modifies this`history, this`actionsOut
      ensures State() == Apply(suite, old(State()), RunCommand(props))
    {
      var command := props[0];
      if command == "/dm" {
        history := history + [FormatUIMessage(suite, SystemError(NotImplemented))];
      } else if command == "/exit" || command == "/q" {
      } else if command == "/list" {
        history := history + [FormatUIMessage(suite, SystemError(NotImplemented))];
      } else if command == "/topic" {
        history := history + [FormatUIMessage(suite, SystemError(NotImplemented))];
      } else if command == "/alias" {
        if |props| != 2 {
          history := history + [FormatUIMessage(suite, SystemError(AliasUsage))];
          return;
        }
        actionsOut := actionsOut + [ChangeAlias(props[1])];
      } else if command == "/help" {
      } else {
        history := history + [FormatUIMessage(suite, SystemError(UnknownCommand(command)))];
      }
    }
  }
}
