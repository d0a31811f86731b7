/**
  The exceptions the descriptor model throws, as values: a failed
  `require(value, STRING_...)` check, a `requireNonNull` on a missing value,
  and the IllegalStateException of a name registered twice in one command.
 */
module Errors {
  import opened Wrappers
  import opened Text

  /** The predicate a `require` call checks. */
  datatype Check = NonWhitespacedCheck | NonBlankCheck

  /** The three ordered maps of a command that a name can be registered in. */
  datatype Entry = OptionEntry | ArgumentEntry | SubcommandEntry

  datatype Error =
    | IllegalArgument(check: Check, value: string)
    | NullPointer
    | AlreadyDefined(command: string, entry: Entry, name: string)

  function EntryWord(entry: Entry): string {
    match entry
    case OptionEntry => "Option"
    case ArgumentEntry => "Argument"
    case SubcommandEntry => "Subcommand"
  }

  /** The message of the IllegalStateException thrown on a duplicate name,
      "Command <command>: <Entry> already defined: <name>", as its six
      space-separated words. */
  function ConflictMessage(command: string, entry: Entry, name: string): string {
    Join(["Command", command + ":", EntryWord(entry), "already", "defined:", name], " ")
  }

  function ParseEntryWord(w: string): Option<Entry> {
    if w == "Option" then Some(OptionEntry)
    else if w == "Argument" then Some(ArgumentEntry)
    else if w == "Subcommand" then Some(SubcommandEntry)
    else None
  }

  /** Reads the command name, the map and the offending name back out of a
      conflict message. */
  function ParseConflictMessage(s: string): Option<(string, Entry, string)> {
    var ws := Words(s);
    if |ws| == 6 && ws[0] == "Command" && |ws[1]| > 0 && ws[1][|ws[1]| - 1] == ':'
       && ws[3] == "already" && ws[4] == "defined:" && ParseEntryWord(ws[2]).Some?
    then Some((ws[1][..|ws[1]| - 1], ParseEntryWord(ws[2]).value, ws[5]))
    else None
  }

  /** The conflict message identifies the owning command, the kind of entry
      and the offending name exactly: no two conflicts share a message. */
  lemma ConflictMessageIdentifies(command: string, entry: Entry, name: string)
    requires NonWhitespaced(command) && NonWhitespaced(name)
    ensures ParseConflictMessage(ConflictMessage(command, entry, name)) == Some((command, entry, name))
  {
    NonWhitespacedHasNoSpace(command);
    NonWhitespacedHasNoSpace(name);
    var ws := ["Command", command + ":", EntryWord(entry), "already", "defined:", name];
    assert NoSpace(command + ":");
    assert NoSpace(EntryWord(entry));
    assert NoSpace("Command") && NoSpace("already") && NoSpace("defined:");
    WordsOfJoin(ws);
    assert Words(ConflictMessage(command, entry, name)) == ws;
    assert (command + ":")[..|command|] == command;
  }
}
