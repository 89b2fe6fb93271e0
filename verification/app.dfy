/**
 * The process's own wiring: the ignored-author list read from the
 * environment, the routing of plain chat text between the two handlers that
 * share it, and the writer that turns `print` output into log records.
 */
module App {
  import opened Wrappers
  import opened Text

  // ---------------------------------------------------------------- IGNORED_USERS

  /** `os.getenv("IGNORED_USERS", "").split(",")`, where `env` is the variable's value when it is set. */
  function IgnoredUsers(env: Option<string>): (users: seq<string>)
    ensures |users| >= 1 && forall k :: 0 <= k < |users| ==> ',' !in users[k]
    ensures env.None? || env == Some("") ==> users == [""]
  {
    Split(env.GetOr(""), ',')
  }

  /** A comma-separated list of names reads back as exactly those names, in order. */
  lemma IgnoredUsersRoundTrip(names: seq<string>)
    requires |names| >= 1 && forall k :: 0 <= k < |names| ==> ',' !in names[k]
    ensures IgnoredUsers(Some(Join(names, ","))) == names
  {
    JoinSplit(names, ',');
  }

  // ---------------------------------------------------------------- unified_message_handler

  /** The two handlers of plain chat text. */
  datatype TextHandler = EmailInput | ReplySearch

  /** `unified_message_handler`: text answers the email prompt while one is pending, and goes to the reply search otherwise. */
  function Route(userData: set<string>): (h: TextHandler)
    ensures h == EmailInput <==> "pending_email_page" in userData
    ensures h == ReplySearch <==> "pending_email_page" !in userData
  {
    if "pending_email_page" in userData then EmailInput else ReplySearch
  }

  // ---------------------------------------------------------------- LoggerWriter

  /**
   * `write`'s effect on the buffer, and the records it emits: a blank message
   * is ignored; otherwise it is buffered, and once the buffer holds a `\n` all
   * of it is emitted line by line and the buffer is emptied.
   */
  function WriteEffect(buffer: string, message: string): (effect: (string, seq<string>))
    ensures AllSpace(message) ==> effect == (buffer, [])
    ensures '\n' !in buffer ==> '\n' !in effect.0
    ensures effect.1 != [] ==> effect.0 == "" && !AllSpace(message)
  {
    StripEmptyIffBlank(message);
    if Strip(message) == "" then (buffer, [])
    else
      var grown := buffer + message;
      if '\n' in grown then ("", SplitLines(grown)) else (grown, [])
  }

  /**
   * Nothing accepted is lost or reordered: for text whose only boundary is
   * `\n`, the records emitted, each with its newline, followed by the new
   * buffer, are the old buffer and the message, newline-terminated once emitted.
   */
  lemma WriteKeepsText(buffer: string, message: string)
    requires !AllSpace(message) && OnlyNewlineBreaks(buffer + message)
    ensures var (rest, lines) := WriteEffect(buffer, message);
      && (lines == [] ==> rest == buffer + message)
      && (lines != [] ==> Unlines(lines) + rest == NewlineTerminated(buffer + message))
  {
    var grown := buffer + message;
    if '\n' in grown {
      SplitLinesRoundTrip(grown);
      assert Unlines(SplitLines(grown)) + "" == Unlines(SplitLines(grown));
    }
  }

  /**
   * As written, the newline that `print` writes by itself is blank and is
   * dropped, so a printed line stays in the buffer and the next one is glued to
   * it: nothing is emitted until a write carries text and a newline together.
   */
  lemma PrintedLinesMergeAsWritten(buffer: string, line: string)
    requires '\n' !in buffer + line && !AllSpace(line)
    ensures WriteEffect(buffer, line) == (buffer + line, [])
    ensures WriteEffect(WriteEffect(buffer, line).0, "\n") == (buffer + line, [])
  {
    assert AllSpace("\n") by { assert IsSpace('\n'); }
  }

  /** `write` with the blank-message guard letting newlines through: a blank message is ignored only when it holds no `\n`. */
  function WriteEffectKeepingNewlines(buffer: string, message: string): (effect: (string, seq<string>))
    ensures AllSpace(message) && '\n' !in message ==> effect == (buffer, [])
    ensures '\n' !in buffer ==> '\n' !in effect.0
  {
    if AllSpace(message) && '\n' !in message then (buffer, [])
    else
      var grown := buffer + message;
      if '\n' in grown then ("", SplitLines(grown)) else (grown, [])
  }

  /** With newlines let through, each printed line becomes one record as soon as `print` ends it. */
  lemma PrintEmitsLine(buffer: string, line: string)
    requires NoLineBreak(buffer + line) && !AllSpace(line)
    ensures WriteEffectKeepingNewlines(buffer, line) == (buffer + line, [])
    ensures WriteEffectKeepingNewlines(WriteEffectKeepingNewlines(buffer, line).0, "\n") == ("", [buffer + line])
  {
    var grown := buffer + line;
    assert !AllSpace("\n") || '\n' in "\n";
    assert '\n' in grown + "\n" by { assert (grown + "\n")[|grown|] == '\n'; }
    SplitLinesOneLine(grown);
  }

  /** `flush`'s effect: a non-empty buffer is emitted as one record and emptied. */
  function FlushEffect(buffer: string): (effect: (string, seq<string>))
    ensures effect.0 == ""
    ensures buffer == "" <==> effect.1 == []
    ensures effect.1 != [] ==> effect.1 == [buffer]
  {
    if buffer != "" then ("", [buffer]) else ("", [])
  }

  /** A second flush emits nothing. */
  lemma FlushIdempotent(buffer: string)
    ensures FlushEffect(FlushEffect(buffer).0) == ("", [])
  {
  }

  /** `LoggerWriter`: buffers printed text and hands it to one log level as records. */
  class LoggerWriter {
    /** `_buffer`: text written since the last record was emitted. */
    var buffer: string
    /** The records handed to the log level so far, in order. */
    var emitted: seq<string>

    /** The buffer never holds a `\n`: one would have been emitted. */
    ghost predicate Valid()
      reads this
    {
      '\n' !in buffer
    }

    constructor ()
      ensures Valid() && buffer == "" && emitted == []
    {
      buffer := "";
      emitted := [];
    }

    /** `write(message)`, as written. */
    method Write(message: string)
      requires Valid()
      modifies this
      ensures Valid()
      ensures buffer == WriteEffect(old(buffer), message).0
      ensures emitted == old(emitted) + WriteEffect(old(buffer), message).1
    {
      StripEmptyIffBlank(message);
      if Strip(message) == "" {
        return;
      }
      buffer := buffer + message;
      if '\n' in buffer {
        EmitLines(SplitLines(buffer));
        buffer := "";
      }
    }

    /** `write(message)` with newlines let through the blank-message guard. */
    method WriteKeepingNewlines(message: string)
      requires Valid()
      modifies this
      ensures Valid()
      ensures buffer == WriteEffectKeepingNewlines(old(buffer), message).0
      ensures emitted == old(emitted) + WriteEffectKeepingNewlines(old(buffer), message).1
    {
      if AllSpace(message) && '\n' !in message {
        return;
      }
      buffer := buffer + message;
      if '\n' in buffer {
        EmitLines(SplitLines(buffer));
        buffer := "";
      }
    }

    /** `for line in ...: self.level(line)`. */
    method EmitLines(lines: seq<string>)
      modifies this
      ensures buffer == old(buffer)
      ensures emitted == old(emitted) + lines
    {
      var i := 0;
      while i < |lines|
        invariant 0 <= i <= |lines|
        invariant buffer == old(buffer)
        invariant emitted == old(emitted) + lines[..i]
      {
        emitted := emitted + [lines[i]];
        i := i + 1;
      }
      assert lines[..i] == lines;
    }

    /** `flush()`. */
    method Flush()
      modifies this
      ensures Valid()
      ensures buffer == FlushEffect(old(buffer)).0
      ensures emitted == old(emitted) + FlushEffect(old(buffer)).1
    {
      if buffer != "" {
        emitted := emitted + [buffer];
        buffer := "";
      }
    }
  }
}
