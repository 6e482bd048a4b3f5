/** The host-side helpers: the console listener that reads commands line by
    line, the uptime split into hours, minutes and seconds, and the member
    count that /info and the console's status command report. Reading the
    console, the clock and the Discord calls are given as values. */
module Console {
  import opened Messages

  /** The characters Python's str.strip() removes: those for which
      str.isspace() holds. Every ASCII whitespace character is one of them,
      and no letter or digit is, so stripping never touches a command word. */
  predicate IsSpace(c: char)
    ensures c == ' ' || c == '\t' || c == '\n' || c == '\r' || c == '\U{0B}' || c == '\U{0C}' ==> IsSpace(c)
    ensures IsSpace(c) ==> !('0' <= c <= '9' || 'a' <= c <= 'z' || 'A' <= c <= 'Z')
  {
    || ('\t' <= c <= '\r') || ('\U{1C}' <= c <= '\U{1F}') || c == ' '
    || c == '\U{85}' || c == '\U{A0}' || c == '\U{1680}' || ('\U{2000}' <= c <= '\U{200A}')
    || c == '\U{2028}' || c == '\U{2029}' || c == '\U{202F}' || c == '\U{205F}' || c == '\U{3000}'
  }

  predicate AllSpace(s: string)
  {
    forall i :: 0 <= i < |s| ==> IsSpace(s[i])
  }

  /** How many whitespace characters the line starts with. */
  function LeadingSpaces(s: string): (k: nat)
    ensures k <= |s| && forall i :: 0 <= i < k ==> IsSpace(s[i])
    ensures k < |s| ==> !IsSpace(s[k])
  {
    if s == [] || !IsSpace(s[0]) then 0 else 1 + LeadingSpaces(s[1..])
  }

  /** How many whitespace characters the line ends with. */
  function TrailingSpaces(s: string): (k: nat)
    ensures k <= |s| && forall i :: |s| - k <= i < |s| ==> IsSpace(s[i])
    ensures k < |s| ==> !IsSpace(s[|s| - k - 1])
  {
    if s == [] || !IsSpace(s[|s| - 1]) then 0 else 1 + TrailingSpaces(s[..|s| - 1])
  }

  /** Python's str.strip(): the line without its leading and trailing whitespace. */
  function Strip(s: string): (r: string)
    ensures r == [] <==> AllSpace(s)
    ensures r != [] ==> !IsSpace(r[0]) && !IsSpace(r[|r| - 1])
  {
    var rest := s[LeadingSpaces(s)..];
    if AllSpace(s) then [] else
      assert !AllSpace(rest) by {
        var i :| 0 <= i < |s| && !IsSpace(s[i]);
        assert s[LeadingSpaces(s)..][i - LeadingSpaces(s)] == s[i];
      }
      rest[..|rest| - TrailingSpaces(rest)]
  }

  /** Whitespace around a word that neither starts nor ends with whitespace is
      exactly what Strip removes. */
  lemma {:induction false} StripPadding(before: string, word: string, after: string)
    requires AllSpace(before) && AllSpace(after)
    requires word != [] && !IsSpace(word[0]) && !IsSpace(word[|word| - 1])
    ensures Strip(before + word + after) == word
  {
    var s := before + word + after;
    assert s[|before|] == word[0];
    assert !AllSpace(s);
    LeadingIsPadding(before, word + after);
    assert before + word + after == before + (word + after);
    var rest := s[|before|..];
    assert rest == word + after;
    TrailingIsPadding(word, after);
  }

  lemma {:induction false} LeadingIsPadding(before: string, s: string)
    requires AllSpace(before) && s != [] && !IsSpace(s[0])
    ensures LeadingSpaces(before + s) == |before|
  {
    if before != [] {
      assert (before + s)[1..] == before[1..] + s;
      LeadingIsPadding(before[1..], s);
    }
  }

  lemma {:induction false} TrailingIsPadding(s: string, after: string)
    requires AllSpace(after) && s != [] && !IsSpace(s[|s| - 1])
    ensures TrailingSpaces(s + after) == |after|
  {
    if after != [] {
      assert (s + after)[..|s + after| - 1] == s + after[..|after| - 1];
      TrailingIsPadding(s, after[..|after| - 1]);
    }
  }

  /** Python's str.lower() on ASCII letters; other characters are kept. */
  function LowerChar(c: char): char
  {
    if 'A' <= c <= 'Z' then (c as int - 'A' as int + 'a' as int) as char else c
  }

  function Lower(s: string): (r: string)
    ensures |r| == |s| && forall i :: 0 <= i < |s| ==> r[i] == LowerChar(s[i])
  {
    if s == [] then [] else [LowerChar(s[0])] + Lower(s[1..])
  }

  /** What a console line asks for. */
  datatype Command = Restart | Stop | Status | Help | Unknown(text: string) | Blank

  predicate Ends(c: Command)
  {
    c == Restart || c == Stop
  }

  /** The word a console line holds once it is stripped and lower-cased. */
  function Word(line: string): (w: string)
    ensures w == [] <==> AllSpace(line)
  {
    Lower(Strip(line))
  }

  /** The command a word names: "stop" and "exit" are the same command, any
      other non-empty word is unknown, and an empty one is ignored. */
  function CommandOf(word: string): (c: Command)
    ensures c == Restart <==> word == "restart"
    ensures c == Stop <==> word == "stop" || word == "exit"
    ensures c == Status <==> word == "status"
    ensures c == Help <==> word == "help"
    ensures c == Unknown(word) <==> word != [] && word !in ["restart", "stop", "exit", "status", "help"]
    ensures c.Unknown? ==> c.text == word
    ensures c == Blank <==> word == []
  {
    if word == "restart" then Restart
    else if word == "stop" || word == "exit" then Stop
    else if word == "status" then Status
    else if word == "help" then Help
    else if word != [] then Unknown(word)
    else Blank
  }

  /** The command a console line stands for. */
  function Classify(line: string): (c: Command)
    ensures c == Blank <==> AllSpace(line)
  {
    CommandOf(Word(line))
  }

  /** Surrounding whitespace never changes what a line asks for. */
  lemma PaddingIgnored(before: string, word: string, after: string)
    requires AllSpace(before) && AllSpace(after)
    requires word != [] && !IsSpace(word[0]) && !IsSpace(word[|word| - 1])
    ensures Classify(before + word + after) == Classify(word)
  {
    StripPadding(before, word, after);
    StripTrimmed(word);
  }

  /** A word with no whitespace at either end is left as it is. */
  lemma StripTrimmed(word: string)
    requires word != [] && !IsSpace(word[0]) && !IsSpace(word[|word| - 1])
    ensures Strip(word) == word
  {
    StripPadding([], word, []);
    assert [] + word + [] == word;
  }

  /** The index of the first command that ends the listener, or the number
      of commands when none does. */
  function FirstEnding(cs: seq<Command>): (k: nat)
    ensures k <= |cs|
    ensures forall j :: 0 <= j < k ==> !Ends(cs[j])
    ensures k < |cs| ==> Ends(cs[k])
  {
    if cs == [] || Ends(cs[0]) then 0 else 1 + FirstEnding(cs[1..])
  }

  /** The commands the console lines stand for, in order. */
  function Classified(lines: seq<string>): (cs: seq<Command>)
  {
    seq(|lines|, i requires 0 <= i < |lines| => Classify(lines[i]))
  }

  lemma PrefixGrows<T>(s: seq<T>, i: nat)
    requires i < |s|
    ensures s[..i + 1] == s[..i] + [s[i]]
  {
  }

  lemma PastNonEnding(cs: seq<Command>, i: nat)
    requires i <= FirstEnding(cs) && i < |cs| && !Ends(cs[i])
    ensures i + 1 <= FirstEnding(cs)
  {
  }

  /** The process-wide flags the console and the commands set: whether the
      process should be restarted once the bot has closed, and whether the bot
      has been closed. */
  class Host {
    var restartFlag: bool
    var closed: bool

    constructor ()
      ensures !restartFlag && !closed
    {
      restartFlag, closed := false, false;
    }

    /** Read console lines until one asks to restart or stop. A restart sets
        the restart flag and closes the bot; stop (or exit) closes it without
        the flag; status, help, unknown words and blank lines are answered
        and the listener goes on. Every line up to and including the one that
        ends it is handled, in order, and no line after it. */
    method ConsoleListener(lines: seq<string>) returns (handled: seq<Command>)
      modifies this
      ensures var cs := Classified(lines);
              var k := FirstEnding(cs);
              && handled == cs[..if k < |lines| then k + 1 else k]
              && closed == (old(closed) || k < |lines|)
              && restartFlag == (old(restartFlag) || (k < |lines| && cs[k] == Restart))
    {
      ghost var cs := Classified(lines);
      handled := [];
      var i := 0;
      while i < |lines|
        invariant 0 <= i <= FirstEnding(cs)
        invariant handled == cs[..i]
        invariant closed == old(closed) && restartFlag == old(restartFlag)
      {
        var cmd := Classify(lines[i]);
        PrefixGrows(cs, i);
        handled := handled + [cmd];
        if cmd == Restart {
          restartFlag := true;
          closed := true;
          return;
        } else if cmd == Stop {
          closed := true;
          return;
        }
        PastNonEnding(cs, i);
        i := i + 1;
      }
      assert cs[..i] == cs;
    }
  }

  /** Uptime split into hours, minutes and seconds, or unknown before the bot
      is ready. */
  datatype Uptime = UnknownUptime | Elapsed(hours: int, minutes: nat, seconds: nat)

  /** The uptime /info, /restart and the console report: whole seconds since
      the bot became ready, split with two floor divisions. Python's divmod
      floors, and Dafny's division by a positive divisor does too. */
  function GetUptime(start: Option<int>, now: int): (u: Uptime)
    ensures u.UnknownUptime? <==> start.None?
    ensures u.Elapsed? ==>
              && u.minutes < 60 && u.seconds < 60
              && u.hours * 3600 + u.minutes * 60 + u.seconds == now - start.value
  {
    match start
    case None => UnknownUptime
    case Some(t) =>
      var hours, remainder := (now - t) / 3600, (now - t) % 3600;
      Elapsed(hours, remainder / 60, remainder % 60)
  }

  /** The split is the only one with minutes and seconds below sixty. */
  lemma UptimeUnique(start: int, now: int, h: int, m: nat, s: nat)
    requires m < 60 && s < 60 && h * 3600 + m * 60 + s == now - start
    ensures GetUptime(Some(start), now) == Elapsed(h, m, s)
  {
    var u := GetUptime(Some(start), now);
    var r1, r2 := m * 60 + s, u.minutes * 60 + u.seconds;
    assert 0 <= r1 < 3600 && 0 <= r2 < 3600;
    assert (h - u.hours) * 3600 == r2 - r1;
    assert h == u.hours;
    assert (m - u.minutes) * 60 == u.seconds - s;
    assert m == u.minutes;
  }

  /** The member count /info and the console's status command show: the
      members that are not bots, or zero when the guild is not found. */
  function MemberCount(guild: Option<seq<Member>>): (n: nat)
    ensures guild.None? ==> n == 0
    ensures guild.Some? ==> n == |guild.value| - Bots(guild.value)
  {
    match guild
    case None => 0
    case Some(members) => HumansCount(members); |Humans(members)|
  }
}
