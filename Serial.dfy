/**
 * SerialController.executeCommand: reads one command, terminated by ';', from the
 * serial stream, echoes it, and either starts a sleep window ("z<ms>") during which
 * later calls read nothing, or hands it to the command parser.
 *
 * The stream is the string of characters not yet read; the echo and the parser calls
 * (Parser.doCmd and Parser.fail, whose own behaviour is not part of this model) are
 * recorded, in order, as events. The two clock readings are parameters.
 */
module Serial {
  import opened JavaLang

  datatype Event =
    | Echo(line: string)    // printer.println
    | DoCmd(cmd: string)    // parser.doCmd
    | Fail                  // parser.fail

  /** What a trimmed command asks for. */
  datatype Action =
    | Ignore                // empty: nothing echoed, nothing dispatched
    | Sleep(ms: int)        // z or Z followed by an int
    | Reject                // z or Z followed by anything else
    | Dispatch              // any other command, for the parser

  /** The sleep gate: a window is open and has not yet elapsed at `now`. */
  predicate Sleeping(startSleep: int, sleepTime: int, now: int) {
    startSleep != 0 && now - startSleep < sleepTime
  }

  /** The position of the first ';'. */
  function FirstSemicolon(s: string): (i: nat)
    requires ';' in s
    ensures i < |s| && s[i] == ';' && ';' !in s[..i]
  {
    if s[0] == ';' then 0
    else
      var i := FirstSemicolon(s[1..]);
      assert s[1..][..i] == s[1..i + 1];
      1 + i
  }

  /** The command a read yields: everything before the first ';', trimmed. */
  function Command(s: string): string
    requires ';' in s
  {
    Trim(s[..FirstSemicolon(s)])
  }

  predicate IsSleepLetter(c: char) {
    c == 'z' || c == 'Z'
  }

  function Classify(cmd: string): (a: Action)
    ensures a == Ignore <==> cmd == []
    ensures a.Sleep? <==> cmd != [] && IsSleepLetter(cmd[0]) && ParseInt(cmd[1..]).Some?
    ensures a.Sleep? ==> ParseInt(cmd[1..]) == Some(a.ms)
    ensures a == Reject <==> cmd != [] && IsSleepLetter(cmd[0]) && ParseInt(cmd[1..]) == None
  {
    if cmd == [] then Ignore
    else if IsSleepLetter(cmd[0]) then
      match ParseInt(cmd[1..])
      case Some(x) => Sleep(x)
      case None => Reject
    else Dispatch
  }

  class SerialController {
    var startSleep: int
    var sleepTime: int
    /** The characters the stream has not yet delivered. */
    var input: string
    /** Echoed lines and parser calls, oldest first. */
    var events: seq<Event>
    /** Stored by the constructor and never read: ';' is the delimiter that is used. */
    const delim: char

    constructor(delim: char, input: string)
      ensures this.delim == delim && this.input == input
      ensures startSleep == 0 && sleepTime == 0 && events == []
    {
      this.delim := delim;
      this.input := input;
      startSleep := 0;
      sleepTime := 0;
      events := [];
    }

    /** Reads characters up to and including the first ';', and returns those before it. */
    method ReadCommand() returns (sb: string)
      requires ';' in input
      modifies this`input
      ensures sb == old(input)[..FirstSemicolon(old(input))]
      ensures input == old(input)[FirstSemicolon(old(input)) + 1..]
    {
      ghost var stream := input;
      ghost var end := FirstSemicolon(stream);
      ghost var k := 0;
      sb := [];
      var c := input[0];
      input := input[1..];
      while c != ';'
        invariant 0 <= k <= end && c == stream[k] && input == stream[k + 1..]
        invariant sb == stream[..k]
        decreases end - k
      {
        sb := sb + [c];
        assert sb == stream[..k + 1];
        k := k + 1;
        c := input[0];
        input := input[1..];
      }
    }

    /** One call. `now` is the clock reading of the sleep gate and `wake` the one a
        new sleep window starts at. The stream must deliver a ';' whenever the gate
        lets the call read (otherwise the read never ends). */
    method ExecuteCommand(now: int, wake: int)
      requires !Sleeping(startSleep, sleepTime, now) ==> ';' in input
      modifies this`startSleep, this`sleepTime, this`input, this`events
      ensures Sleeping(old(startSleep), old(sleepTime), now) ==>
                startSleep == old(startSleep) && sleepTime == old(sleepTime) &&
                input == old(input) && events == old(events)
      ensures !Sleeping(old(startSleep), old(sleepTime), now) ==>
                var cmd := Command(old(input));
                input == old(input)[FirstSemicolon(old(input)) + 1..] &&
                match Classify(cmd)
                case Ignore =>
                  events == old(events) &&
                  startSleep == 0 && sleepTime == (if old(startSleep) != 0 then 0 else old(sleepTime))
                case Sleep(ms) =>
                  events == old(events) + [Echo(cmd)] && startSleep == wake && sleepTime == ms
                case Reject =>
                  events == old(events) + [Echo(cmd), Fail] &&
                  startSleep == 0 && sleepTime == (if old(startSleep) != 0 then 0 else old(sleepTime))
                case Dispatch =>
                  events == old(events) + [Echo(cmd), DoCmd(cmd)] &&
                  startSleep == 0 && sleepTime == (if old(startSleep) != 0 then 0 else old(sleepTime))
    {
      if startSleep != 0 {
        if now - startSleep < sleepTime {
          return;
        } else {
          sleepTime := 0;
          startSleep := 0;
        }
      }

      ghost var stream := input;
      assert stream == old(input) && events == old(events);
      assert startSleep == 0 && sleepTime == (if old(startSleep) != 0 then 0 else old(sleepTime));
      var sb := ReadCommand();
      var cmd := Trim(sb);
      assert cmd == Command(stream);
      HandleCommand(cmd, wake);
    }

    /** What one trimmed command does: nothing if empty; otherwise it is echoed and then
        opens a sleep window starting at `wake`, or goes to the parser's failure path, or
        goes to the parser. */
    method HandleCommand(cmd: string, wake: int)
      modifies this`startSleep, this`sleepTime, this`events
      ensures match Classify(cmd)
              case Ignore =>
                events == old(events) && startSleep == old(startSleep) && sleepTime == old(sleepTime)
              case Sleep(ms) =>
                events == old(events) + [Echo(cmd)] && startSleep == wake && sleepTime == ms
              case Reject =>
                events == old(events) + [Echo(cmd), Fail] &&
                startSleep == old(startSleep) && sleepTime == old(sleepTime)
              case Dispatch =>
                events == old(events) + [Echo(cmd), DoCmd(cmd)] &&
                startSleep == old(startSleep) && sleepTime == old(sleepTime)
    {
      if |cmd| > 0 {
        events := events + [Echo(cmd)];
        if cmd[0] == 'z' || cmd[0] == 'Z' {
          var num := cmd[1..];
          match ParseInt(num)
          case Some(x) =>
            sleepTime := x;
            startSleep := wake;
          case None =>
            events := events + [Fail];
            assert events == old(events) + [Echo(cmd), Fail];
        } else {
          events := events + [DoCmd(cmd)];
          assert events == old(events) + [Echo(cmd), DoCmd(cmd)];
        }
      }
    }
  }

  // ---------------------------------------------------------------------------
  // Properties of the command framing

  /** "z" or "Z" followed by an int in decimal, with or without its sign, opens a sleep
      window of that many ms, whatever follows the ';'. */
  lemma SleepRoundTrip(letter: char, n: int, rest: string)
    requires IsSleepLetter(letter) && MinInt <= n <= MaxInt
    ensures n >= 0 ==> Classify(Command([letter] + Decimal(n) + [';'] + rest)) == Sleep(n)
    ensures n >= 0 ==> Classify(Command([letter, '+'] + Decimal(n) + [';'] + rest)) == Sleep(n)
    ensures n <= 0 ==> Classify(Command([letter, '-'] + Decimal(-n) + [';'] + rest)) == Sleep(n)
  {
    if n >= 0 {
      ParseIntDecimal(n);
      SleepOf(letter, Decimal(n), rest, n);
      SleepSigned(letter, '+', Decimal(n), rest, n);
    }
    if n <= 0 {
      ParseIntNegative(-n);
      SleepSigned(letter, '-', Decimal(-n), rest, n);
    }
  }

  /** `SleepOf` for a body written as a sign followed by digits. */
  lemma SleepSigned(letter: char, sign: char, ds: string, rest: string, v: int)
    requires IsSleepLetter(letter) && ParseInt([sign] + ds) == Some(v)
    ensures Classify(Command([letter, sign] + ds + [';'] + rest)) == Sleep(v)
  {
    SleepOf(letter, [sign] + ds, rest, v);
    assert [letter, sign] + ds == [letter] + ([sign] + ds);
  }

  /** A sleep letter and a body that parses as `v`, framed by ';', sleep for `v` ms. */
  lemma SleepOf(letter: char, body: string, rest: string, v: int)
    requires IsSleepLetter(letter) && ParseInt(body) == Some(v)
    ensures Classify(Command([letter] + body + [';'] + rest)) == Sleep(v)
  {
    SleepFrame(letter, body, rest);
    assert ([letter] + body)[1..] == body;
  }

  /** A sleep letter and a body of digits, possibly signed, framed by ';': the command
      read is the letter and the body, untrimmed by anything. */
  lemma SleepFrame(letter: char, body: string, rest: string)
    requires IsSleepLetter(letter) && |body| >= 1 && AllDigits(body[1..])
    requires IsDigit(body[0]) || (|body| >= 2 && (body[0] == '+' || body[0] == '-'))
    ensures Command([letter] + body + [';'] + rest) == [letter] + body
  {
    var c := [letter] + body;
    assert c[|c| - 1] == body[|body| - 1];
    assert |body| >= 2 ==> body[|body| - 1] == body[1..][|body| - 2];
    assert ';' !in c by {
      forall i | 0 <= i < |c| ensures c[i] != ';' {
        if i >= 2 { assert c[i] == body[1..][i - 2]; }
      }
    }
    var s := c + [';'] + rest;
    assert s[..|c|] == c && s[|c|] == ';';
    FramedCommand(c, rest);
    TrimKeepsTrimmed(c);
  }

  /** Reading `c` followed by ';' frames exactly `c`. */
  lemma FramedCommand(c: string, rest: string)
    requires ';' !in c
    ensures ';' in c + [';'] + rest
    ensures FirstSemicolon(c + [';'] + rest) == |c|
    ensures Command(c + [';'] + rest) == Trim(c)
  {
    var s := c + [';'] + rest;
    assert s[|c|] == ';';
    assert s[..|c|] == c;
  }

  /** The remainder after the letter is not trimmed: "z 500" is rejected. */
  lemma SpacedSleepRejected()
    ensures Classify("z 500") == Reject
  {
    ParseIntRejectsBlank(" 500", 0);
    assert "z 500"[1..] == " 500";
  }

  /** Commands of blanks only (the empty one included) are ignored outright. */
  lemma BlankCommandIgnored(s: string)
    requires ';' in s
    ensures Classify(Command(s)) == Ignore <==>
              forall i :: 0 <= i < FirstSemicolon(s) ==> IsBlank(s[i])
  {
    var c := s[..FirstSemicolon(s)];
    TrimAllBlank(c);
    assert forall i :: 0 <= i < |c| ==> c[i] == s[i];
  }

  /** Every non-empty command is echoed exactly once, first, and then handled once:
      by the parser, by its failure path, or by opening a sleep window. */
  lemma EchoThenHandle(cmd: string)
    requires cmd != []
    ensures Classify(cmd) != Ignore
    ensures Classify(cmd) == Dispatch <==> !IsSleepLetter(cmd[0])
  {
  }
}
