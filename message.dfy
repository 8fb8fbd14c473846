/**
 * The wire record sent to the ESP32 motor controller
 * (`src/esp32/message.rs`): one colon-delimited line
 * `CMD:MOTOR:DIRECTION:STEPS`.
 *
 * The parser in the source does not compile and does not do what its
 * format promises: it accepts only three parts, then reads `parts[3]`,
 * assigns `motor` twice and never sets `direction`. `FromStringAsWritten`
 * keeps its guard and its indexing; `FromString` is the evident intent,
 * four parts with the third becoming `direction`, and is what the rest of
 * the model uses.
 */
module Message {
  import opened Wrappers
  import opened Ints
  import opened Strings

  datatype EspMessage = EspMessage(cmd: string, motor: Option<u8>, direction: string, steps: Option<u8>)

  const Separator: char := ':'

  /** `a:b:c`: three fields with the separator between neighbours. */
  function Line3(a: string, b: string, c: string): string
  {
    a + [Separator] + (b + [Separator] + c)
  }

  /** `a:b:c:d`: four fields with the separator between neighbours. */
  function Line4(a: string, b: string, c: string, d: string): string
  {
    a + [Separator] + Line3(b, c, d)
  }

  /** The motor field as written; an absent motor is written as 0. */
  function MotorText(m: EspMessage): string
  {
    NatToString(m.motor.UnwrapOr(0) as nat)
  }

  /** The steps field as written; an absent step count is written as 0. */
  function StepsText(m: EspMessage): string
  {
    NatToString(m.steps.UnwrapOr(0) as nat)
  }

  /** `EspMessage::to_string`. */
  function ToString(m: EspMessage): string
  {
    Line4(m.cmd, MotorText(m), m.direction, StepsText(m))
  }

  /** `EspMessage::from_string` as intended: trim, split on `:`, exactly four parts. */
  function FromString(data: string): Option<EspMessage>
  {
    FromParts(Split(Trim(data), Separator))
  }

  function FromParts(parts: seq<string>): Option<EspMessage>
  {
    if |parts| != 4 then None
    else Some(EspMessage(parts[0], ParseU8(parts[1]), parts[2], ParseU8(parts[3])))
  }

  /** What the message looks like after a trip over the wire: absent numbers come back as 0. */
  function Normalized(m: EspMessage): EspMessage
  {
    m.(motor := Some(m.motor.UnwrapOr(0)), steps := Some(m.steps.UnwrapOr(0)))
  }

  /** Text fields that survive the trip: no separator inside, no whitespace where trimming would eat it. */
  predicate WireSafe(m: EspMessage)
  {
    && Separator !in m.cmd
    && Separator !in m.direction
    && (m.cmd == [] || !IsWhitespace(m.cmd[0]))
  }

  // ---------------------------------------------------------------------
  // Serialising
  // ---------------------------------------------------------------------

  /**
   * The line holds exactly four fields, in the order cmd, motor,
   * direction, steps, and an absent motor or step count is sent as `0`.
   */
  lemma ToStringFields(m: EspMessage)
    requires Separator !in m.cmd && Separator !in m.direction
    ensures Split(ToString(m), Separator) == [m.cmd, MotorText(m), m.direction, StepsText(m)]
    ensures m.motor.None? ==> MotorText(m) == "0"
    ensures m.steps.None? ==> StepsText(m) == "0"
  {
    SplitLine4(m.cmd, MotorText(m), m.direction, StepsText(m));
  }

  /** Three separator-free fields split back into themselves. */
  lemma SplitLine3(a: string, b: string, c: string)
    requires Separator !in a && Separator !in b && Separator !in c
    ensures Split(Line3(a, b, c), Separator) == [a, b, c]
  {
    SplitSeparatorFree(c, Separator);
    SplitAtSeparator(b, Separator, c);
    SplitAtSeparator(a, Separator, b + [Separator] + c);
  }

  /** Four separator-free fields split back into themselves. */
  lemma SplitLine4(a: string, b: string, c: string, d: string)
    requires Separator !in a && Separator !in b && Separator !in c && Separator !in d
    ensures Split(Line4(a, b, c, d), Separator) == [a, b, c, d]
  {
    SplitLine3(b, c, d);
    SplitAtSeparator(a, Separator, Line3(b, c, d));
  }

  /** The vector of the ESP32 test program. */
  lemma ToStringExample()
    ensures ToString(EspMessage("MOVE", Some(1), "FWD", Some(50))) == "MOVE:1:FWD:50"
  {
    assert NatToString(50) == "50";
  }

  // ---------------------------------------------------------------------
  // Parsing
  // ---------------------------------------------------------------------

  /** Surrounding whitespace, the line terminator included, never changes the result. */
  lemma FromStringTrims(data: string)
    ensures FromString(data) == FromString(Trim(data))
  {
    TrimIsTrimmed(data);
  }

  /** The parse fails exactly when the trimmed line does not hold three separators. */
  lemma FromStringFailsIff(data: string)
    ensures FromString(data).None? <==> Count(Trim(data), Separator) != 3
  {
  }

  /**
   * Four clean fields always give a message: a motor or step field that is
   * not an 8-bit decimal makes that field absent, not the parse fail.
   */
  lemma ParseLine(a: string, b: string, c: string, d: string)
    requires Separator !in a && Separator !in b && Separator !in c && Separator !in d
    requires IsTrimmed(Line4(a, b, c, d))
    ensures FromString(Line4(a, b, c, d)) == Some(EspMessage(a, ParseU8(b), c, ParseU8(d)))
  {
    TrimmedIsFixed(Line4(a, b, c, d));
    SplitLine4(a, b, c, d);
    ParseCleanLine(Line4(a, b, c, d), [a, b, c, d]);
  }

  /** A line that is its own trim and splits into `parts` parses as `parts` say. */
  lemma ParseCleanLine(line: string, parts: seq<string>)
    requires Trim(line) == line && Split(line, Separator) == parts
    ensures FromString(line) == FromParts(parts)
  {
  }

  /** A line that starts with a non-space and ends in a number is left alone by trimming. */
  lemma WireLineIsTrimmed(m: EspMessage)
    requires WireSafe(m)
    ensures IsTrimmed(ToString(m))
  {
    var s := ToString(m);
    var steps := StepsText(m);
    assert s == m.cmd + [Separator] + MotorText(m) + [Separator] + m.direction + [Separator] + steps;
    assert s[|s| - 1] == steps[|steps| - 1];
    if m.cmd == [] {
      assert s[0] == Separator;
    } else {
      assert s[0] == m.cmd[0];
    }
  }

  /**
   * Round trip: parsing the line a message serialises to gives the
   * message back, with an absent motor or step count returned as 0.
   */
  lemma RoundTrip(m: EspMessage)
    requires WireSafe(m)
    ensures FromString(ToString(m)) == Some(Normalized(m))
    ensures m.motor.Some? && m.steps.Some? ==> FromString(ToString(m)) == Some(m)
  {
    WireLineIsTrimmed(m);
    ParseLine(m.cmd, MotorText(m), m.direction, StepsText(m));
    ParseRendered(m.motor.UnwrapOr(0));
    ParseRendered(m.steps.UnwrapOr(0));
  }

  /** The line as the serial link carries it, terminator and all, parses the same. */
  lemma SentLineParses(m: EspMessage, terminator: string)
    requires WireSafe(m) && AllWhitespace(terminator)
    ensures FromString(ToString(m) + terminator) == Some(Normalized(m))
  {
    WireLineIsTrimmed(m);
    assert [] + ToString(m) + terminator == ToString(m) + terminator;
    TrimSurrounded([], ToString(m), terminator);
    RoundTrip(m);
    FromStringTrims(ToString(m));
  }

  // ---------------------------------------------------------------------
  // The parser as written
  // ---------------------------------------------------------------------

  /** What the written parser can do: refuse the line, or index past its parts and panic. */
  datatype AsWrittenOutcome = Rejected | IndexOutOfBounds

  /** The written guard (`parts.len() != 3`) followed by the written read of `parts[3]`. */
  function FromStringAsWritten(data: string): AsWrittenOutcome
  {
    var parts := Split(Trim(data), Separator);
    if |parts| != 3 then Rejected else IndexOutOfBounds
  }

  /**
   * The written parser never produces a message: it rejects every line
   * `ToString` produces, and on a three-part line it would read past the end.
   */
  lemma AsWrittenRejectsEveryWireLine(m: EspMessage)
    requires WireSafe(m)
    ensures FromStringAsWritten(ToString(m)) == Rejected
    ensures FromString(ToString(m)).Some?
  {
    WireLineIsTrimmed(m);
    TrimmedIsFixed(ToString(m));
    ToStringFields(m);
    RoundTrip(m);
  }

  /** The concrete line of the test program: rejected as written, parsed as intended. */
  lemma AsWrittenCounterexample()
    ensures FromStringAsWritten("MOVE:1:FWD:50") == Rejected
    ensures FromString("MOVE:1:FWD:50") == Some(EspMessage("MOVE", Some(1), "FWD", Some(50)))
  {
    var m := EspMessage("MOVE", Some(1), "FWD", Some(50));
    assert WireSafe(m);
    assert ToString(m) == "MOVE:1:FWD:50" by { ToStringExample(); }
    AsWrittenRejectsEveryWireLine(m);
    RoundTrip(m);
  }

  /** The only lines the written guard lets through are three-part ones, and each of them panics. */
  lemma AsWrittenPanicsOnThreeParts(a: string, b: string, c: string)
    requires Separator !in a && Separator !in b && Separator !in c
    requires IsTrimmed(Line3(a, b, c))
    ensures FromStringAsWritten(Line3(a, b, c)) == IndexOutOfBounds
    ensures FromString(Line3(a, b, c)) == None
  {
    TrimmedIsFixed(Line3(a, b, c));
    SplitLine3(a, b, c);
    ParseCleanLine(Line3(a, b, c), [a, b, c]);
  }
}
