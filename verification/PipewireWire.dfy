/** The lines in which the pipewire child process reports events, and how the daemon reads them. */
module PipewireWire {
  import opened Basics

  type Byte = x: nat | x < 256

  const SPACE: Byte := 32
  const NEWLINE: Byte := 10
  const ZERO: Byte := 48
  const ADD: seq<Byte> := [97, 100, 100]
  const REM: seq<Byte> := [114, 101, 109]

  datatype ProcessEvent = Add(pid: Pid) | Remove(pid: Pid)

  // ---------------------------------------------------------------------------------------
  // Printing
  // ---------------------------------------------------------------------------------------

  /** Decimal digits, most significant first, without leading zeros. */
  function Digits(n: nat): seq<Byte> {
    if n < 10 then [ZERO + n] else Digits(n / 10) + [ZERO + n % 10]
  }

  function ToBytes(event: ProcessEvent): seq<Byte> {
    (if event.Add? then ADD else REM) + [SPACE] + Digits(event.pid)
  }

  /** What the child writes for a sequence of events: one line for each. */
  function PrintAll(events: seq<ProcessEvent>): seq<Byte> {
    if events == [] then [] else ToBytes(events[0]) + [NEWLINE] + PrintAll(events[1..])
  }

  // ---------------------------------------------------------------------------------------
  // Parsing
  // ---------------------------------------------------------------------------------------

  predicate IsDigit(b: Byte) {
    ZERO <= b <= ZERO + 9
  }

  /** Continues a number with the digits at the start of the text; none if it outgrows 32 bits. */
  function Accumulate(text: seq<Byte>, n: Pid): Option<Pid> {
    if text == [] || !IsDigit(text[0]) then Some(n)
    else
      var next := n * 10 + (text[0] - ZERO);
      if next < 0x1_0000_0000 then Accumulate(text[1..], next) else None
  }

  /** The number at the start of the text, whatever follows it. */
  function Atoi(text: seq<Byte>): Option<Pid> {
    if text == [] || !IsDigit(text[0]) then None else Accumulate(text, 0)
  }

  /** The text before the first separator, which is not part of it. */
  function Before(text: seq<Byte>, separator: Byte): seq<Byte> {
    if text == [] || text[0] == separator then [] else [text[0]] + Before(text[1..], separator)
  }

  function FromBytes(line: seq<Byte>): Option<ProcessEvent> {
    var name := Before(line, SPACE);
    BeforeIsPrefix(line, SPACE);
    if |name| == |line| then None
    else
      match Atoi(Before(line[|name| + 1..], SPACE))
      case None => None
      case Some(pid) => if name == ADD then Some(Add(pid)) else if name == REM then Some(Remove(pid)) else None
  }

  /** The next line including its newline, or all that is left if there is none. */
  function NextLine(stream: seq<Byte>): (line: seq<Byte>)
    ensures line <= stream && (stream != [] ==> line != [])
  {
    BeforeIsPrefix(stream, NEWLINE);
    var text := Before(stream, NEWLINE);
    if |text| == |stream| then text else stream[..|text| + 1]
  }

  /** The events read from a stream; lines that are none are skipped. */
  function ParseAll(stream: seq<Byte>): seq<ProcessEvent>
    decreases |stream|
  {
    if stream == [] then []
    else
      var line := NextLine(stream);
      (match FromBytes(line) case Some(event) => [event] case None => []) + ParseAll(stream[|line|..])
  }

  lemma {:induction false} BeforeIsPrefix(text: seq<Byte>, separator: Byte)
    ensures Before(text, separator) <= text && separator !in Before(text, separator)
    ensures |Before(text, separator)| < |text| ==> text[|Before(text, separator)|] == separator
  {
    if text != [] && text[0] != separator {
      BeforeIsPrefix(text[1..], separator);
      assert text == [text[0]] + text[1..];
    }
  }

  // ---------------------------------------------------------------------------------------
  // Round trip
  // ---------------------------------------------------------------------------------------

  lemma {:induction false} DigitsAreDigits(n: nat)
    ensures Digits(n) != [] && forall b :: b in Digits(n) ==> IsDigit(b)
  {
    if n >= 10 {
      DigitsAreDigits(n / 10);
    }
  }

  lemma {:induction false} AccumulateDigits(n: Pid, tail: seq<Byte>)
    ensures Accumulate(Digits(n) + tail, 0) == Accumulate(tail, n)
  {
    if n < 10 {
      assert (Digits(n) + tail)[1..] == tail;
    } else {
      var last: Byte := ZERO + n % 10;
      AccumulateDigits(n / 10, [last] + tail);
      assert Digits(n) + tail == Digits(n / 10) + ([last] + tail);
      assert ([last] + tail)[1..] == tail;
    }
  }

  /** Reading a printed number gives it back, for every 32-bit number and any ending. */
  lemma AtoiOfDigits(n: Pid, tail: seq<Byte>)
    requires tail == [] || !IsDigit(tail[0])
    ensures Atoi(Digits(n) + tail) == Some(n)
  {
    DigitsAreDigits(n);
    AccumulateDigits(n, tail);
    assert (Digits(n) + tail)[0] in Digits(n);
  }

  lemma {:induction false} BeforeAppended(text: seq<Byte>, separator: Byte, rest: seq<Byte>)
    requires separator !in text
    ensures Before(text + rest, separator) == text + Before(rest, separator)
  {
    if text != [] {
      BeforeAppended(text[1..], separator, rest);
      assert (text + rest)[1..] == text[1..] + rest;
    } else {
      assert text + rest == rest;
    }
  }

  /** A line of a known kind is read as the number that follows the kind. */
  lemma FromKnownBytes(add: bool, number: seq<Byte>)
    requires SPACE !in number
    ensures FromBytes((if add then ADD else REM) + [SPACE] + number) ==
            match Atoi(number) case None => None case Some(pid) => Some(if add then Add(pid) else Remove(pid))
  {
    var name := if add then ADD else REM;
    var line := name + [SPACE] + number;
    assert line == name + ([SPACE] + number);
    BeforeAppended(name, SPACE, [SPACE] + number);
    assert Before(line, SPACE) == name + [] == name;
    assert ADD[0] != REM[0];
    assert line[|name| + 1..] == number;
    BeforeAppended(number, SPACE, []);
    assert number + [] == number;
  }

  // ---------------------------------------------------------------------------------------
  // Which lines are events
  // ---------------------------------------------------------------------------------------

  /** The number that digits stand for after the number `n`. */
  ghost function ValueAfter(n: nat, digits: seq<Byte>): nat
    decreases |digits|
  {
    if digits == [] then n
    else ValueAfter(n * 10 + if IsDigit(digits[0]) then digits[0] - ZERO else 0, digits[1..])
  }

  /** The text starts with `m` digits and no more. */
  ghost predicate LeadingDigits(text: seq<Byte>, m: int) {
    0 <= m <= |text| && (forall i :: 0 <= i < m ==> 48 <= text[i] <= 57) && (m < |text| ==> !(48 <= text[m] <= 57))
  }

  lemma {:induction false} ValueGrows(n: nat, digits: seq<Byte>)
    ensures n <= ValueAfter(n, digits)
    decreases |digits|
  {
    if digits != [] {
      ValueGrows(n * 10 + if IsDigit(digits[0]) then digits[0] - ZERO else 0, digits[1..]);
    }
  }

  lemma {:induction false} AccumulateExactly(text: seq<Byte>, n: Pid, m: nat)
    requires LeadingDigits(text, m)
    ensures Accumulate(text, n) ==
            if ValueAfter(n, text[..m]) < 0x1_0000_0000 then Some(ValueAfter(n, text[..m])) else None
    decreases m
  {
    if m > 0 {
      var next := n * 10 + (text[0] - ZERO);
      assert text[..m][1..] == text[1..][..m - 1] && text[..m][0] == text[0];
      ValueGrows(next, text[1..][..m - 1]);
      if next < 0x1_0000_0000 {
        AccumulateExactly(text[1..], next, m - 1);
      }
    }
  }

  lemma {:induction false} DigitsLead(text: seq<Byte>) returns (m: nat)
    ensures LeadingDigits(text, m)
  {
    if text == [] || !IsDigit(text[0]) {
      m := 0;
    } else {
      var n := DigitsLead(text[1..]);
      m := n + 1;
      assert forall i :: 0 < i < m ==> text[i] == text[1..][i - 1];
      assert m < |text| ==> text[m] == text[1..][n];
    }
  }

  /** The text starts with at least one digit, and its leading digits stand for a number of 32 bits. */
  ghost predicate StartsWithNumber(text: seq<Byte>, n: Pid) {
    exists m :: 0 < m && LeadingDigits(text, m) && ValueAfter(0, text[..m]) == n
  }

  lemma AtoiExactly(text: seq<Byte>, n: Pid)
    ensures Atoi(text) == Some(n) <==> StartsWithNumber(text, n)
  {
    var m := DigitsLead(text);
    AccumulateExactly(text, 0, m);
    assert forall k :: LeadingDigits(text, k) ==> k == m by { OneLead(text, m); }
    hide ValueAfter, Accumulate;
  }

  lemma OneLead(text: seq<Byte>, m: nat)
    requires LeadingDigits(text, m)
    ensures forall k :: LeadingDigits(text, k) ==> k == m
  {
  }

  /** The word for the kind of an event. */
  ghost function KindOf(event: ProcessEvent): seq<Byte> {
    if event.Add? then [97, 100, 100] else [114, 101, 109]
  }

  /** The second field of the line, which a space may end, starts with the pid. */
  ghost predicate IsEventLine(line: seq<Byte>, event: ProcessEvent) {
    exists field, rest :: IsSplit(line, event, field, rest)
  }

  ghost predicate IsSplit(line: seq<Byte>, event: ProcessEvent, field: seq<Byte>, rest: seq<Byte>) {
    && line == KindOf(event) + [32] + field + rest
    && SPACE !in field && (rest == [] || rest[0] == 32) && StartsWithNumber(field, event.pid)
  }

  /** A first field, the space behind it and what follows. */
  lemma FirstField(text: seq<Byte>, field: seq<Byte>, rest: seq<Byte>)
    requires text == field + rest && SPACE !in field && (rest == [] || rest[0] == SPACE)
    ensures Before(text, SPACE) == field
    ensures rest != [] ==> text[|field| + 1..] == rest[1..]
  {
    BeforeAppended(field, SPACE, rest);
    assert Before(rest, SPACE) == [];
    assert field + [] == field;
  }

  lemma KindIsWord(event: ProcessEvent)
    ensures KindOf(event) == (if event.Add? then ADD else REM) && SPACE !in KindOf(event)
    ensures ADD != REM
  {
    assert ADD[0] != REM[0];
  }

  /** A line with at least two fields, of which the second is read as a number. */
  lemma TwoFields(line: seq<Byte>, name: seq<Byte>, field: seq<Byte>, rest: seq<Byte>)
    requires line == name + ([SPACE] + (field + rest)) && SPACE !in name && SPACE !in field && (rest == [] || rest[0] == SPACE)
    ensures FromBytes(line) ==
            match Atoi(field)
            case None => None
            case Some(pid) => if name == ADD then Some(Add(pid)) else if name == REM then Some(Remove(pid)) else None
  {
    hide Atoi, Before;
    FirstField(line, name, [SPACE] + (field + rest));
    FirstField(field + rest, field, rest);
    assert ([SPACE] + (field + rest))[1..] == field + rest;
  }

  lemma OneField(line: seq<Byte>)
    requires SPACE !in line
    ensures FromBytes(line) == None
  {
    hide Atoi, Before;
    assert line + [] == line;
    FirstField(line, line, []);
  }

  lemma Regroup(a: seq<Byte>, b: seq<Byte>, c: seq<Byte>, d: seq<Byte>)
    ensures a + b + c + d == a + (b + (c + d))
  {
  }

  /** A line is read as an event exactly if it is the word for its kind, a space and a field that starts with its pid. */
  lemma EventExactly(line: seq<Byte>, event: ProcessEvent)
    ensures FromBytes(line) == Some(event) <==> IsEventLine(line, event)
  {
    KindIsWord(event);
    if SPACE in line {
      ReadLineIs(line, event);
    } else {
      OneField(line);
    }
    if IsEventLine(line, event) {
      var field, rest :| IsSplit(line, event, field, rest);
      hide StartsWithNumber, FromBytes, KindOf;
      Regroup(KindOf(event), [32], field, rest);
      TwoFields(line, KindOf(event), field, rest);
      AtoiExactly(field, event.pid);
    }
  }

  lemma ReadLineIs(line: seq<Byte>, event: ProcessEvent)
    requires SPACE in line
    ensures FromBytes(line) == Some(event) ==> IsEventLine(line, event)
  {
    hide Atoi, StartsWithNumber, KindOf, Before;
    BeforeIsPrefix(line, SPACE);
    var name := Before(line, SPACE);
    if |name| < |line| {
      var tail := line[|name| + 1..];
      BeforeIsPrefix(tail, SPACE);
      var field := Before(tail, SPACE);
      var rest := tail[|field|..];
      assert tail == field + rest && (rest == [] || rest[0] == SPACE);
      assert line == name + ([SPACE] + (field + rest));
      TwoFields(line, name, field, rest);
      AtoiExactly(field, event.pid);
      KindIsWord(event);
      Regroup(KindOf(event), [32], field, rest);
      if FromBytes(line) == Some(event) {
        assert name == KindOf(event) && StartsWithNumber(field, event.pid);
        assert IsSplit(line, event, field, rest);
      }
    }
  }

  /** A printed event is read back, with or without its newline. */
  lemma EventRoundTrip(event: ProcessEvent)
    ensures FromBytes(ToBytes(event)) == Some(event)
    ensures FromBytes(ToBytes(event) + [NEWLINE]) == Some(event)
  {
    DigitsAreDigits(event.pid);
    var digits := Digits(event.pid);
    AtoiOfDigits(event.pid, []);
    AtoiOfDigits(event.pid, [NEWLINE]);
    assert digits + [] == digits;
    FromKnownBytes(event.Add?, digits);
    FromKnownBytes(event.Add?, digits + [NEWLINE]);
    var name := if event.Add? then ADD else REM;
    assert ToBytes(event) + [NEWLINE] == name + [SPACE] + (digits + [NEWLINE]);
  }

  lemma NoNewlineInside(event: ProcessEvent)
    ensures NEWLINE !in ToBytes(event)
  {
    DigitsAreDigits(event.pid);
  }

  lemma NextPrinted(event: ProcessEvent, rest: seq<Byte>)
    ensures NextLine(ToBytes(event) + [NEWLINE] + rest) == ToBytes(event) + [NEWLINE]
  {
    var text := ToBytes(event);
    var stream := text + [NEWLINE] + rest;
    NoNewlineInside(event);
    assert stream == text + ([NEWLINE] + rest);
    BeforeAppended(text, NEWLINE, [NEWLINE] + rest);
    assert stream[..|text| + 1] == text + [NEWLINE];
  }

  lemma ParsePrinted(event: ProcessEvent, rest: seq<Byte>)
    ensures ParseAll(ToBytes(event) + [NEWLINE] + rest) == [event] + ParseAll(rest)
  {
    var line := ToBytes(event) + [NEWLINE];
    NextPrinted(event, rest);
    EventRoundTrip(event);
    assert (line + rest)[|line|..] == rest;
  }

  /** Any sequence of events survives being printed, split into lines and parsed. */
  lemma {:induction false} StreamRoundTrip(events: seq<ProcessEvent>)
    ensures ParseAll(PrintAll(events)) == events
  {
    if events != [] {
      StreamRoundTrip(events[1..]);
      ParsePrinted(events[0], PrintAll(events[1..]));
    }
  }

  // ---------------------------------------------------------------------------------------
  // A child that dies while writing
  // ---------------------------------------------------------------------------------------

  /** An event whose pid is the beginning of another event's pid. */
  ghost predicate Abbreviates(short: ProcessEvent, full: ProcessEvent) {
    short.Add? == full.Add? && Digits(short.pid) <= Digits(full.pid)
  }

  lemma {:induction false} DigitsPrefix(n: Pid, m: nat) returns (v: Pid)
    requires 1 <= m <= |Digits(n)|
    ensures Digits(v) == Digits(n)[..m]
    decreases n
  {
    if m == |Digits(n)| {
      v := n;
    } else {
      v := DigitsPrefix(n / 10, m);
      assert Digits(n)[..m] == Digits(n / 10)[..m];
    }
  }

  /** Part of a printed event is no event, or an abbreviation of the event. */
  lemma CutEvent(event: ProcessEvent, cut: nat)
    requires cut <= |ToBytes(event)|
    ensures FromBytes(ToBytes(event)[..cut]).Some? ==> Abbreviates(FromBytes(ToBytes(event)[..cut]).value, event)
  {
    var name := if event.Add? then ADD else REM;
    var digits := Digits(event.pid);
    var text := ToBytes(event)[..cut];
    DigitsAreDigits(event.pid);
    if cut <= 3 {
      assert SPACE !in text;
      BeforeAppended(text, SPACE, []);
      assert text + [] == text;
    } else {
      var number := digits[..cut - 4];
      assert text == name + [SPACE] + number;
      assert forall b :: b in number ==> b in digits;
      FromKnownBytes(event.Add?, number);
      if number != [] {
        var v := DigitsPrefix(event.pid, cut - 4);
        AtoiOfDigits(v, []);
        assert Digits(v) + [] == number;
      }
    }
  }

  /** What was read is the first `n` events, and possibly an abbreviation of the next one. */
  ghost predicate ReadsUpTo(read: seq<ProcessEvent>, events: seq<ProcessEvent>, n: nat) {
    && n <= |events|
    && (|| read == events[..n]
        || (n < |events| && |read| == n + 1 && read[..n] == events[..n] && Abbreviates(read[n], events[n])))
  }

  lemma ReadsOneMore(read: seq<ProcessEvent>, events: seq<ProcessEvent>, n: nat)
    requires events != [] && ReadsUpTo(read, events[1..], n)
    ensures ReadsUpTo([events[0]] + read, events, n + 1)
  {
    hide Abbreviates;
    var more := [events[0]] + read;
    assert events[..n + 1] == [events[0]] + events[1..][..n];
    if read != events[1..][..n] {
      assert more[..n + 1] == [events[0]] + read[..n];
    }
  }

  /** The first `n` events, and no more, were written to the end of their lines. */
  ghost predicate WrittenLines(events: seq<ProcessEvent>, n: nat, cut: nat) {
    n <= |events| && |PrintAll(events[..n])| <= cut && (n < |events| ==> cut < |PrintAll(events[..n + 1])|)
  }

  lemma WrittenOneMore(events: seq<ProcessEvent>, n: nat, cut: nat)
    requires events != [] && WrittenLines(events[1..], n, cut)
    ensures WrittenLines(events, n + 1, cut + |ToBytes(events[0])| + 1)
  {
    assert events[..n + 1][1..] == events[1..][..n];
    if n + 1 < |events| {
      assert events[..n + 2][1..] == events[1..][..n + 1];
    }
    hide ToBytes;
  }

  /**
   * However the stream of a child is cut off, the daemon reads every event whose line was written
   * to its end, and at most one more, which has the kind of the next event and the beginning of its pid.
   */
  lemma {:induction false} CutStream(events: seq<ProcessEvent>, cut: nat)
    requires cut <= |PrintAll(events)|
    ensures exists n :: WrittenLines(events, n, cut) && ReadsUpTo(ParseAll(PrintAll(events)[..cut]), events, n)
  {
    if events == [] || cut == 0 {
      assert PrintAll(events)[..cut] == [];
      assert events[..0] == [] && (events != [] ==> events[..1] == [events[0]]);
      assert WrittenLines(events, 0, cut) && ReadsUpTo(ParseAll([]), events, 0);
    } else if cut <= |ToBytes(events[0])| {
      CutLine(events[0], cut);
      assert PrintAll(events)[..cut] == ToBytes(events[0])[..cut];
      assert events[..0] == [] && events[..1] == [events[0]] && PrintAll(events[..1]) == ToBytes(events[0]) + [NEWLINE] + [];
      hide ParseAll, ToBytes, Abbreviates;
      assert WrittenLines(events, 0, cut) && ReadsUpTo(ParseAll(PrintAll(events)[..cut]), events, 0);
    } else {
      var line, rest := ToBytes(events[0]) + [NEWLINE], PrintAll(events[1..]);
      var left := cut - |line|;
      assert PrintAll(events) == line + rest;
      assert (line + rest)[..cut] == line + rest[..left];
      ParsePrinted(events[0], rest[..left]);
      CutStream(events[1..], left);
      hide ParseAll, PrintAll, ToBytes, Abbreviates, ReadsUpTo, WrittenLines;
      var n :| WrittenLines(events[1..], n, left) && ReadsUpTo(ParseAll(rest[..left]), events[1..], n);
      ReadsOneMore(ParseAll(rest[..left]), events, n);
      WrittenOneMore(events, n, left);
    }
  }

  lemma UnendedLine(event: ProcessEvent)
    ensures ParseAll(ToBytes(event)) == [event]
  {
    var text := ToBytes(event);
    NoNewlineInside(event);
    BeforeAppended(text, NEWLINE, []);
    assert text + [] == text;
    EventRoundTrip(event);
    assert NextLine(text) == text && text[|text|..] == [] && ParseAll([]) == [];
    hide FromBytes, ToBytes, NextLine;
  }

  /** If nothing but the newline of the last event is missing, that event is read. */
  lemma {:induction false} LastNewlineMissing(events: seq<ProcessEvent>, last: ProcessEvent)
    ensures ParseAll(PrintAll(events) + ToBytes(last)) == events + [last]
  {
    hide ParseAll, ToBytes;
    if events == [] {
      UnendedLine(last);
      assert [] + ToBytes(last) == ToBytes(last);
    } else {
      var line, more := ToBytes(events[0]) + [NEWLINE], PrintAll(events[1..]);
      assert line + more + ToBytes(last) == line + (more + ToBytes(last));
      ParsePrinted(events[0], more + ToBytes(last));
      LastNewlineMissing(events[1..], last);
    }
  }

  lemma CutLine(event: ProcessEvent, cut: nat)
    requires 0 < cut <= |ToBytes(event)|
    ensures var read := ParseAll(ToBytes(event)[..cut]);
            read == [] || (|read| == 1 && Abbreviates(read[0], event))
  {
    var text := ToBytes(event)[..cut];
    NoNewlineInside(event);
    assert NEWLINE !in text;
    BeforeAppended(text, NEWLINE, []);
    assert text + [] == text;
    assert NextLine(text) == text && text[|text|..] == [];
    CutEvent(event, cut);
    assert ParseAll(text[|text|..]) == [];
  }
}
