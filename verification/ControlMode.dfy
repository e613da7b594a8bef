/**
 tmux Control Mode: the provider's incremental line parser (internal/adapter/delegatedtmux/control.go)
 and the older batch parser of the same language (tools/interactive-handoff-h0/control.go), both proved
 against one grammar that mentions neither: a document is a list of notifications and command blocks.
 */
module ControlMode {
  import opened Prelude
  import opened Text

  const MAX_LINE_BYTES := 0x1_0000

  datatype Kind = CommandEnd | CommandError | PaneOutput | MessageNote | ClientDetached | Exit | Unknown

  datatype Event = Event(kind: Kind, number: int, pane: string, data: string, raw: string)

  datatype Block = Block(number: int, lines: seq<string>)

  // -------------------------------------------------------- octal output bytes

  predicate IsOctal(c: char) { '0' <= c <= '7' }

  function OctalValue(s: string): nat
    requires |s| == 3 && IsOctal(s[0]) && IsOctal(s[1]) && IsOctal(s[2])
  {
    (s[0] as int - 48) * 64 + (s[1] as int - 48) * 8 + (s[2] as int - 48)
  }

  function Octal(n: nat): (s: string)
    requires n < 512
    ensures |s| == 3 && IsOctal(s[0]) && IsOctal(s[1]) && IsOctal(s[2])
  {
    [(48 + n / 64) as char, (48 + n / 8 % 8) as char, (48 + n % 8) as char]
  }

  lemma OctalRoundTrip(n: nat)
    requires n < 512
    ensures OctalValue(Octal(n)) == n
  {
    var high := n / 8;
    assert n == 8 * high + n % 8 && high == 8 * (high / 8) + high % 8;
    assert n / 64 == high / 8;
  }

  /** One decoding step: the byte at the start of `s` and how many bytes it took. */
  function DecodeByte(s: string): Option<(char, nat)>
    requires s != ""
    ensures DecodeByte(s).Some? ==> 0 < DecodeByte(s).value.1 <= |s|
  {
    if s[0] != '\\' then Some((s[0], 1))
    else if |s| < 4 || !IsOctal(s[1]) || !IsOctal(s[2]) || !IsOctal(s[3]) then None
    else if OctalValue(s[1..4]) > 255 then None
    else Some((OctalValue(s[1..4]) as char, 4))
  }

  function Decoded(s: string): Option<string>
    decreases |s|
  {
    if s == "" then Some("")
    else
      match DecodeByte(s)
      case None => None
      case Some((c, n)) =>
        Prepend([c], Decoded(s[n..]))
  }

  function Prepend(b: string, rest: Option<string>): Option<string> {
    if rest.None? then None else Some(b + rest.value)
  }

  lemma PrependMore(b: string, c: char, rest: Option<string>)
    ensures Prepend(b, Prepend([c], rest)) == Prepend(b + [c], rest)
    ensures Prepend("", rest) == rest
  {
    if rest.Some? {
      assert b + ([c] + rest.value) == b + [c] + rest.value;
      assert "" + rest.value == rest.value;
    }
  }

  /** control.go `decodeControlOutput`. */
  method DecodeControlOutput(s: string) returns (r: Option<string>)
    ensures r == Decoded(s)
  {
    var b := "";
    var i := 0;
    PrependMore("", 'x', Decoded(s));
    assert s[0..] == s;
    while i < |s|
      invariant 0 <= i <= |s|
      invariant Decoded(s) == Prepend(b, Decoded(s[i..]))
      decreases |s| - i
    {
      var rest := s[i..];
      if s[i] != '\\' {
        assert rest[1..] == s[i + 1..];
        PrependMore(b, s[i], Decoded(s[i + 1..]));
        b := b + [s[i]];
        i := i + 1;
      } else {
        if i + 3 >= |s| || !IsOctal(s[i + 1]) || !IsOctal(s[i + 2]) || !IsOctal(s[i + 3]) {
          return None;
        }
        assert rest[1..4] == s[i + 1..i + 4];
        var v := OctalValue(s[i + 1..i + 4]);
        if v > 255 {
          return None;
        }
        assert rest[4..] == s[i + 4..];
        PrependMore(b, v as char, Decoded(s[i + 4..]));
        b := b + [v as char];
        i := i + 4;
      }
    }
    assert s[i..] == "";
    assert b + "" == b;
    return Some(b);
  }

  /** tmux's escaping, for any choice of bytes to escape that includes the backslash. */
  function Escaped(s: string, escape: char -> bool): string
    requires forall i | 0 <= i < |s| :: s[i] as int < 256
  {
    if s == "" then ""
    else (if escape(s[0]) then "\\" + Octal(s[0] as int) else [s[0]]) + Escaped(s[1..], escape)
  }

  /** Decoding inverts escaping for every byte string. */
  lemma {:induction false} DecodeInvertsEscape(s: string, escape: char -> bool)
    requires forall i | 0 <= i < |s| :: s[i] as int < 256
    requires escape('\\')
    ensures Decoded(Escaped(s, escape)) == Some(s)
    decreases |s|
  {
    if s != "" {
      DecodeInvertsEscape(s[1..], escape);
      var tail := Escaped(s[1..], escape);
      var text := Escaped(s, escape);
      if escape(s[0]) {
        OctalRoundTrip(s[0] as int);
        assert text[1..4] == Octal(s[0] as int) && text[4..] == tail;
      } else {
        assert text[1..] == tail;
      }
      assert [s[0]] + s[1..] == s;
    }
  }

  /** The text begins with the octal escape of a byte. */
  ghost predicate Escapes(text: string, c: char) {
    |text| >= 4 && c as int < 256 && text[..4] == "\\" + Octal(c as int)
  }

  /** The text stands for the bytes: each byte for itself, but a backslash never, or as its octal escape. */
  ghost predicate Spells(text: string, bytes: string)
    decreases |bytes|
  {
    if bytes == "" then text == ""
    else
      || (text != "" && text[0] == bytes[0] != '\\' && Spells(text[1..], bytes[1..]))
      || (Escapes(text, bytes[0]) && Spells(text[4..], bytes[1..]))
  }

  /** Three octal digits are the octal form of the value they spell. */
  lemma OctalOfValue(s: string)
    requires |s| == 3 && IsOctal(s[0]) && IsOctal(s[1]) && IsOctal(s[2])
    ensures OctalValue(s) < 512 && Octal(OctalValue(s)) == s
  {
    var n, a, b, c := OctalValue(s), s[0] as int - 48, s[1] as int - 48, s[2] as int - 48;
    assert n == 8 * (8 * a + b) + c;
    assert n / 8 == 8 * a + b && n % 8 == c;
    assert n / 64 == a && n / 8 % 8 == b;
  }

  /** Output decodes exactly when it spells some bytes, and to those. */
  lemma {:induction false} DecodedExactlyWhen(text: string, bytes: string)
    ensures Decoded(text) == Some(bytes) <==> Spells(text, bytes)
    decreases |text|
  {
    if text != "" {
      var step := DecodeByte(text);
      if step.Some? {
        var (c, n) := step.value;
        if n == 4 {
          OctalOfValue(text[1..4]);
          assert text[..4] == "\\" + text[1..4];
        }
        hide Octal, OctalValue;
        if bytes != "" {
          DecodedExactlyWhen(text[n..], bytes[1..]);
          SpellsOne(text, bytes);
          assert [bytes[0]] + bytes[1..] == bytes;
        }
      } else if Spells(text, bytes) {
        SpellsOne(text, bytes);
      }
    }
  }

  /** An escape is read as the byte it stands for. */
  lemma EscapeStep(text: string, c: char)
    requires text != ""
    ensures Escapes(text, c) <==> text[0] == '\\' && DecodeByte(text) == Some((c, 4))
  {
    if Escapes(text, c) {
      OctalRoundTrip(c as int);
      assert text[1..4] == Octal(c as int);
      assert text[1] == text[1..4][0] && text[2] == text[1..4][1] && text[3] == text[1..4][2];
    }
    if text[0] == '\\' && DecodeByte(text) == Some((c, 4)) {
      OctalOfValue(text[1..4]);
      assert text[..4] == "\\" + text[1..4];
    }
    hide Octal, OctalValue;
  }

  lemma SpellsOne(text: string, bytes: string)
    requires text != "" && bytes != ""
    ensures Spells(text, bytes) <==>
            var step := DecodeByte(text);
            step.Some? && step.value.0 == bytes[0] && Spells(text[step.value.1..], bytes[1..])
  {
    EscapeStep(text, bytes[0]);
    hide Octal, OctalValue, Escapes;
  }

  // ------------------------------------------------------------------- lines

  /** The command number of a `%begin`, `%end` or `%error` line: four fields, a 64-bit time, a
      non-negative number and unsigned flags. */
  function BlockNumber(line: string, keywords: set<string>): Option<int> {
    var f := Fields(line);
    if |f| != 4 || f[0] !in keywords then None
    else if ParseInt64(f[1]).None? then None
    else if ParseInt64(f[2]).None? || ParseInt64(f[2]).value < 0 then None
    else if ParseUint64(f[3]).None? then None
    else ParseInt64(f[2])
  }

  function ParseBegin(line: string): Option<int> { BlockNumber(line, {"%begin"}) }

  function ParseTerminator(line: string): Option<int> { BlockNumber(line, {"%end", "%error"}) }

  function NotificationData(line: string, prefix: string): string { TrimPrefix(TrimPrefix(line, prefix), " ") }

  function ParseOutput(line: string): Option<Event> {
    var rest := TrimPrefix(line, "%output ");
    var space := IndexOf(rest, ' ');
    if space <= 0 then None
    else
      var pane := rest[..space];
      if |pane| < 2 || pane[0] != '%' then None
      else
        match Decoded(rest[space + 1..])
        case None => None
        case Some(data) => Some(Event(PaneOutput, 0, pane, data, ""))
  }

  function ParseNotification(line: string): Option<Event> {
    if HasPrefix(line, "%output ") then ParseOutput(line)
    else if HasPrefix(line, "%message") then Some(Event(MessageNote, 0, "", NotificationData(line, "%message"), ""))
    else if HasPrefix(line, "%client-detached") then
      Some(Event(ClientDetached, 0, "", NotificationData(line, "%client-detached"), ""))
    else if HasPrefix(line, "%exit") then Some(Event(Exit, 0, "", NotificationData(line, "%exit"), ""))
    else if HasPrefix(line, "%end ") || HasPrefix(line, "%error ") then None
    else Some(Event(Unknown, 0, "", "", line))
  }

  predicate IsTerminator(line: string) { HasPrefix(line, "%end ") || HasPrefix(line, "%error ") }

  function CommandEvent(number: int, line: string, lines: seq<string>): Event {
    Event(if HasPrefix(line, "%error ") then CommandError else CommandEnd, number, "", Join(lines, "\n"), "")
  }

  // -------------------------------------------------------- incremental parser

  datatype LineResult = Rejected | Accepted(event: Option<Event>, block: Option<Block>)

  /** control.go `parseControlLine`. */
  function ParseControlLine(line: string, block: Option<Block>): LineResult {
    if |line| >= MAX_LINE_BYTES then Rejected
    else
      match block
      case Some(b) =>
        if HasPrefix(line, "%begin ") then Rejected
        else if IsTerminator(line) then
          var number := ParseTerminator(line);
          if number != Some(b.number) then Rejected
          else Accepted(Some(CommandEvent(number.value, line, b.lines)), None)
        else if HasPrefix(line, "%") then Rejected
        else Accepted(None, Some(Block(b.number, b.lines + [line])))
      case None =>
        if HasPrefix(line, "%begin ") then
          match ParseBegin(line)
          case None => Rejected
          case Some(number) => Accepted(None, Some(Block(number, [])))
        else if !HasPrefix(line, "%") then Rejected
        else
          match ParseNotification(line)
          case None => Rejected
          case Some(event) => Accepted(Some(event), None)
  }

  function Emit(event: Option<Event>, rest: Option<seq<Event>>): Option<seq<Event>> {
    if rest.None? then None
    else if event.None? then rest
    else Some([event.value] + rest.value)
  }

  /** The line parser folded over a list of lines; an open block at the end is an error. */
  function FoldFrom(lines: seq<string>, block: Option<Block>): Option<seq<Event>> {
    if lines == [] then if block.None? then Some([]) else None
    else
      match ParseControlLine(lines[0], block)
      case Rejected => None
      case Accepted(event, next) => Emit(event, FoldFrom(lines[1..], next))
  }

  function Fold(lines: seq<string>): Option<seq<Event>> { FoldFrom(lines, None) }

  function After(events: seq<Event>, rest: Option<seq<Event>>): Option<seq<Event>> {
    if rest.None? then None else Some(events + rest.value)
  }

  lemma FoldNext(lines: seq<string>, i: nat, block: Option<Block>)
    requires i < |lines|
    ensures FoldFrom(lines[i..], block) ==
            match ParseControlLine(lines[i], block)
            case Rejected => None
            case Accepted(event, next) => Emit(event, FoldFrom(lines[i + 1..], next))
  {
    assert lines[i..][1..] == lines[i + 1..];
  }

  lemma AfterEmit(events: seq<Event>, event: Event, rest: Option<seq<Event>>)
    ensures After(events, Emit(Some(event), rest)) == After(events + [event], rest)
    ensures After([], rest) == rest
  {
    if rest.Some? {
      assert [] + rest.value == rest.value;
      assert events + ([event] + rest.value) == events + [event] + rest.value;
    }
  }

  /** control.go `parseControl`: the provider's parser over a finite stream. */
  method ParseControl(lines: seq<string>) returns (r: Option<seq<Event>>)
    ensures r == Fold(lines)
  {
    var events: seq<Event> := [];
    var block: Option<Block> := None;
    var i := 0;
    assert lines[0..] == lines;
    AfterEmit([], Event(Unknown, 0, "", "", ""), Fold(lines));
    while i < |lines|
      invariant 0 <= i <= |lines|
      invariant Fold(lines) == After(events, FoldFrom(lines[i..], block))
    {
      hide FoldFrom, ParseControlLine;
      FoldNext(lines, i, block);
      var result := ParseControlLine(lines[i], block);
      if result.Rejected? {
        return None;
      }
      block := result.block;
      if result.event.Some? {
        AfterEmit(events, result.event.value, FoldFrom(lines[i + 1..], block));
        events := events + [result.event.value];
      }
      i := i + 1;
    }
    assert events + [] == events;
    return if block.Some? then None else Some(events);
  }

  /** tools/interactive-handoff-h0/control.go `parseControl`: one loop with the block state inline. It
      accepts exactly what the incremental parser accepts, with the same events. */
  method BatchParse(lines: seq<string>) returns (r: Option<seq<Event>>)
    ensures r == Fold(lines)
  {
    var events: seq<Event> := [];
    var block: Option<Block> := None;
    var i := 0;
    assert lines[0..] == lines;
    AfterEmit([], Event(Unknown, 0, "", "", ""), Fold(lines));
    while i < |lines|
      invariant 0 <= i <= |lines|
      invariant Fold(lines) == After(events, FoldFrom(lines[i..], block))
    {
      hide FoldFrom, ParseNotification, BlockNumber, CommandEvent;
      FoldNext(lines, i, block);
      var line := lines[i];
      i := i + 1;
      if |line| >= MAX_LINE_BYTES {
        return None;
      }
      if block.Some? {
        if HasPrefix(line, "%begin ") {
          return None;
        }
        if HasPrefix(line, "%end ") || HasPrefix(line, "%error ") {
          var number := ParseTerminator(line);
          if number.None? || number.value != block.value.number {
            return None;
          }
          var event := CommandEvent(block.value.number, line, block.value.lines);
          AfterEmit(events, event, FoldFrom(lines[i..], None));
          events := events + [event];
          block := None;
          continue;
        }
        if HasPrefix(line, "%") {
          return None;
        }
        block := Some(Block(block.value.number, block.value.lines + [line]));
        continue;
      }
      if HasPrefix(line, "%begin ") {
        var number := ParseBegin(line);
        if number.None? {
          return None;
        }
        block := Some(Block(number.value, []));
        continue;
      }
      if !HasPrefix(line, "%") {
        return None;
      }
      var event := ParseNotification(line);
      if event.None? {
        return None;
      }
      AfterEmit(events, event.value, FoldFrom(lines[i..], None));
      events := events + [event.value];
    }
    assert events + [] == events;
    return if block.Some? then None else Some(events);
  }

  // ----------------------------------------------------------------- grammar

  /** One construct of the language: a notification line, or a command's begin, body and end lines. */
  datatype Item = Note(line: string) | Command(begin: string, body: seq<string>, end: string)

  predicate ShortLine(line: string) { |line| < 64 * 1024 }

  ghost predicate WellFormed(item: Item) {
    match item
    case Note(line) =>
      && ShortLine(line) && HasPrefix(line, "%") && !HasPrefix(line, "%begin ")
      && ParseNotification(line).Some?
    case Command(begin, body, end) =>
      && ShortLine(begin) && HasPrefix(begin, "%begin ") && ParseBegin(begin).Some?
      && (forall i | 0 <= i < |body| :: ShortLine(body[i]) && !HasPrefix(body[i], "%"))
      && ShortLine(end) && IsTerminator(end) && ParseTerminator(end) == ParseBegin(begin)
  }

  function LinesOf(item: Item): seq<string> {
    match item
    case Note(line) => [line]
    case Command(begin, body, end) => [begin] + body + [end]
  }

  ghost function EventOf(item: Item): Event
    requires WellFormed(item)
  {
    match item
    case Note(line) => ParseNotification(line).value
    case Command(begin, body, end) => CommandEvent(ParseBegin(begin).value, end, body)
  }

  function Flatten(items: seq<Item>): seq<string> {
    if items == [] then [] else LinesOf(items[0]) + Flatten(items[1..])
  }

  ghost function EventsOf(items: seq<Item>): seq<Event>
    requires forall item | item in items :: WellFormed(item)
  {
    if items == [] then [] else [EventOf(items[0])] + EventsOf(items[1..])
  }

  lemma TerminatorIsNotBegin(line: string)
    requires IsTerminator(line)
    ensures !HasPrefix(line, "%begin ") && HasPrefix(line, "%")
  {
    assert line[1] == 'e';
  }

  /** Reading the body and end of a command from inside its block. */
  lemma {:induction false} FoldBody(number: int, read: seq<string>, body: seq<string>, end: string, rest: seq<string>)
    requires forall i | 0 <= i < |body| :: ShortLine(body[i]) && !HasPrefix(body[i], "%")
    requires ShortLine(end) && IsTerminator(end) && ParseTerminator(end) == Some(number)
    ensures FoldFrom(body + [end] + rest, Some(Block(number, read))) ==
            Emit(Some(CommandEvent(number, end, read + body)), FoldFrom(rest, None))
    decreases |body|
  {
    hide BlockNumber, CommandEvent, ParseNotification;
    var lines := body + [end] + rest;
    TerminatorIsNotBegin(end);
    if body == [] {
      assert lines[0] == end && lines[1..] == rest && read + body == read;
    } else {
      assert lines[0] == body[0] && lines[1..] == body[1..] + [end] + rest;
      assert !HasPrefix(body[0], "%begin ") && !IsTerminator(body[0]) by {
        assert body[0] == "" || body[0][0] != '%';
      }
      FoldBody(number, read + [body[0]], body[1..], end, rest);
      assert read + [body[0]] + body[1..] == read + body;
    }
  }

  lemma FoldNote(line: string, rest: seq<string>)
    requires WellFormed(Note(line))
    ensures FoldFrom([line] + rest, None) == Emit(Some(ParseNotification(line).value), FoldFrom(rest, None))
  {
    hide ParseNotification, BlockNumber;
    assert ([line] + rest)[1..] == rest;
  }

  lemma FoldCommand(begin: string, body: seq<string>, end: string, rest: seq<string>)
    requires WellFormed(Command(begin, body, end))
    ensures FoldFrom([begin] + body + [end] + rest, None) ==
            Emit(Some(CommandEvent(ParseBegin(begin).value, end, body)), FoldFrom(rest, None))
  {
    hide BlockNumber, CommandEvent, ParseNotification, IsTerminator;
    var lines := [begin] + body + [end] + rest;
    assert lines[0] == begin && lines[1..] == body + [end] + rest;
    FoldBody(ParseBegin(begin).value, [], body, end, rest);
    assert [] + body == body;
  }

  lemma {:induction false} FoldItem(item: Item, rest: seq<string>)
    requires WellFormed(item)
    ensures FoldFrom(LinesOf(item) + rest, None) == Emit(Some(EventOf(item)), FoldFrom(rest, None))
  {
    hide FoldFrom, BlockNumber, CommandEvent, ParseNotification;
    match item
    case Note(line) => FoldNote(line, rest);
    case Command(begin, body, end) => FoldCommand(begin, body, end, rest);
  }

  /** Printing a document and parsing it gives its events back. */
  lemma {:induction false} ParsePrinted(items: seq<Item>)
    requires forall item | item in items :: WellFormed(item)
    ensures Fold(Flatten(items)) == Some(EventsOf(items))
    decreases |items|
  {
    if items != [] {
      ParsePrinted(items[1..]);
      FoldItem(items[0], Flatten(items[1..]));
    }
  }

  /** What lies between an open block and the rest of an accepted document. */
  lemma {:induction false} SplitBody(lines: seq<string>, b: Block)
    returns (body: seq<string>, end: string, rest: seq<string>)
    requires FoldFrom(lines, Some(b)).Some?
    ensures lines == body + [end] + rest
    ensures forall i | 0 <= i < |body| :: ShortLine(body[i]) && !HasPrefix(body[i], "%")
    ensures ShortLine(end) && IsTerminator(end) && ParseTerminator(end) == Some(b.number)
    decreases |lines|
  {
    hide BlockNumber, CommandEvent, ParseNotification;
    var line := lines[0];
    if IsTerminator(line) {
      body, end, rest := [], line, lines[1..];
    } else {
      var tail;
      tail, end, rest := SplitBody(lines[1..], Block(b.number, b.lines + [line]));
      body := [line] + tail;
    }
  }

  lemma {:induction false} ReadItems(lines: seq<string>) returns (items: seq<Item>)
    requires Fold(lines).Some?
    ensures forall item | item in items :: WellFormed(item)
    ensures Flatten(items) == lines
    decreases |lines|
  {
    if lines == [] {
      items := [];
    } else {
      var item, rest := ReadItem(lines);
      FoldItem(item, rest);
      var more := ReadItems(rest);
      items := [item] + more;
    }
  }

  lemma ReadItem(lines: seq<string>) returns (item: Item, rest: seq<string>)
    requires lines != [] && Fold(lines).Some?
    ensures WellFormed(item) && lines == LinesOf(item) + rest
    ensures |rest| < |lines|
  {
    hide BlockNumber, CommandEvent, ParseNotification;
    if HasPrefix(lines[0], "%begin ") {
      var body, end;
      body, end, rest := SplitBody(lines[1..], Block(ParseBegin(lines[0]).value, []));
      item := Command(lines[0], body, end);
    } else {
      item, rest := Note(lines[0]), lines[1..];
    }
  }

  /** `lines` is the text of a document with these events. */
  ghost predicate Document(lines: seq<string>, events: seq<Event>) {
    exists items: seq<Item> ::
      (forall item | item in items :: WellFormed(item)) && Flatten(items) == lines && EventsOf(items) == events
  }

  /** Both parsers accept exactly the documents, and return exactly their events. */
  lemma ParserMeetsGrammar(lines: seq<string>, events: seq<Event>)
    ensures Fold(lines) == Some(events) <==> Document(lines, events)
  {
    if Fold(lines) == Some(events) {
      var items := ReadItems(lines);
      ParsePrinted(items);
    }
    if Document(lines, events) {
      var items: seq<Item> :|
        (forall item | item in items :: WellFormed(item)) && Flatten(items) == lines && EventsOf(items) == events;
      ParsePrinted(items);
    }
  }

  // ---------------------------------------------------------------- printing

  function BlockLine(keyword: string, time: nat, number: nat, flags: nat): string {
    Join([keyword, Decimal(time), Decimal(number), Decimal(flags)], " ")
  }

  lemma BlockLineFields(keyword: string, time: nat, number: nat, flags: nat)
    requires keyword in {"%begin", "%end", "%error"}
    ensures Fields(BlockLine(keyword, time, number, flags)) == [keyword, Decimal(time), Decimal(number), Decimal(flags)]
    ensures HasPrefix(BlockLine(keyword, time, number, flags), keyword + " ")
  {
    hide Fields, Decimal;
    var words := [keyword, Decimal(time), Decimal(number), Decimal(flags)];
    DecimalIsGraphic(time);
    DecimalIsGraphic(number);
    DecimalIsGraphic(flags);
    FieldsOfWords(words);
    assert Join(words, " ") == keyword + " " + Join(words[1..], " ");
  }

  lemma BlockLineNumber(keyword: string, time: nat, number: nat, flags: nat, keywords: set<string>)
    requires keyword in keywords && keyword in {"%begin", "%end", "%error"}
    requires time <= MAX_INT64 && number <= MAX_INT64 && flags <= MAX_UINT64
    ensures BlockNumber(BlockLine(keyword, time, number, flags), keywords) == Some(number)
    ensures HasPrefix(BlockLine(keyword, time, number, flags), keyword + " ")
  {
    hide Fields, Decimal, ParseInt64, ParseUint64, BlockLine, HasPrefix;
    BlockLineFields(keyword, time, number, flags);
    ParseDecimal(time);
    ParseDecimal(number);
    ParseDecimal(flags);
  }

  lemma DecimalIsGraphic(n: nat)
    ensures Decimal(n) != "" && forall i | 0 <= i < |Decimal(n)| :: Graphic(Decimal(n)[i])
  {
    assert AllDigits(Decimal(n));
  }

  /** A block as tmux prints it is a well-formed command whose event carries its number and body. */
  lemma {:induction false} PrintedBlock(time: nat, number: nat, flags: nat, body: seq<string>, failed: bool, time': nat,
                                        flags': nat)
    requires time <= MAX_INT64 && number <= MAX_INT64 && flags <= MAX_UINT64 && time' <= MAX_INT64 &&
             flags' <= MAX_UINT64
    requires forall i | 0 <= i < |body| :: ShortLine(body[i]) && !HasPrefix(body[i], "%")
    requires ShortLine(BlockLine("%begin", time, number, flags))
    requires ShortLine(BlockLine(if failed then "%error" else "%end", time', number, flags'))
    ensures var item := Command(BlockLine("%begin", time, number, flags), body,
                                BlockLine(if failed then "%error" else "%end", time', number, flags'));
            && WellFormed(item)
            && EventOf(item) == Event(if failed then CommandError else CommandEnd, number, "", Join(body, "\n"), "")
  {
    hide *;
    BlockLineNumber("%begin", time, number, flags, {"%begin"});
    var keyword := if failed then "%error" else "%end";
    BlockLineNumber(keyword, time', number, flags', {"%end", "%error"});
    CommandOf(BlockLine("%begin", time, number, flags), body, BlockLine(keyword, time', number, flags'), number,
      failed);
  }

  lemma {:induction false} CommandOf(begin: string, body: seq<string>, end: string, number: int, failed: bool)
    requires ShortLine(begin) && ShortLine(end)
    requires forall i | 0 <= i < |body| :: ShortLine(body[i]) && !HasPrefix(body[i], "%")
    requires HasPrefix(begin, "%begin" + " ") && BlockNumber(begin, {"%begin"}) == Some(number)
    requires HasPrefix(end, if failed then "%error" + " " else "%end" + " ")
    requires BlockNumber(end, {"%end", "%error"}) == Some(number)
    ensures WellFormed(Command(begin, body, end))
    ensures EventOf(Command(begin, body, end)) ==
            Event(if failed then CommandError else CommandEnd, number, "", Join(body, "\n"), "")
  {
    hide BlockNumber, Join, ShortLine;
    assert "%begin" + " " == "%begin ";
    TerminatorKind(end, failed);
  }

  lemma TerminatorKind(line: string, failed: bool)
    requires HasPrefix(line, if failed then "%error" + " " else "%end" + " ")
    ensures IsTerminator(line)
    ensures HasPrefix(line, "%error ") <==> failed
  {
    assert "%error" + " " == "%error " && "%end" + " " == "%end ";
    assert line[2] == if failed then 'r' else 'n';
  }

  /** An output notification as tmux prints it is well formed, and its event carries the pane's bytes. */
  lemma {:induction false} PrintedOutput(pane: string, data: string, escape: char -> bool)
    requires |pane| >= 2 && pane[0] == '%' && ' ' !in pane
    requires forall i | 0 <= i < |data| :: data[i] as int < 256
    requires escape('\\')
    requires ShortLine("%output " + pane + " " + Escaped(data, escape))
    ensures var item := Note("%output " + pane + " " + Escaped(data, escape));
            WellFormed(item) && EventOf(item) == Event(PaneOutput, 0, pane, data, "")
  {
    hide *;
    DecodeInvertsEscape(data, escape);
    ParseOutputLine(pane, Escaped(data, escape), data);
    var line := "%output " + pane + " " + Escaped(data, escape);
    assert line[..8] == "%output " && line[8..] == pane + " " + Escaped(data, escape);
    OutputPrefix(line, pane + " " + Escaped(data, escape));
    OutputNote(line, Event(PaneOutput, 0, pane, data, ""));
  }

  lemma OutputNote(line: string, event: Event)
    requires HasPrefix(line, "%output ") && HasPrefix(line, "%") && !HasPrefix(line, "%begin ")
    requires ShortLine(line) && ParseOutput(line) == Some(event)
    ensures WellFormed(Note(line)) && EventOf(Note(line)) == event
  {
    hide ParseOutput, HasPrefix;
  }

  lemma ParseOutputLine(pane: string, text: string, data: string)
    requires |pane| >= 2 && pane[0] == '%' && ' ' !in pane
    requires Decoded(text) == Some(data)
    ensures ParseOutput("%output " + pane + " " + text) == Some(Event(PaneOutput, 0, pane, data, ""))
  {
    hide Decoded, IndexOf, TrimPrefix, HasPrefix;
    var rest := pane + " " + text;
    var line := "%output " + pane + " " + text;
    assert line[..8] == "%output " && line[8..] == rest;
    OutputPrefix(line, rest);
    IndexOfFirst(pane, text, ' ');
    assert rest[..|pane|] == pane && rest[|pane| + 1..] == text;
  }

  lemma OutputPrefix(line: string, rest: string)
    requires |line| == 8 + |rest| && line[..8] == "%output " && line[8..] == rest
    ensures HasPrefix(line, "%output ") && HasPrefix(line, "%") && !HasPrefix(line, "%begin ")
    ensures TrimPrefix(line, "%output ") == rest
  {
    assert line == "%output " + rest;
    assert line[1] == 'o';
  }

  lemma {:induction false} IndexOfFirst(a: string, b: string, c: char)
    requires c !in a
    ensures IndexOf(a + [c] + b, c) == |a|
    decreases |a|
  {
    if a != "" {
      assert (a + [c] + b)[1..] == a[1..] + [c] + b;
      IndexOfFirst(a[1..], b, c);
    }
  }

  // ------------------------------------------------------- every line, exactly

  /** An output notification is accepted exactly when it names a pane and its text spells the bytes. */
  lemma OutputExactlyWhen(line: string, pane: string, data: string)
    requires HasPrefix(line, "%output ")
    ensures ParseNotification(line) == Some(Event(PaneOutput, 0, pane, data, "")) <==>
            exists text :: line == "%output " + pane + " " + text && Spells(text, data) &&
                           |pane| >= 2 && pane[0] == '%' && ' ' !in pane
    ensures ParseNotification(line).Some? ==>
              var e := ParseNotification(line).value; e == Event(PaneOutput, 0, e.pane, e.data, "")
  {
    var rest := TrimPrefix(line, "%output ");
    assert line == "%output " + rest;
    hide Decoded, Spells;
    var space := IndexOf(rest, ' ');
    if ParseNotification(line) == Some(Event(PaneOutput, 0, pane, data, "")) {
      var text := rest[space + 1..];
      assert rest == pane + " " + text;
      assert line == "%output " + pane + " " + text;
      DecodedExactlyWhen(text, data);
    }
    if text :| line == "%output " + pane + " " + text && Spells(text, data) && |pane| >= 2 && pane[0] == '%' &&
               ' ' !in pane {
      DecodedExactlyWhen(text, data);
      ParseOutputLine(pane, text, data);
    }
  }

  /** The line begins with no keyword the parser knows. */
  predicate IsUnknown(line: string) {
    && !HasPrefix(line, "%output ") && !HasPrefix(line, "%message") && !HasPrefix(line, "%client-detached")
    && !HasPrefix(line, "%exit") && !HasPrefix(line, "%end ") && !HasPrefix(line, "%error ")
  }

  function Unspaced(text: string): string { if text != "" && text[0] == ' ' then text[1..] else text }

  /** What every other line outside a block gives: a message, a detachment or an exit with its text, an error
      for a stray end of a block, and for anything else an unknown notification with the whole line. */
  lemma NotificationMeans(text: string)
    ensures ParseNotification("%message" + text) == Some(Event(MessageNote, 0, "", Unspaced(text), ""))
    ensures ParseNotification("%client-detached" + text) == Some(Event(ClientDetached, 0, "", Unspaced(text), ""))
    ensures ParseNotification("%exit" + text) == Some(Event(Exit, 0, "", Unspaced(text), ""))
    ensures ParseNotification("%end " + text) == None && ParseNotification("%error " + text) == None
    ensures IsUnknown(text) ==> ParseNotification(text) == Some(Event(Unknown, 0, "", "", text))
  {
    hide ParseOutput, HasPrefix, TrimPrefix, ParseNotification;
    MessageMeans(text);
    DetachedMeans(text);
    ExitMeans(text);
    StrayEndMeans(text);
    UnknownMeans(text);
  }

  lemma Prefixed(keyword: string, text: string)
    ensures HasPrefix(keyword + text, keyword) && TrimPrefix(keyword + text, keyword) == text
  {
    assert (keyword + text)[..|keyword|] == keyword;
  }

  /** A line does not begin with a keyword that differs from it at some position. */
  lemma OtherPrefix(line: string, keyword: string, k: nat)
    requires k < |line| && k < |keyword| && line[k] != keyword[k]
    ensures !HasPrefix(line, keyword)
  {
  }

  lemma MessageMeans(text: string)
    ensures ParseNotification("%message" + text) == Some(Event(MessageNote, 0, "", Unspaced(text), ""))
  {
    hide ParseOutput;
    Prefixed("%message", text);
    OtherPrefix("%message" + text, "%output ", 1);
  }

  lemma DetachedMeans(text: string)
    ensures ParseNotification("%client-detached" + text) == Some(Event(ClientDetached, 0, "", Unspaced(text), ""))
  {
    hide ParseOutput;
    Prefixed("%client-detached", text);
    OtherPrefix("%client-detached" + text, "%output ", 1);
    OtherPrefix("%client-detached" + text, "%message", 1);
  }

  lemma ExitMeans(text: string)
    ensures ParseNotification("%exit" + text) == Some(Event(Exit, 0, "", Unspaced(text), ""))
  {
    hide ParseOutput;
    Prefixed("%exit", text);
    OtherPrefix("%exit" + text, "%output ", 1);
    OtherPrefix("%exit" + text, "%message", 1);
    OtherPrefix("%exit" + text, "%client-detached", 1);
  }

  lemma StrayEndMeans(text: string)
    ensures ParseNotification("%end " + text) == None && ParseNotification("%error " + text) == None
  {
    hide ParseOutput;
    forall keyword | keyword == "%end " || keyword == "%error "
      ensures ParseNotification(keyword + text) == None
    {
      Prefixed(keyword, text);
      OtherPrefix(keyword + text, "%output ", 1);
      OtherPrefix(keyword + text, "%message", 1);
      OtherPrefix(keyword + text, "%client-detached", 1);
      OtherPrefix(keyword + text, "%exit", 2);
    }
  }

  lemma UnknownMeans(line: string)
    ensures IsUnknown(line) ==> ParseNotification(line) == Some(Event(Unknown, 0, "", "", line))
  {
    hide ParseOutput, HasPrefix;
  }

  /** A begin or end line, however it is spaced, numbers its block exactly when it has a keyword, a time, a
      non-negative number and unsigned flags, and nothing else. */
  lemma BlockLineExactlyWhen(gaps: seq<nat>, words: seq<string>, number: int)
    requires SetOff(gaps, words)
    ensures var numbered := |words| == 4 && ParseInt64(words[1]).Some? && ParseInt64(words[2]) == Some(number) &&
                            number >= 0 && ParseUint64(words[3]).Some?;
            && (ParseBegin(Spread(gaps, words)) == Some(number) <==> numbered && words[0] == "%begin")
            && (ParseTerminator(Spread(gaps, words)) == Some(number) <==>
                  numbered && (words[0] == "%end" || words[0] == "%error"))
  {
    FieldsOfSpread(gaps, words);
    hide Fields, Spread, ParseInt64, ParseUint64;
  }
}
