/**
 * The dashboard's event-stream reader (src/features/dashboard/dashboard-events.ts) and the frames the
 * server writes for it (src/server/events.ts). Text is what the decoder yields; a character is a
 * UTF-16 code unit.
 */
module DashboardEvents {

  const MAX_EVENT_BYTES: nat := 65536

  datatype Event = Event(kind: string, data: string)

  /** The reader's variables between two lines. */
  datatype Parser = Parser(eventType: string, dataLines: seq<string>, eventBytes: nat)

  datatype Accepted = TooLarge | Accepted(parser: Parser, delivered: seq<Event>)

  /** What the consumer has been given, and whether the stream was then refused as too large. */
  datatype Outcome = Outcome(delivered: seq<Event>, refused: bool)

  function Initial(): Parser { Parser("message", [], 0) }

  // ---- one line ----

  function Scan(s: string, c: char, i: nat): (r: nat)
    requires i <= |s|
    ensures i <= r <= |s|
    ensures r < |s| ==> s[r] == c
    ensures forall k :: i <= k < r ==> s[k] != c
    decreases |s| - i
  {
    if i == |s| || s[i] == c then i else Scan(s, c, i + 1)
  }

  /** The first position of `c`, or the length when there is none. */
  function IndexOf(s: string, c: char): nat { Scan(s, c, 0) }

  lemma IndexIs(s: string, c: char, i: nat)
    requires i <= |s| && (i < |s| ==> s[i] == c) && forall k :: 0 <= k < i ==> s[k] != c
    ensures IndexOf(s, c) == i
  {
  }

  function StripReturn(s: string): string {
    if s != [] && s[|s| - 1] == '\r' then s[..|s| - 1] else s
  }

  function StripSpace(s: string): string {
    if s != [] && s[0] == ' ' then s[1..] else s
  }

  function Join(lines: seq<string>): string
    decreases |lines|
  {
    if lines == [] then []
    else if |lines| == 1 then lines[0]
    else lines[0] + ['\n'] + Join(lines[1..])
  }

  function Field(line: string): string { line[..IndexOf(line, ':')] }

  function Value(line: string): string {
    var separator := IndexOf(line, ':');
    if separator == |line| then [] else StripSpace(line[separator + 1..])
  }

  function AcceptLine(p: Parser, line: string): Accepted {
    if line == [] then
      Accepted(Initial(), if p.dataLines == [] then [] else [Event(p.eventType, Join(p.dataLines))])
    else if line[0] == ':' then Accepted(p, [])
    else
      var eventType := if Field(line) == "event" then Value(line) else p.eventType;
      var dataLines := if Field(line) == "data" then p.dataLines + [Value(line)] else p.dataLines;
      if p.eventBytes + |line| > MAX_EVENT_BYTES then TooLarge
      else Accepted(Parser(eventType, dataLines, p.eventBytes + |line|), [])
  }

  /** What a line does to the parser; chunking is a matter of how such a rule is fed, not of the rule. */
  type LineRule = (Parser, string) -> Accepted

  /** Only an empty line delivers events. */
  ghost predicate DeliversOnBlank(rule: LineRule) {
    forall p, line :: line != [] && rule(p, line).Accepted? ==> rule(p, line).delivered == []
  }

  // ---- the whole text at once: the reference reading ----

  function After(delivered: seq<Event>, rest: Outcome): Outcome {
    Outcome(delivered + rest.delivered, rest.refused)
  }

  function ReadText(rule: LineRule, p: Parser, text: string): Outcome
    decreases |text|
  {
    var i := IndexOf(text, '\n');
    if i == |text| then Outcome([], |text| > MAX_EVENT_BYTES)
    else
      match rule(p, StripReturn(text[..i]))
      case TooLarge => Outcome([], true)
      case Accepted(next, delivered) => After(delivered, ReadText(rule, next, text[i + 1..]))
  }

  // ---- chunk by chunk ----

  /** All complete lines of a buffer: what they deliver, and what is left when none is refused. */
  datatype Drained = Drained(parser: Parser, buffer: string, delivered: seq<Event>, refused: bool)

  function Drain(rule: LineRule, p: Parser, buffer: string): Drained
    decreases |buffer|
  {
    var i := IndexOf(buffer, '\n');
    if i == |buffer| then Drained(p, buffer, [], false)
    else
      match rule(p, StripReturn(buffer[..i]))
      case TooLarge => Drained(p, buffer[i + 1..], [], true)
      case Accepted(next, delivered) =>
        var rest := Drain(rule, next, buffer[i + 1..]);
        rest.(delivered := delivered + rest.delivered)
  }

  function ReadChunks(rule: LineRule, p: Parser, buffer: string, chunks: seq<string>): Outcome
    decreases |chunks|
  {
    if chunks == [] then Outcome([], false)
    else
      var d := Drain(rule, p, buffer + chunks[0]);
      if d.refused || |d.buffer| > MAX_EVENT_BYTES then Outcome(d.delivered, true)
      else After(d.delivered, ReadChunks(rule, d.parser, d.buffer, chunks[1..]))
  }

  /** The last read of a stream has no bytes of its own. */
  function Consumed(chunks: seq<string>): Outcome {
    ReadChunks(AcceptLine, Initial(), [], chunks + [[]])
  }

  function Concat(chunks: seq<string>): string
    decreases |chunks|
  {
    if chunks == [] then [] else chunks[0] + Concat(chunks[1..])
  }

  /** The inner loop: takes complete lines off the buffer until one is refused. */
  method DrainBuffer(start: Parser, full: string)
    returns (parser: Parser, buffer: string, delivered: seq<Event>, refused: bool)
    ensures Drained(parser, buffer, delivered, refused) == Drain(AcceptLine, start, full)
  {
    parser, buffer, delivered, refused := start, full, [], false;
    var newline := IndexOf(buffer, '\n');
    while newline != |buffer|
      invariant newline == IndexOf(buffer, '\n') && !refused
      invariant Drain(AcceptLine, start, full) == Preceded(delivered, Drain(AcceptLine, parser, buffer))
      decreases |buffer|
    {
      var line := StripReturn(buffer[..newline]);
      DrainStep(AcceptLine, delivered, parser, buffer);
      buffer := buffer[newline + 1..];
      match AcceptLine(parser, line) {
        case TooLarge =>
          refused := true;
          return;
        case Accepted(next, events) =>
          parser := next;
          delivered := delivered + events;
      }
      newline := IndexOf(buffer, '\n');
    }
  }

  function Preceded(delivered: seq<Event>, d: Drained): Drained {
    d.(delivered := delivered + d.delivered)
  }

  lemma DrainStep(rule: LineRule, sofar: seq<Event>, p: Parser, buffer: string)
    requires IndexOf(buffer, '\n') < |buffer|
    ensures var i := IndexOf(buffer, '\n');
            match rule(p, StripReturn(buffer[..i]))
            case TooLarge => Preceded(sofar, Drain(rule, p, buffer)) == Drained(p, buffer[i + 1..], sofar, true)
            case Accepted(next, events) =>
              Preceded(sofar, Drain(rule, p, buffer)) == Preceded(sofar + events, Drain(rule, next, buffer[i + 1..]))
  {
    var i := IndexOf(buffer, '\n');
    match rule(p, StripReturn(buffer[..i]))
    case TooLarge => assert sofar + [] == sofar;
    case Accepted(next, events) =>
      var rest := Drain(rule, next, buffer[i + 1..]);
      assert sofar + (events + rest.delivered) == (sofar + events) + rest.delivered;
  }

  /** The reading loop of the original. */
  method ConsumeDashboardEvents(chunks: seq<string>) returns (delivered: seq<Event>, refused: bool)
    ensures Outcome(delivered, refused) == Consumed(chunks)
  {
    var buffer: string, parser := [], Initial();
    delivered, refused := [], false;
    var pieces := chunks + [[]];
    for n := 0 to |pieces|
      invariant !refused
      invariant After(delivered, ReadChunks(AcceptLine, parser, buffer, pieces[n..])) == Consumed(chunks)
    {
      ReadStep(AcceptLine, delivered, parser, buffer, pieces[n..]);
      assert pieces[n..][1..] == pieces[n + 1..];
      var events;
      parser, buffer, events, refused := DrainBuffer(parser, buffer + pieces[n]);
      delivered := delivered + events;
      if refused || |buffer| > MAX_EVENT_BYTES {
        refused := true;
        return;
      }
    }
  }

  lemma ReadStep(rule: LineRule, sofar: seq<Event>, p: Parser, buffer: string, chunks: seq<string>)
    requires chunks != []
    ensures var d := Drain(rule, p, buffer + chunks[0]);
            After(sofar, ReadChunks(rule, p, buffer, chunks))
            == if d.refused || |d.buffer| > MAX_EVENT_BYTES then Outcome(sofar + d.delivered, true)
               else After(sofar + d.delivered, ReadChunks(rule, d.parser, d.buffer, chunks[1..]))
  {
    var d := Drain(rule, p, buffer + chunks[0]);
    AfterTwice(sofar, d.delivered, ReadChunks(rule, d.parser, d.buffer, chunks[1..]));
  }

  // ---- chunk boundaries ----

  /**
   * A line longer than the limit may be accepted by the line rules: a comment, or a line at the limit
   * with its carriage return. Such a line is harmless only if the text after it delivers nothing and
   * is refused anyway.
   */
  predicate Harmless(rule: LineRule, p: Parser, text: string)
    decreases |text|
  {
    var i := IndexOf(text, '\n');
    i == |text|
    || match rule(p, StripReturn(text[..i]))
       case TooLarge => true
       case Accepted(next, delivered) =>
         && (i > MAX_EVENT_BYTES ==> ReadText(rule, next, text[i + 1..]) == Outcome([], true))
         && Harmless(rule, next, text[i + 1..])
  }

  lemma FirstLine(buffer: string, tail: string)
    requires IndexOf(buffer, '\n') < |buffer|
    ensures var i, text := IndexOf(buffer, '\n'), buffer + tail;
            IndexOf(text, '\n') == i && text[..i] == buffer[..i] && text[i + 1..] == buffer[i + 1..] + tail
  {
    IndexIs(buffer + tail, '\n', IndexOf(buffer, '\n'));
  }

  /** Draining a prefix first is part of reading the whole. */
  lemma {:induction false} DrainThenRead(rule: LineRule, p: Parser, buffer: string, tail: string)
    ensures var d := Drain(rule, p, buffer);
            ReadText(rule, p, buffer + tail)
            == if d.refused then Outcome(d.delivered, true)
               else After(d.delivered, ReadText(rule, d.parser, d.buffer + tail))
    decreases |buffer|
  {
    var i := IndexOf(buffer, '\n');
    if i < |buffer| {
      FirstLine(buffer, tail);
      match rule(p, StripReturn(buffer[..i]))
      case TooLarge =>
      case Accepted(next, events) =>
        var rest := buffer[i + 1..];
        DrainThenRead(rule, next, rest, tail);
        var d := Drain(rule, next, rest);
        AfterTwice(events, d.delivered, ReadText(rule, d.parser, d.buffer + tail));
    }
  }

  lemma AfterTwice(a: seq<Event>, b: seq<Event>, rest: Outcome)
    ensures After(a, After(b, rest)) == After(a + b, rest)
    ensures After(a, Outcome(b, true)) == Outcome(a + b, true)
  {
    assert a + (b + rest.delivered) == (a + b) + rest.delivered;
  }

  lemma {:induction false} DrainLeavesNoLine(rule: LineRule, p: Parser, buffer: string)
    requires !Drain(rule, p, buffer).refused
    ensures var d := Drain(rule, p, buffer); IndexOf(d.buffer, '\n') == |d.buffer|
    decreases |buffer|
  {
    var i := IndexOf(buffer, '\n');
    if i < |buffer| {
      match rule(p, StripReturn(buffer[..i]))
      case Accepted(next, _) => DrainLeavesNoLine(rule, next, buffer[i + 1..]);
    }
  }

  lemma {:induction false} DrainKeepsHarmless(rule: LineRule, p: Parser, buffer: string, tail: string)
    requires Harmless(rule, p, buffer + tail) && !Drain(rule, p, buffer).refused
    ensures var d := Drain(rule, p, buffer); Harmless(rule, d.parser, d.buffer + tail)
    decreases |buffer|
  {
    var i := IndexOf(buffer, '\n');
    if i < |buffer| {
      FirstLine(buffer, tail);
      match rule(p, StripReturn(buffer[..i]))
      case Accepted(next, _) => DrainKeepsHarmless(rule, next, buffer[i + 1..], tail);
    }
  }

  /** An unfinished line beyond the limit is refused now, or leads to refusal with nothing delivered. */
  lemma LongTailRefused(rule: LineRule, p: Parser, buffer: string, tail: string)
    requires DeliversOnBlank(rule)
    requires IndexOf(buffer, '\n') == |buffer| > MAX_EVENT_BYTES && Harmless(rule, p, buffer + tail)
    ensures ReadText(rule, p, buffer + tail) == Outcome([], true)
  {
    var text := buffer + tail;
    var i := IndexOf(text, '\n');
    assert forall k :: 0 <= k < |buffer| ==> text[k] == buffer[k];
    if i < |text| {
      match rule(p, StripReturn(text[..i]))
      case TooLarge =>
      case Accepted(_, delivered) => assert delivered == [];
    }
  }

  lemma {:induction false} ChunksReadAsText(rule: LineRule, p: Parser, buffer: string, chunks: seq<string>)
    requires DeliversOnBlank(rule)
    requires chunks != [] && Harmless(rule, p, buffer + Concat(chunks))
    ensures ReadChunks(rule, p, buffer, chunks) == ReadText(rule, p, buffer + Concat(chunks))
    decreases |chunks|
  {
    var full, tail := buffer + chunks[0], Concat(chunks[1..]);
    var d := Drain(rule, p, full);
    assert buffer + Concat(chunks) == full + tail;
    DrainThenRead(rule, p, full, tail);
    if !d.refused {
      DrainLeavesNoLine(rule, p, full);
      DrainKeepsHarmless(rule, p, full, tail);
      if |d.buffer| > MAX_EVENT_BYTES {
        LongTailRefused(rule, d.parser, d.buffer, tail);
        assert d.delivered + [] == d.delivered;
      } else if chunks[1..] == [] {
        assert d.buffer + tail == d.buffer;
        assert ReadChunks(rule, d.parser, d.buffer, chunks[1..]) == Outcome([], false);
      } else {
        ChunksReadAsText(rule, d.parser, d.buffer, chunks[1..]);
      }
    }
  }

  lemma {:induction false} ConcatLast(chunks: seq<string>)
    ensures Concat(chunks + [[]]) == Concat(chunks)
    decreases |chunks|
  {
    if chunks == [] {
      assert Concat([[]]) == [];
    } else {
      assert (chunks + [[]])[1..] == chunks[1..] + [[]];
      ConcatLast(chunks[1..]);
    }
  }

  /** A cut that refuses the stream too early. */
  ghost predicate BadCut(rule: LineRule, p: Parser, text: string, k: nat) {
    && k <= |text|
    && var d := Drain(rule, p, text[..k]);
       !d.refused && |d.buffer| > MAX_EVENT_BYTES && ReadText(rule, p, text) != Outcome(d.delivered, true)
  }

  /** The first line of a text, with the outcome of the line rules on it and the text after it. */
  ghost predicate Splits(
      rule: LineRule, p: Parser, text: string, i: nat, next: Parser, delivered: seq<Event>, rest: string)
  {
    && i == IndexOf(text, '\n') < |text| && rest == text[i + 1..]
    && rule(p, StripReturn(text[..i])) == Accepted(next, delivered)
  }

  lemma NotHarmless(rule: LineRule, p: Parser, text: string)
    returns (i: nat, next: Parser, delivered: seq<Event>, rest: string)
    requires !Harmless(rule, p, text)
    ensures |rest| < |text| && Splits(rule, p, text, i, next, delivered, rest)
    ensures Harmless(rule, next, rest) ==> i > MAX_EVENT_BYTES && ReadText(rule, next, rest) != Outcome([], true)
  {
    i := IndexOf(text, '\n');
    var outcome := rule(p, StripReturn(text[..i]));
    next, delivered, rest := outcome.parser, outcome.delivered, text[i + 1..];
  }

  /** Where to cut a text that is not harmless: inside the long line that the line rules accept. */
  lemma {:induction false} FindBadCut(rule: LineRule, p: Parser, text: string) returns (k: nat)
    requires DeliversOnBlank(rule) && !Harmless(rule, p, text)
    ensures BadCut(rule, p, text, k)
    decreases |text|
  {
    var i, next, delivered, rest := NotHarmless(rule, p, text);
    if !Harmless(rule, next, rest) {
      var j := FindBadCut(rule, next, rest);
      LaterCut(rule, p, text, i, next, delivered, rest, j);
      k := i + 1 + j;
    } else {
      LongLineCut(rule, p, text, i, next, delivered, rest);
      k := i;
    }
  }

  lemma LaterCut(rule: LineRule, p: Parser, text: string, i: nat, next: Parser, delivered: seq<Event>, rest: string, j: nat)
    requires Splits(rule, p, text, i, next, delivered, rest) && BadCut(rule, next, rest, j)
    ensures BadCut(rule, p, text, i + 1 + j)
  {
    var front := text[..i + 1 + j];
    assert front[..i] == text[..i] && front[i + 1..] == rest[..j];
    IndexIs(front, '\n', i);
    AfterDiffers(delivered, ReadText(rule, next, rest), Outcome(Drain(rule, next, rest[..j]).delivered, true));
  }

  lemma LongLineCut(rule: LineRule, p: Parser, text: string, i: nat, next: Parser, delivered: seq<Event>, rest: string)
    requires DeliversOnBlank(rule) && Splits(rule, p, text, i, next, delivered, rest) && MAX_EVENT_BYTES < i
    requires ReadText(rule, next, rest) != Outcome([], true)
    ensures BadCut(rule, p, text, i)
  {
    IndexIs(text[..i], '\n', i);
    AfterDiffers([], ReadText(rule, next, rest), Outcome([], true));
  }

  lemma AfterDiffers(delivered: seq<Event>, a: Outcome, b: Outcome)
    requires a != b
    ensures After(delivered, a) != After(delivered, b)
  {
    assert (delivered + a.delivered)[|delivered|..] == a.delivered;
    assert (delivered + b.delivered)[|delivered|..] == b.delivered;
  }

  lemma CutOutcome(rule: LineRule, p: Parser, text: string, k: nat)
    requires BadCut(rule, p, text, k)
    ensures Concat([text[..k], text[k..]]) == text
    ensures ReadChunks(rule, p, [], [text[..k], text[k..]] + [[]]) != ReadText(rule, p, text)
  {
    var chunks := [text[..k], text[k..]];
    assert chunks[1..] == [text[k..]] && [text[k..]][1..] == [];
    assert Concat([text[k..]]) == text[k..] + Concat([]);
    assert Concat(chunks) == text[..k] + Concat([text[k..]]);
    assert [] + text[..k] == text[..k];
    assert (chunks + [[]])[0] == text[..k];
  }

  /** The same for any line rule: every cutting is read like the whole text exactly when it is harmless. */
  lemma ChunkingIrrelevant(rule: LineRule, p: Parser, text: string)
    requires DeliversOnBlank(rule)
    ensures (forall chunks: seq<string> :: Concat(chunks) == text ==> ReadChunks(rule, p, [], chunks + [[]]) == ReadText(rule, p, text))
       <==> Harmless(rule, p, text)
  {
    if Harmless(rule, p, text) {
      forall chunks: seq<string> | Concat(chunks) == text
        ensures ReadChunks(rule, p, [], chunks + [[]]) == ReadText(rule, p, text)
      {
        ConcatLast(chunks);
        assert [] + Concat(chunks + [[]]) == text;
        ChunksReadAsText(rule, p, [], chunks + [[]]);
      }
    } else {
      var k := FindBadCut(rule, p, text);
      CutOutcome(rule, p, text, k);
    }
  }

  /**
   * Chunk boundaries do not matter for a text exactly when it has no over-long line that the line rules
   * would let pass: then every cutting is read like the whole text, and otherwise some cutting is not.
   */
  lemma ChunkingIrrelevantExactly(text: string)
    ensures (forall chunks: seq<string> :: Concat(chunks) == text ==> Consumed(chunks) == ReadText(AcceptLine, Initial(), text))
       <==> Harmless(AcceptLine, Initial(), text)
  {
    ChunkingIrrelevant(AcceptLine, Initial(), text);
  }

  /** Which over-long lines those are: comments, and lines of exactly the limit before a carriage return. */
  lemma LongLineAcceptedExactly(p: Parser, raw: string)
    requires |raw| > MAX_EVENT_BYTES
    ensures AcceptLine(p, StripReturn(raw)).Accepted?
       <==> StripReturn(raw)[0] == ':' || (|raw| == MAX_EVENT_BYTES + 1 && raw[|raw| - 1] == '\r' && p.eventBytes == 0)
  {
  }

  // ---- what each line does ----

  const DATA_FIELD: string := ['d', 'a', 't', 'a']
  const EVENT_FIELD: string := ['e', 'v', 'e', 'n', 't']

  lemma FieldIs(name: string, value: string)
    requires ':' !in name
    ensures Field(name + ([':'] + value)) == name && Value(name + ([':'] + value)) == StripSpace(value)
  {
    var line := name + ([':'] + value);
    IndexIs(line, ':', |name|);
    assert line[..|name|] == name && line[|name| + 1..] == value;
  }

  /**
   * A field line within what is left of the limit: `data` adds its value, without one leading space, to the
   * event's lines, `event` names the event, and any other field changes nothing but the count.
   */
  lemma FieldLineMeans(p: Parser, name: string, value: string)
    requires name != [] && ':' !in name && p.eventBytes + |name| + 1 + |value| <= 65536
    ensures var stripped := if value != [] && value[0] == ' ' then value[1..] else value;
            AcceptLine(p, name + ([':'] + value))
            == Accepted(Parser(if name == EVENT_FIELD then stripped else p.eventType,
                               if name == DATA_FIELD then p.dataLines + [stripped] else p.dataLines,
                               p.eventBytes + |name| + 1 + |value|), [])
  {
    FieldIs(name, value);
    assert "data" == DATA_FIELD && "event" == EVENT_FIELD;
    assert (name + ([':'] + value))[0] == name[0];
  }

  /** One more than that is refused; comments of any length pass and change nothing. */
  lemma OtherLinesMean(p: Parser, name: string, value: string)
    requires name != [] && ':' !in name
    ensures p.eventBytes + |name| + 1 + |value| > 65536 ==> AcceptLine(p, name + ([':'] + value)) == TooLarge
    ensures AcceptLine(p, [':'] + value) == Accepted(p, [])
  {
    assert (name + ([':'] + value))[0] == name[0];
  }

  /** A blank line delivers the event's lines, joined by line feeds, if there are any, and starts afresh. */
  lemma BlankLineMeans(p: Parser, first: string, more: seq<string>)
    ensures AcceptLine(p.(dataLines := []), []) == Accepted(Parser("message", [], 0), [])
    ensures AcceptLine(p.(dataLines := [first]), []) == Accepted(Parser("message", [], 0), [Event(p.eventType, first)])
    ensures more != [] ==>
      AcceptLine(p.(dataLines := [first] + more), [])
      == Accepted(Parser("message", [], 0), [Event(p.eventType, first + ['\n'] + Join(more))])
  {
    assert ([first] + more)[1..] == more;
  }

  // ---- a text that reads in two ways ----

  function LongComment(): string { [':'] + seq(MAX_EVENT_BYTES, _ => 'x') }

  const DATA_LINE: string := ['d', 'a', 't', 'a', ':', 'x']
  const DATA: string := DATA_LINE + ['\n', '\n']

  lemma DataIsDelivered()
    ensures Drain(AcceptLine, Initial(), DATA) == Drained(Initial(), [], [Event("message", ['x'])], false)
  {
    IndexIs(DATA, '\n', 6);
    assert DATA[..6] == DATA_LINE && DATA[7..] == ['\n'];
    IndexIs(DATA_LINE, ':', 4);
    assert Field(DATA_LINE) == "data" && DATA_LINE[5..] == ['x'];
    var p := Parser("message", [['x']], 6);
    assert AcceptLine(Initial(), DATA_LINE) == Accepted(p, []);
    assert Drain(AcceptLine, p, ['\n']) == Drained(Initial(), [], [Event("message", ['x'])], false) by {
      assert ['\n'][1..] == [] && ['\n'][..0] == [];
      assert AcceptLine(p, []) == Accepted(Initial(), [Event("message", ['x'])]);
      assert Drain(AcceptLine, Initial(), []) == Drained(Initial(), [], [], false);
    }
  }

  lemma CommentIsDrained(p: Parser, rest: string)
    ensures Drain(AcceptLine, p, LongComment() + (['\n'] + rest)) == Drain(AcceptLine, p, rest)
    ensures Drain(AcceptLine, p, LongComment()) == Drained(p, LongComment(), [], false)
  {
    var comment := LongComment();
    var text := comment + (['\n'] + rest);
    IndexIs(text, '\n', |comment|);
    IndexIs(comment, '\n', |comment|);
    assert text[..|comment|] == comment && text[|comment| + 1..] == rest;
    assert StripReturn(comment) == comment;
    assert AcceptLine(p, comment) == Accepted(p, []);
  }

  /**
   * An event behind a comment longer than the limit: in one piece it is delivered; cut at the end of the
   * comment, the same text is refused and nothing is delivered.
   */
  lemma LongCommentReadsTwoWays()
    ensures var comment, rest := LongComment(), ['\n'] + DATA;
            && Concat([comment + rest]) == Concat([comment, rest])
            && Consumed([comment + rest]) == Outcome([Event("message", ['x'])], false)
            && Consumed([comment, rest]) == Outcome([], true)
  {
    var comment, rest := LongComment(), ['\n'] + DATA;
    DataIsDelivered();
    CommentIsDrained(Initial(), DATA);
    assert [comment, rest][1..] == [rest] && [rest][1..] == [] && [comment + rest][1..] == [];
    assert comment + (rest + []) == comment + rest;
    ReadWhole(comment + rest);
    assert ([comment, rest] + [[]])[0] == comment && [] + comment == comment;
  }

  lemma ReadWhole(text: string)
    requires var d := Drain(AcceptLine, Initial(), text); !d.refused && d.buffer == []
    ensures Consumed([text]) == Outcome(Drain(AcceptLine, Initial(), text).delivered, false)
  {
    var d := Drain(AcceptLine, Initial(), text);
    var chunks: seq<string> := [text] + [[]];
    assert chunks[0] == text && chunks[1..] == [[]] && [] + text == text;
    ReadNothing(d.parser);
    assert d.delivered + [] == d.delivered;
  }

  lemma ReadNothing(p: Parser)
    ensures ReadChunks(AcceptLine, p, [], [[]]) == Outcome([], false)
  {
    var chunks: seq<string> := [[]];
    assert chunks[1..] == [];
    assert Drain(AcceptLine, p, []) == Drained(p, [], [], false);
  }

  // ---- the server's frames ----

  function EventLine(e: Event): string { "event: " + e.kind }

  function DataLine(e: Event): string { "data: " + e.data }

  /** What the server writes for one event. */
  function Frame(e: Event): string {
    EventLine(e) + ['\n'] + DataLine(e) + ['\n'] + ['\n']
  }

  function Frames(events: seq<Event>): string
    decreases |events|
  {
    if events == [] then [] else Frame(events[0]) + Frames(events[1..])
  }

  /** A text without a line feed that does not end in a carriage return, like any serialized JSON value. */
  ghost predicate OneLine(s: string) {
    (forall i :: 0 <= i < |s| ==> s[i] != '\n') && (s != [] ==> s[|s| - 1] != '\r')
  }

  ghost predicate Sendable(e: Event) {
    OneLine(e.kind) && OneLine(e.data) && |EventLine(e)| + |DataLine(e)| <= MAX_EVENT_BYTES
  }

  lemma EventLineParses(e: Event)
    requires OneLine(e.kind)
    ensures OneLine(EventLine(e)) && Field(EventLine(e)) == "event" && Value(EventLine(e)) == e.kind
  {
    var line := EventLine(e);
    IndexIs(line, ':', 5);
    assert line[5 + 1..] == [' '] + e.kind;
    assert line[..5] == "event";
  }

  lemma DataLineParses(e: Event)
    requires OneLine(e.data)
    ensures OneLine(DataLine(e)) && Field(DataLine(e)) == "data" && Value(DataLine(e)) == e.data
  {
    var line := DataLine(e);
    IndexIs(line, ':', 4);
    assert line[4 + 1..] == [' '] + e.data;
    assert line[..4] == "data";
  }

  lemma LineEnds(line: string, rest: string)
    requires OneLine(line)
    ensures var text := line + ['\n'] + rest;
            IndexOf(text, '\n') == |line| && text[..|line|] == line && text[|line| + 1..] == rest
  {
    IndexIs(line + ['\n'] + rest, '\n', |line|);
  }

  /** Reading takes one well-formed line off the text. */
  lemma ReadLine(rule: LineRule, p: Parser, line: string, rest: string, next: Parser, delivered: seq<Event>)
    requires OneLine(line) && |line| <= MAX_EVENT_BYTES && rule(p, line) == Accepted(next, delivered)
    ensures var text := line + ['\n'] + rest;
            && ReadText(rule, p, text) == After(delivered, ReadText(rule, next, rest))
            && (Harmless(rule, next, rest) ==> Harmless(rule, p, text))
  {
    LineEnds(line, rest);
  }

  lemma ReadQuietLine(rule: LineRule, p: Parser, line: string, rest: string, next: Parser)
    requires OneLine(line) && |line| <= MAX_EVENT_BYTES && rule(p, line) == Accepted(next, [])
    ensures var text := line + ['\n'] + rest;
            && ReadText(rule, p, text) == ReadText(rule, next, rest)
            && (Harmless(rule, next, rest) ==> Harmless(rule, p, text))
  {
    ReadLine(rule, p, line, rest, next, []);
    assert [] + ReadText(rule, next, rest).delivered == ReadText(rule, next, rest).delivered;
  }

  lemma AcceptEventLine(e: Event)
    requires Sendable(e)
    ensures AcceptLine(Initial(), EventLine(e)) == Accepted(Parser(e.kind, [], |EventLine(e)|), [])
  {
    EventLineParses(e);
    assert EventLine(e)[0] == 'e';
  }

  lemma AcceptDataLine(e: Event)
    requires Sendable(e)
    ensures AcceptLine(Parser(e.kind, [], |EventLine(e)|), DataLine(e))
         == Accepted(Parser(e.kind, [e.data], |EventLine(e)| + |DataLine(e)|), [])
  {
    DataLineParses(e);
    assert DataLine(e)[0] == 'd';
    assert [] + [e.data] == [e.data];
  }

  lemma ReadFrame(e: Event, rest: string)
    requires Sendable(e)
    ensures ReadText(AcceptLine, Initial(), Frame(e) + rest) == After([e], ReadText(AcceptLine, Initial(), rest))
    ensures Harmless(AcceptLine, Initial(), rest) ==> Harmless(AcceptLine, Initial(), Frame(e) + rest)
  {
    var p1, p2 := Parser(e.kind, [], |EventLine(e)|), Parser(e.kind, [e.data], |EventLine(e)| + |DataLine(e)|);
    EventLineParses(e);
    DataLineParses(e);
    AcceptEventLine(e);
    AcceptDataLine(e);
    assert AcceptLine(p2, []) == Accepted(Initial(), [e]);
    ReadThreeLines(AcceptLine, Initial(), EventLine(e), p1, DataLine(e), p2, rest, Initial(), e);
  }

  lemma ReadThreeLines(rule: LineRule, p: Parser, first: string, p1: Parser, second: string, p2: Parser,
                       rest: string, p3: Parser, e: Event)
    requires OneLine(first) && |first| <= MAX_EVENT_BYTES && rule(p, first) == Accepted(p1, [])
    requires OneLine(second) && |second| <= MAX_EVENT_BYTES && rule(p1, second) == Accepted(p2, [])
    requires rule(p2, []) == Accepted(p3, [e])
    ensures var text := first + ['\n'] + second + ['\n'] + ['\n'] + rest;
            && ReadText(rule, p, text) == After([e], ReadText(rule, p3, rest))
            && (Harmless(rule, p3, rest) ==> Harmless(rule, p, text))
  {
    var blank := [] + ['\n'] + rest;
    var behind := second + ['\n'] + blank;
    assert first + ['\n'] + second + ['\n'] + ['\n'] + rest == first + ['\n'] + behind;
    ReadQuietLine(rule, p, first, behind, p1);
    ReadQuietLine(rule, p1, second, blank, p2);
    ReadLine(rule, p2, [], rest, p3, [e]);
  }

  lemma {:induction false} FramesRead(events: seq<Event>)
    requires forall e :: e in events ==> Sendable(e)
    ensures ReadText(AcceptLine, Initial(), Frames(events)) == Outcome(events, false)
    ensures Harmless(AcceptLine, Initial(), Frames(events))
    decreases |events|
  {
    if events == [] {
      IndexIs([], '\n', 0);
    } else {
      FramesRead(events[1..]);
      ReadFrame(events[0], Frames(events[1..]));
      assert [events[0]] + events[1..] == events;
    }
  }

  /** Whatever the cutting, the consumer of a server's stream gets exactly the events sent. */
  lemma StreamRoundTrip(events: seq<Event>, chunks: seq<string>)
    requires forall e :: e in events ==> Sendable(e)
    requires Concat(chunks) == Frames(events)
    ensures Consumed(chunks) == Outcome(events, false)
  {
    FramesRead(events);
    ChunkingIrrelevantExactly(Frames(events));
  }
}
