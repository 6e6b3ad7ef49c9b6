/**
 * The start command in the systemd unit (src/cli/service-manager.ts): what `systemdQuote` prints and what
 * `readStartArguments` reads back from an installed definition.
 */
module SystemdArguments {
  import opened Results

  datatype Refusal = UnprintableArgument | UnsafePath | UnsafeDefinition | UnsafeCommand

  // ---- printing ----

  /** Characters `systemdQuote` refuses. */
  predicate Printable(s: string) {
    forall c :: c in s ==> c != '\0' && c != '\r' && c != '\n' && c != '$'
  }

  function Replace(s: string, c: char, into: string): string {
    if s == [] then [] else (if s[0] == c then into else [s[0]]) + Replace(s[1..], c, into)
  }

  function QuoteBody(s: string): string {
    Replace(Replace(Replace(s, '%', ['%', '%']), '\\', ['\\', '\\']), '"', ['\\', '"'])
  }

  function InQuotes(body: string): string { ['"'] + body + ['"'] }

  function Quote(s: string): Result<string, Refusal> {
    if Printable(s) then Ok(InQuotes(QuoteBody(s))) else Err(UnprintableArgument)
  }

  function JoinQuoted(bodies: seq<string>): string
    decreases |bodies|
  {
    if bodies == [] then []
    else if |bodies| == 1 then InQuotes(bodies[0])
    else InQuotes(bodies[0]) + [' '] + JoinQuoted(bodies[1..])
  }

  function QuoteBodies(args: seq<string>): seq<string> { seq(|args|, i requires 0 <= i < |args| => QuoteBody(args[i])) }

  predicate AllPrintable(args: seq<string>) {
    forall i :: 0 <= i < |args| ==> Printable(args[i])
  }

  function PrintCommand(args: seq<string>): Result<string, Refusal> {
    if AllPrintable(args) then Ok(JoinQuoted(QuoteBodies(args))) else Err(UnprintableArgument)
  }

  // ---- reading ----

  /** Where the quoted text at the start of `s` ends, when each backslash escapes a backslash or a quote. */
  function Close(s: string): Option<nat> {
    if s == [] then None
    else if s[0] == '"' then Some(0)
    else if s[0] == '\\' then
      if |s| >= 2 && (s[1] == '\\' || s[1] == '"') then Later(Close(s[2..]), 2) else None
    else Later(Close(s[1..]), 1)
  }

  function Later(at: Option<nat>, n: nat): Option<nat> {
    if at.Some? then Some(at.value + n) else None
  }

  lemma {:induction false} CloseBound(s: string)
    ensures Close(s).Some? ==> Close(s).value < |s|
  {
    if s != [] && s[0] != '"' {
      if s[0] != '\\' {
        CloseBound(s[1..]);
      } else if |s| >= 2 {
        CloseBound(s[2..]);
      }
    }
  }

  /** Every quoted text in `s`, found from left to right as a global regular expression does. */
  function Matches(s: string): seq<string>
    decreases |s|
  {
    if s == [] then []
    else
      CloseBound(s[1..]);
      var end := Close(s[1..]);
      if s[0] == '"' && end.Some? then [s[1..][..end.value]] + Matches(s[1..][end.value + 1..]) else Matches(s[1..])
  }

  function RemovePairs(s: string): string {
    if s == [] then []
    else if |s| >= 2 && s[0] == '%' && s[1] == '%' then RemovePairs(s[2..])
    else [s[0]] + RemovePairs(s[1..])
  }

  predicate HasSpecifier(body: string) { '%' in RemovePairs(body) }

  function Unslash(s: string): string {
    if s == [] then []
    else if |s| >= 2 && s[0] == '\\' && (s[1] == '\\' || s[1] == '"') then [s[1]] + Unslash(s[2..])
    else [s[0]] + Unslash(s[1..])
  }

  function Undouble(s: string): string {
    if s == [] then []
    else if |s| >= 2 && s[0] == '%' && s[1] == '%' then ['%'] + Undouble(s[2..])
    else [s[0]] + Undouble(s[1..])
  }

  function Decode(body: string): string { Undouble(Unslash(body)) }

  function DecodeAll(bodies: seq<string>): seq<string> {
    seq(|bodies|, i requires 0 <= i < |bodies| => Decode(bodies[i]))
  }

  predicate NoSpecifiers(bodies: seq<string>) {
    forall i :: 0 <= i < |bodies| ==> !HasSpecifier(bodies[i])
  }

  function ReadCommand(value: string): Result<seq<string>, Refusal> {
    var bodies := Matches(value);
    if bodies == [] || JoinQuoted(bodies) != value || !NoSpecifiers(bodies) then Err(UnsafeCommand)
    else Ok(DecodeAll(bodies))
  }

  // ---- one argument ----

  function EscapeChar(c: char): string {
    if c == '%' then ['%', '%'] else if c == '\\' then ['\\', '\\'] else if c == '"' then ['\\', '"'] else [c]
  }

  /** Escaping in one pass, the reference for the three replacements. */
  function Escape(s: string): string {
    if s == [] then [] else EscapeChar(s[0]) + Escape(s[1..])
  }

  lemma {:induction false} ReplaceAppend(a: string, b: string, c: char, into: string)
    ensures Replace(a + b, c, into) == Replace(a, c, into) + Replace(b, c, into)
  {
    if a == [] {
      assert a + b == b;
    } else {
      assert (a + b)[1..] == a[1..] + b;
      ReplaceAppend(a[1..], b, c, into);
    }
  }

  lemma ReplaceOne(c: char, d: char, into: string)
    ensures Replace([c], d, into) == if c == d then into else [c]
    ensures Replace([c, c], d, into) == if c == d then into + into else [c, c]
  {
    assert [c][1..] == [] && [c, c][1..] == [c];
  }

  lemma QuoteBodyCons(c: char, rest: string)
    ensures QuoteBody([c] + rest) == EscapeChar(c) + QuoteBody(rest)
  {
    var p, b, q := ['%', '%'], ['\\', '\\'], ['\\', '"'];
    var first := Replace([c], '%', p);
    var second := Replace(first, '\\', b);
    ReplaceAppend([c], rest, '%', p);
    ReplaceAppend(first, Replace(rest, '%', p), '\\', b);
    ReplaceAppend(second, Replace(Replace(rest, '%', p), '\\', b), '"', q);
    ReplaceOne(c, '%', p);
    ReplaceOne(c, '\\', b);
    ReplaceOne(c, '"', q);
  }

  /** The order of the three replacements is right: no escape is escaped again. */
  lemma {:induction false} QuoteBodyIsEscape(s: string)
    ensures QuoteBody(s) == Escape(s)
  {
    if s != [] {
      assert s == [s[0]] + s[1..];
      QuoteBodyCons(s[0], s[1..]);
      QuoteBodyIsEscape(s[1..]);
    }
  }

  function Double(s: string): string { Replace(s, '%', ['%', '%']) }

  lemma UnslashOne(c: char, rest: string)
    ensures Unslash(EscapeChar(c) + rest) == (if c == '%' then ['%', '%'] else [c]) + Unslash(rest)
  {
    if c == '%' {
      assert (['%', '%'] + rest)[1..] == ['%'] + rest && (['%'] + rest)[1..] == rest;
    } else if c == '\\' || c == '"' {
      assert (['\\', c] + rest)[2..] == rest;
    } else {
      assert ([c] + rest)[1..] == rest;
    }
  }

  lemma {:induction false} UnslashEscape(s: string)
    ensures Unslash(Escape(s)) == Double(s)
  {
    if s != [] {
      UnslashEscape(s[1..]);
      UnslashOne(s[0], Escape(s[1..]));
    }
  }

  lemma {:induction false} UndoubleDouble(s: string)
    ensures Undouble(Double(s)) == s
  {
    if s != [] {
      UndoubleDouble(s[1..]);
      if s[0] == '%' {
        assert Double(s)[2..] == Double(s[1..]);
      } else {
        assert Double(s)[1..] == Double(s[1..]);
      }
    }
  }

  /** A body as printing writes it: every backslash and quote escaped, every percent sign doubled. */
  predicate WellEscaped(b: string) {
    if b == [] then true
    else if b[0] == '\\' then |b| >= 2 && (b[1] == '\\' || b[1] == '"') && WellEscaped(b[2..])
    else if b[0] == '%' then |b| >= 2 && b[1] == '%' && WellEscaped(b[2..])
    else b[0] != '"' && WellEscaped(b[1..])
  }

  lemma {:induction false} EscapeIsWellEscaped(s: string)
    ensures WellEscaped(Escape(s))
  {
    if s != [] {
      EscapeIsWellEscaped(s[1..]);
      var n := |EscapeChar(s[0])|;
      assert Escape(s)[n..] == Escape(s[1..]);
    }
  }

  lemma DecodeEscaped(c: char, rest: string)
    requires c == '\\' || c == '"'
    ensures Decode(['\\', c] + rest) == [c] + Decode(rest)
  {
    var b := ['\\', c] + rest;
    assert b[2..] == rest;
    assert ([c] + Unslash(rest))[1..] == Unslash(rest);
  }

  lemma DecodeDoubled(rest: string)
    ensures Decode(['%', '%'] + rest) == ['%'] + Decode(rest)
  {
    var b := ['%', '%'] + rest;
    assert b[1..] == ['%'] + rest && (['%'] + rest)[1..] == rest;
    assert Unslash(b) == ['%', '%'] + Unslash(rest);
    assert (['%', '%'] + Unslash(rest))[2..] == Unslash(rest);
  }

  lemma DecodePlain(c: char, rest: string)
    requires c != '\\' && c != '%'
    ensures Decode([c] + rest) == [c] + Decode(rest)
  {
    assert ([c] + rest)[1..] == rest;
    assert ([c] + Unslash(rest))[1..] == Unslash(rest);
  }

  /** Printing undoes reading for a single body. */
  lemma {:induction false} EscapeDecode(b: string)
    requires WellEscaped(b)
    ensures Escape(Decode(b)) == b
  {
    if b != [] {
      var n := if b[0] == '\\' || b[0] == '%' then 2 else 1;
      var rest := b[n..];
      EscapeDecode(rest);
      if b[0] == '\\' {
        assert b == ['\\', b[1]] + rest;
        DecodeEscaped(b[1], rest);
        EscapeCons(b[1], Decode(rest));
      } else if b[0] == '%' {
        assert b == ['%', '%'] + rest;
        DecodeDoubled(rest);
        EscapeCons('%', Decode(rest));
      } else {
        assert b == [b[0]] + rest;
        DecodePlain(b[0], rest);
        EscapeCons(b[0], Decode(rest));
      }
    }
  }

  lemma EscapeCons(c: char, rest: string)
    ensures Escape([c] + rest) == EscapeChar(c) + Escape(rest)
  {
    assert ([c] + rest)[1..] == rest;
  }

  // ---- the whole command ----

  /** What the regular expression matches between two quotes. */
  predicate Body(b: string) {
    if b == [] then true
    else if b[0] == '\\' then |b| >= 2 && (b[1] == '\\' || b[1] == '"') && Body(b[2..])
    else b[0] != '"' && Body(b[1..])
  }

  lemma {:induction false} CloseAfterBody(b: string, rest: string)
    requires Body(b)
    ensures Close(b + (['"'] + rest)) == Some(|b|)
  {
    var s := b + (['"'] + rest);
    if b == [] {
      assert s == ['"'] + rest;
    } else {
      var n := if b[0] == '\\' then 2 else 1;
      assert s[n..] == b[n..] + (['"'] + rest);
      CloseAfterBody(b[n..], rest);
    }
  }

  lemma {:induction false} CloseGivesBody(s: string)
    requires Close(s).Some?
    ensures Close(s).value < |s| && Body(s[..Close(s).value]) && s[Close(s).value] == '"'
  {
    CloseBound(s);
    if s[0] != '"' {
      var n := if s[0] == '\\' then 2 else 1;
      CloseGivesBody(s[n..]);
      assert s[..Close(s).value][n..] == s[n..][..Close(s).value - n];
    }
  }

  /** A matched body without an odd percent sign is what printing writes, and nothing else is. */
  lemma {:induction false} SpecifierFreeExactly(b: string)
    requires Body(b)
    ensures WellEscaped(b) <==> !HasSpecifier(b)
  {
    if b != [] {
      if b[0] == '\\' {
        SpecifierFreeExactly(b[2..]);
        assert b[1..][1..] == b[2..];
        assert RemovePairs(b) == [b[0]] + ([b[1]] + RemovePairs(b[2..]));
      } else if b[0] == '%' && |b| >= 2 && b[1] == '%' {
        assert b[1..][1..] == b[2..];
        SpecifierFreeExactly(b[2..]);
      } else {
        SpecifierFreeExactly(b[1..]);
      }
    }
  }

  lemma {:induction false} WellEscapedIsBody(b: string)
    requires WellEscaped(b)
    ensures Body(b)
  {
    if b != [] {
      if b[0] == '\\' {
        WellEscapedIsBody(b[2..]);
      } else if b[0] == '%' {
        WellEscapedIsBody(b[2..]);
        assert b[1..][1..] == b[2..];
      } else {
        WellEscapedIsBody(b[1..]);
      }
    }
  }

  predicate Bodies(bodies: seq<string>) {
    forall i :: 0 <= i < |bodies| ==> Body(bodies[i])
  }

  lemma MatchFirst(b: string, rest: string)
    requires Body(b)
    ensures Matches(InQuotes(b) + rest) == [b] + Matches(rest)
  {
    var s := InQuotes(b) + rest;
    assert s[1..] == b + (['"'] + rest);
    CloseAfterBody(b, rest);
    assert s[1..][..|b|] == b && s[1..][|b| + 1..] == rest;
  }

  lemma {:induction false} MatchesJoined(bodies: seq<string>)
    requires Bodies(bodies)
    ensures Matches(JoinQuoted(bodies)) == bodies
    decreases |bodies|
  {
    if |bodies| == 1 {
      MatchFirst(bodies[0], []);
      assert InQuotes(bodies[0]) + [] == InQuotes(bodies[0]);
    } else if |bodies| > 1 {
      var more := [' '] + JoinQuoted(bodies[1..]);
      MatchFirst(bodies[0], more);
      MatchesJoined(bodies[1..]);
      assert more[1..] == JoinQuoted(bodies[1..]);
      assert InQuotes(bodies[0]) + [' '] + JoinQuoted(bodies[1..]) == InQuotes(bodies[0]) + more;
    }
  }

  lemma {:induction false} MatchesAreBodies(s: string)
    ensures Bodies(Matches(s))
    decreases |s|
  {
    if s != [] {
      CloseBound(s[1..]);
      var end := Close(s[1..]);
      if s[0] == '"' && end.Some? {
        CloseGivesBody(s[1..]);
        MatchesAreBodies(s[1..][end.value + 1..]);
      } else {
        MatchesAreBodies(s[1..]);
      }
    }
  }

  /** Reading the printed command gives the arguments back, whatever characters they hold. */
  lemma PrintedCommandReadsBack(args: seq<string>)
    requires args != []
    ensures ReadCommand(JoinQuoted(QuoteBodies(args))) == Ok(args)
  {
    var bodies := QuoteBodies(args);
    forall i | 0 <= i < |args|
      ensures Body(bodies[i]) && !HasSpecifier(bodies[i]) && Decode(bodies[i]) == args[i]
    {
      QuoteBodyIsEscape(args[i]);
      EscapeIsWellEscaped(args[i]);
      WellEscapedIsBody(bodies[i]);
      SpecifierFreeExactly(bodies[i]);
      UnslashEscape(args[i]);
      UndoubleDouble(args[i]);
    }
    MatchesJoined(bodies);
    assert DecodeAll(bodies) == args;
  }

  lemma AcceptedBodies(value: string, args: seq<string>)
    requires ReadCommand(value) == Ok(args)
    ensures args != [] && QuoteBodies(args) == Matches(value) && JoinQuoted(Matches(value)) == value
  {
    var bodies := Matches(value);
    MatchesAreBodies(value);
    forall i | 0 <= i < |bodies| ensures QuoteBody(args[i]) == bodies[i] {
      SpecifierFreeExactly(bodies[i]);
      EscapeDecode(bodies[i]);
      QuoteBodyIsEscape(args[i]);
    }
    assert QuoteBodies(args) == bodies;
  }

  lemma {:induction false} EscapePrintable(s: string)
    ensures Printable(Escape(s)) <==> Printable(s)
  {
    if s != [] {
      EscapePrintable(s[1..]);
      assert s == [s[0]] + s[1..];
      var c := EscapeChar(s[0]);
      assert Printable(c) <==> Printable([s[0]]) by { assert s[0] in c; }
      PrintableAppend(c, Escape(s[1..]));
      PrintableAppend([s[0]], s[1..]);
    }
  }

  lemma PrintableAppend(a: string, b: string)
    ensures Printable(a + b) <==> Printable(a) && Printable(b)
  {
    forall c | c in a ensures c in a + b {}
    forall c | c in b ensures c in a + b {}
  }

  lemma {:induction false} JoinedPrintable(bodies: seq<string>)
    ensures Printable(JoinQuoted(bodies)) <==> AllPrintable(bodies)
    decreases |bodies|
  {
    if bodies != [] {
      PrintableAppend(['"'], bodies[0]);
      PrintableAppend(['"'] + bodies[0], ['"']);
      assert Printable(['"']);
      if |bodies| > 1 {
        JoinedPrintable(bodies[1..]);
        PrintableAppend(InQuotes(bodies[0]), [' ']);
        assert Printable([' ']);
        PrintableAppend(InQuotes(bodies[0]) + [' '], JoinQuoted(bodies[1..]));
        assert bodies == [bodies[0]] + bodies[1..];
      }
    }
  }

  /**
   * Printing an accepted command gives the same text exactly when the text has no NUL, line break or
   * dollar; reading accepts those characters and printing refuses them.
   */
  lemma AcceptedCommandPrintsBackExactly(value: string, args: seq<string>)
    requires ReadCommand(value) == Ok(args)
    ensures PrintCommand(args) == Ok(value) <==> Printable(value)
    ensures PrintCommand(args).Err? <==> !Printable(value)
  {
    AcceptedBodies(value, args);
    var bodies := Matches(value);
    JoinedPrintable(bodies);
    forall i | 0 <= i < |args| ensures Printable(args[i]) <==> Printable(bodies[i]) {
      assert bodies[i] == QuoteBodies(args)[i];
      QuoteBodyIsEscape(args[i]);
      EscapePrintable(args[i]);
    }
    assert AllPrintable(args) <==> AllPrintable(bodies);
  }
}
