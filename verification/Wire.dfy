/** Server-to-client framing: Base64 (section 4 of RFC 4648) inside SSE `data:`
    lines (section 9.2 of the WHATWG HTML Standard), and the client's incremental
    parser over arbitrary chunks (src/server.rs:249-269, 585-588;
    src/tunnel.rs:252-317, 331-347). */
module Wire {
  import opened Prelude
  import P = Protocol

  // --------------------------------------------------------------------- Base64

  function Digit(v: nat): char
    requires v < 64
  {
    if v < 26 then ('A' as int + v) as char
    else if v < 52 then ('a' as int + v - 26) as char
    else if v < 62 then ('0' as int + v - 52) as char
    else if v == 62 then '+' else '/'
  }

  function Value(c: char): Option<nat> {
    if 'A' <= c <= 'Z' then Some(c as int - 'A' as int)
    else if 'a' <= c <= 'z' then Some(c as int - 'a' as int + 26)
    else if '0' <= c <= '9' then Some(c as int - '0' as int + 52)
    else if c == '+' then Some(62)
    else if c == '/' then Some(63)
    else None
  }

  lemma DigitValue(v: nat)
    requires v < 64
    ensures Value(Digit(v)) == Some(v) && Digit(v) != '=' && Digit(v) > ' '
  {
  }

  /** The alphabet is the one of table 1 in RFC 4648: it starts, turns and ends where
      that does, and counts up in between. */
  lemma DigitsAreTheAlphabet(v: nat)
    requires v < 63
    ensures Digit(0) == 'A' && Digit(25) == 'Z' && Digit(26) == 'a' && Digit(51) == 'z'
    ensures Digit(52) == '0' && Digit(61) == '9' && Digit(62) == '+' && Digit(63) == '/'
    ensures v !in {25, 51, 61, 62} ==> Digit(v + 1) as int == Digit(v) as int + 1
  {
  }

  /** And the padding is RFC 4648's: two of the test vectors of its section 10. */
  lemma PaddingIsRfc4648()
    ensures Encode64([0x66]) == "Zg==" && Encode64([0x66, 0x6F]) == "Zm8=" && Encode64([0x66, 0x6F, 0x6F]) == "Zm9v"
  {
    assert Quad(0x66, 0, 0) == "ZgAA" && Quad(0x66, 0x6F, 0) == "Zm8A" && Quad(0x66, 0x6F, 0x6F) == "Zm9v";
    assert [0x66, 0x6F, 0x6F][3..] == [];
  }

  function Quad(a: byte, b: byte, c: byte): string {
    [Digit(a / 4), Digit(a % 4 * 16 + b / 16), Digit(b % 16 * 4 + c / 64), Digit(c % 64)]
  }

  function Encode64(b: Bytes): string {
    if b == [] then []
    else if |b| == 1 then Quad(b[0], 0, 0)[..2] + "=="
    else if |b| == 2 then Quad(b[0], b[1], 0)[..3] + "="
    else Quad(b[0], b[1], b[2]) + Encode64(b[3..])
  }

  /** The three bytes of four sextets. */
  function Triple(p: nat, q: nat, r: nat, s: nat): Bytes
    requires p < 64 && q < 64 && r < 64 && s < 64
  {
    [p * 4 + q / 16, q % 16 * 16 + r / 4, r % 4 * 64 + s]
  }

  /** Strict decoding: padded, and with no stray bits under the padding. */
  function Decode64(t: string): Option<Bytes> {
    if t == [] then Some([])
    else if |t| < 4 then None
    else
      var p :- Value(t[0]);
      var q :- Value(t[1]);
      if |t| == 4 && t[2] == '=' && t[3] == '=' then
        if q % 16 == 0 then Some(Triple(p, q, 0, 0)[..1]) else None
      else
        var r :- Value(t[2]);
        if |t| == 4 && t[3] == '=' then
          if r % 4 == 0 then Some(Triple(p, q, r, 0)[..2]) else None
        else
          var s :- Value(t[3]);
          var rest :- Decode64(t[4..]);
          Some(Triple(p, q, r, s) + rest)
  }

  /** Nothing a line splitter, a trimmer or a delimiter search would notice. */
  predicate Inert(t: string) {
    forall i :: 0 <= i < |t| ==> t[i] > ' '
  }

  lemma Sextets(a: byte, b: byte, c: byte)
    ensures var q, r := a % 4 * 16 + b / 16, b % 16 * 4 + c / 64;
      && q < 64 && r < 64 && q / 16 == a % 4 && q % 16 == b / 16 && r / 4 == b % 16 && r % 4 == c / 64
  {
  }

  lemma QuadTriple(a: byte, b: byte, c: byte)
    ensures var p, q, r, s := a / 4, a % 4 * 16 + b / 16, b % 16 * 4 + c / 64, c % 64;
      && Quad(a, b, c) == [Digit(p), Digit(q), Digit(r), Digit(s)]
      && Value(Digit(p)) == Some(p) && Value(Digit(q)) == Some(q) && Value(Digit(r)) == Some(r) && Value(Digit(s)) ==
        Some(s)
      && Triple(p, q, r, s) == [a, b, c]
      && Inert(Quad(a, b, c)) && Digit(r) != '=' && Digit(s) != '=' && (b == 0 ==> q % 16 == 0) &&
        (c == 0 ==> r % 4 == 0)
  {
    hide Digit, Value;
    Sextets(a, b, c);
    DigitValue(a / 4);
    DigitValue(a % 4 * 16 + b / 16);
    DigitValue(b % 16 * 4 + c / 64);
    DigitValue(c % 64);
  }

  lemma LastByte(a: byte)
    ensures Decode64(Encode64([a])) == Some([a]) && Inert(Encode64([a]))
  {
    hide Digit, Value, Quad, Triple;
    QuadTriple(a, 0, 0);
    var t := Encode64([a]);
    assert t == Quad(a, 0, 0)[..2] + "==";
    assert t[1] == Digit(a % 4 * 16) && t[2] == '=' && t[3] == '=';
    assert Triple(a / 4, a % 4 * 16, 0, 0)[..1] == [a];
  }

  lemma LastTwoBytes(a: byte, b: byte)
    ensures Decode64(Encode64([a, b])) == Some([a, b]) && Inert(Encode64([a, b]))
  {
    hide Digit, Value, Quad, Triple;
    QuadTriple(a, b, 0);
    var t := Encode64([a, b]);
    assert t == Quad(a, b, 0)[..3] + "=";
    assert t[2] == Digit(b % 16 * 4) && t[3] == '=';
    assert Triple(a / 4, a % 4 * 16 + b / 16, b % 16 * 4, 0)[..2] == [a, b];
  }

  lemma ThreeBytes(a: byte, b: byte, c: byte, rest: Bytes)
    requires Decode64(Encode64(rest)) == Some(rest) && Inert(Encode64(rest))
    ensures Decode64(Quad(a, b, c) + Encode64(rest)) == Some([a, b, c] + rest) && Inert(Quad(a, b, c) + Encode64(rest))
  {
    hide Digit, Value, Quad, Triple, Encode64;
    QuadTriple(a, b, c);
    var t := Quad(a, b, c) + Encode64(rest);
    assert t[4..] == Encode64(rest);
    assert t[..4] == Quad(a, b, c);
  }

  lemma {:induction false} Base64Round(b: Bytes)
    ensures Decode64(Encode64(b)) == Some(b) && Inert(Encode64(b))
    decreases |b|
  {
    hide Digit, Value, Quad, Triple, Decode64;
    if |b| == 0 {
      assert Decode64([]) == Some([]) by { NoBytes(); }
    } else if |b| == 1 {
      LastByte(b[0]);
      assert b == [b[0]];
    } else if |b| == 2 {
      LastTwoBytes(b[0], b[1]);
      assert b == [b[0], b[1]];
    } else {
      Base64Round(b[3..]);
      ThreeBytes(b[0], b[1], b[2], b[3..]);
      assert b == [b[0], b[1], b[2]] + b[3..];
    }
  }

  lemma ValueDigit(c: char)
    requires Value(c).Some?
    ensures Value(c).value < 64 && Digit(Value(c).value) == c
  {
  }

  lemma TripleQuad(p: nat, q: nat, r: nat, s: nat)
    requires p < 64 && q < 64 && r < 64 && s < 64
    ensures var b := Triple(p, q, r, s);
      && |b| == 3 && Quad(b[0], b[1], b[2]) == [Digit(p), Digit(q), Digit(r), Digit(s)]
      && (q % 16 == 0 ==> Triple(p, q, 0, 0)[1] == 0)
      && (r % 4 == 0 ==> Triple(p, q, r, 0)[2] == 0)
  {
    var b := Triple(p, q, r, s);
    assert b[0] / 4 == p && b[0] % 4 == q / 16 && b[1] / 16 == q % 16 && b[1] % 16 == r / 4;
    assert b[2] / 64 == r % 4 && b[2] % 64 == s;
    hide Digit, Triple;
  }

  lemma QuadOf(t: string)
    requires |t| >= 4 && Value(t[0]).Some? && Value(t[1]).Some?
    ensures var p, q := Value(t[0]).value, Value(t[1]).value;
      && p < 64 && q < 64
      && (q % 16 == 0 && t[2] == '=' && t[3] == '=' ==> Encode64(Triple(p, q, 0, 0)[..1]) == t[..4])
    ensures Value(t[2]).Some? ==>
      var p, q, r := Value(t[0]).value, Value(t[1]).value, Value(t[2]).value;
      && r < 64 && (r % 4 == 0 && t[3] == '=' ==> Encode64(Triple(p, q, r, 0)[..2]) == t[..4])
  {
    ValueDigit(t[0]);
    ValueDigit(t[1]);
    var p, q := Value(t[0]).value, Value(t[1]).value;
    TripleQuad(p, q, 0, 0);
    hide Digit, Value;
    if q % 16 == 0 && t[2] == '=' && t[3] == '=' {
      var b := Triple(p, q, 0, 0);
      assert Encode64(b[..1]) == Quad(b[0], 0, 0)[..2] + "==";
      assert t[..4] == t[..2] + "==";
    }
    if Value(t[2]).Some? {
      ValueDigit(t[2]);
      var r := Value(t[2]).value;
      TripleQuad(p, q, r, 0);
      if r % 4 == 0 && t[3] == '=' {
        var b := Triple(p, q, r, 0);
        assert Encode64(b[..2]) == Quad(b[0], b[1], 0)[..3] + "=";
        assert t[..4] == t[..3] + "=";
      }
    }
  }

  lemma WholeQuad(t: string, rest: Bytes)
    requires |t| >= 4 && Value(t[0]).Some? && Value(t[1]).Some? && Value(t[2]).Some? && Value(t[3]).Some?
    ensures var p, q, r, s := Value(t[0]).value, Value(t[1]).value, Value(t[2]).value, Value(t[3]).value;
      p < 64 && q < 64 && r < 64 && s < 64 && Encode64(Triple(p, q, r, s) + rest) == t[..4] + Encode64(rest)
  {
    ValueDigit(t[0]);
    ValueDigit(t[1]);
    ValueDigit(t[2]);
    ValueDigit(t[3]);
    var p, q, r, s := Value(t[0]).value, Value(t[1]).value, Value(t[2]).value, Value(t[3]).value;
    TripleQuad(p, q, r, s);
    hide Digit, Value, Triple;
    var b := Triple(p, q, r, s) + rest;
    assert b[3..] == rest && b[0] == Triple(p, q, r, s)[0] && b[1] == Triple(p, q, r, s)[1];
    assert t[..4] == [t[0], t[1], t[2], t[3]];
  }

  /** Decoding is strict: it accepts an encoding and nothing else. */
  lemma {:induction false} Base64IsExact(t: string, b: Bytes)
    ensures Decode64(t) == Some(b) <==> t == Encode64(b)
    decreases |t|
  {
    Base64Round(b);
    if Decode64(t) == Some(b) && t != [] {
      assert t[..4] + t[4..] == t;
      QuadOf(t);
      if |t| == 4 && t[3] == '=' {
        hide Digit, Value, Triple, Encode64;
        assert t[..4] == t;
      } else {
        WholeQuad(t, Decode64(t[4..]).value);
        hide Digit, Value, Triple, Encode64;
        Base64IsExact(t[4..], Decode64(t[4..]).value);
      }
    }
  }

  lemma NoBytes()
    ensures Decode64([]) == Some([])
  {
  }

  // --------------------------------------------------------------- event stream

  const DATA := "data: "
  const DELIM := "\n\n"

  /** The frame of one queued message, and the keepalive comment. */
  function DataFrame(payload: Bytes): string {
    DATA + Encode64(payload) + DELIM
  }

  const KEEPALIVE := ":\n\n"

  predicate DelimAt(t: string, k: nat) {
    k + 1 < |t| && t[k] == '\n' && t[k + 1] == '\n'
  }

  /** The position of the leftmost blank line, or `|t|` when there is none. */
  function FindDelim(t: string): (pos: nat)
    ensures pos == |t| || DelimAt(t, pos)
    ensures forall k: nat :: k < pos ==> !DelimAt(t, k)
  {
    if t == [] || DelimAt(t, 0) then 0
    else
      var pos := FindDelim(t[1..]);
      assert forall k: nat :: 1 <= k ==> DelimAt(t, k) == DelimAt(t[1..], k - 1);
      pos + 1
  }

  function FindNewline(t: string): (pos: nat)
    ensures pos <= |t| && (pos < |t| ==> t[pos] == '\n')
    ensures forall k :: 0 <= k < pos ==> t[k] != '\n'
  {
    if t == [] || t[0] == '\n' then 0 else FindNewline(t[1..]) + 1
  }

  /** `str::lines`: split at `\n` or `\r\n`, with no last empty line. */
  function Lines(t: string): seq<string>
    decreases |t|
  {
    if t == [] then []
    else
      var n := FindNewline(t);
      if n == |t| then [t]
      else [if n > 0 && t[n - 1] == '\r' then t[..n - 1] else t[..n]] + Lines(t[n + 1..])
  }

  predicate IsSpace(c: char) {
    c == ' ' || c == '\t' || c == '\n' || c == '\r' || c == 11 as char || c == 12 as char
  }

  function Trim(t: string): string
    decreases |t|
  {
    if t != [] && IsSpace(t[0]) then Trim(t[1..])
    else if t != [] && IsSpace(t[|t| - 1]) then Trim(t[..|t| - 1])
    else t
  }

  ghost predicate AllSpace(t: string) {
    forall i :: 0 <= i < |t| ==> IsSpace(t[i])
  }

  /** Trimming takes off white space at both ends, and all of it. */
  lemma {:induction false} TrimIsExact(t: string) returns (l: string, r: string)
    ensures t == l + Trim(t) + r && AllSpace(l) && AllSpace(r)
    ensures Trim(t) == [] || (!IsSpace(Trim(t)[0]) && !IsSpace(Trim(t)[|Trim(t)| - 1]))
    decreases |t|
  {
    hide IsSpace;
    l, r := [], [];
    if t != [] && IsSpace(t[0]) {
      l, r := TrimIsExact(t[1..]);
      assert t == [t[0]] + t[1..];
      l := [t[0]] + l;
    } else if t != [] && IsSpace(t[|t| - 1]) {
      var init := t[..|t| - 1];
      l, r := TrimIsExact(init);
      assert t == init + [t[|t| - 1]];
      r := r + [t[|t| - 1]];
    }
  }

  /** How a text splits into lines, one line break at a time. */
  lemma LineBreaks(line: string, rest: string)
    requires forall i :: 0 <= i < |line| ==> line[i] != '\n'
    ensures Lines(line) == if line == [] then [] else [line]
    ensures line == [] || line[|line| - 1] != '\r' ==> Lines(line + "\n" + rest) == [line] + Lines(rest)
    ensures Lines(line + "\r\n" + rest) == [line] + Lines(rest)
  {
    NewlineAt(line, rest);
    NewlineAt(line + "\r", rest);
    NewlineAt(line, []);
    assert line + "\r" + "\n" + rest == line + "\r\n" + rest;
    hide FindNewline;
    assert FindNewline(line) == |line|;
    var t, u := line + "\n" + rest, line + "\r\n" + rest;
    assert t[..|line|] == line && t[|line| + 1..] == rest;
    assert u[..|line|] == line && u[|line| + 2..] == rest && u[|line|] == '\r';
  }

  lemma NewlineAt(line: string, rest: string)
    requires forall i :: 0 <= i < |line| ==> line[i] != '\n'
    ensures FindNewline(line + "\n" + rest) == |line| && FindNewline(line) == |line|
  {
    var t, n := line + "\n" + rest, FindNewline(line + "\n" + rest);
    assert t[|line|] == '\n';
    assert forall i :: 0 <= i < |line| ==> t[i] == line[i];
  }

  /** What one line hands over: at most one payload. */
  function LinePayload(line: string): seq<Bytes> {
    if !(DATA <= line) then []
    else match Decode64(Trim(line[|DATA|..]))
      case None => []
      case Some(payload) => [payload]
  }

  /** A line hands over `payload` if and only if it is a data field whose trimmed
      value is its encoding. */
  lemma LinePayloadIsExact(line: string, payload: Bytes)
    ensures LinePayload(line) == [payload] <==> DATA <= line && Trim(line[|DATA|..]) == Encode64(payload)
    ensures LinePayload(line) == [] || exists p :: LinePayload(line) == [p]
  {
    hide Decode64, Encode64, Trim;
    if DATA <= line {
      Base64IsExact(Trim(line[|DATA|..]), payload);
    }
  }

  function LinesPayloads(lines: seq<string>): seq<Bytes> {
    if lines == [] then [] else LinePayload(lines[0]) + LinesPayloads(lines[1..])
  }

  function EventPayloads(event: string): seq<Bytes> {
    LinesPayloads(Lines(event))
  }

  /** What a buffer yields, event by event, and what it leaves. `some` lists, for
      each event, whether it carried data. */
  datatype Parsed = Parsed(payloads: seq<Bytes>, some: seq<bool>, rest: string)

  function Parse(t: string): Parsed
    decreases |t|
  {
    var pos := FindDelim(t);
    if pos == |t| then Parsed([], [], t)
    else
      var here, later := EventPayloads(t[..pos]), Parse(t[pos + 2..]);
      Parsed(here + later.payloads, [here != []] + later.some, later.rest)
  }

  lemma NoLines()
    ensures LinesPayloads([]) == []
  {
  }

  lemma LinesStep(lines: seq<string>, i: nat)
    requires i < |lines|
    ensures LinesPayloads(lines[i..]) == LinePayload(lines[i]) + LinesPayloads(lines[i + 1..])
  {
    hide LinePayload;
    assert lines[i..][0] == lines[i] && lines[i..][1..] == lines[i + 1..];
  }

  lemma FindDelimAppend(a: string, b: string)
    requires FindDelim(a) < |a|
    ensures FindDelim(a + b) == FindDelim(a)
  {
    var p := FindDelim(a);
    assert DelimAt(a + b, p);
    assert forall k: nat :: k < p ==> DelimAt(a + b, k) == DelimAt(a, k);
  }

  lemma ParseOne(t: string)
    requires FindDelim(t) < |t|
    ensures var pos := FindDelim(t); var later := Parse(t[pos + 2..]);
      Parse(t) == Parsed(EventPayloads(t[..pos]) + later.payloads, [EventPayloads(t[..pos]) != []] + later.some,
        later.rest)
  {
  }

  /** Chunk boundaries do not matter: parsing what is left together with the next
      chunk gives what parsing everything at once would have. */
  lemma {:induction false} ParseAppend(a: string, b: string)
    ensures var first := Parse(a); var after := Parse(first.rest + b);
      Parse(a + b) == Parsed(first.payloads + after.payloads, first.some + after.some, after.rest)
    decreases |a|
  {
    hide FindDelim, EventPayloads, Parse;
    var pos := FindDelim(a);
    if pos < |a| {
      var tail := a[pos + 2..];
      FindDelimAppend(a, b);
      assert (a + b)[..pos] == a[..pos] && (a + b)[pos + 2..] == tail + b;
      ParseOne(a);
      ParseOne(a + b);
      ParseAppend(tail, b);
      var first := Parse(tail);
      var after := Parse(first.rest + b);
      var here := EventPayloads(a[..pos]);
      assert here + (first.payloads + after.payloads) == here + first.payloads + after.payloads;
      assert [here != []] + (first.some + after.some) == [here != []] + first.some + after.some;
    } else {
      ParseNone(a);
      assert [] + Parse(a + b).payloads == Parse(a + b).payloads;
      assert [] + Parse(a + b).some == Parse(a + b).some;
    }
  }

  lemma {:induction false} RestHasNoDelim(t: string)
    ensures FindDelim(Parse(t).rest) == |Parse(t).rest|
    decreases |t|
  {
    var pos := FindDelim(t);
    if pos < |t| {
      RestHasNoDelim(t[pos + 2..]);
    }
  }

  /** The stream reader's state across chunks. */
  class SseReader {
    var buffer: string
    var handled: seq<Bytes>       // payloads given to the message handler, in order
    var signaledReady: bool
    const isReconnect: bool
    ghost var received: string    // every character of every chunk
    ghost var events: seq<bool>   // for each event so far, whether it carried data

    /** A ready signal waits for an event with data on the first connection, and
        for any event on a reconnect. */
    ghost predicate Valid()
      reads this
    {
      && Parse(received) == Parsed(handled, events, buffer)
      && (signaledReady <==> true in events || (isReconnect && events != []))
    }

    constructor (isReconnect: bool)
      ensures Valid() && this.isReconnect == isReconnect && received == [] && handled == []
    {
      buffer, handled, signaledReady := [], [], false;
      this.isReconnect := isReconnect;
      received, events := [], [];
    }

    method HandleEvent(event: string) returns (hadData: bool)
      modifies this`handled
      ensures handled == old(handled) + EventPayloads(event)
      ensures hadData <==> EventPayloads(event) != []
    {
      hadData := false;
      var lines := Lines(event);
      var i := 0;
      hide Lines, Decode64, Trim, LinesPayloads;
      NoLines();
      assert lines[0..] == lines;
      while i < |lines|
        invariant 0 <= i <= |lines|
        invariant handled + LinesPayloads(lines[i..]) == old(handled) + EventPayloads(event)
        invariant hadData <==> handled != old(handled)
        invariant |handled| >= |old(handled)|
      {
        var line := lines[i];
        LinesStep(lines, i);
        ConcatAssoc(handled, LinePayload(line), LinesPayloads(lines[i + 1..]));
        if DATA <= line {
          var decoded := Decode64(Trim(line[|DATA|..]));
          if decoded.Some? {
            handled := handled + [decoded.value];
            hadData := true;
          }
        }
        i := i + 1;
      }
      assert lines[i..] == [] && handled + [] == handled;
    }

    /** One chunk, cut anywhere. Everything complete is handed over; what stays
        in the buffer never holds a complete delimiter. */
    method Feed(chunk: string)
      requires Valid()
      modifies this
      ensures Valid() && received == old(received) + chunk
      ensures handled == Parse(received).payloads && FindDelim(buffer) == |buffer|
      ensures signaledReady <==> true in Parse(received).some || (isReconnect && Parse(received).some != [])
    {
      hide EventPayloads, FindDelim, Parse;
      ParseAppend(received, chunk);
      ghost var goal := Parse(received + chunk);
      buffer := buffer + chunk;
      received := received + chunk;
      while FindDelim(buffer) < |buffer|
        invariant received == old(received) + chunk
        invariant goal == Parsed(handled + Parse(buffer).payloads, events + Parse(buffer).some, Parse(buffer).rest)
        invariant signaledReady <==> true in events || (isReconnect && events != [])
        decreases |buffer|
      {
        ghost var before, parsed := handled, Parse(buffer);
        ParseOne(buffer);
        var pos := FindDelim(buffer);
        var event := buffer[..pos];
        buffer := buffer[pos + 2..];
        ghost var later := Parse(buffer);
        var hadData := HandleEvent(event);
        assert before + parsed.payloads == handled + later.payloads;
        if hadData && !signaledReady {
          signaledReady := true;
        } else if isReconnect && !signaledReady {
          signaledReady := true;
        }
        assert events + parsed.some == events + [hadData] + later.some;
        events := events + [hadData];
      }
      ParseNone(buffer);
      assert handled + [] == handled && events + [] == events;
    }
  }

  lemma ParseNone(t: string)
    requires FindDelim(t) == |t|
    ensures Parse(t) == Parsed([], [], t)
  {
  }

  // -------------------------------------------------------------- the round trip

  /** What the server's stream yields: a queued message, encrypted under a nonce
      of its own, or a keepalive. */
  datatype Sent = Beat | Msg(nonce: nat, message: P.Message)

  /** The cipher, whose inside is not modelled. */
  ghost predicate Inverts(enc: (nat, Bytes) -> Bytes, dec: Bytes -> Option<Bytes>) {
    forall nonce, plain :: dec(enc(nonce, plain)) == Some(plain)
  }

  function FrameOf(enc: (nat, Bytes) -> Bytes, s: Sent): string {
    match s
    case Beat => KEEPALIVE
    case Msg(nonce, m) => DataFrame(enc(nonce, P.Encode(m)))
  }

  function StreamText(enc: (nat, Bytes) -> Bytes, stream: seq<Sent>): string {
    if stream == [] then [] else FrameOf(enc, stream[0]) + StreamText(enc, stream[1..])
  }

  function Messages(stream: seq<Sent>): seq<P.Message> {
    if stream == [] then [] else (if stream[0].Msg? then [stream[0].message] else []) + Messages(stream[1..])
  }

  /** `handle_sse_message` up to its dispatch: what cannot be decrypted or
      decoded is dropped. */
  function UnderstoodOne(dec: Bytes -> Option<Bytes>, payload: Bytes): seq<P.Message> {
    match dec(payload)
    case None => []
    case Some(plain) =>
      match P.FromBytes(plain)
      case None => []
      case Some(m) => [m]
  }

  function Understood(dec: Bytes -> Option<Bytes>, payloads: seq<Bytes>): seq<P.Message> {
    if payloads == [] then [] else UnderstoodOne(dec, payloads[0]) + Understood(dec, payloads[1..])
  }

  lemma {:induction false} UnderstoodAppend(dec: Bytes -> Option<Bytes>, a: seq<Bytes>, b: seq<Bytes>)
    ensures Understood(dec, a + b) == Understood(dec, a) + Understood(dec, b)
  {
    hide UnderstoodOne;
    if a == [] {
      assert a + b == b;
    } else {
      UnderstoodAppend(dec, a[1..], b);
      assert (a + b)[0] == a[0] && (a + b)[1..] == a[1..] + b;
      ConcatAssoc(UnderstoodOne(dec, a[0]), Understood(dec, a[1..]), Understood(dec, b));
    }
  }

  lemma TrimInert(t: string)
    requires Inert(t)
    ensures Trim(t) == t
  {
  }

  lemma OneLine(t: string)
    requires t != [] && forall k :: 0 <= k < |t| ==> t[k] != '\n'
    ensures Lines(t) == [t] && EventPayloads(t) == LinePayload(t)
  {
    hide LinePayload, FindNewline;
    assert Lines(t) == [t];
    assert LinesPayloads([t]) == LinePayload(t) + [];
  }

  /** A frame without line breaks of its own, followed by anything. */
  lemma FirstDelim(body: string, rest: string)
    requires body != [] && forall k :: 0 <= k < |body| ==> body[k] != '\n'
    ensures FindDelim(body + DELIM + rest) == |body|
    ensures (body + DELIM + rest)[..|body|] == body && (body + DELIM + rest)[|body| + 2..] == rest
  {
    var t := body + DELIM + rest;
    assert DelimAt(t, |body|);
    assert forall k: nat :: k < |body| ==> t[k] == body[k];
    assert forall k: nat :: k < |body| ==> !DelimAt(t, k);
  }

  lemma FrameParses(body: string, rest: string)
    requires body != [] && forall k :: 0 <= k < |body| ==> body[k] != '\n'
    ensures Parse(body + DELIM + rest).payloads == LinePayload(body) + Parse(rest).payloads
    ensures Parse(body + DELIM + rest).rest == Parse(rest).rest
  {
    hide FindDelim, EventPayloads, Parse;
    FirstDelim(body, rest);
    ParseOne(body + DELIM + rest);
    OneLine(body);
  }

  lemma DataLine(payload: Bytes)
    ensures var body := DATA + Encode64(payload);
      LinePayload(body) == [payload] && forall k :: 0 <= k < |body| ==> body[k] != '\n'
  {
    hide Encode64, Decode64;
    Base64Round(payload);
    var body := DATA + Encode64(payload);
    assert body[|DATA|..] == Encode64(payload);
    assert body[..|DATA|] == DATA;
    TrimInert(Encode64(payload));
  }

  lemma {:induction false} StreamParses(enc: (nat, Bytes) -> Bytes, dec: Bytes -> Option<Bytes>, stream: seq<Sent>)
    requires Inverts(enc, dec)
    ensures var p := Parse(StreamText(enc, stream));
      Understood(dec, p.payloads) == Messages(stream) && p.rest == []
    decreases |stream|
  {
    if stream == [] {
      assert FindDelim([]) == 0;
    } else {
      hide Parse, LinePayload, Encode64, P.Encode, P.FromBytes;
      var rest := StreamText(enc, stream[1..]);
      StreamParses(enc, dec, stream[1..]);
      match stream[0] {
        case Beat =>
          BeatLine();
          assert KEEPALIVE + rest == ":" + DELIM + rest;
          FrameParses(":", rest);
          assert [] + Parse(rest).payloads == Parse(rest).payloads;
          assert [] + Messages(stream[1..]) == Messages(stream);
        case Msg(nonce, m) =>
          var payload := enc(nonce, P.Encode(m));
          DataLine(payload);
          FrameParses(DATA + Encode64(payload), rest);
          P.DecodeIsExact(P.Encode(m), m, []);
          EncodedIsUnderstood(dec, payload, m);
          UnderstoodAppend(dec, [payload], Parse(rest).payloads);
      }
    }
  }

  lemma BeatLine()
    ensures LinePayload(":") == []
  {
    assert !(DATA <= ":");
  }

  lemma EncodedIsUnderstood(dec: Bytes -> Option<Bytes>, payload: Bytes, m: P.Message)
    requires dec(payload) == Some(P.Encode(m))
    ensures Understood(dec, [payload]) == [m]
  {
    hide P.Encode, P.Decode;
    assert P.Encode(m) + [] == P.Encode(m);
    P.DecodeIsExact(P.Encode(m), m, []);
    assert Understood(dec, []) == [];
  }

  function Joined(chunks: seq<string>): string {
    if chunks == [] then [] else Joined(chunks[..|chunks| - 1]) + chunks[|chunks| - 1]
  }

  /** The reader over a whole stream, in whatever chunks it arrives; `ready` says
      whether it has signalled: for data, or as a reconnect for any event. */
  method ReadStream(chunks: seq<string>, isReconnect: bool) returns (handled: seq<Bytes>, rest: string, ready: bool)
    ensures handled == Parse(Joined(chunks)).payloads && rest == Parse(Joined(chunks)).rest
    ensures FindDelim(rest) == |rest|
    ensures ready <==>
      true in Parse(Joined(chunks)).some || (isReconnect && Parse(Joined(chunks)).some != [])
  {
    hide Parse, FindDelim;
    var reader := new SseReader(isReconnect);
    var i := 0;
    while i < |chunks|
      invariant 0 <= i <= |chunks| && fresh(reader) && reader.Valid()
      invariant reader.received == Joined(chunks[..i])
    {
      assert chunks[..i + 1][..i] == chunks[..i];
      reader.Feed(chunks[i]);
      i := i + 1;
    }
    assert chunks[..|chunks|] == chunks;
    RestHasNoDelim(reader.received);
    handled, rest, ready := reader.handled, reader.buffer, reader.signaledReady;
  }

  /** The wire, end to end: any list of messages, with keepalives anywhere among
      them, encrypted, framed, cut into chunks at any positions, parsed, decrypted
      and decoded, comes back as exactly those messages in order, and a stream
      cut short comes back as a prefix of them. */
  lemma WireRoundTrip(enc: (nat, Bytes) -> Bytes, dec: Bytes -> Option<Bytes>, stream: seq<Sent>, chunks: seq<string>)
    requires Inverts(enc, dec) && Joined(chunks) <= StreamText(enc, stream)
    ensures Understood(dec, Parse(Joined(chunks)).payloads) <= Messages(stream)
    ensures Joined(chunks) == StreamText(enc, stream) ==>
      Understood(dec, Parse(Joined(chunks)).payloads) == Messages(stream) && Parse(Joined(chunks)).rest == []
  {
    hide *;
    StreamParses(enc, dec, stream);
    var got, all := Joined(chunks), StreamText(enc, stream);
    assert all == got + all[|got|..];
    ParseAppend(got, all[|got|..]);
    UnderstoodAppend(dec, Parse(got).payloads, Parse(Parse(got).rest + all[|got|..]).payloads);
  }
}
