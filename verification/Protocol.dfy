/** The wire messages and their bincode 1.x encoding: little-endian fixed-width
    integers, a u32 variant index, u64 lengths, one-byte option tags, trailing
    bytes ignored (src/protocol.rs:5-110). */
module Protocol {
  import opened Prelude

  type u16 = x: int | 0 <= x < 0x1_0000
  type u32 = x: int | 0 <= x < 0x1_0000_0000
  type u64 = x: int | 0 <= x < 0x1_0000_0000_0000_0000
  type i32 = x: int | -0x8000_0000 <= x < 0x8000_0000

  // ---------------------------------------------------------------------- text

  predicate Continuation(b: byte) {
    0x80 <= b < 0xC0
  }

  /** The length of the well-formed UTF-8 sequence at the head of `s`, or 0
      (section 4 of RFC 3629). */
  function Utf8Head(s: Bytes): nat
    requires s != []
  {
    var a := s[0];
    if a < 0x80 then 1
    else if 0xC2 <= a < 0xE0 && |s| >= 2 && Continuation(s[1]) then 2
    else if 0xE0 <= a < 0xF0 && |s| >= 3 && Continuation(s[1]) && Continuation(s[2])
            && (a == 0xE0 ==> s[1] >= 0xA0) && (a == 0xED ==> s[1] < 0xA0) then 3
    else if 0xF0 <= a < 0xF5 && |s| >= 4 && Continuation(s[1]) && Continuation(s[2]) && Continuation(s[3])
            && (a == 0xF0 ==> s[1] >= 0x90) && (a == 0xF4 ==> s[1] < 0x90) then 4
    else 0
  }

  predicate ValidUtf8(s: Bytes)
    decreases |s|
  {
    s == [] || (Utf8Head(s) > 0 && ValidUtf8(s[Utf8Head(s)..]))
  }

  /** A `Vec<u8>`: it fits a u64 length. */
  type Blob = s: Bytes | |s| < 0x1_0000_0000_0000_0000

  /** A `String`. */
  type Text = s: Blob | ValidUtf8(s) witness []

  type Texts = s: seq<Text> | |s| < 0x1_0000_0000_0000_0000

  datatype Message =
    | Connect(connId: u32, host: Text, port: u16)
    | Data(connId: u32, data: Blob)
    | Close(connId: u32)
    | Ping
    | Pong
    | Error(errConn: Option<u32>, message: Text)
    | Reset
    | Exec(connId: u32, cmd: Option<Text>, cols: u16, rows: u16, term: Text)
    | Resize(connId: u32, cols: u16, rows: u16)
    | ExitStatus(connId: u32, code: i32)
    | Pull(connId: u32, paths: Texts, level: i32)
    | Push(connId: u32, path: Text)
    | Abort(connId: u32)

  // ------------------------------------------------------------------ encoding

  /** `n` little-endian bytes. */
  function PutLE(x: nat, n: nat): Bytes {
    if n == 0 then [] else [x % 256] + PutLE(x / 256, n - 1)
  }

  function PutU16(x: u16): Bytes { PutLE(x, 2) }

  function PutU32(x: u32): Bytes { PutLE(x, 4) }

  function PutU64(x: u64): Bytes { PutLE(x, 8) }

  function PutI32(x: i32): Bytes { PutLE(if x < 0 then x + 0x1_0000_0000 else x, 4) }

  function PutBlob(s: Blob): Bytes { PutU64(|s|) + s }

  function PutTexts(ts: seq<Text>): Bytes {
    if ts == [] then [] else PutBlob(ts[0]) + PutTexts(ts[1..])
  }

  function PutOptText(t: Option<Text>): Bytes {
    match t case None => [0] case Some(s) => [1] + PutBlob(s)
  }

  function PutOptU32(t: Option<u32>): Bytes {
    match t case None => [0] case Some(x) => [1] + PutU32(x)
  }

  /** The variant index: the order of declaration is the wire format. */
  function Tag(m: Message): u32 {
    match m
    case Connect(_, _, _) => 0
    case Data(_, _) => 1
    case Close(_) => 2
    case Ping => 3
    case Pong => 4
    case Error(_, _) => 5
    case Reset => 6
    case Exec(_, _, _, _, _) => 7
    case Resize(_, _, _) => 8
    case ExitStatus(_, _) => 9
    case Pull(_, _, _) => 10
    case Push(_, _) => 11
    case Abort(_) => 12
  }

  function Body(m: Message): Bytes {
    match m
    case Connect(c, host, port) => PutU32(c) + (PutBlob(host) + PutU16(port))
    case Data(c, data) => PutU32(c) + PutBlob(data)
    case Close(c) => PutU32(c)
    case Ping => []
    case Pong => []
    case Error(c, msg) => PutOptU32(c) + PutBlob(msg)
    case Reset => []
    case Exec(c, cmd, cols, rows, term) => PutU32(c) +
      (PutOptText(cmd) + (PutU16(cols) + (PutU16(rows) + PutBlob(term))))
    case Resize(c, cols, rows) => PutU32(c) + (PutU16(cols) + PutU16(rows))
    case ExitStatus(c, code) => PutU32(c) + PutI32(code)
    case Pull(c, paths, level) => PutU32(c) + (PutU64(|paths|) + (PutTexts(paths) + PutI32(level)))
    case Push(c, path) => PutU32(c) + PutBlob(path)
    case Abort(c) => PutU32(c)
  }

  /** `to_bytes` */
  function Encode(m: Message): Bytes {
    PutU32(Tag(m)) + Body(m)
  }

  // ------------------------------------------------------------------ decoding

  /** A decoded value and the bytes after it. */
  type Got<T> = Option<(T, Bytes)>

  function GetLE(b: Bytes, n: nat): nat
    requires n <= |b|
  {
    if n == 0 then 0 else b[0] + 256 * GetLE(b[1..], n - 1)
  }

  function GetU16(b: Bytes): Got<u16> {
    if |b| < 2 then None else GetLEBound(b, 2); Some((GetLE(b, 2), b[2..]))
  }

  function GetU32(b: Bytes): Got<u32> {
    if |b| < 4 then None else GetLEBound(b, 4); Some((GetLE(b, 4), b[4..]))
  }

  function GetU64(b: Bytes): Got<u64> {
    if |b| < 8 then None else GetLEBound(b, 8); Some((GetLE(b, 8), b[8..]))
  }

  function GetI32(b: Bytes): Got<i32> {
    var (x, rest) :- GetU32(b);
    Some((if x < 0x8000_0000 then x else x - 0x1_0000_0000, rest))
  }

  function GetBlob(b: Bytes): Got<Blob> {
    var (n, rest) :- GetU64(b);
    if |rest| < n then None else Some((rest[..n], rest[n..]))
  }

  function GetText(b: Bytes): Got<Text> {
    var (s, rest) :- GetBlob(b);
    if ValidUtf8(s) then Some((s, rest)) else None
  }

  function GetTexts(b: Bytes, n: nat): (r: Got<seq<Text>>)
    ensures r.Some? ==> |r.value.0| == n
  {
    if n == 0 then Some(([], b)) else
    var (t, rest) :- GetText(b);
    var (ts, rest') :- GetTexts(rest, n - 1);
    Some(([t] + ts, rest'))
  }

  function GetOptText(b: Bytes): Got<Option<Text>> {
    if b == [] then None
    else if b[0] == 0 then Some((None, b[1..]))
    else if b[0] == 1 then
      var (t, rest) :- GetText(b[1..]);
      Some((Some(t), rest))
    else None
  }

  function GetOptU32(b: Bytes): Got<Option<u32>> {
    if b == [] then None
    else if b[0] == 0 then Some((None, b[1..]))
    else if b[0] == 1 then
      var (x, rest) :- GetU32(b[1..]);
      Some((Some(x), rest))
    else None
  }

  function GetBody(tag: u32, b: Bytes): Got<Message> {
    if tag == 3 then Some((Ping, b))
    else if tag == 4 then Some((Pong, b))
    else if tag == 5 then
      var (c, r) :- GetOptU32(b);
      var (msg, r) :- GetText(r);
      Some((Error(c, msg), r))
    else if tag == 6 then Some((Reset, b))
    else if tag > 12 then None
    else
      var (c, r) :- GetU32(b);
      GetConnBody(tag, c, r)
  }

  /** The variants that begin with a connection id. */
  function GetConnBody(tag: u32, c: u32, r: Bytes): Got<Message> {
    if tag == 0 then
      var (host, r) :- GetText(r);
      var (port, r) :- GetU16(r);
      Some((Connect(c, host, port), r))
    else if tag == 1 then
      var (data, r) :- GetBlob(r);
      Some((Data(c, data), r))
    else if tag == 2 then Some((Close(c), r))
    else if tag == 7 then
      var (cmd, r) :- GetOptText(r);
      var (cols, r) :- GetU16(r);
      var (rows, r) :- GetU16(r);
      var (term, r) :- GetText(r);
      Some((Exec(c, cmd, cols, rows, term), r))
    else if tag == 8 then
      var (cols, r) :- GetU16(r);
      var (rows, r) :- GetU16(r);
      Some((Resize(c, cols, rows), r))
    else if tag == 9 then
      var (code, r) :- GetI32(r);
      Some((ExitStatus(c, code), r))
    else if tag == 10 then
      var (n, r) :- GetU64(r);
      var (paths, r) :- GetTexts(r, n);
      var (level, r) :- GetI32(r);
      Some((Pull(c, paths, level), r))
    else if tag == 11 then
      var (path, r) :- GetText(r);
      Some((Push(c, path), r))
    else if tag == 12 then Some((Abort(c), r))
    else None
  }

  function Decode(b: Bytes): Got<Message> {
    var (tag, r) :- GetU32(b);
    GetBody(tag, r)
  }

  /** `from_bytes` */
  function FromBytes(b: Bytes): Option<Message> {
    var (m, _) :- Decode(b);
    Some(m)
  }

  /** A peer built before `Abort` was added. */
  function FromBytesOld(b: Bytes): Option<Message> {
    var (tag, r) :- GetU32(b);
    if tag == 12 then None else
    var (m, _) :- GetBody(tag, r);
    Some(m)
  }

  lemma {:induction false} GetLEBound(b: Bytes, n: nat)
    requires n <= |b|
    ensures n <= 8 ==> GetLE(b, n) < Pow256(n)
  {
    if n > 0 {
      GetLEBound(b[1..], n - 1);
    }
  }

  function Pow256(n: nat): nat {
    if n == 0 then 1 else 256 * Pow256(n - 1)
  }

  // --------------------------------------------------- each field, in both ways

  lemma {:induction false} LERound(x: nat, n: nat, s: Bytes)
    requires x < Pow256(n)
    ensures |PutLE(x, n)| == n && GetLE(PutLE(x, n) + s, n) == x
  {
    if n > 0 {
      LERound(x / 256, n - 1, s);
      var b := PutLE(x, n) + s;
      assert b[0] == x % 256 && b[1..] == PutLE(x / 256, n - 1) + s;
      hide PutLE, GetLE;
      GetLEStep(b, n);
    }
  }

  lemma {:induction false} LECanon(b: Bytes, n: nat)
    requires n <= |b|
    ensures PutLE(GetLE(b, n), n) + b[n..] == b
  {
    if n > 0 {
      hide *;
      LECanon(b[1..], n - 1);
      var v := GetLE(b[1..], n - 1);
      GetLEStep(b, n);
      LECons(b[0], v, n - 1);
      assert b[1..][n - 1..] == b[n..];
      ConcatAssoc([b[0]], PutLE(v, n - 1), b[n..]);
      assert b == [b[0]] + b[1..];
    }
  }

  lemma GetLEStep(b: Bytes, n: nat)
    requires 0 < n <= |b|
    ensures GetLE(b, n) == b[0] + 256 * GetLE(b[1..], n - 1)
  {
  }

  lemma LECons(x: byte, v: nat, n: nat)
    ensures PutLE(x + 256 * v, n + 1) == [x] + PutLE(v, n)
  {
    assert (x + 256 * v) % 256 == x && (x + 256 * v) / 256 == v;
  }

  lemma U16Both(x: u16, s: Bytes, b: Bytes)
    ensures GetU16(PutU16(x) + s) == Some((x, s))
    ensures GetU16(b) == Some((x, s)) ==> b == PutU16(x) + s
  {
    LERound(x, 2, s);
    if |b| >= 2 {
      LECanon(b, 2);
    }
  }

  lemma U32Both(x: u32, s: Bytes, b: Bytes)
    ensures GetU32(PutU32(x) + s) == Some((x, s))
    ensures GetU32(b) == Some((x, s)) ==> b == PutU32(x) + s
  {
    LERound(x, 4, s);
    if |b| >= 4 {
      LECanon(b, 4);
    }
  }

  lemma U64Both(x: u64, s: Bytes, b: Bytes)
    ensures GetU64(PutU64(x) + s) == Some((x, s))
    ensures GetU64(b) == Some((x, s)) ==> b == PutU64(x) + s
  {
    LERound(x, 8, s);
    if |b| >= 8 {
      LECanon(b, 8);
    }
  }

  lemma I32Both(x: i32, s: Bytes, b: Bytes)
    ensures GetI32(PutI32(x) + s) == Some((x, s))
    ensures GetI32(b) == Some((x, s)) ==> b == PutI32(x) + s
  {
    var u: u32 := if x < 0 then x + 0x1_0000_0000 else x;
    hide GetU32, PutLE;
    U32Both(u, s, b);
  }

  lemma BlobBoth(x: Blob, s: Bytes, b: Bytes)
    ensures GetBlob(PutBlob(x) + s) == Some((x, s))
    ensures GetBlob(b) == Some((x, s)) ==> b == PutBlob(x) + s
  {
    hide GetU64, PutU64;
    U64Both(|x|, x + s, b);
    assert PutU64(|x|) + x + s == PutU64(|x|) + (x + s);
    if GetBlob(b) == Some((x, s)) {
      var rest := GetU64(b).value.1;
      assert rest == x + s;
    }
  }

  lemma TextBoth(x: Text, s: Bytes, b: Bytes)
    ensures GetText(PutBlob(x) + s) == Some((x, s))
    ensures GetText(b) == Some((x, s)) ==> b == PutBlob(x) + s
  {
    hide GetBlob, PutBlob, ValidUtf8;
    BlobBoth(x, s, b);
    if GetText(b) == Some((x, s)) {
      var (y, rest) := GetBlob(b).value;
      assert y == x && rest == s;
      BlobBoth(y, rest, b);
    }
  }

  lemma {:induction false} TextsRound(xs: seq<Text>, s: Bytes)
    ensures GetTexts(PutTexts(xs) + s, |xs|) == Some((xs, s))
  {
    hide GetText, PutBlob;
    if xs == [] {
      assert PutTexts(xs) + s == s;
    } else {
      var rest := PutTexts(xs[1..]) + s;
      TextBoth(xs[0], rest, []);
      TextsRound(xs[1..], s);
      assert PutTexts(xs) + s == PutBlob(xs[0]) + rest;
      assert xs == [xs[0]] + xs[1..];
    }
  }

  lemma {:induction false} TextsCanon(xs: seq<Text>, s: Bytes, b: Bytes)
    requires GetTexts(b, |xs|) == Some((xs, s))
    ensures b == PutTexts(xs) + s
    decreases |xs|
  {
    hide GetText, PutBlob;
    if xs == [] {
      assert PutTexts(xs) + s == s;
    } else {
      var (t, after) := GetText(b).value;
      var (ts, _) := GetTexts(after, |xs| - 1).value;
      assert xs == [t] + ts;
      assert t == xs[0] && ts == xs[1..];
      TextBoth(t, after, b);
      TextsCanon(ts, s, after);
    }
  }

  lemma OptTextBoth(x: Option<Text>, s: Bytes, b: Bytes)
    ensures GetOptText(PutOptText(x) + s) == Some((x, s))
    ensures GetOptText(b) == Some((x, s)) ==> b == PutOptText(x) + s
  {
    hide GetText, PutBlob;
    if b != [] {
      assert b == [b[0]] + b[1..];
    }
    if x.Some? {
      TextBoth(x.value, s, if b == [] then [] else b[1..]);
      assert (PutOptText(x) + s)[1..] == PutBlob(x.value) + s;
      if GetOptText(b) == Some((x, s)) {
        var (t, rest) := GetText(b[1..]).value;
        assert t == x.value && rest == s;
        assert b == [1] + (PutBlob(x.value) + s) == PutOptText(x) + s;
      }
    } else {
      assert (PutOptText(x) + s)[1..] == s;
      if GetOptText(b) == Some((x, s)) {
        assert b == [0] + s;
      }
    }
  }

  lemma OptU32Both(x: Option<u32>, s: Bytes, b: Bytes)
    ensures GetOptU32(PutOptU32(x) + s) == Some((x, s))
    ensures GetOptU32(b) == Some((x, s)) ==> b == PutOptU32(x) + s
  {
    hide GetU32, PutU32;
    if b != [] {
      assert b == [b[0]] + b[1..];
    }
    if x.Some? {
      U32Both(x.value, s, if b == [] then [] else b[1..]);
      assert (PutOptU32(x) + s)[1..] == PutU32(x.value) + s;
      if GetOptU32(b) == Some((x, s)) {
        var (t, rest) := GetU32(b[1..]).value;
        assert t == x.value && rest == s;
        assert b == [1] + (PutU32(x.value) + s) == PutOptU32(x) + s;
      }
    } else {
      assert (PutOptU32(x) + s)[1..] == s;
      if GetOptU32(b) == Some((x, s)) {
        assert b == [0] + s;
      }
    }
  }

  // ---------------------------------------------------------------- whole bodies

  /** The bytes a body decoder expects for `m` before the suffix `s`. */
  ghost predicate BothWays(m: Message, s: Bytes, b: Bytes) {
    && GetBody(Tag(m), Body(m) + s) == Some((m, s))
    && (GetBody(Tag(m), b) == Some((m, s)) ==> b == Body(m) + s)
  }

  /** Two fields in a row. */
  lemma PlainBoth(m: Message, s: Bytes, b: Bytes)
    requires m.Ping? || m.Pong? || m.Reset? || m.Close? || m.Abort?
    ensures BothWays(m, s, b)
  {
    hide GetU32, PutU32;
    assert [] + s == s;
    if m.Close? || m.Abort? {
      U32Both(m.connId, s, b);
      if GetBody(Tag(m), b) == Some((m, s)) {
        var (c, r) := GetU32(b).value;
        U32Both(c, r, b);
      }
    }
  }

  lemma ErrorBoth(m: Message, s: Bytes, b: Bytes)
    requires m.Error?
    ensures BothWays(m, s, b)
  {
    hide GetOptU32, GetText, PutOptU32, PutBlob;
    ConcatAssoc(PutOptU32(m.errConn), PutBlob(m.message), s);
    OptU32Both(m.errConn, PutBlob(m.message) + s, b);
    TextBoth(m.message, s, b);
    if GetBody(5, b) == Some((m, s)) {
      var (c, r) := GetOptU32(b).value;
      var (msg, after) := GetText(r).value;
      assert c == m.errConn && msg == m.message && after == s;
      OptU32Both(c, r, b);
      TextBoth(msg, after, r);
    }
  }

  /** The variants that begin with a connection id: the id, then the rest. */
  lemma ConnBoth(m: Message, rest: Bytes, s: Bytes, b: Bytes)
    requires !m.Ping? && !m.Pong? && !m.Error? && !m.Reset?
    requires Body(m) == PutU32(m.connId) + rest
    requires GetConnBody(Tag(m), m.connId, rest + s) == Some((m, s))
    requires forall r :: GetConnBody(Tag(m), m.connId, r) == Some((m, s)) ==> r == rest + s
    requires forall c, r :: GetConnBody(Tag(m), c, r) == Some((m, s)) ==> c == m.connId
    ensures BothWays(m, s, b)
  {
    hide GetU32, PutU32, GetConnBody, Body;
    ConcatAssoc(PutU32(m.connId), rest, s);
    U32Both(m.connId, rest + s, b);
    if GetBody(Tag(m), b) == Some((m, s)) {
      var (c, r) := GetU32(b).value;
      U32Both(c, r, b);
    }
  }

  lemma ConnectBoth(m: Message, s: Bytes, b: Bytes)
    requires m.Connect?
    ensures BothWays(m, s, b)
  {
    hide GetText, GetU16, PutBlob, PutU16, BothWays;
    var rest := PutBlob(m.host) + PutU16(m.port);
    ConcatAssoc(PutBlob(m.host), PutU16(m.port), s);
    TextBoth(m.host, PutU16(m.port) + s, []);
    U16Both(m.port, s, []);
    forall r | GetConnBody(0, m.connId, r) == Some((m, s)) ensures r == rest + s {
      var (host, r1) := GetText(r).value;
      var (port, r2) := GetU16(r1).value;
      assert host == m.host && port == m.port && r2 == s;
      TextBoth(host, r1, r);
      U16Both(port, r2, r1);
    }
    ConnBoth(m, rest, s, b);
  }

  lemma OneFieldBoth(m: Message, s: Bytes, b: Bytes)
    requires m.Data? || m.Push? || m.ExitStatus?
    ensures BothWays(m, s, b)
  {
    hide GetText, GetBlob, GetI32, PutBlob, PutI32, BothWays;
    match m {
      case Data(c, data) =>
        BlobBoth(data, s, []);
        forall r | GetConnBody(1, c, r) == Some((m, s)) ensures r == PutBlob(data) + s {
          var (d, r1) := GetBlob(r).value;
          assert d == data && r1 == s;
          BlobBoth(d, r1, r);
        }
        ConnBoth(m, PutBlob(data), s, b);
      case Push(c, path) =>
        TextBoth(path, s, []);
        forall r | GetConnBody(11, c, r) == Some((m, s)) ensures r == PutBlob(path) + s {
          var (p, r1) := GetText(r).value;
          assert p == path && r1 == s;
          TextBoth(p, r1, r);
        }
        ConnBoth(m, PutBlob(path), s, b);
      case ExitStatus(c, code) =>
        I32Both(code, s, []);
        forall r | GetConnBody(9, c, r) == Some((m, s)) ensures r == PutI32(code) + s {
          var (x, r1) := GetI32(r).value;
          assert x == code && r1 == s;
          I32Both(x, r1, r);
        }
        ConnBoth(m, PutI32(code), s, b);
    }
  }

  lemma ResizeBoth(m: Message, s: Bytes, b: Bytes)
    requires m.Resize?
    ensures BothWays(m, s, b)
  {
    hide GetU16, PutU16, BothWays;
    var rest := PutU16(m.cols) + PutU16(m.rows);
    ConcatAssoc(PutU16(m.cols), PutU16(m.rows), s);
    U16Both(m.cols, PutU16(m.rows) + s, []);
    U16Both(m.rows, s, []);
    forall r | GetConnBody(8, m.connId, r) == Some((m, s)) ensures r == rest + s {
      var (cols, r1) := GetU16(r).value;
      var (rows, r2) := GetU16(r1).value;
      assert cols == m.cols && rows == m.rows && r2 == s;
      U16Both(cols, r1, r);
      U16Both(rows, r2, r1);
    }
    ConnBoth(m, rest, s, b);
  }

  lemma PullBoth(m: Message, s: Bytes, b: Bytes)
    requires m.Pull?
    ensures BothWays(m, s, b)
  {
    hide GetU64, GetTexts, GetI32, PutU64, PutTexts, PutI32, BothWays;
    var tail := PutTexts(m.paths) + PutI32(m.level);
    var rest := PutU64(|m.paths|) + tail;
    ConcatAssoc(PutU64(|m.paths|), tail, s);
    ConcatAssoc(PutTexts(m.paths), PutI32(m.level), s);
    U64Both(|m.paths|, tail + s, []);
    TextsRound(m.paths, PutI32(m.level) + s);
    I32Both(m.level, s, []);
    forall r | GetConnBody(10, m.connId, r) == Some((m, s)) ensures r == rest + s {
      var (n, r1) := GetU64(r).value;
      var (paths, r2) := GetTexts(r1, n).value;
      var (level, r3) := GetI32(r2).value;
      assert paths == m.paths && n == |paths| && level == m.level && r3 == s;
      U64Both(n, r1, r);
      TextsCanon(paths, r2, r1);
      I32Both(level, r3, r2);
    }
    ConnBoth(m, rest, s, b);
  }

  lemma ExecBoth(m: Message, s: Bytes, b: Bytes)
    requires m.Exec?
    ensures BothWays(m, s, b)
  {
    hide GetU16, GetOptText, GetText, PutU16, PutOptText, PutBlob, BothWays;
    var t3 := PutBlob(m.term);
    var t2 := PutU16(m.rows) + t3;
    var t1 := PutU16(m.cols) + t2;
    var rest := PutOptText(m.cmd) + t1;
    ConcatAssoc(PutOptText(m.cmd), t1, s);
    ConcatAssoc(PutU16(m.cols), t2, s);
    ConcatAssoc(PutU16(m.rows), t3, s);
    OptTextBoth(m.cmd, t1 + s, []);
    U16Both(m.cols, t2 + s, []);
    U16Both(m.rows, t3 + s, []);
    TextBoth(m.term, s, []);
    forall r | GetConnBody(7, m.connId, r) == Some((m, s)) ensures r == rest + s {
      var (cmd, r1) := GetOptText(r).value;
      var (cols, r2) := GetU16(r1).value;
      var (rows, r3) := GetU16(r2).value;
      var (term, r4) := GetText(r3).value;
      assert cmd == m.cmd && cols == m.cols && rows == m.rows && term == m.term && r4 == s;
      OptTextBoth(cmd, r1, r);
      U16Both(cols, r2, r1);
      U16Both(rows, r3, r2);
      TextBoth(term, r4, r3);
    }
    ConnBoth(m, rest, s, b);
  }

  lemma BodyBoth(m: Message, s: Bytes, b: Bytes)
    ensures BothWays(m, s, b)
  {
    hide BothWays;
    match m
    case Connect(_, _, _) => ConnectBoth(m, s, b);
    case Error(_, _) => ErrorBoth(m, s, b);
    case Exec(_, _, _, _, _) => ExecBoth(m, s, b);
    case Resize(_, _, _) => ResizeBoth(m, s, b);
    case Pull(_, _, _) => PullBoth(m, s, b);
    case Data(_, _) => OneFieldBoth(m, s, b);
    case Push(_, _) => OneFieldBoth(m, s, b);
    case ExitStatus(_, _) => OneFieldBoth(m, s, b);
    case _ => PlainBoth(m, s, b);
  }

  /** A decoded body carries its own variant index. */
  lemma BodyTag(tag: u32, b: Bytes)
    requires GetBody(tag, b).Some?
    ensures Tag(GetBody(tag, b).value.0) == tag
  {
    hide GetU16, GetU32, GetU64, GetI32, GetBlob, GetText, GetTexts, GetOptText, GetOptU32;
  }

  // -------------------------------------------------------------------- theorems

  /** The codec, exactly: bytes decode to a message and a rest if and only if
      they are that message's encoding followed by that rest. */
  lemma DecodeIsExact(b: Bytes, m: Message, s: Bytes)
    ensures Decode(b) == Some((m, s)) <==> b == Encode(m) + s
  {
    hide GetU32, PutU32, GetBody, Body;
    ConcatAssoc(PutU32(Tag(m)), Body(m), s);
    U32Both(Tag(m), Body(m) + s, b);
    BodyBoth(m, s, Body(m) + s);
    if Decode(b) == Some((m, s)) {
      var (tag, r) := GetU32(b).value;
      BodyTag(tag, r);
      U32Both(tag, r, b);
      BodyBoth(m, s, r);
    }
  }

  // ------------------------------------------------------------- the bytes themselves

  lemma Heads(t: byte, k: byte)
    ensures [t, 0, 0, 0] == [k, 0, 0, 0] <==> t == k
  {
    assert [t, 0, 0, 0][0] == t && [k, 0, 0, 0][0] == k;
  }

  lemma TagBytes(t: nat)
    requires t < 256
    ensures PutU32(t) == [t, 0, 0, 0]
  {
    assert PutLE(0, 3) == [0, 0, 0];
  }

  /** Every encoding begins with its variant's number, in order of declaration. */
  lemma VariantsAreNumbered(m: Message)
    ensures |Encode(m)| >= 4
    ensures var head := Encode(m)[..4];
      && (m.Connect? <==> head == [0, 0, 0, 0]) && (m.Data? <==> head == [1, 0, 0, 0])
      && (m.Close? <==> head == [2, 0, 0, 0]) && (m.Ping? <==> head == [3, 0, 0, 0])
      && (m.Pong? <==> head == [4, 0, 0, 0]) && (m.Error? <==> head == [5, 0, 0, 0])
      && (m.Reset? <==> head == [6, 0, 0, 0]) && (m.Exec? <==> head == [7, 0, 0, 0])
      && (m.Resize? <==> head == [8, 0, 0, 0]) && (m.ExitStatus? <==> head == [9, 0, 0, 0])
      && (m.Pull? <==> head == [10, 0, 0, 0]) && (m.Push? <==> head == [11, 0, 0, 0])
      && (m.Abort? <==> head == [12, 0, 0, 0])
  {
    hide Body;
    var t := Tag(m);
    assert t < 13;
    TagBytes(t);
    assert Encode(m)[..4] == PutU32(t);
    hide Encode, PutU32;
    forall k: byte {
      Heads(t, k);
    }
  }

  lemma SampleSizes()
    ensures PutU16(80) == [80, 0] && PutU16(24) == [24, 0] && PutU16(8080) == [0x90, 0x1F]
    ensures PutI32(3) == [3, 0, 0, 0] && PutI32(-2) == [0xFE, 0xFF, 0xFF, 0xFF]
  {
    assert PutLE(24, 2) == [24, 0];
    assert PutLE(0xFFFF_FFFE, 4) == [0xFE, 0xFF, 0xFF, 0xFF];
  }

  lemma SampleLength()
    ensures PutU64(1) == [1, 0, 0, 0, 0, 0, 0, 0]
  {
    assert PutLE(0, 3) == [0, 0, 0];
    assert PutLE(0, 5) == [0, 0] + PutLE(0, 3);
    assert PutLE(0, 7) == [0, 0] + PutLE(0, 5);
  }

  lemma SampleNumbers()
    ensures PutU16(80) == [80, 0] && PutU16(24) == [24, 0] && PutU16(8080) == [0x90, 0x1F]
    ensures PutI32(3) == [3, 0, 0, 0] && PutI32(-2) == [0xFE, 0xFF, 0xFF, 0xFF]
    ensures PutU64(1) == [1, 0, 0, 0, 0, 0, 0, 0]
    ensures forall t: nat :: t < 256 ==> PutU32(t) == [t, 0, 0, 0]
  {
    SampleSizes();
    SampleLength();
    forall t: nat | t < 256 {
      TagBytes(t);
    }
  }

  /** The fields of each kind of message, in the order in which they are sent. */
  lemma SampleEncodings(a: Text)
    requires |a| == 1
    ensures Encode(Connect(1, a, 8080)) == [0, 0, 0, 0] + ([1, 0, 0, 0] + ([1, 0, 0, 0, 0, 0, 0, 0] + a + [0x90, 0x1F]))
    ensures Encode(Data(5, a)) == [1, 0, 0, 0] + ([5, 0, 0, 0] + ([1, 0, 0, 0, 0, 0, 0, 0] + a))
    ensures Encode(Close(3)) == [2, 0, 0, 0] + [3, 0, 0, 0]
    ensures Encode(Error(None, a)) == [5, 0, 0, 0] + ([0] + ([1, 0, 0, 0, 0, 0, 0, 0] + a))
    ensures Encode(Error(Some(7), a)) == [5, 0, 0, 0] + ([1] + [7, 0, 0, 0] + ([1, 0, 0, 0, 0, 0, 0, 0] + a))
  {
    SampleNumbers();
    hide PutU16, PutU32, PutU64, PutI32;
  }

  lemma SampleNumbered(a: Text)
    requires |a| == 1
    ensures Encode(Exec(1, Some(a), 80, 24, a)) ==
      [7, 0, 0, 0] + ([1, 0, 0, 0] +
        ([1] + ([1, 0, 0, 0, 0, 0, 0, 0] + a) + ([80, 0] + ([24, 0] + ([1, 0, 0, 0, 0, 0, 0, 0] + a)))))
    ensures Encode(Resize(1, 80, 24)) == [8, 0, 0, 0] + ([1, 0, 0, 0] + ([80, 0] + [24, 0]))
    ensures Encode(ExitStatus(1, -2)) == [9, 0, 0, 0] + ([1, 0, 0, 0] + [0xFE, 0xFF, 0xFF, 0xFF])
    ensures Encode(Push(1, a)) == [11, 0, 0, 0] + ([1, 0, 0, 0] + ([1, 0, 0, 0, 0, 0, 0, 0] + a))
    ensures Encode(Abort(4)) == [12, 0, 0, 0] + [4, 0, 0, 0]
  {
    SampleNumbers();
    hide PutU16, PutU32, PutU64, PutI32;
  }

  lemma SamplePull(a: Text)
    requires |a| == 1
    ensures Encode(Pull(1, [a], 3)) ==
      [10, 0, 0, 0] + ([1, 0, 0, 0] + ([1, 0, 0, 0, 0, 0, 0, 0] + ([1, 0, 0, 0, 0, 0, 0, 0] + a + [3, 0, 0, 0])))
  {
    SampleNumbers();
    assert PutTexts([a]) == PutBlob(a) + PutTexts([]);
    hide PutU16, PutU32, PutU64, PutI32, PutTexts;
    assert PutBlob(a) + [] == PutBlob(a);
  }

  /** Encodings are prefix-free: no message's bytes begin another's. */
  lemma EncodingsArePrefixFree(m: Message, n: Message)
    requires Encode(m) <= Encode(n)
    ensures m == n
  {
    hide Encode, Decode;
    var s := Encode(n)[|Encode(m)|..];
    assert Encode(n) == Encode(m) + s && Encode(n) == Encode(n) + [];
    DecodeIsExact(Encode(n), m, s);
    DecodeIsExact(Encode(n), n, []);
  }

  /** A peer without the last variant agrees on everything but `Abort`, which it
      rejects. */
  lemma OldPeerRejectsOnlyAbort(b: Bytes)
    ensures FromBytesOld(b) == if FromBytes(b).Some? && FromBytes(b).value.Abort? then None else FromBytes(b)
  {
    hide GetU32, GetBody;
    if GetU32(b).Some? {
      var (tag, r) := GetU32(b).value;
      if GetBody(tag, r).Some? {
        BodyTag(tag, r);
      }
    }
  }
}
