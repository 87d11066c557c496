/** `base64.b64encode` and `base64.b64decode` (standard alphabet, `=`
    padding). Decoding follows the lenient CPython 3.6 `binascii` decoder
    the package runs on: characters outside the alphabet are skipped, a pad
    ends the input only where it can close a quad, and input that stops in
    the middle of a quad raises `binascii.Error`. Byte strings produced by
    the encoder are represented by their ASCII characters. */
module Base64 {

  import opened Py

  /** The character for a 6-bit value. */
  function Sym(v: nat): (c: char)
    requires v < 64
    ensures IsAlphabet(c) && Value(c) == v
  {
    if v < 26 then ('A' as int + v) as char
    else if v < 52 then ('a' as int + (v - 26)) as char
    else if v < 62 then ('0' as int + (v - 52)) as char
    else if v == 62 then '+'
    else '/'
  }

  predicate IsAlphabet(c: char) {
    ('A' <= c <= 'Z') || ('a' <= c <= 'z') || ('0' <= c <= '9') || c == '+' || c == '/'
  }

  /** The 6-bit value of an alphabet character. */
  function Value(c: char): (v: nat)
    requires IsAlphabet(c)
    ensures v < 64
  {
    if 'A' <= c <= 'Z' then c as int - 'A' as int
    else if 'a' <= c <= 'z' then c as int - 'a' as int + 26
    else if '0' <= c <= '9' then c as int - '0' as int + 52
    else if c == '+' then 62
    else 63
  }

  /** Every character is from the alphabet. */
  predicate AllAlphabet(s: string) {
    forall i :: 0 <= i < |s| ==> IsAlphabet(s[i])
  }

  /** Three bytes as four characters, six bits each. */
  function Group(b0: int, b1: int, b2: int): (r: string)
    requires 0 <= b0 < 256 && 0 <= b1 < 256 && 0 <= b2 < 256
    ensures |r| == 4 && AllAlphabet(r)
  {
    [Sym(b0 / 4), Sym(b0 % 4 * 16 + b1 / 16), Sym(b1 % 16 * 4 + b2 / 64), Sym(b2 % 64)]
  }

  /** A final single byte: two characters, the second carrying four zero
      bits, then two pads. */
  function TailOne(b0: int): (r: string)
    requires 0 <= b0 < 256
    ensures |r| == 4 && IsAlphabet(r[0]) && IsAlphabet(r[1]) && r[2..] == "=="
  {
    [Sym(b0 / 4), Sym(b0 % 4 * 16), '=', '=']
  }

  /** A final pair of bytes: three characters, the third carrying two zero
      bits, then one pad. */
  function TailTwo(b0: int, b1: int): (r: string)
    requires 0 <= b0 < 256 && 0 <= b1 < 256
    ensures |r| == 4 && AllAlphabet(r[..3]) && r[3] == '='
  {
    [Sym(b0 / 4), Sym(b0 % 4 * 16 + b1 / 16), Sym(b1 % 16 * 4), '=']
  }

  /** `base64.b64encode(b)`: each group of three bytes becomes four
      characters; a final group of one or two bytes is padded with `=`. */
  function Encode(b: seq<byte>): (r: string)
    ensures |r| == 4 * ((|b| + 2) / 3)
    ensures forall i :: 0 <= i < |r| ==> IsAlphabet(r[i]) || r[i] == '='
    ensures |b| % 3 == 0 ==> AllAlphabet(r)
    decreases |b|
  {
    if |b| == 0 then ""
    else if |b| == 1 then TailOne(b[0] as int)
    else if |b| == 2 then TailTwo(b[0] as int, b[1] as int)
    else
      var g := Group(b[0] as int, b[1] as int, b[2] as int);
      var rest := Encode(b[3..]);
      assert |b[3..]| == |b| - 3;
      assert (|b| + 2) / 3 == 1 + (|b[3..]| + 2) / 3;
      assert |b| % 3 == |b[3..]| % 3;
      AppendGroup(g, rest);
      g + rest
  }

  /** A group of alphabet characters in front keeps the encoder's
      character properties. */
  lemma AppendGroup(g: string, rest: string)
    requires AllAlphabet(g)
    requires forall i :: 0 <= i < |rest| ==> IsAlphabet(rest[i]) || rest[i] == '='
    ensures forall i :: 0 <= i < |g + rest| ==> IsAlphabet((g + rest)[i]) || (g + rest)[i] == '='
    ensures AllAlphabet(rest) ==> AllAlphabet(g + rest)
  {
    forall i | 0 <= i < |g + rest|
      ensures (g + rest)[i] == if i < |g| then g[i] else rest[i - |g|]
    {
    }
  }

  /** The decoder's state: the position inside the current quad, the bits
      not yet emitted, and the bytes emitted so far. */
  datatype Quad = Quad(pos: nat, left: nat, out: seq<byte>)

  /** How many values the pending bits can hold at each quad position
      (6, 4 and 2 bits after one, two and three characters). */
  function Room(pos: nat): nat {
    if pos == 0 then 1 else if pos == 1 then 64 else if pos == 2 then 16 else 4
  }

  predicate Valid(st: Quad) {
    st.pos < 4 && st.left < Room(st.pos)
  }

  const Start: Quad := Quad(0, 0, [])

  /** Shift one 6-bit value in; a byte is ready after the second, third and
      fourth character of a quad. */
  function Shift(st: Quad, v: nat): (r: Quad)
    requires Valid(st) && v < 64
    ensures Valid(r) && r.pos == (st.pos + 1) % 4
    ensures |r.out| == |st.out| + (if st.pos == 0 then 0 else 1)
  {
    if st.pos == 0 then Quad(1, v, st.out)
    else if st.pos == 1 then Quad(2, v % 16, st.out + [(st.left * 4 + v / 16) as byte])
    else if st.pos == 2 then Quad(3, v % 4, st.out + [(st.left * 16 + v / 4) as byte])
    else Quad(0, 0, st.out + [(st.left * 64 + v) as byte])
  }

  /** The first character of `s` the decoder does not skip (an alphabet
      character or a pad), if any. */
  function NextValid(s: string): (r: Option<char>)
    ensures r.Some? ==> IsAlphabet(r.value) || r.value == '='
  {
    if |s| == 0 then None
    else if IsAlphabet(s[0]) || s[0] == '=' then Some(s[0])
    else NextValid(s[1..])
  }

  /** The decoder run over `s` from state `st`. A pad is skipped at quad
      positions 0 and 1 and at position 2 unless the next valid character is
      a second pad; otherwise it ends the input, dropping the pending bits.
      Running out of input in the middle of a quad raises. */
  function DecodeFrom(s: string, st: Quad): (r: Result<seq<byte>>)
    requires Valid(st)
    ensures r.Failure? ==> r.exc == BinasciiError("Incorrect padding")
    decreases |s|
  {
    if |s| == 0 then
      if st.pos != 0 then Failure(BinasciiError("Incorrect padding")) else Success(st.out)
    else if s[0] == '=' then
      if st.pos < 2 || (st.pos == 2 && NextValid(s[1..]) != Some('=')) then DecodeFrom(s[1..], st)
      else Success(st.out)
    else if !IsAlphabet(s[0]) then DecodeFrom(s[1..], st)
    else DecodeFrom(s[1..], Shift(st, Value(s[0])))
  }

  /** `base64.b64decode(s)` with `validate=False`. */
  function Decode(s: string): Result<seq<byte>> {
    DecodeFrom(s, Start)
  }

  /** The state after shifting in a run of alphabet characters. */
  function Consume(t: string, st: Quad): (r: Quad)
    requires Valid(st) && AllAlphabet(t)
    ensures Valid(r) && r.pos == (st.pos + |t|) % 4
    decreases |t|
  {
    if |t| == 0 then st else Consume(t[1..], Shift(st, Value(t[0])))
  }

  /** A run of alphabet characters is consumed without a decision being
      taken; what follows decides the outcome. */
  lemma {:induction false} DecodeConsume(t: string, rest: string, st: Quad)
    requires Valid(st) && AllAlphabet(t)
    ensures DecodeFrom(t + rest, st) == DecodeFrom(rest, Consume(t, st))
    decreases |t|
  {
    if |t| > 0 {
      var s := t + rest;
      assert s[1..] == t[1..] + rest;
      assert s[0] == t[0] && IsAlphabet(s[0]) && s[0] != '=';
      var next := Shift(st, Value(t[0]));
      assert DecodeFrom(s, st) == DecodeFrom(s[1..], next);
      assert Consume(t, st) == Consume(t[1..], next);
      DecodeConsume(t[1..], rest, next);
    } else {
      assert t + rest == rest;
    }
  }

  /** Four characters of a full group give back the group's three bytes. */
  lemma GroupDecodes(b0: int, b1: int, b2: int, acc: seq<byte>)
    requires 0 <= b0 < 256 && 0 <= b1 < 256 && 0 <= b2 < 256
    ensures Consume(Group(b0, b1, b2), Quad(0, 0, acc)) == Quad(0, 0, acc + [b0 as byte, b1 as byte, b2 as byte])
  {
    var v1 := b0 % 4 * 16 + b1 / 16;
    var v2 := b1 % 16 * 4 + b2 / 64;
    assert v1 / 16 == b0 % 4 && v1 % 16 == b1 / 16;
    assert v2 / 4 == b1 % 16 && v2 % 4 == b2 / 64;
    var g := Group(b0, b1, b2);
    var s1 := Quad(1, b0 / 4, acc);
    var s2 := Quad(2, b1 / 16, acc + [b0 as byte]);
    var s3 := Quad(3, b2 / 64, acc + [b0 as byte, b1 as byte]);
    var s4 := Quad(0, 0, acc + [b0 as byte, b1 as byte, b2 as byte]);
    assert Shift(Quad(0, 0, acc), b0 / 4) == s1;
    assert Shift(s1, v1) == s2;
    assert Shift(s2, v2) == s3;
    assert Shift(s3, b2 % 64) == s4;
    assert Consume(g, Quad(0, 0, acc)) == Consume(g[1..], s1);
    assert Consume(g[1..], s1) == Consume(g[2..], s2) by { assert g[1..][1..] == g[2..]; }
    assert Consume(g[2..], s2) == Consume(g[3..], s3) by { assert g[2..][1..] == g[3..]; }
    assert Consume(g[3..], s3) == Consume([], s4) by { assert g[3..][1..] == []; }
  }

  /** A final single byte: two characters and `==`. The first pad sits at
      quad position 2 with a second pad ahead, so it ends the input. */
  lemma TailOneDecodes(b0: int, acc: seq<byte>)
    requires 0 <= b0 < 256
    ensures DecodeFrom(TailOne(b0), Quad(0, 0, acc)) == Success(acc + [b0 as byte])
  {
    var e := TailOne(b0);
    var head := e[..2];
    assert e == head + "==";
    var st := Quad(0, 0, acc);
    var s1 := Quad(1, b0 / 4, acc);
    var mid := Quad(2, 0, acc + [b0 as byte]);
    assert Shift(st, b0 / 4) == s1;
    assert Shift(s1, b0 % 4 * 16) == mid;
    assert Consume(head, st) == Consume(head[1..], s1);
    assert Consume(head[1..], s1) == Consume([], mid) by { assert head[1..][1..] == []; }
    DecodeConsume(head, "==", st);
    assert "=="[1..] == "=";
    assert NextValid("=") == Some('=');
  }

  /** A final pair of bytes: three characters and `=`, a pad at quad
      position 3. */
  lemma TailTwoDecodes(b0: int, b1: int, acc: seq<byte>)
    requires 0 <= b0 < 256 && 0 <= b1 < 256
    ensures DecodeFrom(TailTwo(b0, b1), Quad(0, 0, acc))
            == Success(acc + [b0 as byte, b1 as byte])
  {
    var v1 := b0 % 4 * 16 + b1 / 16;
    assert v1 / 16 == b0 % 4 && v1 % 16 == b1 / 16;
    var e := TailTwo(b0, b1);
    var head := e[..3];
    assert e == head + "=";
    var st := Quad(0, 0, acc);
    var s1 := Quad(1, b0 / 4, acc);
    var s2 := Quad(2, b1 / 16, acc + [b0 as byte]);
    var mid := Quad(3, 0, acc + [b0 as byte, b1 as byte]);
    assert Shift(st, b0 / 4) == s1;
    assert Shift(s1, v1) == s2;
    assert Shift(s2, b1 % 16 * 4) == mid;
    assert Consume(head, st) == Consume(head[1..], s1);
    assert Consume(head[1..], s1) == Consume(head[2..], s2) by { assert head[1..][1..] == head[2..]; }
    assert Consume(head[2..], s2) == Consume([], mid) by { assert head[2..][1..] == []; }
    DecodeConsume(head, "=", st);
  }

  /** Decoding what the encoder produced gives back the bytes. */
  lemma {:induction false} DecodeEncodeFrom(b: seq<byte>, acc: seq<byte>)
    ensures DecodeFrom(Encode(b), Quad(0, 0, acc)) == Success(acc + b)
    decreases |b|
  {
    if |b| == 0 {
      assert acc + b == acc;
    } else if |b| == 1 {
      TailOneDecodes(b[0] as int, acc);
      assert acc + b == acc + [b[0]];
    } else if |b| == 2 {
      TailTwoDecodes(b[0] as int, b[1] as int, acc);
      assert acc + b == acc + [b[0], b[1]];
    } else {
      DecodeEncodeFrom(b[3..], acc + [b[0], b[1], b[2]]);
      EncodeGroup(b);
      GroupThenRest(b, acc, Encode(b[3..]));
    }
  }

  /** One step of the round trip: a leading group decodes to its three
      bytes, and what follows decodes as it would on its own. */
  lemma GroupThenRest(b: seq<byte>, acc: seq<byte>, rest: string)
    requires |b| >= 3
    requires DecodeFrom(rest, Quad(0, 0, acc + [b[0], b[1], b[2]])) == Success(acc + [b[0], b[1], b[2]] + b[3..])
    ensures DecodeFrom(Group(b[0] as int, b[1] as int, b[2] as int) + rest, Quad(0, 0, acc)) == Success(acc + b)
  {
    var g := Group(b[0] as int, b[1] as int, b[2] as int);
    GroupDecodes(b[0] as int, b[1] as int, b[2] as int, acc);
    DecodeConsume(g, rest, Quad(0, 0, acc));
    var three: seq<byte> := [b[0] as int as byte, b[1] as int as byte, b[2] as int as byte];
    assert three == [b[0], b[1], b[2]];
    FirstThree(acc, b);
  }

  lemma FirstThree(acc: seq<byte>, b: seq<byte>)
    requires |b| >= 3
    ensures acc + [b[0], b[1], b[2]] + b[3..] == acc + b
  {
    assert b == b[..3] + b[3..];
    assert b[..3] == [b[0], b[1], b[2]];
  }

  /** The encoding of three or more bytes starts with the first group. */
  lemma EncodeGroup(b: seq<byte>)
    requires |b| >= 3
    ensures Encode(b) == Group(b[0] as int, b[1] as int, b[2] as int) + Encode(b[3..])
  {
  }

  /** `b64decode(b64encode(b)) == b` */
  lemma DecodeEncode(b: seq<byte>)
    ensures Decode(Encode(b)) == Success(b)
  {
    DecodeEncodeFrom(b, []);
    assert [] + b == b;
  }

  /** The encoder never produces `$`, a quote or a backslash. */
  lemma EncodeIsPlain(b: seq<byte>)
    ensures '$' !in Encode(b) && '\'' !in Encode(b) && '\\' !in Encode(b)
  {
  }

  /** `str(b)` of a bytes value made of printable characters other than a
      quote or backslash, such as an encoder output: `b'` + text + `'`. */
  function BytesStr(s: string): (r: string)
    requires forall i :: 0 <= i < |s| ==> IsAlphabet(s[i]) || s[i] == '='
    ensures |r| == |s| + 3 && r[0] == 'b'
    ensures r[1..|r| - 1] == "'" + s && r[|r| - 1] == '\''
  {
    "b'" + s + "'"
  }

  /** A character outside the alphabet that is not a pad is skipped. */
  lemma SkipOther(c: char, rest: string, st: Quad)
    requires Valid(st) && !IsAlphabet(c) && c != '='
    ensures DecodeFrom([c] + rest, st) == DecodeFrom(rest, st)
  {
    assert ([c] + rest)[1..] == rest;
  }

  /** A run of whole quads between `b'` and `'` leaves the decoder one
      character into a quad when the input ends. */
  lemma QuotedQuadsRejected(e: string)
    requires AllAlphabet(e) && |e| % 4 == 0
    ensures DecodeFrom("b'" + e + "'", Start) == Failure(BinasciiError("Incorrect padding"))
  {
    QuotedShape(e);
    QuotedSteps(e);
  }

  /** The rendering, one character at a time. */
  lemma QuotedShape(e: string)
    ensures "b'" + e + "'" == ['b'] + (['\''] + (e + ['\'']))
  {
    var r := "b'" + e + "'";
    assert r[0] == 'b' && r[1] == '\'' && r[2..|r| - 1] == e && r[|r| - 1] == '\'';
  }

  /** The decoder's walk over `b`, `'`, the quads and the closing `'`:
      the `b` opens a quad, the quotes are skipped, and whole quads keep
      the position one past a boundary. */
  lemma QuotedSteps(e: string)
    requires AllAlphabet(e) && |e| % 4 == 0
    ensures DecodeFrom(['b'] + (['\''] + (e + ['\''])), Start) == Failure(BinasciiError("Incorrect padding"))
  {
    var q := '\'';
    var tail := [q] + (e + [q]);
    var s1 := Consume(['b'], Start);
    var s2 := Consume(e, s1);
    assert s1.pos == 1;
    QuadBoundary(|e|);
    assert s2.pos == 1;
    calc {
      DecodeFrom(['b'] + tail, Start);
    == { DecodeConsume(['b'], tail, Start); }
      DecodeFrom(tail, s1);
    == { SkipOther(q, e + [q], s1); }
      DecodeFrom(e + [q], s1);
    == { DecodeConsume(e, [q], s1); }
      DecodeFrom([q], s2);
    == { SkipOther(q, [], s2); assert [q] + [] == [q]; }
      DecodeFrom([], s2);
    }
  }

  /** The rendering of an unpadded encoding is rejected by the decoder: the
      leading `b` is a valid character, so the quads end one character
      past a boundary. */
  lemma QuotedUnpaddedRejected(b: seq<byte>)
    requires |b| % 3 == 0
    ensures Decode(BytesStr(Encode(b))) == Failure(BinasciiError("Incorrect padding"))
  {
    var e := Encode(b);
    QuadBoundary((|b| + 2) / 3);
    assert |e| % 4 == 0;
    assert BytesStr(e) == "b'" + e + "'";
    QuotedQuadsRejected(e);
  }

  /** Whole quads keep the position a character ahead of a boundary. */
  lemma QuadBoundary(n: nat)
    ensures (n * 4) % 4 == 0
    ensures n % 4 == 0 ==> (1 + n) % 4 == 1
  {
  }
}
