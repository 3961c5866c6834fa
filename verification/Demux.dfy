/**
 Separating a multiplexed container stream: frames of an eight-byte header (stream type, three zero bytes, a
 big-endian length) and a payload. A stream that breaks off is accepted for as far as it goes.
 */
module Demux {
  import opened Domain

  newtype byte = b: int | 0 <= b < 256

  /** How a reader ends once its data is used up. */
  datatype End = EndOfFile | UnexpectedEnd | Broken(message: string)

  /** A source of bytes, consumed as it is read. */
  class Reader {
    var data: seq<byte>
    const end: End

    constructor (data: seq<byte>, end: End)
      ensures this.data == data && this.end == end
    {
      this.data, this.end := data, end;
    }

    /** Fill the buffer, as far as the data goes; `n` bytes of it are new. */
    method ReadFull(buf: array<byte>) returns (n: nat, full: bool)
      modifies this, buf
      ensures n == (if |old(data)| < buf.Length then |old(data)| else buf.Length) && full == (n == buf.Length)
      ensures data == old(data)[n..] && buf[..n] == old(data)[..n] && buf[n..] == old(buf[n..])
    {
      n := if |data| < buf.Length then |data| else buf.Length;
      for i := 0 to n
        invariant data == old(data)
        invariant buf[..i] == data[..i] && buf[i..] == old(buf[i..])
      {
        buf[i] := data[i];
      }
      data := data[n..];
      full := n == buf.Length;
    }
  }

  class Writer {
    var contents: seq<byte>

    constructor ()
      ensures contents == []
    {
      contents := [];
    }
  }

  /** Copy up to `size` bytes; `complete` when that many were there. */
  method CopyN(dst: Writer, src: Reader, size: nat) returns (complete: bool)
    modifies dst, src
    ensures complete == (size <= |old(src.data)|)
    ensures var n := Min(size, |old(src.data)|);
            dst.contents == old(dst.contents) + old(src.data)[..n] && src.data == old(src.data)[n..]
  {
    var n := Min(size, |src.data|);
    dst.contents := dst.contents + src.data[..n];
    complete := size <= |src.data|;
    src.data := src.data[n..];
  }

  function Min(a: nat, b: nat): nat {
    if a <= b then a else b
  }

  // Big-endian 32-bit lengths

  function BigEndian(b: seq<byte>): nat
    requires |b| == 4
  {
    ((b[0] as nat * 256 + b[1] as nat) * 256 + b[2] as nat) * 256 + b[3] as nat
  }

  function PutBigEndian(n: nat): (b: seq<byte>)
    requires n < 0x1_0000_0000
    ensures |b| == 4 && BigEndian(b) == n
    ensures b[0] as nat == n / 0x100_0000 && b[1] as nat == n / 0x1_0000 % 256
    ensures b[2] as nat == n / 0x100 % 256 && b[3] as nat == n % 256
  {
    var q1 := n / 256;
    var q2 := q1 / 256;
    var q3 := q2 / 256;
    Quotients(n, q1, q2, q3);
    [q3 as byte, (q2 % 256) as byte, (q1 % 256) as byte, (n % 256) as byte]
  }

  lemma Quotients(n: nat, q1: nat, q2: nat, q3: nat)
    requires q1 == n / 256 && q2 == q1 / 256 && q3 == q2 / 256
    ensures n / 0x1_0000 == q2 && n / 0x100_0000 == q3
    ensures n < 0x1_0000_0000 ==> q3 < 256
  {
    assert 256 * q1 <= n < 256 * q1 + 256;
    assert 256 * q2 <= q1 < 256 * q2 + 256;
    assert 256 * q3 <= q2 < 256 * q3 + 256;
  }

  /**
   What a byte string is split into: the two streams, both of them in the order of arrival, the number of complete
   headers, and the bytes of a partial one.
   */
  datatype Split = Split(out: seq<byte>, err: seq<byte>, all: seq<byte>, headers: nat, partial: nat, inBody: bool)

  const NOTHING := Split([], [], [], 0, 0, false)

  function Deliver(streamType: byte, payload: seq<byte>, rest: Split): Split {
    var r := rest.(all := payload + rest.all, headers := rest.headers + 1);
    if streamType == 2 then r.(err := payload + rest.err) else r.(out := payload + rest.out)
  }

  /** The meaning of a stream: frame by frame, the last one possibly cut short. */
  function Demultiplex(s: seq<byte>): Split {
    if |s| < 8 then NOTHING.(partial := |s|)
    else
      var size, body := BigEndian(s[4..8]), s[8..];
      if size <= |body| then Deliver(s[0], body[..size], Demultiplex(body[size..]))
      else Deliver(s[0], body, NOTHING.(inBody := true))
  }

  /** Separate the stream, appending to the two writers, or to one that serves for both. */
  method DemuxStream(src: Reader, stdout: Writer, stderr: Writer) returns (err: Option<End>)
    modifies src, stdout, stderr
    ensures var split := Demultiplex(old(src.data));
            && if stdout == stderr then stdout.contents == old(stdout.contents) + split.all
               else && stdout.contents == old(stdout.contents) + split.out
                    && stderr.contents == old(stderr.contents) + split.err
    ensures src.data == []
    ensures src.end == EndOfFile ==> err == None
    ensures src.end.Broken? ==> err == Some(src.end)
    ensures src.end == UnexpectedEnd ==> err == if Demultiplex(old(src.data)).inBody then Some(src.end) else None
    ensures src.end == UnexpectedEnd && CutBetweenFrames(old(src.data)) ==> err == None
    ensures src.end == UnexpectedEnd && CutInPayload(old(src.data)) ==> err == Some(src.end)
  {
    hide BigEndian, Demultiplex, Deliver, CutBetweenFrames, CutInPayload;
    EndsBetweenFrames(src.data);
    EndsInPayload(src.data);
    var header := new byte[8](_ => 0);
    ghost var whole := Demultiplex(src.data);
    while true
      invariant fresh(header) && header.Length == 8
      invariant OnTrack(stdout == stderr, whole, Demultiplex(src.data),
                        old(stdout.contents), old(stderr.contents), stdout.contents, stderr.contents)
      decreases |src.data|
    {
      ghost var s := src.data;
      var n, full := src.ReadFull(header);
      if !full {
        ShortOfAHeader(s);
        return if src.end.Broken? then Some(src.end) else None;
      }
      assert header[..] == s[..8];
      assert header[4..8] == s[4..8];
      var streamType := header[0];
      var size := BigEndian(header[4..8]);
      FirstFrame(s);
      ghost var payload := src.data[..Min(size, |src.data|)];
      ghost var rest := if size <= |src.data| then Demultiplex(src.data[size..]) else NOTHING.(inBody := true);
      assert src.data[..|src.data|] == src.data;
      assert Demultiplex(s) == Deliver(streamType, payload, rest);
      Delivered(stdout == stderr, whole, rest, streamType, payload,
                old(stdout.contents), old(stderr.contents), stdout.contents, stderr.contents);
      var dst := match streamType
        case 1 => stdout
        case 2 => stderr
        case _ => stdout;
      if size > 0 {
        var complete := CopyN(dst, src, size);
        if !complete {
          assert src.data == [];
          return if src.end.EndOfFile? then None else Some(src.end);
        }
      }
    }
  }

  /** What has been written so far, followed by what the remaining input brings, is what the whole input brings. */
  ghost predicate Continues(whole: seq<byte>, rest: seq<byte>, before: seq<byte>, now: seq<byte>) {
    now + rest == before + whole
  }

  /** Both streams are on their way, or both of them in one writer. */
  ghost predicate OnTrack(same: bool, whole: Split, rest: Split, out0: seq<byte>, err0: seq<byte>,
                          out: seq<byte>, err: seq<byte>) {
    && rest.inBody == whole.inBody
    && if same then Continues(whole.all, rest.all, out0, out)
       else Continues(whole.out, rest.out, out0, out) && Continues(whole.err, rest.err, err0, err)
  }

  /** Delivering a payload keeps them so. */
  lemma Delivered(same: bool, whole: Split, rest: Split, streamType: byte, payload: seq<byte>,
                  out0: seq<byte>, err0: seq<byte>, out: seq<byte>, err: seq<byte>)
    requires OnTrack(same, whole, Deliver(streamType, payload, rest), out0, err0, out, err)
    ensures same ==> OnTrack(same, whole, rest, out0, err0, out + payload, out + payload)
    ensures !same && streamType == 2 ==> OnTrack(same, whole, rest, out0, err0, out, err + payload)
    ensures !same && streamType != 2 ==> OnTrack(same, whole, rest, out0, err0, out + payload, err)
  {
    Assoc(out, payload, rest.all);
    Assoc(out, payload, rest.out);
    Assoc(err, payload, rest.err);
  }

  lemma ShortOfAHeader(s: seq<byte>)
    requires |s| < 8
    ensures Demultiplex(s) == NOTHING.(partial := |s|)
  {
  }

  lemma FirstFrame(s: seq<byte>)
    requires |s| >= 8
    ensures var size, body := BigEndian(s[4..8]), s[8..];
            Demultiplex(s) == if size <= |body| then Deliver(s[0], body[..size], Demultiplex(body[size..]))
                              else Deliver(s[0], body, NOTHING.(inBody := true))
  {
  }

  // Properties of the meaning

  /** The value of a length, byte by byte, the most significant first. */
  lemma LengthBytes(b: seq<byte>)
    requires |b| == 4
    ensures BigEndian(b) == b[0] as nat * 0x100_0000 + b[1] as nat * 0x1_0000 + b[2] as nat * 0x100 + b[3] as nat
    ensures BigEndian(b) / 0x100_0000 == b[0] as nat && BigEndian(b) % 0x100 == b[3] as nat
    ensures BigEndian(b) / 0x1_0000 % 0x100 == b[1] as nat && BigEndian(b) / 0x100 % 0x100 == b[2] as nat
  {
    var n := BigEndian(b);
    var q1 := (b[0] as nat * 256 + b[1] as nat) * 256 + b[2] as nat;
    var q2 := b[0] as nat * 256 + b[1] as nat;
    Quotients(n, q1, q2, b[0] as nat);
  }

  /** What a stream means, read off its bytes: byte 0 tells the stream, bytes 4 to 7 the length, payload from byte 8. */
  lemma FrameByFrame(s: seq<byte>)
    ensures |s| < 8 ==> Demultiplex(s).out == Demultiplex(s).err == [] && !Demultiplex(s).inBody
    ensures |s| >= 8 ==>
              var size := s[4] as nat * 0x100_0000 + s[5] as nat * 0x1_0000 + s[6] as nat * 0x100 + s[7] as nat;
              var whole, rest := Demultiplex(s), if 8 + size <= |s| then Demultiplex(s[8 + size..]) else NOTHING;
              var payload := if 8 + size <= |s| then s[8..8 + size] else s[8..];
              && whole.err == (if s[0] == 2 then payload else []) + rest.err
              && whole.out == (if s[0] == 2 then [] else payload) + rest.out
              && whole.inBody == (8 + size > |s| || rest.inBody)
  {
    hide BigEndian, Demultiplex;
    if |s| < 8 {
      ShortOfAHeader(s);
    } else {
      LengthBytes(s[4..8]);
      FrameOfSize(s, BigEndian(s[4..8]));
    }
  }

  lemma FrameOfSize(s: seq<byte>, size: nat)
    requires |s| >= 8 && size == BigEndian(s[4..8])
    ensures var whole, rest := Demultiplex(s), if 8 + size <= |s| then Demultiplex(s[8 + size..]) else NOTHING;
            var payload := if 8 + size <= |s| then s[8..8 + size] else s[8..];
            && whole.err == (if s[0] == 2 then payload else []) + rest.err
            && whole.out == (if s[0] == 2 then [] else payload) + rest.out
            && whole.inBody == (8 + size > |s| || rest.inBody)
  {
    hide BigEndian, Demultiplex;
    FirstFrame(s);
    var body := s[8..];
    if size <= |body| { assert body[..size] == s[8..8 + size] && body[size..] == s[8 + size..]; }
  }

  /** Every byte is accounted for: payload, eight for each complete header, and a partial header of fewer than eight. */
  lemma {:induction false} BytesAccountedFor(s: seq<byte>)
    ensures var r := Demultiplex(s); |r.out| + |r.err| == |r.all| && |r.all| + 8 * r.headers + r.partial == |s| && r.partial < 8
    decreases |s|
  {
    if |s| >= 8 {
      var size, body := BigEndian(s[4..8]), s[8..];
      if size <= |body| { BytesAccountedFor(body[size..]); }
    }
  }

  predicate PrefixesOf(a: Split, b: Split) {
    a.out <= b.out && a.err <= b.err && a.all <= b.all
  }

  lemma DeliverKeepsPrefixes(streamType: byte, payload: seq<byte>, a: Split, b: Split)
    requires PrefixesOf(a, b)
    ensures PrefixesOf(Deliver(streamType, payload, a), Deliver(streamType, payload, b))
  {
  }

  /** A payload cut short, with nothing after it. */
  lemma CutPayload(streamType: byte, payload: seq<byte>, n: nat, b: Split)
    requires n <= |payload|
    ensures PrefixesOf(Deliver(streamType, payload[..n], NOTHING.(inBody := true)), Deliver(streamType, payload, b))
  {
  }

  /** Truncation: cutting the input anywhere yields prefixes of both outputs. */
  lemma {:induction false} TruncationGivesPrefixes(s: seq<byte>, k: nat)
    requires k <= |s|
    ensures PrefixesOf(Demultiplex(s[..k]), Demultiplex(s))
    decreases |s|
  {
    hide BigEndian, Demultiplex, Deliver;
    if k < 8 {
      ShortOfAHeader(s[..k]);
    } else {
      FirstFrame(s);
      FirstFrame(s[..k]);
      var size, body := BigEndian(s[4..8]), s[8..];
      assert s[..k][4..8] == s[4..8] && s[..k][8..] == body[..k - 8];
      if size <= k - 8 {
        var rest := body[size..];
        TruncationGivesPrefixes(rest, k - 8 - size);
        assert body[..k - 8][..size] == body[..size];
        assert body[..k - 8][size..] == rest[..k - 8 - size];
        DeliverKeepsPrefixes(s[0], body[..size], Demultiplex(rest[..k - 8 - size]), Demultiplex(rest));
      } else if size <= |body| {
        assert body[..size][..k - 8] == body[..k - 8];
        CutPayload(s[0], body[..size], k - 8, Demultiplex(body[size..]));
      } else {
        CutPayload(s[0], body, k - 8, NOTHING.(inBody := true));
      }
    }
  }

  // Frames

  datatype Frame = Frame(streamType: byte, payload: seq<byte>)

  predicate Printable(fs: seq<Frame>) {
    forall f <- fs :: |f.payload| < 0x1_0000_0000
  }

  function Header(f: Frame): (h: seq<byte>)
    requires |f.payload| < 0x1_0000_0000
    ensures |h| == 8 && h[0] == f.streamType && BigEndian(h[4..8]) == |f.payload|
  {
    var size := PutBigEndian(|f.payload|);
    assert ([f.streamType, 0, 0, 0] + size)[4..8] == size;
    [f.streamType, 0, 0, 0] + size
  }

  function Print(fs: seq<Frame>): seq<byte>
    requires Printable(fs)
  {
    if fs == [] then []
    else Header(fs[0]) + fs[0].payload + Print(fs[1..])
  }

  /** The frames of one stream, in order: type 2 is stderr, every other type stdout. */
  function Stream(fs: seq<Frame>, stderr: bool): seq<Frame> {
    if fs == [] then []
    else (if (fs[0].streamType == 2) == stderr then [fs[0]] else []) + Stream(fs[1..], stderr)
  }

  function Payloads(fs: seq<Frame>): seq<byte> {
    if fs == [] then [] else fs[0].payload + Payloads(fs[1..])
  }

  lemma HeadThenBody(h: seq<byte>, p: seq<byte>, rest: seq<byte>)
    requires |h| == 8
    ensures var all := h + p + rest;
            && |all| >= 8 && all[0] == h[0] && all[4..8] == h[4..8] && all[8..] == p + rest
            && all[8..][..|p|] == p && all[8..][|p|..] == rest
  {
  }

  lemma OneFrame(f: Frame, rest: seq<byte>)
    requires |f.payload| < 0x1_0000_0000
    ensures Demultiplex(Header(f) + f.payload + rest) == Deliver(f.streamType, f.payload, Demultiplex(rest))
  {
    hide Header, BigEndian, Deliver;
    HeadThenBody(Header(f), f.payload, rest);
  }

  /** What frames contribute in front of whatever follows them. */
  function Onto(fs: seq<Frame>, t: Split): Split {
    Split(Payloads(Stream(fs, false)) + t.out, Payloads(Stream(fs, true)) + t.err, Payloads(fs) + t.all,
          |fs| + t.headers, t.partial, t.inBody)
  }

  /** Demultiplexing printed frames, whatever follows them, gives their payloads stream by stream and then the rest. */
  lemma {:induction false} PrintedFramesComeFirst(fs: seq<Frame>, s: seq<byte>)
    requires Printable(fs)
    ensures Demultiplex(Print(fs) + s) == Onto(fs, Demultiplex(s))
    decreases |fs|
  {
    hide Demultiplex, Header, Onto, Deliver;
    if fs == [] {
      assert Print(fs) + s == s;
      NoFrames(Demultiplex(s));
    } else {
      var f, tail := fs[0], fs[1..];
      assert Print(fs) + s == Header(f) + f.payload + (Print(tail) + s);
      OneFrame(f, Print(tail) + s);
      PrintedFramesComeFirst(tail, s);
      DeliverOnto(fs, Demultiplex(s));
    }
  }

  /** Printed frames, and less than a header after them. */
  ghost predicate CutBetweenFrames(s: seq<byte>) {
    exists fs, rest :: Printable(fs) && |rest| < 8 && s == Print(fs) + rest
  }

  /** Printed frames, and after them a header and not all of its payload. */
  ghost predicate CutInPayload(s: seq<byte>) {
    exists fs, f: Frame, q: seq<byte> ::
      Printable(fs) && |q| < |f.payload| < 0x1_0000_0000 && s == Print(fs) + (Header(f) + q)
  }

  lemma EndsBetweenFrames(s: seq<byte>)
    ensures CutBetweenFrames(s) ==> !Demultiplex(s).inBody
  {
    if fs, rest :| Printable(fs) && |rest| < 8 && s == Print(fs) + rest {
      PrintedFramesComeFirst(fs, rest);
      ShortOfAHeader(rest);
    }
  }

  lemma EndsInPayload(s: seq<byte>)
    ensures CutInPayload(s) ==> Demultiplex(s).inBody
  {
    if fs, f: Frame, q: seq<byte> :|
        Printable(fs) && |q| < |f.payload| < 0x1_0000_0000 && s == Print(fs) + (Header(f) + q) {
      var rest := Header(f) + q;
      PrintedFramesComeFirst(fs, rest);
      assert rest[4..8] == Header(f)[4..8] && rest[8..] == q;
      FirstFrame(rest);
    }
  }

  lemma DeliverOnto(fs: seq<Frame>, t: Split)
    requires fs != []
    ensures Deliver(fs[0].streamType, fs[0].payload, Onto(fs[1..], t)) == Onto(fs, t)
  {
    assert Payloads(fs) == fs[0].payload + Payloads(fs[1..]);
    hide Stream, Payloads;
    Assoc(fs[0].payload, Payloads(fs[1..]), t.all);
    StreamCons(fs, true);
    StreamCons(fs, false);
    Assoc(fs[0].payload, Payloads(Stream(fs[1..], true)), t.err);
    Assoc(fs[0].payload, Payloads(Stream(fs[1..], false)), t.out);
    assert [] + Payloads(Stream(fs[1..], true)) == Payloads(Stream(fs[1..], true));
    assert [] + Payloads(Stream(fs[1..], false)) == Payloads(Stream(fs[1..], false));
  }

  lemma Assoc(a: seq<byte>, b: seq<byte>, c: seq<byte>)
    ensures a + b + c == a + (b + c)
  {
  }

  lemma NoFrames(t: Split)
    ensures Onto([], t) == t
  {
  }

  lemma StreamCons(fs: seq<Frame>, stderr: bool)
    requires fs != []
    ensures Payloads(Stream(fs, stderr)) ==
            (if (fs[0].streamType == 2) == stderr then fs[0].payload else []) + Payloads(Stream(fs[1..], stderr))
  {
    if (fs[0].streamType == 2) == stderr {
      assert Stream(fs, stderr)[1..] == Stream(fs[1..], stderr);
    } else {
      assert Stream(fs, stderr) == Stream(fs[1..], stderr);
    }
  }

  /** Round trip: stderr receives the type-2 payloads, stdout all others, each in order and nothing else. */
  lemma RoundTrip(fs: seq<Frame>)
    requires Printable(fs)
    ensures Demultiplex(Print(fs)) ==
            Split(Payloads(Stream(fs, false)), Payloads(Stream(fs, true)), Payloads(fs), |fs|, 0, false)
  {
    hide Print, Payloads, Stream, Demultiplex;
    PrintedFramesComeFirst(fs, []);
    ShortOfAHeader([]);
    assert Print(fs) + [] == Print(fs);
  }

  /** Only the order within each stream matters. */
  lemma InterleavingDoesNotMatter(fs: seq<Frame>, gs: seq<Frame>)
    requires Printable(fs) && Printable(gs)
    requires Stream(fs, false) == Stream(gs, false) && Stream(fs, true) == Stream(gs, true)
    ensures Demultiplex(Print(fs)).out == Demultiplex(Print(gs)).out
    ensures Demultiplex(Print(fs)).err == Demultiplex(Print(gs)).err
  {
    RoundTrip(fs);
    RoundTrip(gs);
  }
}
