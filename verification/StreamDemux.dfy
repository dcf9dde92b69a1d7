/** Taking apart Docker's multiplexed output: frames of a tag, three filler bytes, a big-endian length and a payload. */
module StreamDemux {
  import opened Sequences
  import opened Texts

  type Bytes = seq<Byte>

  datatype Frame = Frame(tag: Byte, filler: Bytes, payload: Bytes) {
    predicate Valid() {
      |filler| == 3 && |payload| < 0x1_0000_0000
    }
  }

  /** The four bytes of a length, most significant first. */
  function BigEndian(n: int): (r: Bytes)
    requires 0 <= n < 0x1_0000_0000
    ensures |r| == 4
  {
    var (q1, q2, q3) := (n / 0x100, n / 0x1_0000, n / 0x100_0000);
    [q3, q2 % 0x100, q1 % 0x100, n % 0x100]
  }

  function ReadBigEndian(b: Bytes): (n: int)
    requires |b| == 4
    ensures 0 <= n < 0x1_0000_0000
  {
    ((b[0] as int * 0x100 + b[1]) * 0x100 + b[2]) * 0x100 + b[3]
  }

  lemma BigEndianRoundTrip(n: int)
    requires 0 <= n < 0x1_0000_0000
    ensures ReadBigEndian(BigEndian(n)) == n
  {
    assert n / 0x1_0000 == n / 0x100 / 0x100 && n / 0x100_0000 == n / 0x1_0000 / 0x100;
  }

  lemma ReadRoundTrip(b: Bytes)
    requires |b| == 4
    ensures BigEndian(ReadBigEndian(b)) == b
  {
    var n := ReadBigEndian(b);
    assert n / 0x100 == (b[0] as int * 0x100 + b[1]) * 0x100 + b[2] && n % 0x100 == b[3];
    assert n / 0x1_0000 == n / 0x100 / 0x100 == b[0] as int * 0x100 + b[1];
    assert n / 0x100_0000 == n / 0x1_0000 / 0x100 == b[0];
  }

  function Encode(f: Frame): Bytes
    requires f.Valid()
  {
    [f.tag] + f.filler + BigEndian(|f.payload|) + f.payload
  }

  function EncodeAll(frames: seq<Frame>): Bytes
    requires forall f | f in frames :: f.Valid()
  {
    if frames == [] then [] else Encode(frames[0]) + EncodeAll(frames[1..])
  }

  /** No complete frame at the start. */
  predicate Incomplete(body: Bytes) {
    |body| < 8 || 8 + ReadBigEndian(body[4..8]) > |body|
  }

  /** The frame a body starts with. */
  function HeadFrame(body: Bytes): Frame
    requires !Incomplete(body)
  {
    Frame(body[0], body[1..4], body[8..8 + ReadBigEndian(body[4..8])])
  }

  /** The frames a body starts with, and what is left over. */
  function Parse(body: Bytes): (r: (seq<Frame>, Bytes))
    ensures (forall f | f in r.0 :: f.Valid()) && Incomplete(r.1)
    decreases |body|
  {
    if Incomplete(body) then ([], body)
    else
      var size := ReadBigEndian(body[4..8]);
      var (frames, rest) := Parse(body[8 + size..]);
      ([HeadFrame(body)] + frames, rest)
  }

  function Payloads(frames: seq<Frame>, stderr: bool): Bytes {
    if frames == [] then []
    else (if (frames[0].tag == 2) == stderr then frames[0].payload else []) + Payloads(frames[1..], stderr)
  }

  lemma HeadIsEncoded(body: Bytes)
    requires !Incomplete(body)
    ensures var size := ReadBigEndian(body[4..8]);
            Encode(HeadFrame(body)) == body[..8 + size]
  {
    ReadRoundTrip(body[4..8]);
  }

  /** Bodies decompose in one way: complete frames, then an incomplete remainder. */
  lemma {:induction false} ParseDecomposes(body: Bytes)
    ensures EncodeAll(Parse(body).0) + Parse(body).1 == body
    decreases |body|
  {
    if Incomplete(body) {
      assert [] + body == body;
    } else {
      var size := ReadBigEndian(body[4..8]);
      var f := HeadFrame(body);
      var (frames, rest) := Parse(body[8 + size..]);
      ParseDecomposes(body[8 + size..]);
      HeadIsEncoded(body);
      assert ([f] + frames)[1..] == frames;
      AppendIsAssociative(Encode(f), EncodeAll(frames), rest);
      TakeAndDrop(body, 8 + size);
    }
  }

  lemma FrameIsRead(f: Frame, rest: Bytes)
    requires f.Valid()
    ensures !Incomplete(Encode(f) + rest)
    ensures var (frames, left) := Parse(rest); Parse(Encode(f) + rest) == ([f] + frames, left)
  {
    var body, size := Encode(f) + rest, |f.payload|;
    BigEndianRoundTrip(size);
    assert body[4..8] == BigEndian(size);
    assert body[8 + size..] == rest;
    assert HeadFrame(body) == f;
  }

  lemma {:induction false} FramesAreRead(frames: seq<Frame>, rest: Bytes)
    requires (forall f | f in frames :: f.Valid()) && Incomplete(rest)
    ensures Parse(EncodeAll(frames) + rest) == (frames, rest)
  {
    if frames == [] {
      assert [] + rest == rest;
    } else {
      FramesAreRead(frames[1..], rest);
      FrameIsRead(frames[0], EncodeAll(frames[1..]) + rest);
      AppendIsAssociative(Encode(frames[0]), EncodeAll(frames[1..]), rest);
      HeadAndTail(frames);
    }
  }

  /** Without a single complete frame, everything counts as standard output. */
  function Demuxed(body: Bytes): (Bytes, Bytes) {
    var frames := Parse(body).0;
    if frames == [] then (body, []) else (Payloads(frames, false), Payloads(frames, true))
  }

  /**
    * Frames and an incomplete remainder, in any number and of any size: the payloads tagged 2 come out as standard
    * error and the others as standard output, each in order, and the remainder matters only when there is no frame.
    */
  lemma DemuxesFrames(frames: seq<Frame>, rest: Bytes)
    requires (forall f | f in frames :: f.Valid()) && Incomplete(rest)
    ensures Demuxed(EncodeAll(frames) + rest)
            == if frames == [] then (rest, []) else (Payloads(frames, false), Payloads(frames, true))
  {
    FramesAreRead(frames, rest);
    assert frames == [] ==> EncodeAll(frames) + rest == rest;
  }

  lemma {:induction false} PayloadsAppend(frames: seq<Frame>, f: Frame, stderr: bool)
    ensures Payloads(frames + [f], stderr)
            == Payloads(frames, stderr) + if (f.tag == 2) == stderr then f.payload else []
  {
    if frames == [] {
      assert [f][1..] == [];
    } else {
      PayloadsAppend(frames[1..], f, stderr);
      assert (frames + [f])[1..] == frames[1..] + [f];
    }
  }

  lemma DropDrop(body: Bytes, i: nat, n: nat)
    requires i + n <= |body|
    ensures body[i..][n..] == body[i + n..]
  {
  }

  lemma DropSlice(body: Bytes, i: nat, from: nat, to: nat)
    requires from <= to && i + to <= |body|
    ensures body[i..][from..to] == body[i + from..i + to]
  {
    assert body[i..] == body[i..|body|];
    SliceOfSlice(body, i, |body|, from, to);
  }

  lemma ParseTakes(body: Bytes)
    requires !Incomplete(body)
    ensures Parse(body).0 == [HeadFrame(body)] + Parse(body[8 + ReadBigEndian(body[4..8])..]).0
  {
  }

  lemma HeadOfRest(body: Bytes, i: nat, size: nat)
    requires i + 8 + size <= |body| && size == ReadBigEndian(body[i + 4..i + 8])
    ensures var rest := body[i..];
            && size == ReadBigEndian(rest[4..8]) && !Incomplete(rest)
            && rest[0] == body[i] && rest[8..8 + size] == body[i + 8..i + 8 + size]
            && rest[8 + size..] == body[i + 8 + size..]
  {
    DropSlice(body, i, 4, 8);
    DropSlice(body, i, 8, 8 + size);
    DropDrop(body, i, 8 + size);
  }

  /** One round of the loop: the frame at position i joins those already taken. */
  lemma TakeFrame(body: Bytes, i: nat, done: seq<Frame>) returns (f: Frame)
    requires i + 8 <= |body| && i + 8 + ReadBigEndian(body[i + 4..i + 8]) <= |body|
    requires Parse(body).0 == done + Parse(body[i..]).0
    ensures var size := ReadBigEndian(body[i + 4..i + 8]);
            && f.tag == body[i] && f.payload == body[i + 8..i + 8 + size]
            && Parse(body).0 == (done + [f]) + Parse(body[i + 8 + size..]).0
  {
    var size := ReadBigEndian(body[i + 4..i + 8]);
    HeadOfRest(body, i, size);
    f := HeadFrame(body[i..]);
    ParseTakes(body[i..]);
    AppendIsAssociative(done, [f], Parse(body[i + 8 + size..]).0);
  }

  /** The frames before position i are taken, and their payloads are these. */
  ghost predicate Upto(body: Bytes, i: nat, done: seq<Frame>, stdout: Bytes, stderr: Bytes) {
    && i <= |body| && Parse(body).0 == done + Parse(body[i..]).0
    && stdout == Payloads(done, false) && stderr == Payloads(done, true)
  }

  lemma TakePayload(body: Bytes, i: nat, done: seq<Frame>, stdout: Bytes, stderr: Bytes) returns (next: seq<Frame>)
    requires Upto(body, i, done, stdout, stderr)
    requires i + 8 <= |body| && i + 8 + ReadBigEndian(body[i + 4..i + 8]) <= |body|
    ensures |next| == |done| + 1
    ensures var to := i + 8 + ReadBigEndian(body[i + 4..i + 8]);
            var text := body[i + 8..to];
            if body[i] == 2 then Upto(body, to, next, stdout, stderr + text)
            else Upto(body, to, next, stdout + text, stderr)
  {
    var f := TakeFrame(body, i, done);
    PayloadsAppend(done, f, false);
    PayloadsAppend(done, f, true);
    next := done + [f];
  }

  lemma NoFrameLeft(body: Bytes, i: nat, done: seq<Frame>, stdout: Bytes, stderr: Bytes)
    requires Upto(body, i, done, stdout, stderr)
    requires i + 8 > |body| || i + 8 + ReadBigEndian(body[i + 4..i + 8]) > |body|
    ensures Parse(body).0 == done
  {
    if i + 8 <= |body| {
      DropSlice(body, i, 4, 8);
    }
    assert Incomplete(body[i..]);
  }

  method DemuxDockerStream(body: Bytes) returns (stdout: Bytes, stderr: Bytes)
    ensures (stdout, stderr) == Demuxed(body)
  {
    var i, frames := 0, 0;
    ghost var done: seq<Frame> := [];
    stdout, stderr := [], [];
    DropDrop(body, 0, 0);
    while i + 8 <= |body|
      invariant 0 <= i <= |body| && frames == |done| && Upto(body, i, done, stdout, stderr)
      decreases |body| - i
    {
      var tag, size := body[i], ReadBigEndian(body[i + 4..i + 8]);
      if i + 8 + size > |body| {
        break;
      }
      done := TakePayload(body, i, done, stdout, stderr);
      var text := body[i + 8..i + 8 + size];
      if tag == 2 {
        stderr := stderr + text;
      } else {
        stdout := stdout + text;
      }
      i := i + 8 + size;
      frames := frames + 1;
    }
    NoFrameLeft(body, i, done, stdout, stderr);
    if frames == 0 {
      stdout := body;
    }
  }
}
