/**
  * Collecting a command's output up to a cap per stream, with one flag for both. The SSH pool and the agent cap
  * standard error at 64 KiB, the managed-admin broker caps both streams alike.
  */
module BoundedOutput {
  import opened Sequences
  import opened StreamDemux

  datatype Chunk = Chunk(stderr: bool, data: Bytes)

  datatype Caps = Caps(out: nat, err: nat) {
    function Of(stderr: bool): nat {
      if stderr then err else out
    }
  }

  datatype Output = Output(out: Bytes, err: Bytes, truncated: bool) {
    function Of(stderr: bool): Bytes {
      if stderr then err else out
    }
  }

  function AppendStep(buf: Bytes, data: Bytes, cap: nat): (Bytes, bool) {
    if |buf| >= cap then (buf, true)
    else if |buf| + |data| > cap then (buf + data[..cap - |buf|], true)
    else (buf + data, false)
  }

  function Step(o: Output, c: Chunk, caps: Caps): Output {
    var (buf, lost) := AppendStep(o.Of(c.stderr), c.data, caps.Of(c.stderr));
    if c.stderr then Output(o.out, buf, o.truncated || lost) else Output(buf, o.err, o.truncated || lost)
  }

  class Collector {
    const caps: Caps
    var out: Bytes
    var err: Bytes
    var truncated: bool

    ghost function Contents(): Output
      reads this
    {
      Output(out, err, truncated)
    }

    constructor (caps: Caps)
      ensures this.caps == caps && Contents() == Output([], [], false)
    {
      this.caps := caps;
      out, err, truncated := [], [], false;
    }

    method Append(buf: Bytes, data: Bytes, cap: nat) returns (r: Bytes)
      modifies this`truncated
      ensures (r, truncated) == (AppendStep(buf, data, cap).0, old(truncated) || AppendStep(buf, data, cap).1)
    {
      if |buf| >= cap {
        truncated := true;
        return buf;
      }
      if |buf| + |data| > cap {
        truncated := true;
        return buf + data[..cap - |buf|];
      }
      r := buf + data;
    }

    method OnData(c: Chunk)
      modifies this
      ensures Contents() == Step(old(Contents()), c, caps)
    {
      if c.stderr {
        err := Append(err, c.data, caps.err);
      } else {
        out := Append(out, c.data, caps.out);
      }
    }
  }

  function Run(chunks: seq<Chunk>, caps: Caps): Output {
    if chunks == [] then Output([], [], false)
    else Step(Run(chunks[..|chunks| - 1], caps), chunks[|chunks| - 1], caps)
  }

  /** Everything a stream delivered. */
  function Delivered(chunks: seq<Chunk>, stderr: bool): Bytes {
    if chunks == [] then []
    else
      var before, last := chunks[..|chunks| - 1], chunks[|chunks| - 1];
      Delivered(before, stderr) + if last.stderr == stderr then last.data else []
  }

  function FirstBytes(b: Bytes, cap: nat): Bytes {
    if |b| <= cap then b else b[..cap]
  }

  lemma AppendKeepsFirstBytes(all: Bytes, data: Bytes, cap: nat)
    ensures AppendStep(FirstBytes(all, cap), data, cap).0 == FirstBytes(all + data, cap)
    ensures AppendStep(FirstBytes(all, cap), data, cap).1 <==> |all| >= cap || |all + data| > cap
  {
    if |all| >= cap {
      assert (all + data)[..cap] == all[..cap];
    } else if |all| + |data| > cap {
      assert (all + data)[..cap] == all + data[..cap - |all|];
    }
  }

  /** Chunk k came when its stream was full already. */
  ghost predicate LateAt(chunks: seq<Chunk>, k: nat, caps: Caps)
    requires k < |chunks|
  {
    |Delivered(chunks[..k], chunks[k].stderr)| >= caps.Of(chunks[k].stderr)
  }

  ghost predicate SomeLate(chunks: seq<Chunk>, caps: Caps) {
    exists k | 0 <= k < |chunks| :: LateAt(chunks, k, caps)
  }

  predicate Overflows(chunks: seq<Chunk>, caps: Caps) {
    |Delivered(chunks, false)| > caps.out || |Delivered(chunks, true)| > caps.err
  }

  lemma LateStep(chunks: seq<Chunk>, caps: Caps)
    requires chunks != []
    ensures var before, last := chunks[..|chunks| - 1], |chunks| - 1;
            SomeLate(chunks, caps) <==> SomeLate(before, caps) || LateAt(chunks, last, caps)
  {
    var before := chunks[..|chunks| - 1];
    forall k | 0 <= k < |before| ensures LateAt(chunks, k, caps) <==> LateAt(before, k, caps) {
      assert chunks[..k] == before[..k];
    }
  }

  /** Each buffer holds the first bytes of its stream, however it was cut; the flag is raised exactly as stated. */
  lemma {:induction false} KeepsFirstBytes(chunks: seq<Chunk>, caps: Caps)
    ensures var o := Run(chunks, caps);
            && (forall stderr :: o.Of(stderr) == FirstBytes(Delivered(chunks, stderr), caps.Of(stderr)))
            && (o.truncated <==> Overflows(chunks, caps) || SomeLate(chunks, caps))
  {
    if chunks != [] {
      var before, last := chunks[..|chunks| - 1], chunks[|chunks| - 1];
      KeepsFirstBytes(before, caps);
      LateStep(chunks, caps);
      AppendKeepsFirstBytes(Delivered(before, last.stderr), last.data, caps.Of(last.stderr));
      assert forall stderr | stderr != last.stderr :: Delivered(chunks, stderr) == Delivered(before, stderr);
    }
  }

  lemma {:induction false} DeliveredGrows(chunks: seq<Chunk>, k: nat, stderr: bool)
    requires k <= |chunks|
    ensures |Delivered(chunks[..k], stderr)| <= |Delivered(chunks, stderr)|
  {
    if k == |chunks| {
      assert chunks[..k] == chunks;
    } else {
      var before := chunks[..|chunks| - 1];
      DeliveredGrows(before, k, stderr);
      assert chunks[..k] == before[..k];
    }
  }

  lemma LateOverflows(chunks: seq<Chunk>, k: nat, caps: Caps)
    requires k < |chunks| && LateAt(chunks, k, caps) && chunks[k].data != []
    ensures Overflows(chunks, caps)
  {
    var stderr, upto := chunks[k].stderr, chunks[..k + 1];
    PrefixOfPrefix(chunks, k);
    assert Delivered(upto, stderr) == Delivered(chunks[..k], stderr) + chunks[k].data;
    DeliveredGrows(chunks, k + 1, stderr);
    assert |Delivered(chunks, stderr)| > caps.Of(stderr);
  }

  /** When no chunk is empty, the flag says exactly that bytes were lost. */
  lemma TruncatedMeansLost(chunks: seq<Chunk>, caps: Caps)
    requires forall c | c in chunks :: c.data != []
    ensures Run(chunks, caps).truncated <==> Overflows(chunks, caps)
  {
    KeepsFirstBytes(chunks, caps);
    if SomeLate(chunks, caps) {
      var k :| 0 <= k < |chunks| && LateAt(chunks, k, caps);
      LateOverflows(chunks, k, caps);
    }
  }

  lemma EmptyChunkDelivers(chunks: seq<Chunk>, stderr: bool, other: bool)
    ensures Delivered(chunks + [Chunk(stderr, [])], other) == Delivered(chunks, other)
  {
    var more := chunks + [Chunk(stderr, [])];
    assert more[..|more| - 1] == chunks;
  }

  /**
    * Of the append function alone, as streams deliver no empty chunks: one changes no buffer, and raises the flag
    * exactly if its stream is full, although nothing was lost.
    */
  lemma EmptyChunkRaisesFlag(chunks: seq<Chunk>, stderr: bool, caps: Caps)
    requires !Overflows(chunks, caps) && !Run(chunks, caps).truncated
    ensures var after := Run(chunks + [Chunk(stderr, [])], caps);
            && after.out == Run(chunks, caps).out && after.err == Run(chunks, caps).err
            && !Overflows(chunks + [Chunk(stderr, [])], caps)
            && (after.truncated <==> |Delivered(chunks, stderr)| == caps.Of(stderr))
  {
    var more := chunks + [Chunk(stderr, [])];
    assert more[..|more| - 1] == chunks;
    KeepsFirstBytes(chunks, caps);
    EmptyChunkDelivers(chunks, stderr, false);
    EmptyChunkDelivers(chunks, stderr, true);
  }

  /** Every cap can be met so: one chunk that fills the stream exactly, then an empty one. */
  lemma EveryCapIsAffected(stderr: bool, caps: Caps)
    requires caps.Of(stderr) > 0
    ensures var full := [Chunk(stderr, seq(caps.Of(stderr), _ => 0))];
            && !Overflows(full, caps) && !Run(full, caps).truncated
            && !Overflows(full + [Chunk(stderr, [])], caps) && Run(full + [Chunk(stderr, [])], caps).truncated
  {
    var c := Chunk(stderr, seq(caps.Of(stderr), _ => 0));
    assert [c][..0] == [] && [c][0] == c;
    assert Delivered([], stderr) == [] && Delivered([], !stderr) == [];
    assert Delivered([c], stderr) == [] + c.data && Delivered([c], !stderr) == [];
    KeepsFirstBytes([c], caps);
    assert !LateAt([c], 0, caps);
    EmptyChunkRaisesFlag([c], stderr, caps);
  }
}
