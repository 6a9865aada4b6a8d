/**
 The cap on a command's combined output (internal/shell/shell.go): two writers, for stdout and
 stderr, share one budget. Each Write is taken as one atomic step; the steps of the two streams
 interleave in any order.
 */
module OutputLimit {
  type byte = bv8

  datatype Stream = Stdout | Stderr

  /** One Write call of one of the two streams. */
  datatype Write = Write(stream: Stream, data: seq<byte>)

  class SharedLimit {
    const max: int
    var written: int

    constructor (max: int)
      ensures this.max == max && written == 0
    {
      this.max, written := max, 0;
    }
  }

  class LimitedWriter {
    var buf: seq<byte>
    const limit: SharedLimit

    constructor (limit: SharedLimit)
      ensures buf == [] && this.limit == limit
    {
      buf, this.limit := [], limit;
    }

    method Write(p: seq<byte>) returns (ok: bool)
      modifies this, limit
      ensures limit.written == old(limit.written) + |p|
      ensures ok <==> limit.written <= limit.max
      ensures buf == if ok then old(buf) + p else old(buf)
    {
      limit.written := limit.written + |p|;
      if limit.written > limit.max {
        return false;
      }
      buf := buf + p;
      return true;
    }
  }

  // ---------------------------------------------------------------- what the two buffers hold

  function Total(writes: seq<Write>): nat {
    if writes == [] then 0 else Total(writes[..|writes| - 1]) + |writes[|writes| - 1].data|
  }

  /** The bytes a stream wrote, in order. */
  function Bytes(writes: seq<Write>, stream: Stream): seq<byte> {
    if writes == [] then [] else
      var front, last := Bytes(writes[..|writes| - 1], stream), writes[|writes| - 1];
      if last.stream == stream then front + last.data else front
  }

  /** How many bytes a stream wrote in the first `n` writes. */
  function Written(writes: seq<Write>, n: nat, stream: Stream): nat
    requires n <= |writes|
  {
    if n == 0 then 0
    else Written(writes, n - 1, stream) + if writes[n - 1].stream == stream then |writes[n - 1].data| else 0
  }

  lemma {:induction false} SameWritten(writes: seq<Write>, n: nat, i: nat, stream: Stream)
    requires i <= n <= |writes|
    ensures Written(writes[..n], i, stream) == Written(writes, i, stream)
  {
    if i > 0 { SameWritten(writes, n, i - 1, stream); }
  }

  /** A stream has the bytes it wrote and no others. */
  lemma {:induction false} BytesAreWritten(writes: seq<Write>, stream: Stream)
    ensures |Bytes(writes, stream)| == Written(writes, |writes|, stream)
  {
    if writes != [] {
      BytesAreWritten(writes[..|writes| - 1], stream);
      SameWritten(writes, |writes| - 1, |writes| - 1, stream);
    }
  }

  /** Byte `k` of write `i` comes after all bytes of the stream's earlier writes, and `k` bytes of its own. */
  lemma {:induction false} BytesInOrder(writes: seq<Write>, stream: Stream, i: nat, k: nat)
    requires i < |writes| && writes[i].stream == stream && k < |writes[i].data|
    ensures Written(writes, i, stream) + k < |Bytes(writes, stream)| == Written(writes, |writes|, stream)
    ensures Bytes(writes, stream)[Written(writes, i, stream) + k] == writes[i].data[k]
  {
    var n := |writes| - 1;
    BytesAreWritten(writes, stream);
    SameWritten(writes, n, i, stream);
    if i < n { BytesInOrder(writes[..n], stream, i, k); } else { BytesAreWritten(writes[..n], stream); }
  }

  /** `n` is the length of the longest prefix of the writes that fits the budget. */
  ghost predicate LongestFit(writes: seq<Write>, max: int, n: nat) {
    && n <= |writes|
    && Total(writes[..n]) <= max
    && forall m :: n < m <= |writes| ==> Total(writes[..m]) > max
  }

  lemma {:induction false} TotalGrows(writes: seq<Write>, m: nat, n: nat)
    requires m <= n <= |writes|
    ensures Total(writes[..m]) <= Total(writes[..n])
  {
    if m < n {
      TotalGrows(writes, m, n - 1);
      assert writes[..n][..n - 1] == writes[..n - 1];
    }
  }

  lemma {:induction false} BytesFitTotal(writes: seq<Write>)
    ensures |Bytes(writes, Stdout)| + |Bytes(writes, Stderr)| == Total(writes)
  {
    if writes != [] { BytesFitTotal(writes[..|writes| - 1]); }
  }

  /** Of the first `i` writes, exactly the first `n` fit. */
  ghost predicate FitsSoFar(writes: seq<Write>, max: int, i: nat, n: nat) {
    n <= i <= |writes| && Total(writes[..n]) <= max && (n < i ==> Total(writes[..n + 1]) > max)
  }

  lemma {:induction false} FitsNext(writes: seq<Write>, max: int, i: nat, n: nat)
    requires i < |writes| && FitsSoFar(writes, max, i, n)
    ensures Total(writes[..i + 1]) == Total(writes[..i]) + |writes[i].data|
    ensures if Total(writes[..i + 1]) <= max then n == i && FitsSoFar(writes, max, i + 1, i + 1)
              else FitsSoFar(writes, max, i + 1, n)
    ensures forall stream ::
              Bytes(writes[..i + 1], stream)
              == Bytes(writes[..i], stream) + if writes[i].stream == stream then writes[i].data else []
  {
    assert writes[..i + 1][..i] == writes[..i];
    if n < i { TotalGrows(writes, n + 1, i + 1); }
  }

  lemma {:induction false} FitsUntil(writes: seq<Write>, max: int, n: nat)
    requires FitsSoFar(writes, max, |writes|, n)
    ensures LongestFit(writes, max, n)
    ensures |Bytes(writes[..n], Stdout)| + |Bytes(writes[..n], Stderr)| <= max
  {
    forall m | n < m <= |writes| ensures Total(writes[..m]) > max { TotalGrows(writes, n + 1, m); }
    BytesFitTotal(writes[..n]);
  }

  /** With a cap: both writers share the limit. */
  method CaptureLimited(max: int, writes: seq<Write>)
    returns (stdout: seq<byte>, stderr: seq<byte>, accepted: seq<bool>, n: nat)
    requires max > 0
    ensures LongestFit(writes, max, n) && |stdout| + |stderr| <= max
    ensures stdout == Bytes(writes[..n], Stdout) && stderr == Bytes(writes[..n], Stderr)
    ensures |accepted| == |writes| && forall i :: 0 <= i < |writes| ==> (accepted[i] <==> i < n)
  {
    accepted, n := [], 0;
    var limit := new SharedLimit(max);
    var out := new LimitedWriter(limit);
    var err := new LimitedWriter(limit);
    for i := 0 to |writes|
      invariant fresh(limit) && fresh(out) && fresh(err) && out != err && out.limit == err.limit == limit
      invariant limit.max == max && limit.written == Total(writes[..i])
      invariant FitsSoFar(writes, max, i, n)
      invariant out.buf == Bytes(writes[..n], Stdout) && err.buf == Bytes(writes[..n], Stderr)
      invariant |accepted| == i && forall j :: 0 <= j < i ==> (accepted[j] <==> j < n)
    {
      FitsNext(writes, max, i, n);
      var ok;
      match writes[i].stream {
        case Stdout => ok := out.Write(writes[i].data);
        case Stderr => ok := err.Write(writes[i].data);
      }
      accepted := accepted + [ok];
      if ok { n := i + 1; }
    }
    stdout, stderr := out.buf, err.buf;
    FitsUntil(writes, max, n);
  }

  /**
   ExecFile's two writers under any interleaving: each buffer ends up with exactly its stream's
   bytes from the longest prefix of all the writes that fits the cap, so together they never
   exceed it, and from the first refused write on every write is refused. No cap (0 or less)
   keeps everything.
   */
  method Capture(maxOutputBytes: int, writes: seq<Write>)
    returns (stdout: seq<byte>, stderr: seq<byte>, accepted: seq<bool>, n: nat)
    ensures maxOutputBytes > 0 ==> LongestFit(writes, maxOutputBytes, n) && |stdout| + |stderr| <= maxOutputBytes
    ensures maxOutputBytes <= 0 ==> n == |writes|
    ensures n <= |writes| && stdout == Bytes(writes[..n], Stdout) && stderr == Bytes(writes[..n], Stderr)
    ensures |accepted| == |writes| && forall i :: 0 <= i < |writes| ==> (accepted[i] <==> i < n)
  {
    if maxOutputBytes > 0 {
      stdout, stderr, accepted, n := CaptureLimited(maxOutputBytes, writes);
      return;
    }
    stdout, stderr, accepted, n := [], [], [], 0;
    for i := 0 to |writes|
      invariant n == i && stdout == Bytes(writes[..i], Stdout) && stderr == Bytes(writes[..i], Stderr)
      invariant |accepted| == i && forall j :: 0 <= j < i ==> accepted[j]
    {
      assert writes[..i + 1][..i] == writes[..i];
      match writes[i].stream {
        case Stdout => stdout := stdout + writes[i].data;
        case Stderr => stderr := stderr + writes[i].data;
      }
      accepted := accepted + [true];
      n := i + 1;
    }
  }
}
