/**
 The line-prefixing writer: a buffered transformer of a byte stream that must not depend on how the
 stream is cut into writes.
 */
module Logstream {
  newtype byte = b: int | 0 <= b < 256

  type Bytes = seq<byte>

  const NEWLINE: byte := 10

  // maxLineBuffer, 64 << 10.
  const MAX_LINE_BUFFER := 65536

  // ---------------------------------------------------------------- lines

  /** What follows the last newline of s. */
  function Tail(s: Bytes): Bytes
  {
    if s == [] then []
    else if s[|s| - 1] == NEWLINE then []
    else Tail(s[..|s| - 1]) + [s[|s| - 1]]
  }

  /** The complete lines of s, each with its newline. */
  function Lines(s: Bytes): seq<Bytes>
  {
    if s == [] then []
    else if s[|s| - 1] == NEWLINE then Lines(s[..|s| - 1]) + [Tail(s[..|s| - 1]) + [NEWLINE]]
    else Lines(s[..|s| - 1])
  }

  function Concat(chunks: seq<Bytes>): Bytes
  {
    if chunks == [] then [] else Concat(chunks[..|chunks| - 1]) + chunks[|chunks| - 1]
  }

  predicate NoNewline(s: Bytes) { forall k :: 0 <= k < |s| ==> s[k] != NEWLINE }

  lemma LinesAppend(s: Bytes, x: byte)
    ensures Lines(s + [x]) == if x == NEWLINE then Lines(s) + [Tail(s) + [NEWLINE]] else Lines(s)
    ensures Tail(s + [x]) == if x == NEWLINE then [] else Tail(s) + [x]
  {
    assert (s + [x])[..|s|] == s;
  }

  lemma ConcatAppend(chunks: seq<Bytes>, x: Bytes)
    ensures Concat(chunks + [x]) == Concat(chunks) + x
  {
    assert (chunks + [x])[..|chunks|] == chunks;
  }

  lemma {:induction false} ConcatConcat(xs: seq<Bytes>, ys: seq<Bytes>)
    ensures Concat(xs + ys) == Concat(xs) + Concat(ys)
  {
    hide Concat;
    if ys == [] {
      ConcatNone();
      assert xs + ys == xs && Concat(xs) + [] == Concat(xs);
    } else {
      var n := |ys| - 1;
      var front := Concat(xs);
      ConcatConcat(xs, ys[..n]);
      ConcatAppend(xs + ys[..n], ys[n]);
      ConcatAppend(ys[..n], ys[n]);
      assert xs + ys == xs + ys[..n] + [ys[n]] && ys == ys[..n] + [ys[n]];
      assert front + Concat(ys[..n]) + ys[n] == front + (Concat(ys[..n]) + ys[n]);
    }
  }

  lemma ConcatNone()
    ensures Concat([]) == []
  {}

  lemma ConcatOne(x: Bytes)
    ensures Concat([x]) == x
  {
    ConcatAppend([], x);
    assert [] + [x] == [x];
  }

  lemma {:induction false} TailNoNewline(s: Bytes)
    ensures NoNewline(Tail(s))
  {
    if s != [] {
      TailNoNewline(s[..|s| - 1]);
    }
  }

  /** A line is closed by a newline and holds no other. */
  predicate IsLine(l: Bytes) { |l| > 0 && l[|l| - 1] == NEWLINE && NoNewline(l[..|l| - 1]) }

  lemma {:induction false} LinesAreLines(s: Bytes)
    ensures forall k :: 0 <= k < |Lines(s)| ==> IsLine(Lines(s)[k])
  {
    if s != [] {
      var p := s[..|s| - 1];
      LinesAreLines(p);
      TailNoNewline(p);
      assert (Tail(p) + [NEWLINE])[..|Tail(p)|] == Tail(p);
    }
  }

  /** Lines and tail, put back together, are the stream. */
  lemma {:induction false} LinesPartition(s: Bytes)
    ensures Concat(Lines(s)) + Tail(s) == s
  {
    if s != [] {
      var p, x := s[..|s| - 1], s[|s| - 1];
      LinesPartition(p);
      ConcatAppend(Lines(p), Tail(p) + [NEWLINE]);
      assert s == p + [x];
    }
  }

  lemma {:induction false} NoNewlineLines(s: Bytes)
    requires NoNewline(s)
    ensures Lines(s) == [] && Tail(s) == s
  {
    if s != [] {
      NoNewlineLines(s[..|s| - 1]);
    }
  }

  lemma LinesOfConcatStep(a: Bytes, t: Bytes, p: Bytes, x: byte)
    requires Lines(a + p) == Lines(a) + Lines(t + p) && Tail(a + p) == Tail(t + p)
    ensures Lines(a + p + [x]) == Lines(a) + Lines(t + p + [x]) && Tail(a + p + [x]) == Tail(t + p + [x])
  {
    hide Lines, Tail;
    LinesAppend(a + p, x);
    LinesAppend(t + p, x);
  }

  /** Splitting a stream anywhere: its lines are those of the front, then those of the pending tail and the rest. */
  lemma {:induction false} LinesOfConcat(a: Bytes, b: Bytes)
    ensures Lines(a + b) == Lines(a) + Lines(Tail(a) + b)
    ensures Tail(a + b) == Tail(Tail(a) + b)
  {
    hide Lines, Tail;
    var t := Tail(a);
    if b == [] {
      TailNoNewline(a);
      NoNewlineLines(t);
      assert a + b == a && t + b == t;
    } else {
      var p, x := b[..|b| - 1], b[|b| - 1];
      LinesOfConcat(a, p);
      LinesOfConcatStep(a, t, p, x);
      assert a + b == a + p + [x] && t + b == t + p + [x];
    }
  }

  // ---------------------------------------------------------------- the writer as a function

  /** A writer's buffer, and the payloads it has emitted (prefixes left off). */
  datatype Log = Log(payloads: seq<Bytes>, buf: Bytes)

  const EMPTY := Log([], [])

  /** What one Write of p emits when `buf` is pending, with line cap `cap`. */
  function Emitted(cap: nat, buf: Bytes, p: Bytes): seq<Bytes>
  {
    if |Tail(buf + p)| >= cap then Lines(buf + p) + [Tail(buf + p)] else Lines(buf + p)
  }

  /** What it leaves pending. */
  function Kept(cap: nat, buf: Bytes, p: Bytes): Bytes { if |Tail(buf + p)| >= cap then [] else Tail(buf + p) }

  function Wrote(cap: nat, l: Log, p: Bytes): Log { Log(l.payloads + Emitted(cap, l.buf, p), Kept(cap, l.buf, p)) }

  function WroteAll(cap: nat, chunks: seq<Bytes>): Log
  {
    if chunks == [] then EMPTY else Wrote(cap, WroteAll(cap, chunks[..|chunks| - 1]), chunks[|chunks| - 1])
  }

  function Rest(buf: Bytes): seq<Bytes> { if buf == [] then [] else [buf + [NEWLINE]] }

  function Flushed(l: Log): Log { Log(l.payloads + Rest(l.buf), []) }

  /** The whole stream cut at its newlines, a final fragment getting a newline of its own. */
  function LineForm(s: Bytes): seq<Bytes>
  {
    Lines(s) + Rest(Tail(s))
  }

  function Output(cap: nat, chunks: seq<Bytes>): seq<Bytes> { Flushed(WroteAll(cap, chunks)).payloads }

  /** No line of s, final fragment included, holds `cap` bytes before its newline. */
  ghost predicate ShortLines(cap: nat, s: Bytes)
  {
    (forall k :: 0 <= k < |Lines(s)| ==> |Lines(s)[k]| <= cap) && |Tail(s)| < cap
  }

  // ---------------------------------------------------------------- conservation

  lemma EmittedConserves(cap: nat, buf: Bytes, p: Bytes)
    requires cap > 0
    ensures Concat(Emitted(cap, buf, p)) + Kept(cap, buf, p) == buf + p && |Kept(cap, buf, p)| < cap
  {
    hide Lines, Tail, Concat;
    var ls, t := Lines(buf + p), Tail(buf + p);
    LinesPartition(buf + p);
    ConcatAppend(ls, t);
    assert ls + [] == ls;
  }

  lemma WroteConserves(cap: nat, l: Log, p: Bytes)
    requires cap > 0
    ensures Concat(Wrote(cap, l, p).payloads) + Wrote(cap, l, p).buf == Concat(l.payloads) + l.buf + p
    ensures |Wrote(cap, l, p).buf| < cap
  {
    hide Emitted, Kept, Concat;
    EmittedConserves(cap, l.buf, p);
    var es, kept, front := Emitted(cap, l.buf, p), Kept(cap, l.buf, p), Concat(l.payloads);
    ConcatConcat(l.payloads, es);
    assert front + Concat(es) + kept == front + (l.buf + p) == front + l.buf + p;
  }

  /** Whatever the chunks, the payloads emitted so far and the residual buffer are the input, and the
      residual stays below the cap. */
  lemma {:induction false} NothingLost(cap: nat, chunks: seq<Bytes>)
    requires cap > 0
    ensures Concat(WroteAll(cap, chunks).payloads) + WroteAll(cap, chunks).buf == Concat(chunks)
    ensures |WroteAll(cap, chunks).buf| < cap
  {
    hide Wrote;
    if chunks != [] {
      var n := |chunks| - 1;
      NothingLost(cap, chunks[..n]);
      WroteConserves(cap, WroteAll(cap, chunks[..n]), chunks[n]);
    }
  }

  lemma RestAddsNewline(buf: Bytes)
    ensures Concat(Rest(buf)) == if buf == [] then [] else buf + [NEWLINE]
  {
    if buf != [] {
      ConcatOne(buf + [NEWLINE]);
    }
  }

  /** With the flush too nothing is lost: the output is the input, and one newline more exactly if a fragment
      was still pending. */
  lemma OutputConserves(cap: nat, chunks: seq<Bytes>)
    requires cap > 0
    ensures Concat(Output(cap, chunks)) == Concat(chunks) + (if WroteAll(cap, chunks).buf == [] then [] else [NEWLINE])
  {
    hide WroteAll, Concat, Rest;
    var l := WroteAll(cap, chunks);
    NothingLost(cap, chunks);
    RestAddsNewline(l.buf);
    ConcatConcat(l.payloads, Rest(l.buf));
    assert l.buf != [] ==> Concat(l.payloads) + (l.buf + [NEWLINE]) == Concat(l.payloads) + l.buf + [NEWLINE];
  }

  /** The line form is lines, and they are the stream, with one newline added exactly if the stream is nonempty
      and does not end in one ... */
  lemma LineFormIsTheStream(s: Bytes)
    ensures forall k :: 0 <= k < |LineForm(s)| ==> IsLine(LineForm(s)[k])
    ensures Concat(LineForm(s)) == s + (if s == [] || s[|s| - 1] == NEWLINE then [] else [NEWLINE])
  {
    hide Lines, Concat;
    LinesAreLines(s);
    LinesPartition(s);
    TailNoNewline(s);
    RestAddsNewline(Tail(s));
    ConcatConcat(Lines(s), Rest(Tail(s)));
    var t := Tail(s);
    assert (t + [NEWLINE])[..|t|] == t;
    assert t != [] ==> Concat(Lines(s)) + (t + [NEWLINE]) == Concat(Lines(s)) + t + [NEWLINE];
  }

  lemma LineOfItself(ls: seq<Bytes>, l: Bytes)
    requires IsLine(l) && Tail(Concat(ls)) == [] && Lines(Concat(ls)) == ls
    ensures Lines(Concat(ls + [l])) == ls + [l] && Tail(Concat(ls + [l])) == []
  {
    hide Lines, Tail, Concat;
    var p := l[..|l| - 1];
    assert l == p + [NEWLINE];
    ConcatAppend(ls, l);
    LinesOfConcat(Concat(ls), l);
    assert [] + l == l;
    OneLine(p);
  }

  /** ... and it is the only such list: a stream can be cut into lines in one way. */
  lemma {:induction false} LinesAreUnique(ls: seq<Bytes>)
    requires forall k :: 0 <= k < |ls| ==> IsLine(ls[k])
    ensures Lines(Concat(ls)) == ls && Tail(Concat(ls)) == [] && LineForm(Concat(ls)) == ls
  {
    if ls != [] {
      var n := |ls| - 1;
      LinesAreUnique(ls[..n]);
      LineOfItself(ls[..n], ls[n]);
      assert ls == ls[..n] + [ls[n]];
    }
  }

  // ---------------------------------------------------------------- independence of chunking

  /** A front of a stream of short lines has short lines. */
  lemma {:induction false} ShortFront(cap: nat, a: Bytes, b: Bytes)
    requires ShortLines(cap, a + b)
    ensures ShortLines(cap, a)
  {
    if b == [] {
      assert a + b == a;
    } else {
      var p, x := b[..|b| - 1], b[|b| - 1];
      assert a + b == a + p + [x];
      LinesAppend(a + p, x);
      assert ShortLines(cap, a + p) by {
        forall k | 0 <= k < |Lines(a + p)|
          ensures |Lines(a + p)[k]| <= cap
        {
          assert Lines(a + p)[k] == Lines(a + b)[k];
        }
        if x == NEWLINE {
          assert Lines(a + b)[|Lines(a + p)|] == Tail(a + p) + [NEWLINE];
        }
      }
      ShortFront(cap, a, p);
    }
  }

  /** While every line is short, the writer's log is just the lines and the tail of what it has been given. */
  lemma {:induction false} ShortLog(cap: nat, chunks: seq<Bytes>)
    requires ShortLines(cap, Concat(chunks))
    ensures WroteAll(cap, chunks) == Log(Lines(Concat(chunks)), Tail(Concat(chunks)))
  {
    if chunks != [] {
      var n := |chunks| - 1;
      var front := Concat(chunks[..n]);
      ShortFront(cap, front, chunks[n]);
      ShortLog(cap, chunks[..n]);
      LinesOfConcat(front, chunks[n]);
    }
  }

  /** Where the first line that is too long reaches the cap. */
  lemma {:induction false} FindLong(cap: nat, s: Bytes) returns (a: Bytes, b: Bytes, c: Bytes)
    requires cap > 0 && !ShortLines(cap, s)
    ensures a + b + c == s && |b| == cap && Tail(a) == [] && NoNewline(b)
  {
    if s != [] {
      var p, x := s[..|s| - 1], s[|s| - 1];
      assert s == p + [x];
      LinesAppend(p, x);
      if !ShortLines(cap, p) {
        a, b, c := FindLong(cap, p);
        c := c + [x];
      } else {
        assert x != NEWLINE && |Tail(s)| == cap;
        LinesPartition(s);
        TailNoNewline(s);
        a, b, c := Concat(Lines(s)), Tail(s), [];
        LinesClosed(s);
      }
    }
  }

  /** Complete lines leave nothing pending. */
  lemma {:induction false} LinesClosed(s: Bytes)
    ensures Tail(Concat(Lines(s))) == []
  {
    LinesAreLines(s);
    var ls := Lines(s);
    if ls != [] {
      var last := ls[|ls| - 1];
      assert Concat(ls) == Concat(ls[..|ls| - 1]) + last;
      assert Concat(ls)[|Concat(ls)| - 1] == NEWLINE;
    }
  }

  /** What has been emitted stays emitted. */
  lemma StaysEmitted(cap: nat, l: Log, p: Bytes, x: Bytes)
    requires x in l.payloads
    ensures x in Wrote(cap, l, p).payloads && x in Flushed(l).payloads
  {}

  lemma ClosedLeavesNothing(cap: nat, l: Log, p: Bytes)
    requires cap > 0 && l.buf == [] && Tail(p) == []
    ensures Wrote(cap, l, p).buf == []
  {
    assert l.buf + p == p;
  }

  /** A fragment of at least the cap is emitted as it stands. */
  lemma LongIsEmitted(cap: nat, l: Log, b: Bytes)
    requires |b| >= cap && l.buf == [] && NoNewline(b)
    ensures b in Wrote(cap, l, b).payloads
  {
    hide Lines, Tail;
    assert l.buf + b == b;
    NoNewlineLines(b);
    var es := Emitted(cap, [], b);
    assert es == [] + [b];
    assert (l.payloads + es)[|l.payloads|] == b;
  }

  /** Cutting the stream at a long line makes the writer emit a fragment without a newline. */
  lemma LongBreaks(cap: nat, a: Bytes, b: Bytes, c: Bytes)
    requires cap > 0 && |b| == cap && Tail(a) == [] && NoNewline(b)
    ensures b in Output(cap, [a, b, c])
  {
    hide Wrote, Flushed;
    var l1 := Wrote(cap, EMPTY, a);
    ClosedLeavesNothing(cap, EMPTY, a);
    LongIsEmitted(cap, l1, b);
    StaysEmitted(cap, Wrote(cap, l1, b), c, b);
    StaysEmitted(cap, Wrote(cap, Wrote(cap, l1, b), c), [], b);
    WroteThree(cap, a, b, c);
  }

  lemma WroteAppend(cap: nat, chunks: seq<Bytes>, p: Bytes)
    ensures WroteAll(cap, chunks + [p]) == Wrote(cap, WroteAll(cap, chunks), p)
  {
    assert (chunks + [p])[..|chunks|] == chunks;
  }

  lemma WroteThree(cap: nat, a: Bytes, b: Bytes, c: Bytes)
    ensures WroteAll(cap, [a, b, c]) == Wrote(cap, Wrote(cap, Wrote(cap, EMPTY, a), b), c)
  {
    assert [] + [a] == [a] && [a] + [b] == [a, b] && [a, b] + [c] == [a, b, c];
    WroteAppend(cap, [], a);
    WroteAppend(cap, [a], b);
    WroteAppend(cap, [a, b], c);
  }

  lemma ConcatThree(a: Bytes, b: Bytes, c: Bytes)
    ensures Concat([a, b, c]) == a + b + c
  {
    assert [a] + [b] == [a, b] && [a, b] + [c] == [a, b, c];
    ConcatOne(a);
    ConcatAppend([a], b);
    ConcatAppend([a, b], c);
  }

  /** Every element of a line form ends in a newline. */
  lemma NotALine(s: Bytes, b: Bytes)
    requires b != [] && NoNewline(b)
    ensures b !in LineForm(s)
  {
    hide Lines, Tail;
    LinesAreLines(s);
    assert b[|b| - 1] != NEWLINE;
  }

  /** However a stream is cut into writes, flushing emits its line form — exactly when every line, the final
      fragment included, is shorter than the cap. */
  lemma ChunkingDoesNotMatter(cap: nat, s: Bytes)
    requires cap > 0
    ensures (forall chunks :: Concat(chunks) == s ==> Output(cap, chunks) == LineForm(s)) <==> ShortLines(cap, s)
  {
    hide Lines, Tail, WroteAll, Concat;
    if ShortLines(cap, s) {
      forall chunks | Concat(chunks) == s
        ensures Output(cap, chunks) == LineForm(s)
      {
        ShortLog(cap, chunks);
      }
    } else {
      var a, b, c := FindLong(cap, s);
      LongBreaks(cap, a, b, c);
      ConcatThree(a, b, c);
      NotALine(s, b);
      assert Output(cap, [a, b, c]) != LineForm(s);
    }
  }

  // ---------------------------------------------------------------- writers sharing a sink

  /** A call on one of the writers of a sink; the sink's mutex makes each call one step. */
  datatype Op = Write(w: nat, p: Bytes) | Flush(w: nat)

  datatype Emission = Emission(w: nat, payload: Bytes)

  function After(cap: nat, l: Log, op: Op): Log { if op.Write? then Wrote(cap, l, op.p) else Flushed(l) }

  /** Writer w's log when it is given only its own calls. */
  function Alone(cap: nat, ops: seq<Op>, w: nat): Log
  {
    if ops == [] then EMPTY else
    var before := Alone(cap, ops[..|ops| - 1], w);
    if ops[|ops| - 1].w == w then After(cap, before, ops[|ops| - 1]) else before
  }

  function New(cap: nat, buf: Bytes, op: Op): seq<Bytes> { if op.Write? then Emitted(cap, buf, op.p) else Rest(buf) }

  function Tagged(w: nat, payloads: seq<Bytes>): seq<Emission>
  {
    seq(|payloads|, i requires 0 <= i < |payloads| => Emission(w, payloads[i]))
  }

  /** What reaches the shared stream: every call appends its own emissions, one after another. */
  function Shared(cap: nat, ops: seq<Op>): seq<Emission>
  {
    if ops == [] then [] else
    var front, op := ops[..|ops| - 1], ops[|ops| - 1];
    Shared(cap, front) + Tagged(op.w, New(cap, Alone(cap, front, op.w).buf, op))
  }

  function Of(w: nat, es: seq<Emission>): seq<Bytes>
  {
    if es == [] then [] else
    var earlier := Of(w, es[..|es| - 1]);
    if es[|es| - 1].w == w then earlier + [es[|es| - 1].payload] else earlier
  }

  lemma {:induction false} OfTagged(w: nat, es: seq<Emission>, v: nat, payloads: seq<Bytes>)
    ensures Of(w, es + Tagged(v, payloads)) == Of(w, es) + (if v == w then payloads else [])
  {
    var all := es + Tagged(v, payloads);
    if payloads == [] {
      assert all == es;
    } else {
      var n := |payloads| - 1;
      OfTagged(w, es, v, payloads[..n]);
      assert all[..|all| - 1] == es + Tagged(v, payloads[..n]);
      assert payloads[..n] + [payloads[n]] == payloads;
    }
  }

  /** Writers sharing a sink interleave only at emission boundaries: picking one writer's emissions out of
      the shared stream gives exactly what that writer would have emitted alone. */
  lemma {:induction false} SinkSeparates(cap: nat, ops: seq<Op>, w: nat)
    ensures Of(w, Shared(cap, ops)) == Alone(cap, ops, w).payloads
  {
    if ops != [] {
      var front, op := ops[..|ops| - 1], ops[|ops| - 1];
      SinkSeparates(cap, front, w);
      OfTagged(w, Shared(cap, front), op.w, New(cap, Alone(cap, front, op.w).buf, op));
    }
  }

  // ---------------------------------------------------------------- the writer itself

  function Prefixed(prefix: Bytes, lines: seq<Bytes>): seq<Bytes>
  {
    seq(|lines|, i requires 0 <= i < |lines| => prefix + lines[i])
  }

  /** The number of the first failing call from `lo` to `hi`, if any. */
  ghost predicate FirstFailure(fails: nat -> bool, lo: nat, hi: nat, err: int)
  {
    if err < 0 then forall k :: lo <= k < hi ==> !fails(k)
    else lo <= err < hi && fails(err) && forall k :: lo <= k < err ==> !fails(k)
  }

  /** Owns the underlying stream: the calls made on it, and which of them it answers with an error. */
  class Sink {
    var out: seq<Bytes>
    const fails: nat -> bool

    constructor (fails: nat -> bool)
      ensures out == [] && this.fails == fails
    {
      out, this.fails := [], fails;
    }

    method Put(chunk: Bytes) returns (failed: bool)
      modifies this
      ensures out == old(out) + [chunk] && failed == fails(|old(out)|)
    {
      failed := fails(|out|);
      out := out + [chunk];
    }
  }

  class Writer {
    const sink: Sink
    const prefix: Bytes
    var buf: Bytes

    constructor (sink: Sink, prefix: Bytes)
      ensures this.sink == sink && this.prefix == prefix && buf == []
    {
      this.sink, this.prefix, buf := sink, prefix, [];
    }

    method Emit(line: Bytes, first: int) returns (err: int)
      requires first < |sink.out|
      modifies sink
      ensures sink.out == old(sink.out) + [prefix + line]
      ensures err == if first < 0 && sink.fails(|old(sink.out)|) then |old(sink.out)| else first
    {
      var failed: bool;
      var call := |sink.out|;
      if prefix == [] {
        failed := sink.Put(line);
        assert prefix + line == line;
      } else {
        failed := sink.Put(prefix + line);
      }
      err := if failed && first < 0 then call else first;
    }

    /** The loop of Write: emits every complete line of the buffer, keeping the first error. */
    method EmitLines() returns (err: int)
      modifies this`buf, sink
      ensures buf == Tail(old(buf)) && sink.out == old(sink.out) + Prefixed(prefix, Lines(old(buf)))
      ensures err < |sink.out| && FirstFailure(sink.fails, |old(sink.out)|, |sink.out|, err)
    {
      ghost var s := buf;
      ghost var done: seq<Bytes> := [];
      err := -1;
      var i := IndexNewline(buf);
      while i >= 0
        invariant -1 <= i < |buf| && NoNewline(buf[..if i < 0 then |buf| else i]) && (i >= 0 ==> buf[i] == NEWLINE)
        invariant Lines(s) == done + Lines(buf) && Tail(s) == Tail(buf)
        invariant sink.out == old(sink.out) + Prefixed(prefix, done)
        invariant err < |sink.out| && FirstFailure(sink.fails, |old(sink.out)|, |sink.out|, err)
        decreases |buf|
      {
        var line := buf[..i + 1];
        LineDone(s, done, buf, i);
        buf := buf[i + 1..];
        err := Emit(line, err);
        done := done + [line];
        i := IndexNewline(buf);
      }
      assert buf[..|buf|] == buf;
      NoNewlineLines(buf);
    }

    /** Reports the full length whatever the stream answers, and the first of its errors. */
    method Write(p: Bytes) returns (n: nat, err: int)
      modifies this`buf, sink
      ensures n == |p|
      ensures buf == Kept(MAX_LINE_BUFFER, old(buf), p)
      ensures sink.out == old(sink.out) + Prefixed(prefix, Emitted(MAX_LINE_BUFFER, old(buf), p))
      ensures err < 0 ==> forall k :: |old(sink.out)| <= k < |sink.out| ==> !sink.fails(k)
      ensures err >= 0 ==> |old(sink.out)| <= err < |sink.out| && sink.fails(err)
      ensures err >= 0 ==> forall k :: |old(sink.out)| <= k < err ==> !sink.fails(k)
    {
      ghost var lines := Lines(buf + p);
      buf := buf + p;
      err := EmitLines();
      if |buf| >= MAX_LINE_BUFFER {
        err := Emit(buf, err);
        buf := [];
      }
      n := |p|;
    }

    /** Emits a pending fragment with a newline of its own. */
    method Flush() returns (err: int)
      modifies this`buf, sink
      ensures buf == [] && sink.out == old(sink.out) + Prefixed(prefix, Rest(old(buf)))
      ensures sink.out == old(sink.out) + if old(buf) == [] then [] else [prefix + (old(buf) + [NEWLINE])]
      ensures err == if old(buf) != [] && sink.fails(|old(sink.out)|) then |old(sink.out)| else -1
    {
      if |buf| == 0 {
        return -1;
      }
      var line := buf + [NEWLINE];
      buf := [];
      err := Emit(line, -1);
    }
  }

  // ---------------------------------------------------------------- writers on one sink

  function PrefixOf(prefixes: seq<Bytes>, w: nat): Bytes { if w < |prefixes| then prefixes[w] else [] }

  /** What the stream receives for a list of emissions. */
  function Framed(prefixes: seq<Bytes>, es: seq<Emission>): seq<Bytes>
  {
    seq(|es|, i requires 0 <= i < |es| => PrefixOf(prefixes, es[i].w) + es[i].payload)
  }

  lemma SharedAppend(cap: nat, ops: seq<Op>, op: Op)
    ensures Shared(cap, ops + [op]) == Shared(cap, ops) + Tagged(op.w, New(cap, Alone(cap, ops, op.w).buf, op))
    ensures forall w: nat :: w != op.w ==> Alone(cap, ops + [op], w) == Alone(cap, ops, w)
    ensures Alone(cap, ops + [op], op.w) == After(cap, Alone(cap, ops, op.w), op)
  {
    assert (ops + [op])[..|ops|] == ops;
  }

  lemma FramedStep(cap: nat, prefixes: seq<Bytes>, ops: seq<Op>, op: Op)
    ensures Framed(prefixes, Shared(cap, ops + [op])) ==
      Framed(prefixes, Shared(cap, ops)) + Prefixed(PrefixOf(prefixes, op.w), New(cap, Alone(cap, ops, op.w).buf, op))
  {
    SharedAppend(cap, ops, op);
  }

  lemma NothingShared(cap: nat, prefixes: seq<Bytes>)
    ensures Framed(prefixes, Shared(cap, [])) == [] && forall w: nat :: Alone(cap, [], w) == EMPTY
  {}

  /** One call on a writer: what it sends, and what it keeps. */
  method Call(w: Writer, op: Op)
    modifies w`buf, w.sink
    ensures w.sink.out == old(w.sink.out) + Prefixed(w.prefix, New(MAX_LINE_BUFFER, old(w.buf), op))
    ensures forall l: Log :: l.buf == old(w.buf) ==> w.buf == After(MAX_LINE_BUFFER, l, op).buf
  {
    if op.Write? {
      var n, err := w.Write(op.p);
    } else {
      var err := w.Flush();
    }
  }

  /** Any sequence of calls on any number of writers sharing one sink: the stream receives the shared
      emissions, prefixed, and each writer is left with the buffer it would have alone. */
  method CallAll(sink: Sink, ws: seq<Writer>, ghost prefixes: seq<Bytes>, ops: seq<Op>)
    requires forall i :: 0 <= i < |ws| ==> ws[i].sink == sink && ws[i].buf == []
    requires forall i, j :: 0 <= i < j < |ws| ==> ws[i] != ws[j]
    requires |prefixes| == |ws| && forall i :: 0 <= i < |ws| ==> ws[i].prefix == prefixes[i]
    requires forall k :: 0 <= k < |ops| ==> ops[k].w < |ws|
    modifies sink, set w | w in ws
    ensures sink.out == old(sink.out) + Framed(prefixes, Shared(MAX_LINE_BUFFER, ops))
    ensures forall i :: 0 <= i < |ws| ==> ws[i].buf == Alone(MAX_LINE_BUFFER, ops, i).buf
  {
    hide Alone, Shared, Framed, Prefixed, New, After;
    NothingShared(MAX_LINE_BUFFER, prefixes);
    assert ops[..0] == [];
    for k := 0 to |ops|
      invariant sink.out == old(sink.out) + Framed(prefixes, Shared(MAX_LINE_BUFFER, ops[..k]))
      invariant forall i :: 0 <= i < |ws| ==> ws[i].buf == Alone(MAX_LINE_BUFFER, ops[..k], i).buf
    {
      var op := ops[k];
      assert ops[..k + 1] == ops[..k] + [op];
      SharedAppend(MAX_LINE_BUFFER, ops[..k], op);
      FramedStep(MAX_LINE_BUFFER, prefixes, ops[..k], op);
      Call(ws[op.w], op);
    }
    assert ops[..|ops|] == ops;
  }

  /** bytes.IndexByte(s, '\n'). */
  method IndexNewline(s: Bytes) returns (i: int)
    ensures -1 <= i < |s| && NoNewline(s[..if i < 0 then |s| else i])
    ensures i >= 0 ==> s[i] == NEWLINE
  {
    i := 0;
    while i < |s|
      invariant 0 <= i <= |s| && NoNewline(s[..i])
    {
      if s[i] == NEWLINE {
        return;
      }
      i := i + 1;
    }
    i := -1;
  }

  lemma OneLine(p: Bytes)
    requires NoNewline(p)
    ensures Lines(p + [NEWLINE]) == [p + [NEWLINE]] && Tail(p + [NEWLINE]) == []
  {
    hide Lines, Tail;
    NoNewlineLines(p);
    LinesAppend(p, NEWLINE);
  }

  /** Taking the first complete line off a buffer. */
  lemma FirstLine(buf: Bytes, i: nat)
    requires i < |buf| && buf[i] == NEWLINE && NoNewline(buf[..i])
    ensures Lines(buf) == [buf[..i + 1]] + Lines(buf[i + 1..]) && Tail(buf) == Tail(buf[i + 1..])
  {
    hide Lines, Tail;
    var line, rest := buf[..i + 1], buf[i + 1..];
    assert line == buf[..i] + [NEWLINE];
    OneLine(buf[..i]);
    AfterLine(line, rest);
    assert buf == line + rest;
  }

  lemma AfterLine(line: Bytes, rest: Bytes)
    requires Lines(line) == [line] && Tail(line) == []
    ensures Lines(line + rest) == [line] + Lines(rest) && Tail(line + rest) == Tail(rest)
  {
    hide Lines, Tail;
    LinesOfConcat(line, rest);
    assert [] + rest == rest;
  }

  lemma LineDone(s: Bytes, done: seq<Bytes>, buf: Bytes, i: nat)
    requires Lines(s) == done + Lines(buf) && Tail(s) == Tail(buf)
    requires i < |buf| && buf[i] == NEWLINE && NoNewline(buf[..i])
    ensures Lines(s) == done + [buf[..i + 1]] + Lines(buf[i + 1..]) && Tail(s) == Tail(buf[i + 1..])
  {
    hide Lines, Tail;
    FirstLine(buf, i);
  }
}
