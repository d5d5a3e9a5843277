/** The double-buffer writer: chunks go to the current of two buffers, a
    full buffer is detached whole and written to the stream, and when the
    stream pushes back the rest of that list waits for its 'drain' event,
    when it is spliced in front of the other buffer. */
module DoubleBuffer {
  import opened Common
  import Options

  datatype Letter = A | B

  function Other(x: Letter): (y: Letter)
    ensures y != x
  {
    if x == A then B else A
  }

  /** The sum of `Buffer.byteLength` over the chunks of a list. */
  function TotalBytes(list: seq<Bytes>): nat {
    if list == [] then 0 else |list[0]| + TotalBytes(list[1..])
  }

  lemma {:induction false} TotalBytesSnoc(list: seq<Bytes>, c: Bytes)
    ensures TotalBytes(list + [c]) == TotalBytes(list) + |c|
  {
    if list != [] {
      assert (list + [c])[1..] == list[1..] + [c];
      TotalBytesSnoc(list[1..], c);
    }
  }

  /** Of `n` writes made when `base` writes have already been made, the index
      of the first one the stream answers with `false`, or `n`. */
  function FirstRefusal(accepts: nat -> bool, base: nat, n: nat): (k: nat)
    ensures k <= n
    ensures forall j :: base <= j < base + k ==> accepts(j)
    ensures k < n ==> !accepts(base + k)
  {
    if n == 0 then 0
    else
      var k := FirstRefusal(accepts, base, n - 1);
      if k < n - 1 then k
      else if accepts(base + n - 1) then n
      else n - 1
  }

  /** The prefix of `list` that `doFlush` hands to the stream: everything,
      or up to and including the first chunk answered with `false`. */
  function Delivered(accepts: nat -> bool, base: nat, list: seq<Bytes>): (d: seq<Bytes>)
    ensures |d| <= |list| && d == list[..|d|]
    ensures list != [] ==> d != []
  {
    var k := FirstRefusal(accepts, base, |list|);
    if k == |list| then list else list[..k + 1]
  }

  /** `list` is what was delivered followed by what the stall left over. */
  lemma DeliveredSplit(accepts: nat -> bool, base: nat, list: seq<Bytes>)
    ensures var k := FirstRefusal(accepts, base, |list|);
      && (k == |list| ==> Delivered(accepts, base, list) == list)
      && (k < |list| ==> list == Delivered(accepts, base, list) + list[k + 1..])
  {
    var k := FirstRefusal(accepts, base, |list|);
    if k < |list| {
      assert list == list[..k + 1] + list[k + 1..];
    }
  }

  datatype FlushOutcome =
    | Completed      // every chunk of the list was accepted
    | Stalled(at: nat) // the write of chunk `at` returned false
    | Faulted        // `doFlush` threw: an empty list, or no stream

  /** How `doFlush` ends on a non-closed stream. */
  function Outcome(accepts: nat -> bool, base: nat, list: seq<Bytes>): (o: FlushOutcome)
    ensures o == Faulted <==> list == []
    ensures o.Stalled? ==> o.at < |list| && !accepts(base + o.at)
  {
    if list == [] then Faulted
    else
      var k := FirstRefusal(accepts, base, |list|);
      if k == |list| then Completed else Stalled(k)
  }

  /** After `doFlush` of `list`, what was written before followed by `list`
      is what is now written followed by what still waits for 'drain'. */
  lemma FlushKeepsAccount(accepts: nat -> bool, written: seq<Bytes>, list: seq<Bytes>)
    requires list != []
    ensures var o := Outcome(accepts, |written|, list);
      var now := written + Delivered(accepts, |written|, list);
      && (o == Completed ==> written + list == now)
      && (o.Stalled? ==> written + list == now + list[o.at + 1..])
  {
    var k := FirstRefusal(accepts, |written|, |list|);
    var d := Delivered(accepts, |written|, list);
    DeliveredSplit(accepts, |written|, list);
    if k == |list| {
      assert d == list;
      assert written + list == written + d;
    } else {
      var rest := list[k + 1..];
      assert list == d + rest;
      assert written + list == (written + d) + rest;
    }
  }

  datatype WriteOutcome =
    | Buffered                  // appended, no flush due
    | Deferred                  // appended; the other buffer waits for 'drain'
    | Flushed(outcome: FlushOutcome)

  /** A write stream as the writer sees it: what it was handed, whether a
      write has answered `false` since the last 'drain', and whether it was
      ended. Whether the n-th write (counted over the stream's life) returns
      `true` is decided by `accepts`. */
  class Sink {
    const accepts: nat -> bool
    var written: seq<Bytes>
    var needDrain: bool
    var ended: bool

    constructor (accepts: nat -> bool)
      ensures this.accepts == accepts
      ensures written == [] && !needDrain && !ended
    {
      this.accepts := accepts;
      written, needDrain, ended := [], false, false;
    }

    /** `stream.write(chunk)`: the chunk is queued either way; the answer
        says whether the caller should wait for 'drain'. */
    method Write(chunk: Bytes) returns (ok: bool)
      requires !ended
      modifies this
      ensures ok == accepts(|old(written)|)
      ensures written == old(written) + [chunk]
      ensures needDrain == (old(needDrain) || !ok) && ended == old(ended)
    {
      ok := accepts(|written|);
      written := written + [chunk];
      needDrain := needDrain || !ok;
    }

    /** The queue emptied after a `false` answer: 'drain' is emitted. */
    method Drained()
      requires needDrain && !ended
      modifies this
      ensures !needDrain && written == old(written) && !ended
    {
      needDrain := false;
    }

    method End()
      modifies this
      ensures ended && written == old(written) && needDrain == old(needDrain)
    {
      ended := true;
    }
  }

  /** `cacheSize >= this.cacheSize` where an absent limit compares false. */
  predicate Reaches(size: int, limit: Option<int>) {
    limit.Some? && size >= limit.value
  }

  class Writer {
    /** `this.cacheSize` and `this.flushTimeout`, stored raw. */
    const limit: Option<int>
    const flushTimeout: Option<int>
    /** `_encode` */
    const encode: string -> Bytes
    const sink: Sink

    /** The chunk lists headed by `_bufA` and `_bufB` with their `cacheSize`
        counters, held by role: `active` is the buffer `current` names,
        `standby` the other one. */
    var active: seq<Bytes>
    var activeSize: int
    var standby: seq<Bytes>
    var standbySize: int
    var current: Letter
    var lastFlush: int
    var whichFull: Option<Letter>
    /** The chunks on `continueBufferList`. */
    var leftover: seq<Bytes>
    /** Whether `tailCursor` is the last node of the `leftover` chain, so that
        the drain handler's `tailCursor.next = ...` extends that chain. */
    var tailLinked: bool
    /** `this.stream` is set. */
    var open: bool

    /** Every chunk `write` has accepted, in order. */
    ghost var history: seq<Bytes>
    /** No fault has escaped, no chunk has been dropped, and `flush` was
        never called from outside while a 'drain' was pending: then every
        chunk is in the stream or still waiting, in order. */
    ghost var accounted: bool

    /** The list of buffer `x`. */
    function Buf(x: Letter): seq<Bytes>
      reads this
    {
      if x == current then active else standby
    }

    /** The chunks held back by a stalled flush until 'drain'. */
    function Waiting(): seq<Bytes>
      reads this, sink
    {
      if sink.needDrain then leftover else []
    }

    ghost predicate Valid()
      reads this, sink
    {
      && activeSize == TotalBytes(active) && standbySize == TotalBytes(standby)
      && open == !sink.ended
      && (accounted ==>
            && open
            && standby == []
            && (sink.needDrain ==> whichFull == Some(Other(current)))
            && history == sink.written + Waiting() + active)
    }

    /** The double-buffer constructor after `init()` opened the stream. */
    constructor (cfg: Options.Config, encode: string -> Bytes, sink: Sink, now: int)
      requires !cfg.rollingFile
      requires sink.written == [] && !sink.needDrain && !sink.ended
      ensures Valid() && accounted
      ensures this.sink == sink && this.encode == encode
      ensures limit == cfg.cacheSize && flushTimeout == cfg.flushTimeout
      ensures active == [] && standby == [] && current == A && lastFlush == now && whichFull == None
      ensures open && history == []
    {
      limit, flushTimeout := cfg.cacheSize, cfg.flushTimeout;
      this.encode, this.sink := encode, sink;
      active, activeSize, standby, standbySize := [], 0, [], 0;
      current, lastFlush, whichFull := A, now, None;
      leftover, tailLinked, open := [], false, true;
      history, accounted := [], true;
    }

    /** `doFlush(x, cursor)`: hand the chunks to the stream in order and stop
        at the first `false`, remembering the rest and which buffer stalled.
        It throws on an empty list or a missing stream. The tail cursor is
        the last node of `list` when `tailOk`; it ends the chain left over
        only when the flush stalls. */
    method DoFlush(x: Letter, list: seq<Bytes>, tailOk: bool) returns (o: FlushOutcome)
      requires open == !sink.ended
      modifies this`whichFull, this`leftover, this`tailLinked, sink
      ensures o == if open then Outcome(sink.accepts, |old(sink.written)|, list) else Faulted
      ensures sink.written == old(sink.written) + if o == Faulted then [] else Delivered(sink.accepts, |old(sink.written)|, list)
      ensures sink.needDrain == (old(sink.needDrain) || o.Stalled?) && sink.ended == old(sink.ended)
      ensures whichFull == if o.Stalled? then Some(x) else old(whichFull)
      ensures leftover == if o.Stalled? then list[o.at + 1..] else old(leftover)
      ensures tailLinked == (tailOk && o.Stalled?)
    {
      tailLinked := false;
      if list == [] || !open {
        return Faulted;
      }
      ghost var base := |sink.written|;
      ghost var k := FirstRefusal(sink.accepts, base, |list|);
      var i := 0;
      while i < |list|
        invariant 0 <= i <= |list| && i <= k
        invariant sink.written == old(sink.written) + list[..i]
        invariant sink.needDrain == old(sink.needDrain) && !sink.ended
        invariant whichFull == old(whichFull) && leftover == old(leftover) && !tailLinked
      {
        var ok := sink.Write(list[i]);
        assert list[..i + 1] == list[..i] + [list[i]];
        if !ok {
          whichFull := Some(x);
          leftover := list[i + 1..];
          tailLinked := tailOk;
          return Stalled(i);
        }
        i := i + 1;
      }
      assert list[..i] == list;
      return Completed;
    }

    /** The first half of `flush(x)`: reset buffer `x` and its counter, and
        make the other buffer current. */
    method Detach(x: Letter)
      requires activeSize == TotalBytes(active) && standbySize == TotalBytes(standby)
      modifies this`active, this`activeSize, this`standby, this`standbySize, this`current
      ensures activeSize == TotalBytes(active) && standbySize == TotalBytes(standby)
      ensures current == Other(x)
      ensures active == old(Buf(Other(x))) && standby == []
    {
      if x == current {
        active, activeSize := standby, standbySize;
      }
      standby, standbySize := [], 0;
      current := Other(x);
    }

    /** The append half of `write`: link the chunk after the current tail. */
    method Push(chunk: Bytes)
      requires Valid()
      modifies this`active, this`activeSize, this`history
      ensures Valid()
      ensures active == old(active) + [chunk] && history == old(history) + [chunk]
    {
      TotalBytesSnoc(active, chunk);
      assert accounted ==> history + [chunk] == sink.written + Waiting() + (active + [chunk]);
      active, activeSize := active + [chunk], activeSize + |chunk|;
      history := history + [chunk];
    }

    /** `flush(x)` on `list`: detach buffer `x`, then `doFlush`. When the
        accounting holds on entry, `list` is exactly what is not yet written,
        and it keeps holding unless the flush throws. `tailOk` says whether
        the tail cursor `_pX` is the last node of `list`. */
    method FlushList(x: Letter, list: seq<Bytes>, tailOk: bool) returns (o: FlushOutcome)
      requires activeSize == TotalBytes(active) && standbySize == TotalBytes(standby)
      requires open == !sink.ended
      requires accounted ==>
        open && !sink.needDrain && x == current && standby == [] && history == sink.written + list
      modifies this, sink
      ensures history == old(history) && lastFlush == old(lastFlush) && open == old(open)
      ensures Valid()
      ensures accounted == (old(accounted) && o != Faulted)
      ensures current == Other(x) && active == old(Buf(Other(x))) && standby == []
      ensures tailLinked == (tailOk && o.Stalled?)
      ensures o == if open then Outcome(sink.accepts, |old(sink.written)|, list) else Faulted
      ensures sink.written == old(sink.written) + if o == Faulted then [] else Delivered(sink.accepts, |old(sink.written)|, list)
      ensures sink.needDrain == (old(sink.needDrain) || o.Stalled?) && sink.ended == old(sink.ended)
      ensures whichFull == if o.Stalled? then Some(x) else old(whichFull)
      ensures leftover == if o.Stalled? then list[o.at + 1..] else old(leftover)
    {
      Detach(x);
      o := DoFlush(x, list, tailOk);
      if accounted && o != Faulted {
        FlushKeepsAccount(sink.accepts, old(sink.written), list);
        assert Waiting() == if o.Stalled? then list[o.at + 1..] else [];
      }
      accounted := accounted && o != Faulted;
    }

    /** `flush(x)` on the buffer's own list. An explicit flush while a
        'drain' is pending, or a fault, ends the accounting. */
    method FlushBuffer(x: Letter) returns (o: FlushOutcome)
      requires Valid()
      modifies this, sink
      ensures Valid()
      ensures accounted == (old(accounted) && !old(sink.needDrain) && o != Faulted)
      ensures history == old(history) && lastFlush == old(lastFlush) && open == old(open)
      ensures current == Other(x) && active == old(Buf(Other(x))) && standby == [] && tailLinked == o.Stalled?
      ensures o == if open then Outcome(sink.accepts, |old(sink.written)|, old(Buf(x))) else Faulted
      ensures sink.written == old(sink.written) + if o == Faulted then [] else Delivered(sink.accepts, |old(sink.written)|, old(Buf(x)))
      ensures sink.needDrain == (old(sink.needDrain) || o.Stalled?) && sink.ended == old(sink.ended)
      ensures whichFull == if o.Stalled? then Some(x) else old(whichFull)
      ensures leftover == if o.Stalled? then old(Buf(x))[o.at + 1..] else old(leftover)
    {
      // with the other buffer empty, flushing it throws
      accounted := accounted && !sink.needDrain && x == current;
      o := FlushList(x, Buf(x), true);
    }

    /** `flush(bufferName)`: any name other than "A" or "B" does nothing. */
    method Flush(name: string) returns (o: Option<FlushOutcome>)
      requires Valid()
      modifies this, sink
      ensures Valid()
      ensures name != "A" && name != "B" ==> o == None && unchanged(this) && unchanged(sink)
      ensures name == "A" || name == "B" ==>
        var x := if name == "A" then A else B;
        var list := old(Buf(x));
        && o.Some? && current == Other(x) && active == old(Buf(Other(x))) && standby == []
        && (o.value == Faulted <==> !old(open) || list == [])
        && o.value == (if old(open) then Outcome(sink.accepts, |old(sink.written)|, list) else Faulted)
        && sink.written == old(sink.written) + (if o.value == Faulted then [] else Delivered(sink.accepts, |old(sink.written)|, list))
        && sink.needDrain == (old(sink.needDrain) || o.value.Stalled?) && sink.ended == old(sink.ended)
        && whichFull == (if o.value.Stalled? then Some(x) else old(whichFull))
        && leftover == (if o.value.Stalled? then list[o.value.at + 1..] else old(leftover))
        && tailLinked == o.value.Stalled?
        && history == old(history) && lastFlush == old(lastFlush) && open == old(open)
    {
      if name == "A" {
        var r := FlushBuffer(A);
        o := Some(r);
      } else if name == "B" {
        var r := FlushBuffer(B);
        o := Some(r);
      } else {
        o := None;
      }
    }

    /** The decision half of `write`: unless the other buffer waits for
        'drain', flush the current one when its counter reached the limit or
        the interval elapsed. */
    method FlushIfDue(now: int, later: int) returns (r: WriteOutcome)
      requires Valid() && active != []
      modifies this, sink
      ensures Valid()
      ensures history == old(history) && accounted == old(accounted)
      ensures whichFull == if r.Flushed? && r.outcome.Stalled? then Some(old(current)) else old(whichFull)
      ensures sink.needDrain == (old(sink.needDrain) || (r.Flushed? && r.outcome.Stalled?))
      ensures open == old(open) && sink.ended == old(sink.ended)
      ensures var due := Reaches(TotalBytes(old(active)), limit)
          || (flushTimeout.Some? && now - old(lastFlush) >= flushTimeout.value);
        && (old(whichFull) == Some(Other(old(current))) ==> r == Deferred)
        && (old(whichFull) != Some(Other(old(current))) ==> (r.Flushed? <==> due) && (!due ==> r == Buffered))
      ensures !r.Flushed? ==>
        && active == old(active) && standby == old(standby) && current == old(current)
        && leftover == old(leftover) && tailLinked == old(tailLinked)
        && sink.written == old(sink.written) && lastFlush == old(lastFlush)
      ensures r.Flushed? ==>
        && active == old(standby) && standby == [] && current == Other(old(current)) && tailLinked == r.outcome.Stalled?
        && r.outcome == (if old(open) then Outcome(sink.accepts, |old(sink.written)|, old(active)) else Faulted)
        && leftover == (if r.outcome.Stalled? then old(active)[r.outcome.at + 1..] else old(leftover))
        && sink.written == old(sink.written) + (if r.outcome == Faulted then [] else Delivered(sink.accepts, |old(sink.written)|, old(active)))
        && lastFlush == if r.outcome == Faulted then old(lastFlush) else later
    {
      if whichFull == Some(Other(current)) {
        return Deferred;
      }
      if Reaches(activeSize, limit) || (flushTimeout.Some? && now - lastFlush >= flushTimeout.value) {
        var o := FlushBuffer(current);
        if o != Faulted {
          lastFlush := later;
        }
        return Flushed(o);
      }
      return Buffered;
    }

    /** `write(string)`: append the encoded chunk to the current buffer and
        count its bytes, then flush that buffer if due. `now` is the clock
        before the write, `later` after the flush. */
    method Write(s: string, now: int, later: int) returns (r: WriteOutcome)
      requires Valid()
      modifies this, sink
      ensures Valid()
      ensures history == old(history) + [encode(s)] && accounted == old(accounted)
      ensures whichFull == if r.Flushed? && r.outcome.Stalled? then Some(old(current)) else old(whichFull)
      ensures sink.needDrain == (old(sink.needDrain) || (r.Flushed? && r.outcome.Stalled?))
      ensures open == old(open) && sink.ended == old(sink.ended)
      ensures var list := old(active) + [encode(s)];
        var due := Reaches(TotalBytes(list), limit)
          || (flushTimeout.Some? && now - old(lastFlush) >= flushTimeout.value);
        && (old(whichFull) == Some(Other(old(current))) ==> r == Deferred)
        && (old(whichFull) != Some(Other(old(current))) ==> (r.Flushed? <==> due) && (!due ==> r == Buffered))
        && (!r.Flushed? ==>
              && active == list && standby == old(standby) && current == old(current)
              && leftover == old(leftover) && tailLinked == old(tailLinked)
              && sink.written == old(sink.written) && lastFlush == old(lastFlush))
        && (r.Flushed? ==>
              && active == old(standby) && standby == [] && current == Other(old(current)) && tailLinked == r.outcome.Stalled?
              && r.outcome == (if old(open) then Outcome(sink.accepts, |old(sink.written)|, list) else Faulted)
              && leftover == (if r.outcome.Stalled? then list[r.outcome.at + 1..] else old(leftover))
              && sink.written == old(sink.written) + (if r.outcome == Faulted then [] else Delivered(sink.accepts, |old(sink.written)|, list))
              && lastFlush == if r.outcome == Faulted then old(lastFlush) else later)
    {
      Push(encode(s));
      r := FlushIfDue(now, later);
    }

    /** The 'drain' listener: the chain left over by the stalled flush is put
        in front of the other buffer's list through the tail cursor, and that
        buffer is flushed. `whichBufferFull` is compared, not cleared, so it
        keeps naming the buffer that stalled last. */
    method Drain() returns (o: FlushOutcome)
      requires Valid() && sink.needDrain && !sink.ended
      modifies this, sink
      ensures Valid()
      ensures var x := if old(whichFull) == Some(A) then B else A;
        var own := old(Buf(x));
        var chain := if old(leftover) == [] then [] else old(leftover) + if old(tailLinked) then own else [];
        && current == Other(x) && active == old(Buf(Other(x))) && standby == []
        && tailLinked == (old(leftover) != [] && old(tailLinked) && own != [] && o.Stalled?)
        && o == Outcome(sink.accepts, |old(sink.written)|, chain)
        && sink.written == old(sink.written) + (if o == Faulted then [] else Delivered(sink.accepts, |old(sink.written)|, chain))
        && sink.needDrain == o.Stalled?
        && whichFull == (if o.Stalled? then Some(x) else old(whichFull))
        && leftover == (if o.Stalled? then chain[o.at + 1..] else old(leftover))
        && accounted == (old(accounted) && old(leftover) != [] && (old(tailLinked) || own == []))
      ensures history == old(history) && open && lastFlush == old(lastFlush)
    {
      sink.Drained();
      var x := if whichFull == Some(A) then B else A;
      var own := Buf(x);
      var chain := if leftover == [] then [] else leftover + if tailLinked then own else [];
      var tailOk := leftover != [] && tailLinked && own != [];
      // a pending drain names the buffer that is not current
      assert accounted ==> x == current && own == active;
      accounted := accounted && leftover != [] && (tailLinked || own == []);
      o := FlushList(x, chain, tailOk);
    }

    /** `end()` on a set stream whose current buffer holds chunks: flush it,
        then the other buffer, then end the stream. Flushing an empty other
        buffer throws, leaving the stream open. */
    method EndFilled() returns (faulted: bool)
      requires Valid() && open && active != []
      modifies this, sink
      ensures Valid() && !accounted
      ensures lastFlush == old(lastFlush) && history == old(history)
      ensures faulted <==> old(standby) == []
      ensures old(accounted) ==> faulted && open
      ensures !faulted ==> !open && sink.ended
      ensures faulted ==> open && !sink.ended
      ensures var base := |old(sink.written)|;
        var o1 := Outcome(sink.accepts, base, old(active));
        var d1 := Delivered(sink.accepts, base, old(active));
        var o2 := Outcome(sink.accepts, base + |d1|, old(standby));
        var d2 := if old(standby) == [] then [] else Delivered(sink.accepts, base + |d1|, old(standby));
        && current == old(current) && active == [] && standby == []
        && sink.written == old(sink.written) + d1 + d2
        && sink.needDrain == (old(sink.needDrain) || o1.Stalled? || o2.Stalled?)
        && whichFull == (if o2.Stalled? then Some(Other(old(current))) else if o1.Stalled? then Some(old(current)) else old(whichFull))
        && leftover == (if o2.Stalled? then old(standby)[o2.at + 1..] else if o1.Stalled? then old(active)[o1.at + 1..] else old(leftover))
        && tailLinked == o2.Stalled?
    {
      var first := current;
      var o1 := FlushBuffer(first);
      var o2 := FlushBuffer(Other(first));
      if o2 == Faulted {
        return true;
      }
      sink.End();
      open := false;
      accounted := false;
      return false;
    }

    /** `end()`: with the stream unset nothing is flushed or ended. */
    method End() returns (faulted: bool)
      requires Valid()
      modifies this, sink
      ensures Valid() && !accounted
      ensures !old(open) ==>
        && !faulted && !open && sink.written == old(sink.written) && sink.needDrain == old(sink.needDrain)
        && sink.ended == old(sink.ended) && current == old(current) && active == old(active) && standby == old(standby)
        && whichFull == old(whichFull) && leftover == old(leftover) && tailLinked == old(tailLinked)
      ensures lastFlush == old(lastFlush) && history == old(history)
      ensures old(open) ==> (faulted <==> old(active) == [] || old(standby) == [])
      ensures old(accounted) ==> faulted && open
      ensures old(open) && !faulted ==> !open && sink.ended
      ensures faulted ==> open && !sink.ended
      ensures old(open) && old(active) == [] ==>
        && current == Other(old(current)) && active == old(standby) && standby == []
        && sink.written == old(sink.written) && sink.needDrain == old(sink.needDrain)
        && whichFull == old(whichFull) && leftover == old(leftover) && !tailLinked
      ensures old(open) && old(active) != [] ==>
        var base := |old(sink.written)|;
        var o1 := Outcome(sink.accepts, base, old(active));
        var d1 := Delivered(sink.accepts, base, old(active));
        var o2 := Outcome(sink.accepts, base + |d1|, old(standby));
        var d2 := if old(standby) == [] then [] else Delivered(sink.accepts, base + |d1|, old(standby));
        && current == old(current) && active == [] && standby == []
        && sink.written == old(sink.written) + d1 + d2
        && sink.needDrain == (old(sink.needDrain) || o1.Stalled? || o2.Stalled?)
        && whichFull == (if o2.Stalled? then Some(Other(old(current))) else if o1.Stalled? then Some(old(current)) else old(whichFull))
        && leftover == (if o2.Stalled? then old(standby)[o2.at + 1..] else if o1.Stalled? then old(active)[o1.at + 1..] else old(leftover))
        && tailLinked == o2.Stalled?
    {
      if !open {
        accounted := false;
        return false;
      }
      if active == [] {
        var _ := FlushBuffer(current);
        accounted := false;
        return true;
      }
      faulted := EndFilled();
    }
  }

  // ---------------------------------------------------------------------------
  // Two runs of the writer

  function ScenarioConfig(cacheSize: int): (c: Options.Config)
    ensures !c.rollingFile && c.cacheSize == Some(cacheSize) && c.flushTimeout == None
  {
    Options.Config(
      level := "info", logdir := "logs", rollingFile := false, name := Some("app.log"),
      nameformat := Options.DEFAULT_NAMEFORMAT, duration := Options.ONE_DAY,
      encoding := "utf-8", streamMode := Options.DEFAULT_MODE,
      flushTimeout := None, cacheSize := Some(cacheSize))
  }

  /** Every write is due (`cacheSize` 0) and the stream answers its first
      write with `false`. The first flush stalls on its only chunk, so no
      chain is left over; the second chunk waits in the other buffer; the
      'drain' listener then flushes an empty chain and throws, and the
      second chunk is neither written nor held anywhere. */
  method LostSiblingRun() returns (outcomes: seq<WriteOutcome>, drained: FlushOutcome, written: seq<Bytes>, held: seq<Bytes>)
    ensures outcomes == [Flushed(Stalled(0)), Deferred]
    ensures drained == Faulted
    ensures written == [Latin1("a")] && held == []
  {
    var sink := new Sink(n => n != 0);
    var w := new Writer(ScenarioConfig(0), Latin1, sink, 0);
    assert FirstRefusal(sink.accepts, 0, 1) == 0;
    var r1 := w.Write("a", 0, 0);
    assert r1 == Flushed(Stalled(0)) && w.current == B && w.whichFull == Some(A);
    assert w.leftover == [] && sink.written == [Latin1("a")] && sink.needDrain;
    var r2 := w.Write("b", 0, 0);
    assert r2 == Deferred && w.active == [Latin1("b")];
    drained := w.Drain();
    outcomes, written := [r1, r2], sink.written;
    held := w.active + w.standby + w.leftover;
  }

  /** The state of a writer of the runs below between their stages. */
  ghost predicate At(w: Writer, cur: Letter, act: seq<Bytes>, left: seq<Bytes>, linked: bool, written: seq<Bytes>, pending: bool)
    reads w, w.sink
  {
    && w.Valid() && w.open && w.limit == Some(2) && w.flushTimeout == None && w.encode == Latin1
    && (forall n :: w.sink.accepts(n) <==> n != 0)
    && w.current == cur && w.whichFull == Some(A) && w.active == act && w.standby == []
    && w.leftover == left && w.tailLinked == linked && w.sink.written == written && w.sink.needDrain == pending
  }

  /** Stage one: two one-byte writes fill buffer A, whose flush stalls on its
      first chunk; the third write is deferred into B. */
  method StallStage(w: Writer) returns (r1: WriteOutcome, r2: WriteOutcome, r3: WriteOutcome)
    requires w.Valid() && w.open && w.limit == Some(2) && w.flushTimeout == None && w.encode == Latin1
    requires forall n :: w.sink.accepts(n) <==> n != 0
    requires w.current == A && w.whichFull == None && w.active == [] && w.standby == []
    requires w.sink.written == [] && !w.sink.needDrain
    modifies w, w.sink
    ensures r1 == Buffered && r2 == Flushed(Stalled(0)) && r3 == Deferred
    ensures At(w, B, [Latin1("c")], [Latin1("b")], true, [Latin1("a")], true)
  {
    var a, b, c := Latin1("a"), Latin1("b"), Latin1("c");
    r1 := w.Write("a", 0, 0);
    assert TotalBytes([a]) == 1;
    assert r1 == Buffered && w.active == [a];
    assert TotalBytes([b]) == 1 && [a, b][1..] == [b] && TotalBytes([a, b]) == 2;
    assert FirstRefusal(w.sink.accepts, 0, 1) == 0;
    assert FirstRefusal(w.sink.accepts, 0, 2) == 0;
    r2 := w.Write("b", 0, 0);
    assert r2 == Flushed(Stalled(0)) && w.leftover == [b] && w.sink.written == [a];
    r3 := w.Write("c", 0, 0);
  }

  /** Stage two: 'drain' flushes the chain `b` followed by B's `c`, and A,
      current again, is flushed by the next write. */
  method DrainStage(w: Writer) returns (d: FlushOutcome, r: WriteOutcome)
    requires At(w, B, [Latin1("c")], [Latin1("b")], true, [Latin1("a")], true)
    modifies w, w.sink
    ensures d == Completed && r == Flushed(Completed)
    ensures At(w, B, [], [Latin1("b")], false, [Latin1("a"), Latin1("b"), Latin1("c"), Latin1("dd")], false)
  {
    var a, b, c, dd := Latin1("a"), Latin1("b"), Latin1("c"), Latin1("dd");
    assert FirstRefusal(w.sink.accepts, 1, 1) == 1;
    assert FirstRefusal(w.sink.accepts, 1, 2) == 2;
    d := w.Drain();
    assert d == Completed && w.sink.written == [a, b, c] && w.current == A && w.active == [];
    assert TotalBytes([dd]) == 2;
    assert FirstRefusal(w.sink.accepts, 3, 1) == 1;
    r := w.Write("dd", 0, 0);
    assert w.sink.written == [a, b, c] + [dd] == [a, b, c, dd];
  }

  /** Stage three: with `whichBufferFull` still naming A, writes to B are
      deferred however large B grows. */
  method StuckStage(w: Writer) returns (r5: WriteOutcome, r6: WriteOutcome)
    requires At(w, B, [], [Latin1("b")], false, [Latin1("a"), Latin1("b"), Latin1("c"), Latin1("dd")], false)
    modifies w, w.sink
    ensures r5 == Deferred && r6 == Deferred
    ensures At(w, B, [Latin1("eeee"), Latin1("ffff")], [Latin1("b")], false, [Latin1("a"), Latin1("b"), Latin1("c"), Latin1("dd")], false)
  {
    r5 := w.Write("eeee", 0, 0);
    r6 := w.Write("ffff", 0, 0);
  }

  /** A limit of two bytes and a stream that answers only its first write with
      `false`. After the first 'drain' has flushed the leftover chain and the
      other buffer, `whichBufferFull` still names buffer A: once A has been
      flushed again, every write to B is deferred, whatever B holds, and no
      'drain' is pending that would ever flush it. */
  method StuckAfterDrainRun() returns (outcomes: seq<WriteOutcome>, drained: FlushOutcome, written: seq<Bytes>, waiting: seq<Bytes>, drainPending: bool)
    ensures outcomes == [Buffered, Flushed(Stalled(0)), Deferred, Flushed(Completed), Deferred, Deferred]
    ensures drained == Completed
    ensures written == [Latin1("a"), Latin1("b"), Latin1("c"), Latin1("dd")]
    ensures waiting == [Latin1("eeee"), Latin1("ffff")] && !drainPending
  {
    var sink := new Sink(n => n != 0);
    var w := new Writer(ScenarioConfig(2), Latin1, sink, 0);
    var r1, r2, r3 := StallStage(w);
    var r4;
    drained, r4 := DrainStage(w);
    var r5, r6 := StuckStage(w);
    outcomes, written, waiting, drainPending := [r1, r2, r3, r4, r5, r6], sink.written, w.active, sink.needDrain;
  }

  /** Stage two of `LostAfterEndRun`: `end()` flushes the current buffer B,
      then throws on the empty buffer A. The stream stays open, the 'drain'
      is still pending, and the tail cursor is A's discarded head. */
  method EndStage(w: Writer) returns (faulted: bool)
    requires At(w, B, [Latin1("c")], [Latin1("b")], true, [Latin1("a")], true)
    modifies w, w.sink
    ensures faulted
    ensures At(w, B, [], [Latin1("b")], false, [Latin1("a"), Latin1("c")], true)
  {
    assert FirstRefusal(w.sink.accepts, 1, 1) == 1;
    faulted := w.End();
  }

  /** Stage three of `LostAfterEndRun`: `y` is deferred into B, and 'drain'
      flushes only the chain `b`, leaving no buffer that holds `y`. */
  method LossStage(w: Writer) returns (r: WriteOutcome, d: FlushOutcome)
    requires At(w, B, [], [Latin1("b")], false, [Latin1("a"), Latin1("c")], true)
    modifies w, w.sink
    ensures r == Deferred && d == Completed
    ensures w.sink.written == [Latin1("a"), Latin1("c"), Latin1("b")]
    ensures w.active == [] && w.standby == [] && w.Waiting() == []
  {
    r := w.Write("y", 0, 0);
    assert w.active == [Latin1("y")] && w.leftover == [Latin1("b")] && !w.tailLinked;
    assert FirstRefusal(w.sink.accepts, 2, 1) == 1;
    d := w.Drain();
  }

  /** The stream refuses its first write only. A stall leaves `b` waiting
      for 'drain' and `c` deferred into B; `end()` writes `c` and then throws
      on the empty A, which leaves the tail cursor on A's discarded head. The
      next write `y` goes to B, and 'drain' links B's list after that head,
      outside the chain it flushes: `y` is never written and no buffer holds
      it. */
  method LostAfterEndRun() returns (faulted: bool, r: WriteOutcome, drained: FlushOutcome, written: seq<Bytes>, buffered: seq<Bytes>)
    ensures faulted && r == Deferred && drained == Completed
    ensures written == [Latin1("a"), Latin1("c"), Latin1("b")]
    ensures buffered == []
  {
    var sink := new Sink(n => n != 0);
    var w := new Writer(ScenarioConfig(2), Latin1, sink, 0);
    var r1, r2, r3 := StallStage(w);
    faulted := EndStage(w);
    r, drained := LossStage(w);
    written, buffered := sink.written, w.active + w.standby + w.Waiting();
  }
}
