/** Draining a byte buffer with a step that looks only at its front: shared by
    the frame decoder and the journal scan. */
module Stream {
  /** Names a buffer at which a step is to be unfolded to its definition. */
  predicate Look<T>(b: T) {
    true
  }

  datatype Step<F, C> = Wait | Refuse(code: C) | Got(item: F, size: nat)

  datatype End<B, C> = Waiting(rest: seq<B>) | Failed(code: C)

  /** Items decoded, bytes they took, and how decoding stopped. */
  datatype Outcome<B, F, C> = Outcome(items: seq<F>, used: nat, end: End<B, C>)

  /** Every decoded item takes some of the bytes in front of it. */
  ghost predicate Progress<B(!new), F(!new), C(!new)>(step: seq<B> -> Step<F, C>) {
    forall b: seq<B> :: step(b).Got? ==> 0 < step(b).size <= |b|
  }

  /** A decision once taken does not depend on bytes that arrive later. */
  ghost predicate Stable<B(!new), F(!new), C(!new)>(step: seq<B> -> Step<F, C>) {
    forall a: seq<B>, b: seq<B> {:trigger step(a + b)} :: !step(a).Wait? ==> step(a + b) == step(a)
  }

  /** Decodes until the buffer waits for more bytes or is refused. */
  ghost function Drain<B(!new), F(!new), C(!new)>(step: seq<B> -> Step<F, C>, buf: seq<B>): (o: Outcome<B, F, C>)
    requires Progress(step)
    ensures o.used <= |buf|
    ensures o.end.Waiting? ==> o.end.rest == buf[o.used..]
    decreases |buf|
  {
    match step(buf)
    case Wait => Outcome([], 0, Waiting(buf))
    case Refuse(code) => Outcome([], 0, Failed(code))
    case Got(item, size) =>
      var later := Drain(step, buf[size..]);
      assert buf[size..][later.used..] == buf[size + later.used..];
      Prepend(item, size, later)
  }

  /** More bytes continue where an earlier drain stopped. */
  ghost function Continue<B(!new), F(!new), C(!new)>(step: seq<B> -> Step<F, C>, o: Outcome<B, F, C>, more: seq<B>): Outcome<B, F, C>
    requires Progress(step)
  {
    if o.end.Failed? then o
    else
      var later := Drain(step, o.end.rest + more);
      Outcome(o.items + later.items, o.used + later.used, later.end)
  }

  /** Draining leaves nothing that could be decoded. */
  lemma {:induction false} DrainedWaits<B(!new), F(!new), C(!new)>(step: seq<B> -> Step<F, C>, buf: seq<B>)
    requires Progress(step) && Drain(step, buf).end.Waiting?
    ensures step(Drain(step, buf).end.rest).Wait?
    decreases |buf|
  {
    if step(buf).Got? {
      DrainedWaits(step, buf[step(buf).size..]);
    }
  }

  /** The outcome of decoding one item and then whatever o decoded. */
  function Prepend<B, F, C>(item: F, size: nat, o: Outcome<B, F, C>): Outcome<B, F, C> {
    Outcome([item] + o.items, size + o.used, o.end)
  }

  function PrependAll<B, F, C>(items: seq<F>, size: nat, o: Outcome<B, F, C>): Outcome<B, F, C> {
    Outcome(items + o.items, size + o.used, o.end)
  }

  lemma PrependOnePlus<B, F, C>(items: seq<F>, size: nat, more: nat, o: Outcome<B, F, C>)
    requires items != []
    ensures Prepend(items[0], size, PrependAll(items[1..], more, o)) == PrependAll(items, size + more, o)
  {
    assert [items[0]] + (items[1..] + o.items) == items + o.items;
  }

  lemma ContinuePrepend<B(!new), F(!new), C(!new)>(
    step: seq<B> -> Step<F, C>, item: F, size: nat, o: Outcome<B, F, C>, more: seq<B>)
    requires Progress(step)
    ensures Continue(step, Prepend(item, size, o), more) == Prepend(item, size, Continue(step, o, more))
  {
    if o.end.Waiting? {
      var later := Drain(step, o.end.rest + more);
      assert ([item] + o.items) + later.items == [item] + (o.items + later.items);
    }
  }

  lemma DrainGot<B(!new), F(!new), C(!new)>(step: seq<B> -> Step<F, C>, buf: seq<B>, item: F, size: nat)
    requires Progress(step) && step(buf) == Got(item, size)
    ensures size <= |buf| && Drain(step, buf) == Prepend(item, size, Drain(step, buf[size..]))
  {
  }

  lemma {:induction false} DrainAppend<B(!new), F(!new), C(!new)>(step: seq<B> -> Step<F, C>, a: seq<B>, b: seq<B>)
    requires Progress(step) && Stable(step)
    ensures Drain(step, a + b) == Continue(step, Drain(step, a), b)
    decreases |a|
  {
    match step(a)
    case Got(item, size) =>
      assert step(a + b) == Got(item, size);
      DrainGot(step, a, item, size);
      DrainGot(step, a + b, item, size);
      assert (a + b)[size..] == a[size..] + b;
      DrainAppend(step, a[size..], b);
      ContinuePrepend(step, item, size, Drain(step, a[size..]), b);
    case Refuse(code) =>
      assert step(a + b) == Refuse(code);
    case Wait =>
      assert [] + Drain(step, a + b).items == Drain(step, a + b).items;
  }

  // ---- draining what an encoder wrote ---------------------------------------

  function EncodeAll<B, F>(enc: F -> seq<B>, items: seq<F>): seq<B> {
    if items == [] then [] else enc(items[0]) + EncodeAll(enc, items[1..])
  }

  lemma EncodeAllCons<B, F>(enc: F -> seq<B>, items: seq<F>, tail: seq<B>)
    requires items != []
    ensures EncodeAll(enc, items) + tail == enc(items[0]) + (EncodeAll(enc, items[1..]) + tail)
    ensures |EncodeAll(enc, items)| == |enc(items[0])| + |EncodeAll(enc, items[1..])|
  {
  }

  /** The step decodes the encoding of an item in front of anything. */
  ghost predicate Inverts<B(!new), F(!new), C(!new)>(step: seq<B> -> Step<F, C>, enc: F -> seq<B>, item: F) {
    forall tail: seq<B> {:trigger enc(item) + tail} :: step(enc(item) + tail) == Got(item, |enc(item)|)
  }

  ghost predicate AllInvert<B(!new), F(!new), C(!new)>(
    step: seq<B> -> Step<F, C>, enc: F -> seq<B>, items: seq<F>)
    decreases |items|
  {
    items == [] || (Inverts(step, enc, items[0]) && AllInvert(step, enc, items[1..]))
  }

  lemma DrainOneEncoded<B(!new), F(!new), C(!new)>(
    step: seq<B> -> Step<F, C>, enc: F -> seq<B>, item: F, rest: seq<B>)
    requires Progress(step) && Inverts(step, enc, item)
    ensures Drain(step, enc(item) + rest) == Prepend(item, |enc(item)|, Drain(step, rest))
  {
    DrainGot(step, enc(item) + rest, item, |enc(item)|);
    assert (enc(item) + rest)[|enc(item)|..] == rest;
  }

  /** Encoded items come back in order, followed by whatever the tail holds. */
  lemma {:induction false} DrainEncoded<B(!new), F(!new), C(!new)>(
    step: seq<B> -> Step<F, C>, enc: F -> seq<B>, items: seq<F>, tail: seq<B>)
    requires Progress(step) && AllInvert(step, enc, items)
    ensures Drain(step, EncodeAll(enc, items) + tail) == PrependAll(items, |EncodeAll(enc, items)|, Drain(step, tail))
    decreases |items|
  {
    if items == [] {
      assert EncodeAll(enc, items) + tail == tail;
      assert items + Drain(step, tail).items == Drain(step, tail).items;
    } else {
      var first, later := enc(items[0]), EncodeAll(enc, items[1..]);
      DrainEncoded(step, enc, items[1..], tail);
      DrainOneEncoded(step, enc, items[0], later + tail);
      EncodeAllCons(enc, items, tail);
      PrependOnePlus(items, |first|, |later|, Drain(step, tail));
    }
  }

  /** Every decoded item is one the encoder could have written there. */
  ghost predicate Faithful<B(!new), F(!new), C(!new)>(step: seq<B> -> Step<F, C>, enc: F -> seq<B>, legal: F -> bool) {
    forall b: seq<B> :: step(b).Got? ==>
      step(b).size <= |b| && enc(step(b).item) == b[..step(b).size] && legal(step(b).item)
  }

  lemma SplitTake<B>(b: seq<B>, m: nat, n: nat)
    requires m + n <= |b|
    ensures b[..m] + b[m..][..n] == b[..m + n]
  {
  }

  lemma EncodeAllPrepend<B, F>(enc: F -> seq<B>, item: F, items: seq<F>)
    ensures EncodeAll(enc, [item] + items) == enc(item) + EncodeAll(enc, items)
  {
    assert ([item] + items)[1..] == items;
  }

  /** On any bytes, re-encoding what was decoded reproduces the bytes used. */
  lemma {:induction false} DrainFaithful<B(!new), F(!new), C(!new)>(
    step: seq<B> -> Step<F, C>, enc: F -> seq<B>, legal: F -> bool, buf: seq<B>)
    requires Progress(step) && Faithful(step, enc, legal)
    ensures var o := Drain(step, buf);
            && EncodeAll(enc, o.items) == buf[..o.used]
            && forall i :: 0 <= i < |o.items| ==> legal(o.items[i])
    decreases |buf|
  {
    match step(buf)
    case Got(item, size) =>
      DrainGot(step, buf, item, size);
      DrainFaithful(step, enc, legal, buf[size..]);
      var later := Drain(step, buf[size..]);
      EncodeAllPrepend(enc, item, later.items);
      SplitTake(buf, size, later.used);
    case Refuse(code) =>
    case Wait =>
  }

  // ---- feeding a bounded buffer chunk by chunk ------------------------------

  function Flatten<B>(chunks: seq<seq<B>>): seq<B> {
    if chunks == [] then [] else chunks[0] + Flatten(chunks[1..])
  }

  /** One push into a buffer of the given bound, then draining. */
  ghost function Receive<B(!new), F(!new), C(!new)>(
    step: seq<B> -> Step<F, C>, overflow: C, bound: nat, o: Outcome<B, F, C>, chunk: seq<B>): Outcome<B, F, C>
    requires Progress(step)
  {
    if o.end.Failed? || chunk == [] then o
    else if |o.end.rest| + |chunk| > bound then o.(end := Failed(overflow))
    else Continue(step, o, chunk)
  }

  ghost function ReceiveAll<B(!new), F(!new), C(!new)>(
    step: seq<B> -> Step<F, C>, overflow: C, bound: nat, o: Outcome<B, F, C>, chunks: seq<seq<B>>): Outcome<B, F, C>
    requires Progress(step)
    decreases |chunks|
  {
    if chunks == [] then o
    else ReceiveAll(step, overflow, bound, Receive(step, overflow, bound, o, chunks[0]), chunks[1..])
  }

  /** Every push stays within the buffer bound. */
  ghost predicate Fits<B(!new), F(!new), C(!new)>(
    step: seq<B> -> Step<F, C>, overflow: C, bound: nat, o: Outcome<B, F, C>, chunks: seq<seq<B>>)
    requires Progress(step)
    decreases |chunks|
  {
    chunks != [] ==>
      && (o.end.Waiting? && chunks[0] != [] ==> |o.end.rest| + |chunks[0]| <= bound)
      && Fits(step, overflow, bound, Receive(step, overflow, bound, o, chunks[0]), chunks[1..])
  }

  lemma ReceiveOne<B(!new), F(!new), C(!new)>(
    step: seq<B> -> Step<F, C>, overflow: C, bound: nat, seen: seq<B>, chunk: seq<B>)
    requires Progress(step) && Stable(step)
    requires Drain(step, seen).end.Waiting? && chunk != [] ==> |Drain(step, seen).end.rest| + |chunk| <= bound
    ensures Receive(step, overflow, bound, Drain(step, seen), chunk) == Drain(step, seen + chunk)
  {
    DrainAppend(step, seen, chunk);
    if chunk == [] {
      assert seen + chunk == seen;
    }
  }

  lemma {:induction false} ReceiveExtends<B(!new), F(!new), C(!new)>(
    step: seq<B> -> Step<F, C>, overflow: C, bound: nat, seen: seq<B>, chunks: seq<seq<B>>)
    requires Progress(step) && Stable(step)
    requires Fits(step, overflow, bound, Drain(step, seen), chunks)
    ensures ReceiveAll(step, overflow, bound, Drain(step, seen), chunks) == Drain(step, seen + Flatten(chunks))
    decreases |chunks|
  {
    if chunks == [] {
      assert seen + Flatten(chunks) == seen;
    } else {
      ReceiveOne(step, overflow, bound, seen, chunks[0]);
      ReceiveExtends(step, overflow, bound, seen + chunks[0], chunks[1..]);
      assert (seen + chunks[0]) + Flatten(chunks[1..]) == seen + Flatten(chunks);
    }
  }

  /** A receiver that pushes one byte at a time never hits the bound, when a
      waiting buffer is always below it. */
  lemma {:induction false} SingleBytesFit<B(!new), F(!new), C(!new)>(
    step: seq<B> -> Step<F, C>, overflow: C, bound: nat, o: Outcome<B, F, C>, chunks: seq<seq<B>>)
    requires Progress(step)
    requires forall b: seq<B> :: step(b).Wait? ==> |b| < bound
    requires o.end.Waiting? ==> |o.end.rest| < bound
    requires forall i :: 0 <= i < |chunks| ==> |chunks[i]| <= 1
    ensures Fits(step, overflow, bound, o, chunks)
    decreases |chunks|
  {
    if chunks != [] {
      SingleBytesFit(step, overflow, bound, Receive(step, overflow, bound, o, chunks[0]), chunks[1..]);
    }
  }
}
