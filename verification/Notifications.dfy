/** Notification channels: non-blocking sends into a bounded buffer with a concurrent
    reader. */
module Notifications {

  /** `received` is what the reader has taken so far, in order. */
  datatype Channel<T> = Channel(capacity: nat, buffer: seq<T>, received: seq<T>, dropped: nat)

  /** A send that never waits: to a waiting reader, else into free buffer space, else
      nowhere.  A reader waits only on an empty buffer. */
  function Offer<T>(ch: Channel<T>, item: T, waiting: bool): Channel<T> {
    if waiting && ch.buffer == [] then ch.(received := ch.received + [item])
    else if |ch.buffer| < ch.capacity then ch.(buffer := ch.buffer + [item])
    else ch.(dropped := ch.dropped + 1)
  }

  function Read<T>(ch: Channel<T>): Channel<T>
    requires ch.buffer != []
  {
    ch.(received := ch.received + [ch.buffer[0]], buffer := ch.buffer[1..])
  }

  /** `a` can be read off `b` in order. */
  predicate Subsequence<T(==)>(a: seq<T>, b: seq<T>) {
    if a == [] then true
    else if b == [] then false
    else if a[|a| - 1] == b[|b| - 1] then Subsequence(a[..|a| - 1], b[..|b| - 1])
    else Subsequence(a, b[..|b| - 1])
  }

  lemma {:induction false} SubsequenceInit<T>(a: seq<T>, b: seq<T>)
    requires a != [] && Subsequence(a, b)
    ensures Subsequence(a[..|a| - 1], b)
  {
    var a', b' := a[..|a| - 1], b[..|b| - 1];
    if a' != [] {
      if a[|a| - 1] == b[|b| - 1] {
        if a'[|a'| - 1] == b[|b| - 1] {
          SubsequenceInit(a', b');
        }
      } else {
        SubsequenceInit(a, b');
        if a'[|a'| - 1] == b[|b| - 1] {
          SubsequenceInit(a', b');
        }
      }
    }
  }

  lemma SubsequenceSkip<T>(a: seq<T>, b: seq<T>, x: T)
    requires Subsequence(a, b)
    ensures Subsequence(a, b + [x])
  {
    assert (b + [x])[..|b|] == b;
    if a != [] {
      SubsequenceInit(a, b);
    }
  }

  lemma SubsequenceTake<T>(a: seq<T>, b: seq<T>, x: T)
    requires Subsequence(a, b)
    ensures Subsequence(a + [x], b + [x])
  {
    assert (a + [x])[..|a|] == a && (b + [x])[..|b|] == b;
  }

  /** What holds of a channel given everything ever offered to it. */
  predicate Sound<T(==)>(ch: Channel<T>, offered: seq<T>) {
    && |ch.buffer| <= ch.capacity
    && Subsequence(ch.received + ch.buffer, offered)
    && |ch.received| + |ch.buffer| + ch.dropped == |offered|
  }

  lemma OfferKeepsSound<T>(ch: Channel<T>, offered: seq<T>, item: T, waiting: bool)
    requires Sound(ch, offered)
    ensures Sound(Offer(ch, item, waiting), offered + [item])
    ensures Offer(ch, item, waiting).dropped > ch.dropped
      <==> |ch.buffer| == ch.capacity && !(waiting && ch.buffer == [])
    ensures var after := Offer(ch, item, waiting);
      && after.capacity == ch.capacity
      && after.received + after.buffer
        == ch.received + ch.buffer + (if after.dropped == ch.dropped then [item] else [])
      && after.received == (if waiting && ch.buffer == [] then ch.received + [item] else ch.received)
  {
    var sent := ch.received + ch.buffer;
    SubsequenceTake(sent, offered, item);
    SubsequenceSkip(sent, offered, item);
    var after := Offer(ch, item, waiting);
    if after.dropped == ch.dropped {
      assert after.received + after.buffer == sent + [item];
    }
  }

  lemma ReadKeepsSound<T>(ch: Channel<T>, offered: seq<T>)
    requires Sound(ch, offered) && ch.buffer != []
    ensures Sound(Read(ch), offered)
    ensures Read(ch).received + Read(ch).buffer == ch.received + ch.buffer
    ensures |Read(ch).received| == |ch.received| + 1 && Read(ch).capacity == ch.capacity
  {
    assert Read(ch).received + Read(ch).buffer == ch.received + ch.buffer;
  }
}
