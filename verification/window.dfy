/** The rolling window of `RAOhmmeter` (`readings_buffer`) and
    `RAOhmmeter.rolling_average`.

    A Python `dict` keeps its keys unique and iterates them in insertion
    order, and assigning to an existing key keeps that key's position. The
    buffer is therefore modelled as a sequence of entries with distinct time
    stamps, in insertion order, to mirror the dict. With exact reals the sum
    of the values does not depend on that order. */
module Window {
  import opened Params
  import opened Arith
  import opened Wrappers

  /** One `readings_buffer[stamp] = resistance` entry. */
  datatype Entry = Entry(stamp: real, resistance: real)

  type Buffer = seq<Entry>

  /** No time stamp occurs twice, as in a dictionary. */
  predicate KeysUnique(b: Buffer)
  {
    b == [] || ((forall e :: e in b[1..] ==> e.stamp != b[0].stamp) && KeysUnique(b[1..]))
  }

  /** The buffer has an entry for time stamp `k`. */
  predicate HasKey(b: Buffer, k: real)
  {
    b != [] && (b[0].stamp == k || HasKey(b[1..], k))
  }

  /** `buffer[k] = v`: overwrite the entry for `k` in place, or append a
      new one. Afterwards the entry for `k` is `v`, every entry under
      another key is still there, nothing else was added, and keys stay
      unique. */
  function Put(b: Buffer, k: real, v: real): (r: Buffer)
    requires KeysUnique(b)
    ensures Entry(k, v) in r
    ensures forall e :: e in r ==> e == Entry(k, v) || (e in b && e.stamp != k)
    ensures forall e :: e in b && e.stamp != k ==> e in r
    ensures KeysUnique(r)
    ensures |r| == if HasKey(b, k) then |b| else |b| + 1
  {
    if b == [] then [Entry(k, v)]
    else if b[0].stamp == k then [Entry(k, v)] + b[1..]
    else [b[0]] + Put(b[1..], k, v)
  }

  /** Storing an entry that is already there changes nothing. */
  lemma {:induction false} PutPresent(b: Buffer, k: real, v: real)
    requires KeysUnique(b) && Entry(k, v) in b
    ensures Put(b, k, v) == b
  {
    if b[0].stamp != k {
      assert Entry(k, v) in b[1..];
      PutPresent(b[1..], k, v);
      assert [b[0]] + b[1..] == b;
    } else {
      assert forall e :: e in b ==> e == b[0] || e in b[1..];
      assert b[0] == Entry(k, v);
      assert [b[0]] + b[1..] == b;
    }
  }

  /** A reading taken at `key` is kept at time `t` unless it is older than
      `TInterval`, with the same tolerance as the loop guards. */
  predicate Retained(key: real, t: real)
  {
    !(key + TInterval < t - TError)
  }

  /** The retention invariant: every entry of the buffer is recent enough
      at time `t`. */
  predicate RetentionHolds(b: Buffer, t: real)
  {
    forall e :: e in b ==> Retained(e.stamp, t)
  }

  /** First half of `rolling_average`: delete the outdated entries.
      Exactly the entries retained at `t` survive, in their order. */
  function Purge(b: Buffer, t: real): (r: Buffer)
    ensures RetentionHolds(r, t)
    ensures forall e :: e in r <==> e in b && Retained(e.stamp, t)
    ensures KeysUnique(b) ==> KeysUnique(r)
    ensures |r| <= |b|
  {
    if b == [] then []
    else if Retained(b[0].stamp, t) then [b[0]] + Purge(b[1..], t)
    else Purge(b[1..], t)
  }

  /** Purging twice at the same time is purging once. */
  lemma {:induction false} PurgeIdempotent(b: Buffer, t: real)
    ensures Purge(Purge(b, t), t) == Purge(b, t)
  {
    if b != [] {
      PurgeIdempotent(b[1..], t);
      if Retained(b[0].stamp, t) {
        assert ([b[0]] + Purge(b[1..], t))[1..] == Purge(b[1..], t);
      }
    }
  }

  /** A purge at an earlier time followed by one at a later time is the
      later purge alone: what is outdated stays outdated. */
  lemma {:induction false} PurgeLater(b: Buffer, t1: real, t2: real)
    requires t1 <= t2
    ensures Purge(Purge(b, t1), t2) == Purge(b, t2)
  {
    if b != [] {
      PurgeLater(b[1..], t1, t2);
      if Retained(b[0].stamp, t1) {
        assert ([b[0]] + Purge(b[1..], t1))[1..] == Purge(b[1..], t1);
      }
    }
  }

  /** A buffer already satisfying the retention invariant loses nothing. */
  lemma {:induction false} PurgeKeepsRetained(b: Buffer, t: real)
    requires RetentionHolds(b, t)
    ensures Purge(b, t) == b
  {
    if b != [] {
      assert b[0] in b;
      assert forall e :: e in b[1..] ==> e in b;
      PurgeKeepsRetained(b[1..], t);
      assert [b[0]] + b[1..] == b;
    }
  }

  /** The entry stamped with the purge time itself always survives. */
  lemma {:induction false} PurgeKeepsCurrent(b: Buffer, t: real)
    ensures HasKey(b, t) ==> HasKey(Purge(b, t), t) && Purge(b, t) != []
  {
    if b != [] && b[0].stamp != t {
      PurgeKeepsCurrent(b[1..], t);
      if Retained(b[0].stamp, t) {
        assert ([b[0]] + Purge(b[1..], t))[1..] == Purge(b[1..], t);
      }
    }
  }

  /** `sum(buffer.values())`. Python adds from the left starting at 0; this
      adds from the right, which over exact reals gives the same value. */
  function Sum(b: Buffer): real
  {
    if b == [] then 0.0 else b[0].resistance + Sum(b[1..])
  }

  /** `x` added to itself `n` times; keeps the bounds below linear. */
  function Times(x: real, n: nat): real
  {
    if n == 0 then 0.0 else x + Times(x, n - 1)
  }

  lemma {:induction false} TimesIsProduct(x: real, n: nat)
    ensures Times(x, n) == x * n as real
  {
    if n > 0 {
      TimesIsProduct(x, n - 1);
      assert x * n as real == x * (n - 1) as real + x;
    }
  }

  /** If every value lies in `[lo, hi]` then the sum lies between `lo` and
      `hi` times the number of entries. */
  lemma {:induction false} SumBounds(b: Buffer, lo: real, hi: real)
    requires forall e :: e in b ==> lo <= e.resistance <= hi
    ensures Times(lo, |b|) <= Sum(b) <= Times(hi, |b|)
  {
    if b != [] {
      assert b[0] in b;
      assert forall e :: e in b[1..] ==> e in b;
      SumBounds(b[1..], lo, hi);
    }
  }

  /** `sum(values) / len(buffer)`; the caller must rule out the empty
      buffer, on which Python raises `ZeroDivisionError`. */
  function Mean(b: Buffer): (m: real)
    requires b != []
    ensures m * |b| as real == Sum(b)
  {
    var n := |b| as real;
    assert Sum(b) / n * n == Sum(b);
    Sum(b) / n
  }

  /** The average of readings all within `[lo, hi]` is within `[lo, hi]`;
      in particular a window of equal readings averages to that reading. */
  lemma MeanBounds(b: Buffer, lo: real, hi: real)
    requires b != []
    requires forall e :: e in b ==> lo <= e.resistance <= hi
    ensures lo <= Mean(b) <= hi
  {
    SumBounds(b, lo, hi);
    TimesIsProduct(lo, |b|);
    TimesIsProduct(hi, |b|);
    QuotientBounds(Sum(b), |b| as real, lo, hi);
  }

  lemma QuotientBounds(s: real, n: real, lo: real, hi: real)
    requires n > 0.0 && lo * n <= s <= hi * n
    ensures lo <= s / n <= hi
  {
    assert (s / n - lo) * n == s - lo * n;
    assert (hi - s / n) * n == hi * n - s;
    NonNegativeFactor(s / n - lo, n);
    NonNegativeFactor(hi - s / n, n);
  }

  /** The buffer after `rolling_average` and the value it returns; `None`
      when the purged buffer is empty and the division raises. */
  datatype Averaged = Averaged(buffer: Buffer, average: Option<real>)

  /** `rolling_average` at time `t`. The purge is kept even when the
      average cannot be taken. An entry stamped `t` is always retained, so
      a buffer holding one always yields an average. */
  function RollingAverage(b: Buffer, t: real): (r: Averaged)
    ensures r.buffer == Purge(b, t)
    ensures r.average.None? <==> r.buffer == []
    ensures HasKey(b, t) ==> r.average.Some?
    ensures r.average.Some? ==> r.buffer != [] && r.average.value == Mean(r.buffer)
  {
    var kept := Purge(b, t);
    PurgeKeepsCurrent(b, t);
    if kept == [] then Averaged(kept, None)
    else Averaged(kept, Some(Mean(kept)))
  }

  /** At 3 s with a 2 s window, the reading stamped 0 s is purged and the
      three later ones are kept. */
  lemma PurgeDropsOldest(a: real, b: real, c: real, d: real)
    ensures Purge([Entry(0.0, a), Entry(1.0, b), Entry(2.0, c), Entry(3.0, d)], 3.0)
            == [Entry(1.0, b), Entry(2.0, c), Entry(3.0, d)]
  {
    var tail := [Entry(1.0, b), Entry(2.0, c), Entry(3.0, d)];
    assert [Entry(0.0, a), Entry(1.0, b), Entry(2.0, c), Entry(3.0, d)][1..] == tail;
    PurgeKeepsRetained(tail, 3.0);
  }

  lemma SumOfThree(b: real, c: real, d: real)
    ensures Sum([Entry(1.0, b), Entry(2.0, c), Entry(3.0, d)]) == b + c + d
  {
    var kept := [Entry(1.0, b), Entry(2.0, c), Entry(3.0, d)];
    assert kept[1..] == [Entry(2.0, c), Entry(3.0, d)];
    assert kept[1..][1..] == [Entry(3.0, d)];
    assert Sum(kept[1..][1..]) == d;
    assert Sum(kept[1..]) == c + d;
  }

  /** Readings at 0, 1, 2 and 3 s with a 2 s window: at 3 s the first is
      purged (0 + 2 < 3 - `TError`) and the average is over the other
      three. */
  lemma FourSampleWindow(a: real, b: real, c: real, d: real)
    ensures RollingAverage([Entry(0.0, a), Entry(1.0, b), Entry(2.0, c), Entry(3.0, d)], 3.0)
            == Averaged([Entry(1.0, b), Entry(2.0, c), Entry(3.0, d)], Some((b + c + d) / 3.0))
  {
    var kept := [Entry(1.0, b), Entry(2.0, c), Entry(3.0, d)];
    var r := RollingAverage([Entry(0.0, a), Entry(1.0, b), Entry(2.0, c), Entry(3.0, d)], 3.0);
    PurgeDropsOldest(a, b, c, d);
    SumOfThree(b, c, d);
    assert r.buffer == kept;
    assert Mean(kept) * 3.0 == b + c + d;
  }
}
