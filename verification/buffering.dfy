/** The per-channel sample buffer written by `on_data` (mona_sl_client.py and
    retrieve_data.py): the staleness guard, the channel key and the halving trim.
    The buffer directory is a map from channel key to the stored samples; a key
    that is absent stands for a missing buffer file. */
module Buffering {
  import opened Wrappers
  import opened Strings

  /** One stored row: the sample time (seconds) and the sample value. */
  datatype Sample = Sample(time: int, value: real)

  /** A trace as delivered by the SeedLink client: its stream identity, its
      start time (seconds) and its samples in time order. */
  datatype Trace = Trace(network: string, station: string, location: string, channel: string,
                         startTime: int, samples: seq<Sample>)

  /** A trace starting more than this many seconds before "now" is too old. */
  const MaxAge: int := 300

  /** The fixed buffer threshold of retrieve_data.py. */
  const FixedCapacity: int := 4500

  predicate IsFresh(now: int, startTime: int)
  {
    now - startTime <= MaxAge
  }

  /** The buffer file name of a channel. An empty location gives `NET.STA..CHA`:
      both branches of the source's location test produce the dot-join of the
      four fields. */
  function ChannelKey(net: string, sta: string, loc: string, cha: string): string
  {
    if loc == "" then net + "." + sta + ".." + cha
    else net + "." + sta + "." + loc + "." + cha
  }

  function KeyOf(tr: Trace): string
  {
    ChannelKey(tr.network, tr.station, tr.location, tr.channel)
  }

  /** Whatever the location, the key is the dot-join of the four fields. */
  lemma ChannelKeyIsJoin(net: string, sta: string, loc: string, cha: string)
    ensures ChannelKey(net, sta, loc, cha) == Join([net, sta, loc, cha], '.')
  {
    var parts := [net, sta, loc, cha];
    assert parts[1..] == [sta, loc, cha];
    assert parts[1..][1..] == [loc, cha];
    assert parts[1..][1..][1..] == [cha];
    assert Join([loc, cha], '.') == loc + "." + cha;
    assert Join([sta, loc, cha], '.') == sta + "." + loc + "." + cha;
    assert Join(parts, '.') == net + "." + sta + "." + loc + "." + cha;
  }

  /** A key built from dot-free fields splits back into those fields, so an
      empty location shows up as an empty third field. */
  lemma ChannelKeySplits(net: string, sta: string, loc: string, cha: string)
    requires '.' !in net && '.' !in sta && '.' !in loc && '.' !in cha
    ensures Split(ChannelKey(net, sta, loc, cha), '.') == [net, sta, loc, cha]
  {
    ChannelKeyIsJoin(net, sta, loc, cha);
    SplitJoin([net, sta, loc, cha], '.');
  }

  /** Python's `round(m / 2)`: halves are rounded to the even neighbour. */
  function RoundHalf(m: int): (r: int)
    ensures m % 2 == 0 ==> 2 * r == m
    ensures m % 2 != 0 ==> (2 * r == m - 1 || 2 * r == m + 1) && r % 2 == 0
  {
    if m % 2 == 0 then m / 2
    else if (m / 2) % 2 == 0 then m / 2
    else m / 2 + 1
  }

  /** How many of `n` stored samples survive `data[round(-n / 2):]`: half of
      them, an odd count rounded to the even neighbour of n/2; a single sample
      survives whole because the slice start is then `-0`. */
  function KeptAfterTrim(n: nat): (k: nat)
    ensures k <= n
    ensures n <= 1 ==> k == n
    ensures n >= 2 && n % 2 == 0 ==> 2 * k == n
    ensures n >= 2 && n % 2 == 1 ==> (2 * k == n - 1 || 2 * k == n + 1) && k % 2 == 0
  {
    var start := RoundHalf(0 - n as int);
    if start == 0 then n else -start
  }

  /** The new content of a channel's buffer file after receiving `batch`:
      `stored` is the current file content, or None when the file is missing. */
  function UpdateBuffer(stored: Option<seq<Sample>>, batch: seq<Sample>, capacity: int): (r: seq<Sample>)
    ensures |batch| <= |r| && r[|r| - |batch|..] == batch
    ensures stored.None? ==> r == batch
    ensures stored.Some? && |stored.value| <= capacity ==> r == stored.value + batch
    ensures stored.Some? && |stored.value| > capacity ==>
              var n := |stored.value|;
              r == stored.value[n - KeptAfterTrim(n)..] + batch
  {
    match stored
    case None => batch
    case Some(prev) =>
      if |prev| <= capacity then prev + batch
      else From(prev, RoundHalf(-|prev|)) + batch
  }

  /** The trim keeps the buffer bounded when batches are smaller than the
      capacity: with batches of at most `maxBatch` samples, a buffer of at most
      `capacity + maxBatch` samples stays within that bound. (It is not bounded
      by `capacity` itself, since the test happens before the append.) */
  lemma StaysBounded(stored: seq<Sample>, batch: seq<Sample>, capacity: int, maxBatch: nat)
    requires |batch| <= maxBatch < capacity
    requires |stored| <= capacity + maxBatch
    ensures |UpdateBuffer(Some(stored), batch, capacity)| <= capacity + maxBatch
  {
    var n := |stored|;
    if n > capacity {
      var k := KeptAfterTrim(n);
      assert 2 * k <= n + 1;
      assert k <= capacity;
    }
  }

  /** What `on_data` did with a trace. `TraceMissing` stands for the
      AttributeError raised when `tr` is None (the staleness test of the
      `elif` reads `tr.stats`). */
  datatype OnDataOutcome = Written(key: string) | TooOld | TraceMissing

  datatype Ingested = Ingested(buffers: map<string, seq<Sample>>, outcome: OnDataOutcome)

  function Lookup(buffers: map<string, seq<Sample>>, key: string): Option<seq<Sample>>
  {
    if key in buffers then Some(buffers[key]) else None
  }

  /** `on_data(tr)` with the clock reading `now`: a fresh trace rewrites exactly
      its own channel's buffer, a stale or missing one changes nothing. */
  function Ingest(buffers: map<string, seq<Sample>>, tr: Option<Trace>, now: int, capacity: int): (r: Ingested)
    ensures tr.None? ==> r == Ingested(buffers, TraceMissing)
    ensures tr.Some? && !IsFresh(now, tr.value.startTime) ==> r == Ingested(buffers, TooOld)
    ensures tr.Some? && IsFresh(now, tr.value.startTime) ==>
              var key := KeyOf(tr.value);
              && r.outcome == Written(key)
              && r.buffers.Keys == buffers.Keys + {key}
              && r.buffers[key] == UpdateBuffer(Lookup(buffers, key), tr.value.samples, capacity)
              && (forall k :: k in buffers && k != key ==> r.buffers[k] == buffers[k])
  {
    match tr
    case None => Ingested(buffers, TraceMissing)
    case Some(t) =>
      if IsFresh(now, t.startTime) then
        var key := KeyOf(t);
        Ingested(buffers[key := UpdateBuffer(Lookup(buffers, key), t.samples, capacity)], Written(key))
      else Ingested(buffers, TooOld)
  }
}
