/** The search in `main` for the moments at which pressing New Game gives the
    target seed: the six hundred seconds after a whole-second start time, each
    keyed and mixed with the mystery byte. */
module Window {
  import opened Bits
  import opened SeedHash
  import opened Calendar
  import opened TimestampKey

  /** `range(600)`: how many seconds the search looks ahead. */
  const WindowSeconds: nat := 600

  /** What a scan has recorded after its first n steps, where step i stands at
      second secs[i] and flags[i] says whether its test passed: the seconds of
      the passing steps, in step order. */
  function Recorded(secs: seq<Timestamp>, flags: seq<bool>, n: nat): (r: seq<Timestamp>)
    requires n <= |secs| && n <= |flags|
    ensures |r| <= n
  {
    if n == 0 then []
    else Recorded(secs, flags, n - 1) + (if flags[n - 1] then [secs[n - 1]] else [])
  }

  /** Every recorded second is the second of a passing step. */
  lemma {:induction false} RecordedSound(secs: seq<Timestamp>, flags: seq<bool>, n: nat, k: nat)
    requires n <= |secs| && n <= |flags| && k < |Recorded(secs, flags, n)|
    ensures exists i :: 0 <= i < n && flags[i] && Recorded(secs, flags, n)[k] == secs[i]
    decreases n
  {
    var prev := Recorded(secs, flags, n - 1);
    if k < |prev| {
      RecordedSound(secs, flags, n - 1, k);
      var i :| 0 <= i < n - 1 && flags[i] && prev[k] == secs[i];
      assert Recorded(secs, flags, n)[k] == secs[i];
    } else {
      assert flags[n - 1] && Recorded(secs, flags, n)[k] == secs[n - 1];
    }
  }

  /** The second of every passing step is recorded. */
  lemma {:induction false} RecordedComplete(secs: seq<Timestamp>, flags: seq<bool>, n: nat, i: nat)
    requires n <= |secs| && n <= |flags| && i < n && flags[i]
    ensures secs[i] in Recorded(secs, flags, n)
    decreases n
  {
    if i < n - 1 {
      RecordedComplete(secs, flags, n - 1, i);
    }
  }

  /** Over seconds in chronological order, the record is in chronological order. */
  lemma {:induction false} RecordedIncreasing(secs: seq<Timestamp>, flags: seq<bool>, n: nat)
    requires n <= |secs| && n <= |flags|
    requires forall i, j :: 0 <= i < j < n ==> Before(secs[i], secs[j])
    ensures forall j, k :: 0 <= j < k < |Recorded(secs, flags, n)| ==>
      Before(Recorded(secs, flags, n)[j], Recorded(secs, flags, n)[k])
    decreases n
  {
    if n > 0 {
      RecordedIncreasing(secs, flags, n - 1);
      var prev := Recorded(secs, flags, n - 1);
      var r := Recorded(secs, flags, n);
      if flags[n - 1] {
        assert r == prev + [secs[n - 1]];
        forall j, k | 0 <= j < k < |r|
          ensures Before(r[j], r[k])
        {
          assert r[j] == prev[j];
          if k < |prev| {
            assert r[k] == prev[k];
          } else {
            RecordedSound(secs, flags, n - 1, j);
          }
        }
      }
    }
  }

  /** Nothing is recorded exactly when no step passed. */
  lemma RecordedEmpty(secs: seq<Timestamp>, flags: seq<bool>, n: nat)
    requires n <= |secs| && n <= |flags|
    ensures |Recorded(secs, flags, n)| == 0 <==> forall i :: 0 <= i < n ==> !flags[i]
  {
    if |Recorded(secs, flags, n)| == 0 {
      forall i | 0 <= i < n
        ensures !flags[i]
      {
        if flags[i] {
          RecordedComplete(secs, flags, n, i);
        }
      }
    } else {
      RecordedSound(secs, flags, n, 0);
    }
  }

  /** The seconds start, start + 1s, ..., start + (n - 1)s. */
  function Seconds(start: Timestamp, n: nat): (r: seq<Timestamp>)
    requires Valid(start)
    ensures |r| == n
    ensures forall i :: 0 <= i < n ==> r[i] == Advance(start, i)
  {
    seq(n, i requires 0 <= i < n => Advance(start, i))
  }

  /** The seconds of the window are in chronological order. */
  lemma SecondsIncreasing(start: Timestamp, n: nat)
    requires Valid(start)
    ensures forall i, j :: 0 <= i < j < n ==> Before(Seconds(start, n)[i], Seconds(start, n)[j])
  {
    forall i, j | 0 <= i < j < n
      ensures Before(Seconds(start, n)[i], Seconds(start, n)[j])
    {
      AdvanceIncreasing(start, i, j);
    }
  }

  /** At second t the game would derive the target seed from the mystery byte. */
  predicate Hits(t: Timestamp, mysteryByte: nat, target: int)
    requires HasKey(t)
  {
    DatetimeToSeed(Xor(Key(t), mysteryByte)) == target
  }

  /** Seconds after a keyed start, and the seconds after those, are keyed too. */
  lemma AdvanceHasKey(start: Timestamp, n: nat)
    requires HasKey(start)
    ensures HasKey(Advance(start, n)) && HasKey(AddSecond(Advance(start, n)))
  {
  }

  /** Flag i: whether the second after start + is, the one the loop steps to,
      hits the target. */
  function HitFlags(start: Timestamp, mysteryByte: nat, target: int, n: nat): (r: seq<bool>)
    requires HasKey(start)
    ensures |r| == n
  {
    seq(n, i requires 0 <= i < n => Hits(AddSecond(Advance(start, i)), mysteryByte, target))
  }

  /** The loop of `main`: step one second at a time and, when the stepped-to
      second hits the target, record the second before it. */
  method Search(start: Timestamp, mysteryByte: nat, target: int) returns (times: seq<Timestamp>)
    requires HasKey(start)
    ensures times == Recorded(Seconds(start, WindowSeconds), HitFlags(start, mysteryByte, target, WindowSeconds), WindowSeconds)
  {
    ghost var secs := Seconds(start, WindowSeconds);
    ghost var flags := HitFlags(start, mysteryByte, target, WindowSeconds);
    var dt := start;
    times := [];
    for n := 0 to WindowSeconds
      invariant dt == Advance(start, n)
      invariant times == Recorded(secs, flags, n)
    {
      AdvanceHasKey(start, n);
      dt := AddSecond(dt);
      var xoredDatetime := Xor(Key(dt), mysteryByte);
      if target == DatetimeToSeed(xoredDatetime) {
        SubSecondAfterAddSecond(Advance(start, n));
        var dtReal := SubSecond(dt);
        times := times + [dtReal];
      }
      assert dt == Advance(start, n + 1);
    }
  }

  /** Every recorded second t lies in the window [start, start + 599s], and the
      key of t + 1s mixed with the byte hashes to the target. */
  lemma SearchSound(start: Timestamp, mysteryByte: nat, target: int, k: nat)
    requires HasKey(start)
    requires k < |Recorded(Seconds(start, WindowSeconds), HitFlags(start, mysteryByte, target, WindowSeconds), WindowSeconds)|
    ensures var t := Recorded(Seconds(start, WindowSeconds), HitFlags(start, mysteryByte, target, WindowSeconds), WindowSeconds)[k];
      && (exists i :: 0 <= i < WindowSeconds && t == Advance(start, i))
      && HasKey(AddSecond(t)) && Hits(AddSecond(t), mysteryByte, target)
  {
    var secs := Seconds(start, WindowSeconds);
    var flags := HitFlags(start, mysteryByte, target, WindowSeconds);
    RecordedSound(secs, flags, WindowSeconds, k);
    var i :| 0 <= i < WindowSeconds && flags[i] && Recorded(secs, flags, WindowSeconds)[k] == secs[i];
    assert secs[i] == Advance(start, i);
  }

  /** Every second t of the window [start, start + 599s] whose next second hits
      the target is recorded. */
  lemma SearchComplete(start: Timestamp, mysteryByte: nat, target: int, i: nat)
    requires HasKey(start) && i < WindowSeconds
    requires HasKey(AddSecond(Advance(start, i))) && Hits(AddSecond(Advance(start, i)), mysteryByte, target)
    ensures Advance(start, i) in
      Recorded(Seconds(start, WindowSeconds), HitFlags(start, mysteryByte, target, WindowSeconds), WindowSeconds)
  {
    RecordedComplete(Seconds(start, WindowSeconds), HitFlags(start, mysteryByte, target, WindowSeconds), WindowSeconds, i);
  }

  /** The seconds are offered in chronological order. */
  lemma SearchIncreasing(start: Timestamp, mysteryByte: nat, target: int)
    requires HasKey(start)
    ensures var times := Recorded(Seconds(start, WindowSeconds), HitFlags(start, mysteryByte, target, WindowSeconds), WindowSeconds);
      forall j, k :: 0 <= j < k < |times| ==> Before(times[j], times[k])
  {
    SecondsIncreasing(start, WindowSeconds);
    RecordedIncreasing(Seconds(start, WindowSeconds), HitFlags(start, mysteryByte, target, WindowSeconds), WindowSeconds);
  }

  /** The search comes back empty, the "impossible with this byte" outcome,
      exactly when no second of the window is followed by one that hits the
      target: an empty result means no such second, and any such second makes
      the result non-empty. */
  lemma SearchEmpty(start: Timestamp, mysteryByte: nat, target: int)
    requires HasKey(start)
    ensures |Recorded(Seconds(start, WindowSeconds), HitFlags(start, mysteryByte, target, WindowSeconds), WindowSeconds)| == 0 ==>
      forall i :: 0 <= i < WindowSeconds ==> !Hits(AddSecond(Advance(start, i)), mysteryByte, target)
    ensures forall i :: 0 <= i < WindowSeconds && Hits(AddSecond(Advance(start, i)), mysteryByte, target) ==>
      |Recorded(Seconds(start, WindowSeconds), HitFlags(start, mysteryByte, target, WindowSeconds), WindowSeconds)| > 0
  {
    var secs := Seconds(start, WindowSeconds);
    var flags := HitFlags(start, mysteryByte, target, WindowSeconds);
    RecordedEmpty(secs, flags, WindowSeconds);
    forall i | 0 <= i < WindowSeconds && Hits(AddSecond(Advance(start, i)), mysteryByte, target)
      ensures |Recorded(secs, flags, WindowSeconds)| > 0
    {
      assert flags[i];
    }
  }
}
