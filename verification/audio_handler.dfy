/** The shared audio environment of the simulation: a list of frequency bins,
    at most one per FFT band, each holding the tones currently played in that
    band. Robots add tones through playTone; a maintenance sweep removes the
    tones that have ended and then the bins left empty.

    The FFT block size and sample rate are compile-time constants of the
    source that its headers do not show; they are parameters here. The pose
    of the playing robot and the wall-clock time (`time(NULL)`) are inputs. */
module AudioEnvironment {
  import opened Options
  import opened AudioBins

  // ---------------------------------------------------------------------
  // The table of band lower bounds and the choice of band for a frequency
  // ---------------------------------------------------------------------

  /** The lower bound of band `i`: `(i * sampleRate) / fftBlockSize`. */
  function BoundAt(i: int, sampleRate: int, fftBlockSize: int): (b: int)
    requires i >= 0 && sampleRate > 0 && fftBlockSize >= 2
    ensures b >= 0
    ensures i == 0 ==> b == 0
  {
    (i * sampleRate) / fftBlockSize
  }

  /** Higher bands start at higher (or equal) bounds. */
  lemma BoundsNonDecreasing(i: int, j: int, sampleRate: int, fftBlockSize: int)
    requires 0 <= i <= j && sampleRate > 0 && fftBlockSize >= 2
    ensures BoundAt(i, sampleRate, fftBlockSize) <= BoundAt(j, sampleRate, fftBlockSize)
  {
    assert j * sampleRate - i * sampleRate == (j - i) * sampleRate;
    assert (j - i) * sampleRate >= 0;
    DivMonotone(i * sampleRate, j * sampleRate, fftBlockSize);
  }

  /** Integer division by a positive number is monotone. */
  lemma DivMonotone(a: int, b: int, d: int)
    requires 0 <= a <= b && d > 0
    ensures a / d <= b / d
  {
    var qa := a / d;
    var qb := b / d;
    assert d * qa <= a;
    assert b < d * qb + d;
    assert d * (qb + 1) == d * qb + d;
    MulCancelLess(d, qa, qb + 1);
  }

  /** A positive factor can be cancelled from a strict inequality. */
  lemma MulCancelLess(d: int, x: int, y: int)
    requires d > 0 && d * x < d * y
    ensures x < y
  {
  }

  /** The highest band at or below `top` whose bound does not exceed `freq`. */
  function HighestBandAtMost(freq: int, sampleRate: int, fftBlockSize: int, top: int): (w: int)
    requires freq >= 0 && sampleRate > 0 && fftBlockSize >= 2 && top >= 0
    ensures 0 <= w <= top
    ensures BoundAt(w, sampleRate, fftBlockSize) <= freq
    ensures forall k :: w < k <= top ==> BoundAt(k, sampleRate, fftBlockSize) > freq
    decreases top
  {
    if top == 0 || BoundAt(top, sampleRate, fftBlockSize) <= freq then top
    else HighestBandAtMost(freq, sampleRate, fftBlockSize, top - 1)
  }

  /** The band playTone files a tone of frequency `freq` under: the last of
      the `fftBlockSize / 2` bands whose lower bound is at most `freq`. */
  function BandOf(freq: int, sampleRate: int, fftBlockSize: int): (w: int)
    requires freq >= 0 && sampleRate > 0 && fftBlockSize >= 2
    ensures 0 <= w < fftBlockSize / 2
    ensures BoundAt(w, sampleRate, fftBlockSize) <= freq
    ensures forall k :: w < k < fftBlockSize / 2 ==> BoundAt(k, sampleRate, fftBlockSize) > freq
  {
    HighestBandAtMost(freq, sampleRate, fftBlockSize, fftBlockSize / 2 - 1)
  }

  /** A higher frequency never falls into a lower band. */
  lemma BandOfMonotone(f1: int, f2: int, sampleRate: int, fftBlockSize: int)
    requires 0 <= f1 <= f2 && sampleRate > 0 && fftBlockSize >= 2
    ensures BandOf(f1, sampleRate, fftBlockSize) <= BandOf(f2, sampleRate, fftBlockSize)
  {
  }

  // ---------------------------------------------------------------------
  // The environment as a value, and what playTone and the sweep do to it
  // ---------------------------------------------------------------------

  /** One bin seen as a value: its key (the band's lower bound) and its tones. */
  datatype BinView = BinView(key: int, tones: seq<AudioTone>)

  /** No two bins share a key. */
  ghost predicate UniqueKeys(bins: seq<BinView>)
  {
    forall i, j :: 0 <= i < j < |bins| ==> bins[i].key != bins[j].key
  }

  /** Every bin holds at least one tone. */
  ghost predicate NoEmptyBin(bins: seq<BinView>)
  {
    forall i :: 0 <= i < |bins| ==> bins[i].tones != []
  }

  /** The set of keys of a list of bins. */
  ghost function Keys(bins: seq<BinView>): set<int>
  {
    set i | 0 <= i < |bins| :: bins[i].key
  }

  /** The position of the first bin keyed `key`, if any. */
  function FindKey(bins: seq<BinView>, key: int): (r: Option<nat>)
    ensures r.Some? ==> r.value < |bins| && bins[r.value].key == key
    ensures r.Some? ==> forall i :: 0 <= i < r.value ==> bins[i].key != key
    ensures r.None? <==> forall i :: 0 <= i < |bins| ==> bins[i].key != key
  {
    if bins == [] then None
    else if bins[0].key == key then Some(0)
    else match FindKey(bins[1..], key)
      case None => None
      case Some(i) => Some(i + 1)
  }

  /** The environment after a tone is filed under `key`: appended to the bin
      with that key if there is one, otherwise to a new bin at the tail. */
  function Emit(bins: seq<BinView>, key: int, tone: AudioTone): seq<BinView>
  {
    match FindKey(bins, key)
    case Some(i) => bins[i := BinView(key, bins[i].tones + [tone])]
    case None => bins + [BinView(key, [tone])]
  }

  /** The tones already filed under `key`. */
  function TonesUnder(bins: seq<BinView>, key: int): seq<AudioTone>
  {
    match FindKey(bins, key)
    case Some(i) => bins[i].tones
    case None => []
  }

  /** Filing a tone keeps keys unique and bins non-empty; afterwards a bin
      keyed `key` exists and holds the earlier tones of that key followed by
      the new tone. */
  lemma EmitKeepsEnvironmentWellFormed(bins: seq<BinView>, key: int, tone: AudioTone)
    requires UniqueKeys(bins) && NoEmptyBin(bins)
    ensures UniqueKeys(Emit(bins, key, tone)) && NoEmptyBin(Emit(bins, key, tone))
    ensures Keys(Emit(bins, key, tone)) == Keys(bins) + {key}
    ensures exists i :: 0 <= i < |Emit(bins, key, tone)|
              && Emit(bins, key, tone)[i] == BinView(key, TonesUnder(bins, key) + [tone])
  {
    var r := Emit(bins, key, tone);
    match FindKey(bins, key)
    case Some(i) =>
      assert r[i] == BinView(key, TonesUnder(bins, key) + [tone]);
      assert Keys(r) == Keys(bins) + {key} by {
        forall k | k in Keys(bins) + {key}
          ensures k in Keys(r)
        {
          if k != key {
            var m :| 0 <= m < |bins| && bins[m].key == k;
            assert r[m].key == k;
          }
        }
      }
    case None =>
      assert r[|bins|] == BinView(key, TonesUnder(bins, key) + [tone]);
      assert Keys(r) == Keys(bins) + {key} by {
        forall k | k in Keys(bins)
          ensures k in Keys(r)
        {
          var m :| 0 <= m < |bins| && bins[m].key == k;
          assert r[m].key == k;
        }
      }
  }

  /** A new bin is added exactly when no bin had the key, and it goes at the
      tail; every bin with another key stays where it was, unchanged. */
  lemma EmitChangesOnlyThatKey(bins: seq<BinView>, key: int, tone: AudioTone)
    ensures |Emit(bins, key, tone)| == |bins| + 1 <==> key !in Keys(bins)
    ensures |Emit(bins, key, tone)| == |bins| <==> key in Keys(bins)
    ensures forall i :: 0 <= i < |bins| && bins[i].key != key ==> Emit(bins, key, tone)[i] == bins[i]
  {
    if key in Keys(bins) {
      var m :| 0 <= m < |bins| && bins[m].key == key;
      assert FindKey(bins, key).Some?;
    }
  }

  /** The environment after one sweep at time `now`: every bin keeps only its
      tones that are still sounding, and a bin whose tones have all ended is
      removed. (A bin that was already empty is kept: updateList reports 0
      for it.) */
  function Sweep(bins: seq<BinView>, now: real): (r: seq<BinView>)
    ensures |r| <= |bins|
  {
    if bins == [] then []
    else
      var rest := Sweep(bins[..|bins| - 1], now);
      var last := bins[|bins| - 1];
      var live := Unexpired(last.tones, now);
      if last.tones != [] && live == [] then rest else rest + [BinView(last.key, live)]
  }

  /** One step of the sweep's walk: extending the swept prefix by one bin. */
  lemma SweepStep(bins: seq<BinView>, j: nat, now: real)
    requires j < |bins|
    ensures Sweep(bins[..j + 1], now)
         == Sweep(bins[..j], now)
            + (if bins[j].tones != [] && Unexpired(bins[j].tones, now) == [] then []
               else [BinView(bins[j].key, Unexpired(bins[j].tones, now))])
  {
    assert bins[..j + 1][..j] == bins[..j];
  }

  /** Part-way through the sweep the first `j` bins of `original` have been
      swept; sweeping a bin that none of whose tones still sounds removes it. */
  lemma SweepWalkRemove(original: seq<BinView>, j: nat, c: seq<BinView>, now: real)
    requires j < |original| && original[j].tones != [] && Unexpired(original[j].tones, now) == []
    requires c == Sweep(original[..j], now) + original[j..]
    ensures var i := |Sweep(original[..j], now)|;
            c[..i] + c[i + 1..] == Sweep(original[..j + 1], now) + original[j + 1..]
            && i == |Sweep(original[..j + 1], now)|
  {
    var done := Sweep(original[..j], now);
    var i := |done|;
    SweepStep(original, j, now);
    assert c[..i] == done;
    assert c[i + 1..] == original[j + 1..];
  }

  /** Sweeping a bin with a tone still sounding keeps it with those tones. */
  lemma SweepWalkKeep(original: seq<BinView>, j: nat, c: seq<BinView>, now: real)
    requires j < |original| && (original[j].tones == [] || Unexpired(original[j].tones, now) != [])
    requires c == Sweep(original[..j], now) + original[j..]
    ensures var i := |Sweep(original[..j], now)|;
            i < |c|
            && c[i := BinView(c[i].key, Unexpired(c[i].tones, now))] == Sweep(original[..j + 1], now) + original[j + 1..]
            && i + 1 == |Sweep(original[..j + 1], now)|
  {
    var done := Sweep(original[..j], now);
    var i := |done|;
    SweepStep(original, j, now);
    assert original[j..] == [original[j]] + original[j + 1..];
    var swept := BinView(original[j].key, Unexpired(original[j].tones, now));
    assert c[i := swept] == (done + [swept]) + original[j + 1..];
  }

  /** `b` is one of `bins` with only its tones still sounding at `now`. */
  ghost predicate SweptFrom(b: BinView, bins: seq<BinView>, now: real)
  {
    exists j :: 0 <= j < |bins| && b == BinView(bins[j].key, Unexpired(bins[j].tones, now))
  }

  /** A walk that has visited every bin has swept the whole list. */
  lemma SweepDone(original: seq<BinView>, j: nat, c: seq<BinView>, now: real)
    requires j <= |original| && c == Sweep(original[..j], now) + original[j..]
    requires |c| == |Sweep(original[..j], now)|
    ensures c == Sweep(original, now)
  {
    assert original[..j] == original;
  }

  /** Each bin left by a sweep is some bin of the environment with only its
      still-sounding tones; so no tone that has ended remains. */
  lemma {:induction false} SweepLeavesOnlySounding(bins: seq<BinView>, now: real)
    ensures forall i :: 0 <= i < |Sweep(bins, now)| ==> SweptFrom(Sweep(bins, now)[i], bins, now)
    ensures forall i, t :: 0 <= i < |Sweep(bins, now)| && t in Sweep(bins, now)[i].tones ==> t.end > now
  {
    if bins != [] {
      var n := |bins| - 1;
      var init := bins[..n];
      SweepLeavesOnlySounding(init, now);
      var r := Sweep(bins, now);
      var rest := Sweep(init, now);
      forall i | 0 <= i < |r|
        ensures SweptFrom(r[i], bins, now)
      {
        if i < |rest| {
          assert r[i] == rest[i];
          assert SweptFrom(rest[i], init, now);
          var j :| 0 <= j < |init| && rest[i] == BinView(init[j].key, Unexpired(init[j].tones, now));
          assert init[j] == bins[j];
        } else {
          assert r[i] == BinView(bins[n].key, Unexpired(bins[n].tones, now));
        }
      }
      forall i, t | 0 <= i < |r| && t in r[i].tones
        ensures t.end > now
      {
        assert SweptFrom(r[i], bins, now);
        var j :| 0 <= j < |bins| && r[i] == BinView(bins[j].key, Unexpired(bins[j].tones, now));
        UnexpiredMembers(bins[j].tones, now, t);
      }
    }
  }

  /** The last bin's key is not among the keys before it. */
  lemma LastKeyIsNew(bins: seq<BinView>)
    requires UniqueKeys(bins) && bins != []
    ensures bins[|bins| - 1].key !in Keys(bins[..|bins| - 1])
  {
    var n := |bins| - 1;
    forall m | 0 <= m < n
      ensures bins[..n][m].key != bins[n].key
    {
      assert bins[..n][m] == bins[m];
    }
  }

  /** A sweep only removes bins: it introduces no key. */
  lemma {:induction false} SweepKeys(bins: seq<BinView>, now: real)
    ensures Keys(Sweep(bins, now)) <= Keys(bins)
  {
    if bins != [] {
      var n := |bins| - 1;
      var init := bins[..n];
      SweepKeys(init, now);
      KeysOfPrefix(bins, n);
      KeysOfAppend(Sweep(init, now), BinView(bins[n].key, Unexpired(bins[n].tones, now)));
      KeysOfAppend(init, bins[n]);
      assert bins == init + [bins[n]];
    }
  }

  /** A sweep keeps keys unique and, on an environment with no empty bin,
      leaves no empty bin. */
  lemma {:induction false} SweepKeepsEnvironmentWellFormed(bins: seq<BinView>, now: real)
    requires UniqueKeys(bins) && NoEmptyBin(bins)
    ensures UniqueKeys(Sweep(bins, now)) && NoEmptyBin(Sweep(bins, now))
  {
    if bins != [] {
      var n := |bins| - 1;
      var init := bins[..n];
      var last := bins[n];
      assert UniqueKeys(init) && NoEmptyBin(init);
      SweepKeepsEnvironmentWellFormed(init, now);
      var rest := Sweep(init, now);
      SweepKeys(init, now);
      LastKeyIsNew(bins);
      if Unexpired(last.tones, now) != [] {
        var r := rest + [BinView(last.key, Unexpired(last.tones, now))];
        forall a, b | 0 <= a < b < |r|
          ensures r[a].key != r[b].key
        {
          if b == |rest| {
            assert r[a].key in Keys(rest);
          }
        }
      }
    }
  }

  /** On a well-formed environment a key survives the sweep exactly when its
      bin had a tone still sounding. */
  lemma {:induction false} SweepKeepsSoundingKeys(bins: seq<BinView>, now: real)
    requires UniqueKeys(bins) && NoEmptyBin(bins)
    ensures forall j :: 0 <= j < |bins| ==>
              (bins[j].key in Keys(Sweep(bins, now)) <==> Unexpired(bins[j].tones, now) != [])
  {
    if bins != [] {
      var n := |bins| - 1;
      var init := bins[..n];
      var last := bins[n];
      assert UniqueKeys(init) && NoEmptyBin(init);
      SweepKeepsSoundingKeys(init, now);
      var rest := Sweep(init, now);
      SweepKeys(init, now);
      var r := Sweep(bins, now);
      var tail := if Unexpired(last.tones, now) == [] then [] else [BinView(last.key, Unexpired(last.tones, now))];
      assert r == rest + tail;
      assert Keys(r) == Keys(rest) + (if tail == [] then {} else {last.key}) by {
        if tail != [] {
          KeysOfAppend(rest, tail[0]);
        } else {
          assert r == rest;
        }
      }
      forall j | 0 <= j < |bins|
        ensures bins[j].key in Keys(r) <==> Unexpired(bins[j].tones, now) != []
      {
        if j < n {
          assert bins[j] == init[j];
          assert bins[j].key != last.key;
        } else {
          LastKeyIsNew(bins);
        }
      }
    }
  }

  /** The keys of a prefix are keys of the whole. */
  lemma KeysOfPrefix(bins: seq<BinView>, n: nat)
    requires n <= |bins|
    ensures Keys(bins[..n]) <= Keys(bins)
  {
    forall k | k in Keys(bins[..n])
      ensures k in Keys(bins)
    {
      var m :| 0 <= m < n && bins[..n][m].key == k;
      assert bins[m].key == k;
    }
  }

  /** Appending a bin adds its key. */
  lemma KeysOfAppend(bins: seq<BinView>, b: BinView)
    ensures Keys(bins + [b]) == Keys(bins) + {b.key}
  {
    var r := bins + [b];
    forall k | k in Keys(bins)
      ensures k in Keys(r)
    {
      var m :| 0 <= m < |bins| && bins[m].key == k;
      assert r[m].key == k;
    }
    assert r[|bins|].key == b.key;
  }

  // ---------------------------------------------------------------------
  // The handler object
  // ---------------------------------------------------------------------

  /** Every bin of `env` is one of `pool`. */
  ghost predicate AllIn(env: seq<AudioBin>, pool: seq<AudioBin>)
  {
    forall k :: 0 <= k < |env| ==> env[k] in pool
  }

  lemma AllInRemove(env: seq<AudioBin>, i: nat, pool: seq<AudioBin>)
    requires i < |env| && AllIn(env, pool)
    ensures AllIn(env[..i] + env[i + 1..], pool)
  {
    var r := env[..i] + env[i + 1..];
    forall k | 0 <= k < |r|
      ensures r[k] in pool
    {
      if k < i {
        assert r[k] == env[k];
      } else {
        assert r[k] == env[k + 1];
      }
    }
  }

  lemma AllInTransitive(a: seq<AudioBin>, b: seq<AudioBin>, c: seq<AudioBin>)
    requires AllIn(a, b) && AllIn(b, c)
    ensures AllIn(a, c)
  {
    forall k | 0 <= k < |a|
      ensures a[k] in c
    {
      var m :| 0 <= m < |b| && b[m] == a[k];
    }
  }

  class AudioHandler {
    /** FFT_BLOCK_SIZE and SAMPLE_RATE of the source. */
    const fftBlockSize: int
    const sampleRate: int
    /** The lower bound of each of the fftBlockSize / 2 bands. */
    const lowerFFTBounds: array<int>
    /** The robot name copied (at most 32 characters) at construction. */
    const aRobotName: string
    /** The bins, in the order they were created. */
    var environment: seq<AudioBin>
    /** The count the source keeps beside the list. */
    var numberOfBins: int

    /** The table holds the band bounds, the count agrees with the list, keys
        are unique and every bin is consistent and non-empty. */
    ghost predicate Valid()
      reads this, lowerFFTBounds, environment
    {
      && fftBlockSize >= 2 && sampleRate > 0
      && lowerFFTBounds.Length == fftBlockSize / 2
      && (forall i :: 0 <= i < lowerFFTBounds.Length ==> lowerFFTBounds[i] == BoundAt(i, sampleRate, fftBlockSize))
      && WellFormedList()
    }

    /** The list part of Valid: the count agrees with the list, keys are
        unique, and every bin is consistent and non-empty. */
    ghost predicate WellFormedList()
      reads this, environment
    {
      && numberOfBins == |environment|
      && (forall i, j :: 0 <= i < j < |environment| ==>
            environment[i].lowerFrequencyBound != environment[j].lowerFrequencyBound)
      && (forall i :: 0 <= i < |environment| ==> environment[i].Valid() && environment[i].tones != [])
    }

    /** The environment as a list of values. */
    ghost function Contents(): (c: seq<BinView>)
      reads this, environment
      ensures |c| == |environment|
      ensures forall i :: 0 <= i < |environment| ==>
                c[i] == BinView(environment[i].lowerFrequencyBound, environment[i].tones)
    {
      seq(|environment|, i reads this, environment requires 0 <= i < |environment| =>
            BinView(environment[i].lowerFrequencyBound, environment[i].tones))
    }

    /** A valid handler's environment has unique keys and no empty bin. */
    lemma ValidContents()
      requires Valid()
      ensures UniqueKeys(Contents()) && NoEmptyBin(Contents())
    {
    }

    /** The constructor: no bins, and the band table filled in by a loop. */
    constructor (fftBlockSize: int, sampleRate: int, name: string)
      requires fftBlockSize >= 2 && sampleRate > 0
      ensures Valid()
      ensures this.fftBlockSize == fftBlockSize && this.sampleRate == sampleRate
      ensures environment == [] && numberOfBins == 0
      ensures |aRobotName| <= 32 && aRobotName <= name
      ensures |name| <= 32 ==> aRobotName == name
      ensures fresh(lowerFFTBounds)
    {
      var bounds := new int[fftBlockSize / 2];
      var i := 0;
      while i < fftBlockSize / 2
        invariant 0 <= i <= bounds.Length
        invariant forall k :: 0 <= k < i ==> bounds[k] == BoundAt(k, sampleRate, fftBlockSize)
      {
        bounds[i] := (i * sampleRate) / fftBlockSize;
        i := i + 1;
      }
      this.fftBlockSize := fftBlockSize;
      this.sampleRate := sampleRate;
      lowerFFTBounds := bounds;
      aRobotName := if |name| <= 32 then name else name[..32];
      environment := [];
      numberOfBins := 0;
    }

    /** The bucket search of playTone: counting down from the top band, the
        first band whose bound is at most `freq`. A negative frequency would
        run the index off the table, so `freq` must be non-negative. */
    method FindBucket(freq: int) returns (whichbin: int)
      requires Valid() && freq >= 0
      ensures whichbin == BandOf(freq, sampleRate, fftBlockSize)
      ensures 0 <= whichbin < lowerFFTBounds.Length && lowerFFTBounds[whichbin] <= freq
    {
      whichbin := fftBlockSize / 2 - 1;
      while whichbin > -1
        invariant -1 <= whichbin < lowerFFTBounds.Length
        invariant forall k :: whichbin < k < lowerFFTBounds.Length ==> lowerFFTBounds[k] > freq
      {
        if lowerFFTBounds[whichbin] <= freq {
          break;
        }
        whichbin := whichbin - 1;
      }
      assert lowerFFTBounds[0] == 0;
    }

    /** The bin search of playTone: the position of the bin keyed `key`, if
        there is one. */
    method FindBin(key: int) returns (found: Option<nat>)
      ensures found == FindKey(Contents(), key)
    {
      var i := 0;
      while i < |environment|
        invariant 0 <= i <= |environment|
        invariant forall k :: 0 <= k < i ==> environment[k].lowerFrequencyBound != key
      {
        if environment[i].lowerFrequencyBound == key {
          return Some(i);
        }
        i := i + 1;
      }
      return None;
    }

    /** playTone: files a tone played at (x, y) for `duration` milliseconds,
        starting at time `now`, under the band of `freq`: in the existing bin
        of that band, or in a new bin appended at the tail. */
    method PlayTone(freq: int, duration: real, x: real, y: real, now: int)
      requires Valid() && freq >= 0
      modifies this, environment
      ensures Valid()
      ensures Contents() == Emit(old(Contents()), BoundAt(BandOf(freq, sampleRate, fftBlockSize), sampleRate, fftBlockSize),
                                 AudioTone(x, y, now as real + duration / 1000.0))
    {
      ghost var before := Contents();
      var endTime := now as real + duration / 1000.0;
      var whichbin := FindBucket(freq);
      var key := lowerFFTBounds[whichbin];
      assert key == BoundAt(BandOf(freq, sampleRate, fftBlockSize), sampleRate, fftBlockSize);
      var found := FindBin(key);
      ghost var tone := AudioTone(x, y, endTime);
      if found.None? {
        assert Emit(before, key, tone) == before + [BinView(key, [tone])];
        AddToNewBin(key, x, y, endTime);
      } else {
        assert Emit(before, key, tone) == before[found.value := BinView(key, before[found.value].tones + [tone])];
        AddToBin(found.value, x, y, endTime);
      }
      assert Contents() == Emit(before, key, tone);
    }

    /** The branch of playTone that finds the band's bin at position `p`: the
        tone is appended to that bin and nothing else changes. */
    method AddToBin(p: nat, x: real, y: real, endTime: real)
      requires Valid() && p < |environment|
      modifies environment[p]
      ensures Valid()
      ensures Contents() == old(Contents())[p := BinView(old(Contents())[p].key, old(Contents())[p].tones + [AudioTone(x, y, endTime)])]
    {
      ghost var before := Contents();
      var current := environment[p];
      current.AddTone(x, y, endTime);
      ghost var expected := before[p := BinView(before[p].key, before[p].tones + [AudioTone(x, y, endTime)])];
      forall i | 0 <= i < |environment|
        ensures Contents()[i] == expected[i]
      {
        if i != p {
          assert environment[i].lowerFrequencyBound != current.lowerFrequencyBound;
        }
      }
      assert Contents() == expected;
    }

    /** The branch of playTone that finds no bin for the band: a new bin keyed
        `key` is appended at the tail, counted, and given the tone. */
    method AddToNewBin(key: int, x: real, y: real, endTime: real)
      requires Valid()
      requires forall i :: 0 <= i < |environment| ==> environment[i].lowerFrequencyBound != key
      modifies this
      ensures Valid()
      ensures Contents() == old(Contents()) + [BinView(key, [AudioTone(x, y, endTime)])]
    {
      ghost var before := Contents();
      var current := new AudioBin(key);
      current.AddTone(x, y, endTime);
      numberOfBins := numberOfBins + 1;
      environment := environment + [current];
      ghost var expected := before + [BinView(key, [AudioTone(x, y, endTime)])];
      forall i | 0 <= i < |environment|
        ensures Contents()[i] == expected[i]
      {
      }
      assert Contents() == expected;
    }

    /** numberOfTones: the number of bins. */
    method NumberOfTones() returns (n: int)
      requires Valid()
      ensures n == |Contents()|
    {
      n := numberOfBins;
    }

    /** The capacity check at the head of getTones: 1 when the store, of
        `storeSize` bytes, has fewer message slots of `messageSize` bytes than
        there are bins; 0 when the call goes on to its unfinished remainder. */
    method GetTonesCapacityCheck(storeSize: nat, messageSize: nat) returns (status: int)
      requires Valid() && messageSize > 0
      ensures status == 1 <==> |Contents()| > storeSize / messageSize
      ensures status == 0 || status == 1
    {
      var numberAllocatedSlots := storeSize / messageSize;
      if numberOfBins > numberAllocatedSlots {
        status := 1;
      } else {
        status := 0;
      }
    }

    /** removeBin: unlinks the bin at position `k`. When it was the only bin
        the count is set to 0, the list is left as it was and 1 is reported;
        otherwise the others keep their order, the count drops by one and 0
        is reported. */
    method RemoveBin(k: nat) returns (status: int)
      requires k < |environment|
      modifies this
      ensures |old(environment)| == 1 ==> status == 1 && numberOfBins == 0 && environment == old(environment)
      ensures |old(environment)| != 1 ==>
                status == 0 && numberOfBins == old(numberOfBins) - 1
                && environment == old(environment[..k] + environment[k + 1..])
    {
      if |environment| == 1 {
        numberOfBins := 0;
        return 1;
      }
      environment := environment[..k] + environment[k + 1..];
      numberOfBins := numberOfBins - 1;
      status := 0;
    }

    /** One pass of the maintenance sweep at time `now`: each bin drops its
        ended tones; a bin that this empties is removed, and when it was the
        last bin the list is cleared. */
    method UpdateAudioBinList(now: int)
      requires Valid()
      modifies this, environment
      ensures Valid()
      ensures Contents() == Sweep(old(Contents()), now as real)
    {
      SweepAll(now as real);
    }

    /** The walk of the sweep over the whole list, with the list invariants
        only (the band table is not touched). */
    method SweepAll(now: real)
      requires WellFormedList()
      modifies this, environment
      ensures WellFormedList()
      ensures Contents() == Sweep(old(Contents()), now)
    {
      ghost var original := Contents();
      ghost var j := 0;
      var i := 0;
      while i < |environment|
        invariant 0 <= j <= |original|
        invariant Contents() == Sweep(original[..j], now) + original[j..]
        invariant i == |Sweep(original[..j], now)|
        invariant AllIn(environment, old(environment))
        invariant WellFormedList()
        decreases |original| - j
      {
        ghost var e := environment;
        i := SweepNext(i, now, original, j);
        AllInTransitive(environment, e, old(environment));
        j := j + 1;
      }
      SweepDone(original, j, Contents(), now);
    }

    /** One step of the sweep, stated against the specification: with the
        first `j` bins of `original` already swept into positions [0, i),
        sweeping the bin at `i` extends that to the first `j + 1`. */
    method SweepNext(i: nat, now: real, ghost original: seq<BinView>, ghost j: nat) returns (next: nat)
      requires WellFormedList() && j < |original| && i < |environment|
      requires Contents() == Sweep(original[..j], now) + original[j..]
      requires i == |Sweep(original[..j], now)|
      modifies this, environment[i]
      ensures WellFormedList()
      ensures Contents() == Sweep(original[..j + 1], now) + original[j + 1..]
      ensures next == |Sweep(original[..j + 1], now)|
      ensures AllIn(environment, old(environment))
    {
      ghost var c := Contents();
      ghost var e := environment;
      assert c[i] == original[j];
      var removed := SweepBinAt(i, now);
      if removed {
        SweepWalkRemove(original, j, c, now);
        AllInRemove(e, i, e);
        next := i;
      } else {
        SweepWalkKeep(original, j, c, now);
        next := i + 1;
      }
    }

    /** The body of the sweep for the bin at position `i`: updateList drops
        the bin's ended tones; when that empties the bin, removeBin unlinks it
        (clearing the list when it was the last bin). Reports whether the bin
        was removed, which happens exactly when none of its tones still
        sounds. */
    method SweepBinAt(i: nat, now: real) returns (removed: bool)
      requires i < |environment| && WellFormedList()
      modifies this, environment[i]
      ensures WellFormedList()
      ensures removed <==> Unexpired(old(Contents())[i].tones, now) == []
      ensures removed ==> environment == old(environment[..i] + environment[i + 1..])
      ensures removed ==> Contents() == old(Contents()[..i] + Contents()[i + 1..])
      ensures !removed ==> environment == old(environment)
      ensures !removed ==> Contents() == old(Contents())[i := BinView(old(Contents())[i].key, Unexpired(old(Contents())[i].tones, now))]
    {
      ghost var before := Contents();
      ghost var oldEnvironment := environment;
      var ptr := environment[i];
      var status := ptr.UpdateList(now);
      if status == 1 {
        forall k | 0 <= k < |environment| && k != i
          ensures environment[k].Valid() && environment[k].tones != []
        {
          assert environment[k].lowerFrequencyBound != ptr.lowerFrequencyBound;
        }
        UnlinkEmptied(i);
        forall k | 0 <= k < |environment|
          ensures Contents()[k] == (before[..i] + before[i + 1..])[k]
        {
          var k' := if k < i then k else k + 1;
          assert environment[k] == oldEnvironment[k'];
          assert oldEnvironment[k'].lowerFrequencyBound != ptr.lowerFrequencyBound;
        }
        assert Contents() == before[..i] + before[i + 1..];
        removed := true;
      } else {
        ghost var expected := before[i := BinView(before[i].key, Unexpired(before[i].tones, now))];
        forall k | 0 <= k < |environment|
          ensures Contents()[k] == expected[k]
          ensures environment[k].Valid() && environment[k].tones != []
        {
          if k != i {
            assert environment[k].lowerFrequencyBound != ptr.lowerFrequencyBound;
          }
        }
        assert Contents() == expected;
        removed := false;
      }
    }
    /** The unlinking half of the sweep step for a bin that updateList has
        just emptied: removeBin takes it out of the list, and when it was the
        last bin the list is cleared. The list is well formed again after. */
    method UnlinkEmptied(i: nat)
      requires i < |environment| && numberOfBins == |environment|
      requires forall a, b :: 0 <= a < b < |environment| ==>
                 environment[a].lowerFrequencyBound != environment[b].lowerFrequencyBound
      requires forall k :: 0 <= k < |environment| && k != i ==>
                 environment[k].Valid() && environment[k].tones != []
      modifies this
      ensures WellFormedList()
      ensures environment == old(environment[..i] + environment[i + 1..])
    {
      ghost var oldEnvironment := environment;
      var last := RemoveBin(i);
      if last == 1 {
        environment := [];
      }
      assert environment == oldEnvironment[..i] + oldEnvironment[i + 1..];
      forall k | 0 <= k < |environment|
        ensures environment[k].Valid() && environment[k].tones != []
      {
        var k' := if k < i then k else k + 1;
        assert environment[k] == oldEnvironment[k'];
      }
      forall a, b | 0 <= a < b < |environment|
        ensures environment[a].lowerFrequencyBound != environment[b].lowerFrequencyBound
      {
        var a' := if a < i then a else a + 1;
        var b' := if b < i then b else b + 1;
        assert environment[a] == oldEnvironment[a'] && environment[b] == oldEnvironment[b'];
      }
    }
  }

  /** The holder of the single handler the source keeps in a static field. */
  class AudioSystem {
    var instance: AudioHandler?

    constructor ()
      ensures instance == null
    {
      instance := null;
    }

    /** GetAudioHandler: creates the handler on the first call only; every
        later call returns that same handler whatever its arguments. */
    method GetAudioHandler(fftBlockSize: int, sampleRate: int, name: string) returns (h: AudioHandler)
      requires fftBlockSize >= 2 && sampleRate > 0
      modifies this
      ensures instance == h
      ensures old(instance) != null ==> h == old(instance)
      ensures old(instance) == null ==> fresh(h) && h.Valid() && h.environment == []
    {
      if instance == null {
        instance := new AudioHandler(fftBlockSize, sampleRate, name);
      }
      h := instance;
    }
  }
}
