/** One frequency bin of the simulated audio environment: the tones that robots
    are playing in one band of the FFT, kept in the order they were started.
    The source keeps them in a doubly linked list; here the list is the
    sequence `tones`, and the separately maintained count `numberTones` stays a
    field of its own so that its relation to the list can be stated. */
module AudioBins {
  import opened Bearing

  /** A tone being played: where the playing robot stood and when it stops. */
  datatype AudioTone = AudioTone(tx: real, ty: real, end: real)

  /** What a listening robot learns about one tone: how far away and in which
      direction (whole degrees) it is, and the lower bound of its band. */
  datatype AudioMessage = AudioMessage(distance: real, direction: int, frequency: real, volume: real)

  /** The tones still sounding at time `now`, in their original order: those
      whose end lies strictly after `now`. */
  function Unexpired(ts: seq<AudioTone>, now: real): (live: seq<AudioTone>)
    ensures |live| <= |ts|
  {
    if ts == [] then []
    else
      var rest := Unexpired(ts[..|ts| - 1], now);
      if ts[|ts| - 1].end <= now then rest else rest + [ts[|ts| - 1]]
  }

  /** A tone survives exactly when it was in the list and ends after `now`. */
  lemma {:induction false} UnexpiredMembers(ts: seq<AudioTone>, now: real, t: AudioTone)
    ensures t in Unexpired(ts, now) <==> t in ts && t.end > now
    decreases |ts|
  {
    if ts != [] {
      var init := ts[..|ts| - 1];
      UnexpiredMembers(init, now, t);
      assert ts == init + [ts[|ts| - 1]];
    }
  }

  /** Filtering distributes over concatenation, so the surviving tones keep
      their relative order. */
  lemma {:induction false} UnexpiredAppend(a: seq<AudioTone>, b: seq<AudioTone>, now: real)
    ensures Unexpired(a + b, now) == Unexpired(a, now) + Unexpired(b, now)
    decreases |b|
  {
    if b == [] {
      assert a + b == a;
    } else {
      var b' := b[..|b| - 1];
      assert (a + b)[..|a + b| - 1] == a + b';
      UnexpiredAppend(a, b', now);
    }
  }

  /** Nothing survives exactly when every tone has ended. */
  lemma UnexpiredEmptyIffAllEnded(ts: seq<AudioTone>, now: real)
    ensures Unexpired(ts, now) == [] <==> forall i :: 0 <= i < |ts| ==> ts[i].end <= now
  {
    if Unexpired(ts, now) == [] {
      forall i | 0 <= i < |ts|
        ensures ts[i].end <= now
      {
        assert ts[i] in ts;
      }
    }
  }

  /** One step of the walk that removes ended tones: extending the walked
      prefix by one tone. */
  lemma UnexpiredStep(ts: seq<AudioTone>, j: nat, now: real)
    requires j < |ts|
    ensures Unexpired(ts[..j + 1], now)
         == Unexpired(ts[..j], now) + (if ts[j].end <= now then [] else [ts[j]])
  {
    assert ts[..j + 1][..j] == ts[..j];
  }

  /** Part-way through the walk of updateList the first `j` tones of
      `original` have been visited and the ended ones among them removed; the
      next tone to visit then sits just after the kept ones. */
  lemma WalkPosition(original: seq<AudioTone>, j: nat, tones: seq<AudioTone>, now: real)
    requires j < |original|
    requires tones == Unexpired(original[..j], now) + original[j..]
    ensures |Unexpired(original[..j], now)| < |tones|
    ensures tones[|Unexpired(original[..j], now)|] == original[j]
  {
  }

  /** Visiting an ended tone removes it from the walked list. */
  lemma WalkRemove(original: seq<AudioTone>, j: nat, tones: seq<AudioTone>, now: real)
    requires j < |original| && original[j].end <= now
    requires tones == Unexpired(original[..j], now) + original[j..]
    ensures var i := |Unexpired(original[..j], now)|;
            tones[..i] + tones[i + 1..] == Unexpired(original[..j + 1], now) + original[j + 1..]
  {
    var kept := Unexpired(original[..j], now);
    var i := |kept|;
    UnexpiredStep(original, j, now);
    assert tones[..i] == kept;
    assert tones[i + 1..] == original[j + 1..];
  }

  /** Visiting a tone that is still sounding keeps it. */
  lemma WalkKeep(original: seq<AudioTone>, j: nat, tones: seq<AudioTone>, now: real)
    requires j < |original| && original[j].end > now
    requires tones == Unexpired(original[..j], now) + original[j..]
    ensures tones == Unexpired(original[..j + 1], now) + original[j + 1..]
    ensures |Unexpired(original[..j], now)| + 1 == |Unexpired(original[..j + 1], now)|
  {
    var kept := Unexpired(original[..j], now);
    UnexpiredStep(original, j, now);
    assert original[j..] == [original[j]] + original[j + 1..];
    assert tones == (kept + [original[j]]) + original[j + 1..];
  }

  class AudioBin {
    /** The key of the bin: the lower frequency bound of its FFT band. */
    const lowerFrequencyBound: int
    /** The tones in the bin, oldest first. */
    var tones: seq<AudioTone>
    /** The count the source keeps beside the list. */
    var numberTones: int

    /** The count agrees with the list. */
    ghost predicate Valid()
      reads this
    {
      numberTones == |tones|
    }

    /** A new bin for a band: no tones yet, count 0. */
    constructor (lowerFreq: int)
      ensures lowerFrequencyBound == lowerFreq
      ensures tones == [] && numberTones == 0
      ensures Valid()
    {
      lowerFrequencyBound := lowerFreq;
      tones := [];
      numberTones := 0;
    }

    /** addTone: the tone goes at the tail, earlier tones are untouched and the
        count grows by one. */
    method AddTone(x: real, y: real, endTime: real)
      modifies this
      ensures tones == old(tones) + [AudioTone(x, y, endTime)]
      ensures numberTones == old(numberTones) + 1
      ensures old(Valid()) ==> Valid()
    {
      tones := tones + [AudioTone(x, y, endTime)];
      numberTones := numberTones + 1;
    }

    /** removeTone: unlinks the tone at position `k`, keeping the others in
        order. It reports 1 when that tone was the only one, and in that case
        leaves the count where it was; otherwise it reports 0 and decrements
        the count. */
    method RemoveTone(k: nat) returns (status: int)
      requires k < |tones|
      modifies this
      ensures tones == old(tones[..k] + tones[k + 1..])
      ensures status == 1 <==> |old(tones)| == 1
      ensures status == 0 || status == 1
      ensures numberTones == if status == 1 then old(numberTones) else old(numberTones) - 1
    {
      tones := tones[..k] + tones[k + 1..];
      if k == 0 && tones == [] {
        return 1;
      }
      numberTones := numberTones - 1;
      status := 0;
    }

    /** updateList: removes every tone that has ended by `now`, keeping the
        rest in order. It reports 1 exactly when a removal emptied the bin; a
        bin that was already empty reports 0. When it reports 1 the count is
        left at 1 (the last removal does not decrement it). */
    method UpdateList(now: real) returns (status: int)
      requires Valid()
      modifies this
      ensures tones == Unexpired(old(tones), now)
      ensures status == 1 <==> old(tones) != [] && tones == []
      ensures status == 0 || status == 1
      ensures status == 0 ==> Valid()
      ensures status == 1 ==> numberTones == 1
    {
      ghost var original := tones;
      ghost var j := 0;
      var i := 0;
      while i < |tones|
        invariant 0 <= j <= |original|
        invariant tones == Unexpired(original[..j], now) + original[j..]
        invariant i == |Unexpired(original[..j], now)|
        invariant Valid()
        invariant j > 0 ==> tones != []
        decreases |original| - j
      {
        WalkPosition(original, j, tones, now);
        if tones[i].end <= now {
          WalkRemove(original, j, tones, now);
          var only := RemoveTone(i);
          if only == 1 {
            assert original[..j + 1] == original;
            return 1;
          }
        } else {
          WalkKeep(original, j, tones, now);
          i := i + 1;
        }
        j := j + 1;
      }
      assert original[..j] == original;
      status := 0;
    }

    /** calculateRawToneDataForPosition: for the first `noMsgs` tones (or all
        of them, if fewer) writes into `output` the distance and the bearing
        from the listener at (xr, yr) facing `yaw`, and the band's lower bound;
        the volume is not written. It returns one more than the index of the
        last tone written, or 1 when `noMsgs` is not positive. `sqrt` is the C
        library's square root and `atanOfRatio(ydiff, xdiff)` its
        `atan(ydiff / xdiff)`. The source dereferences the empty list when
        `noMsgs` is positive, so a non-empty bin is required then. */
    method CalculateRawToneDataForPosition(xr: real, yr: real, yaw: real, output: array<AudioMessage>,
                                           noMsgs: int, sqrt: real -> real,
                                           atanOfRatio: (real, real) -> ArctanRadians)
      returns (count: int)
      requires noMsgs > 0 ==> tones != []
      requires Written(noMsgs, |tones|) <= output.Length
      modifies output
      ensures count == RawToneCountAsWritten(noMsgs, |tones|)
      ensures forall k :: 0 <= k < Written(noMsgs, |tones|) ==>
                output[k] == ToneMessage(tones[k], xr, yr, yaw, lowerFrequencyBound, old(output[k].volume), sqrt, atanOfRatio)
      ensures forall k :: Written(noMsgs, |tones|) <= k < output.Length ==> output[k] == old(output[k])
    {
      ghost var before := output[..];
      var currentTone := 0;
      while currentTone < noMsgs
        invariant noMsgs > 0 ==> 0 <= currentTone <= noMsgs && currentTone < |tones|
        invariant noMsgs <= 0 ==> currentTone == 0
        invariant forall k :: 0 <= k < currentTone ==>
                    output[k] == ToneMessage(tones[k], xr, yr, yaw, lowerFrequencyBound, before[k].volume, sqrt, atanOfRatio)
        invariant forall k :: currentTone <= k < output.Length ==> output[k] == before[k]
      {
        output[currentTone] := ToneMessage(tones[currentTone], xr, yr, yaw, lowerFrequencyBound,
                                           output[currentTone].volume, sqrt, atanOfRatio);
        if currentTone + 1 == |tones| {
          break;
        }
        currentTone := currentTone + 1;
      }
      count := currentTone + 1;
    }

    /** The intended behaviour of calculateRawToneDataForPosition: the same
        entries are written and the number returned is the number written, 0
        for an empty bin or a non-positive `noMsgs`. */
    method CalculateToneData(xr: real, yr: real, yaw: real, output: array<AudioMessage>,
                             noMsgs: int, sqrt: real -> real,
                             atanOfRatio: (real, real) -> ArctanRadians)
      returns (count: int)
      requires Written(noMsgs, |tones|) <= output.Length
      modifies output
      ensures count == Written(noMsgs, |tones|)
      ensures forall k :: 0 <= k < count ==>
                output[k] == ToneMessage(tones[k], xr, yr, yaw, lowerFrequencyBound, old(output[k].volume), sqrt, atanOfRatio)
      ensures forall k :: count <= k < output.Length ==> output[k] == old(output[k])
    {
      ghost var before := output[..];
      count := 0;
      while count < noMsgs && count < |tones|
        invariant 0 <= count <= Written(noMsgs, |tones|)
        invariant forall k :: 0 <= k < count ==>
                    output[k] == ToneMessage(tones[k], xr, yr, yaw, lowerFrequencyBound, before[k].volume, sqrt, atanOfRatio)
        invariant forall k :: count <= k < output.Length ==> output[k] == before[k]
      {
        output[count] := ToneMessage(tones[count], xr, yr, yaw, lowerFrequencyBound,
                                     output[count].volume, sqrt, atanOfRatio);
        count := count + 1;
      }
    }
  }

  /** The message for one tone heard by a listener at (xr, yr) facing `yaw`;
      `volume` is whatever the output slot already held. */
  function ToneMessage(t: AudioTone, xr: real, yr: real, yaw: real, band: int, volume: real,
                       sqrt: real -> real, atanOfRatio: (real, real) -> ArctanRadians): (m: AudioMessage)
    ensures 0 <= m.direction < 360
    ensures m.frequency == band as real && m.volume == volume
    ensures t.tx == xr && t.ty == yr ==> m.direction == 0
  {
    var xdiff := t.tx - xr;
    var ydiff := t.ty - yr;
    AudioMessage(sqrt(xdiff * xdiff + ydiff * ydiff),
                 BearingOf(xdiff, ydiff, yaw, atanOfRatio(ydiff, xdiff)),
                 band as real, volume)
  }

  /** How many messages are written: `noMsgs` tones, or all of them if fewer;
      none when `noMsgs` is not positive, since the loop never starts. */
  function Written(noMsgs: int, n: nat): (w: nat)
    ensures w <= n
    ensures noMsgs >= 0 ==> w <= noMsgs
    ensures noMsgs <= 0 ==> w == 0
    ensures noMsgs > 0 ==> w == n || w == noMsgs
  {
    if noMsgs <= 0 then 0 else if noMsgs < n then noMsgs else n
  }

  /** The count calculateRawToneDataForPosition returns for `n` tones: the
      loop index plus one, where the index stops at the last tone or at
      `noMsgs`, whichever comes first. */
  function RawToneCountAsWritten(noMsgs: int, n: nat): int
  {
    if noMsgs <= 0 then 1 else if n <= noMsgs then n else noMsgs + 1
  }

  /** The returned count overstates the number of messages written by one
      whenever the bin holds more tones than were asked for, and whenever no
      message was asked for; it is right only when every tone fits. */
  lemma RawToneCountOvershoots(noMsgs: int, n: nat)
    requires noMsgs > 0 ==> n > 0
    ensures n > noMsgs ==> RawToneCountAsWritten(noMsgs, n) == Written(noMsgs, n) + 1
    ensures 0 < n <= noMsgs ==> RawToneCountAsWritten(noMsgs, n) == Written(noMsgs, n)
  {
  }

  /** A bin of two tones asked for one message writes one but reports two. */
  lemma RawToneCountCounterexample()
    ensures Written(1, 2) == 1
    ensures RawToneCountAsWritten(1, 2) == 2
  {
  }
}
