/** The per-robot facade shared by the simulated, the real and the generic
    e-puck classes: the LED flag and flash frequency, and the audio state
    machine (an "initialised" flag set once, and a cache of the tones last
    heard that `getTone` reads with a bounds check).
    The audio handler the facade talks to is not called directly: its
    answers (the messages it reports) enter as parameters and the tone a
    robot asks it to play leaves as a request value. */
module EPuckRobot {
  import opened Options
  import opened AudioBins

  /** What a robot hears in one frequency band. */
  datatype Tone = Tone(frequency: real, volume: real, bearing: int)

  /** A playTone request as it is handed on to the audio handler. */
  datatype ToneRequest = ToneRequest(frequency: int, duration: real, volume: real, robot: string)

  /** The tone getTone answers with for an index it does not hold. */
  const SILENT: Tone := Tone(0.0, 0.0, 0)

  /** `t` carries the volume, direction and frequency of the handler's message. */
  ghost predicate HeardAs(t: Tone, m: AudioMessage)
  {
    t.volume == m.volume && t.bearing == m.direction && t.frequency == m.frequency
  }

  /** strcmp on the robots' names: negative, zero or positive as `a` comes
      before, equals or comes after `b`, character by character, a string
      that ends first coming before its extensions. C's strcmp promises only
      the sign; answering exactly -1, 0 or 1 is a choice of this model, and
      its callers use only whether the result is 0. */
  function StrCmp(a: string, b: string): (c: int)
    ensures -1 <= c <= 1
    ensures c == 0 <==> a == b
    decreases |a|
  {
    if a == [] && b == [] then 0
    else if a == [] then -1
    else if b == [] then 1
    else if a[0] < b[0] then -1
    else if a[0] > b[0] then 1
    else
      var rest := StrCmp(a[1..], b[1..]);
      assert rest == 0 ==> a == [a[0]] + a[1..] == [b[0]] + b[1..] == b;
      rest
  }

  /** Swapping the two strings flips the sign of the comparison. */
  lemma {:induction false} StrCmpAntisymmetric(a: string, b: string)
    ensures StrCmp(b, a) == -StrCmp(a, b)
    decreases |a|
  {
    if a != [] && b != [] && a[0] == b[0] {
      StrCmpAntisymmetric(a[1..], b[1..]);
    }
  }

  /** The comparison orders strings: negative results chain. */
  lemma {:induction false} StrCmpTransitive(a: string, b: string, c: string)
    requires StrCmp(a, b) < 0 && StrCmp(b, c) < 0
    ensures StrCmp(a, c) < 0
    decreases |a|
  {
    if a != [] && b != [] && c != [] && a[0] == b[0] && b[0] == c[0] {
      StrCmpTransitive(a[1..], b[1..], c[1..]);
    }
  }

  class EPuck {
    /** `char name[32]`, filled by strcpy. */
    var name: string
    var port: int
    var allLEDsOn: bool
    var ledFlashFrequency: real
    var audioInitialised: bool
    /** The tones heard at the last listenForTones, and how many there are. */
    var toneArray: array?<Tone>
    var numberOfTones: int

    /** The name fits its buffer with the terminating NUL, and a filled tone
        cache holds exactly `numberOfTones` tones. */
    ghost predicate Valid()
      reads this
    {
      |name| < 32 && (toneArray != null ==> toneArray.Length == numberOfTones)
    }

    /** initialise: the robot is named and numbered, its LEDs are off, audio
        is not initialised and no tone cache exists yet. The count of tones
        and the flash frequency are left as they were (uninitialised). */
    constructor (robotPort: int, robotName: string)
      requires |robotName| < 32
      ensures Valid()
      ensures name == robotName && port == robotPort
      ensures !allLEDsOn && !audioInitialised && toneArray == null
    {
      name := robotName;
      port := robotPort;
      allLEDsOn := false;
      audioInitialised := false;
      toneArray := null;
    }

    /** operator==: two robots are the same robot when strcmp finds their
        names equal. */
    method Equals(other: EPuck) returns (same: bool)
      ensures same <==> name == other.name
    {
      var comparison := StrCmp(other.name, name);
      if comparison == 0 {
        same := true;
      } else {
        same := false;
      }
    }

    method SetAllLEDsOn()
      requires Valid()
      modifies this
      ensures Valid()
      ensures allLEDsOn
      ensures name == old(name) && port == old(port) && ledFlashFrequency == old(ledFlashFrequency)
      ensures audioInitialised == old(audioInitialised)
      ensures toneArray == old(toneArray) && numberOfTones == old(numberOfTones)
    {
      allLEDsOn := true;
    }

    method SetAllLEDsOff()
      requires Valid()
      modifies this
      ensures Valid()
      ensures !allLEDsOn
      ensures name == old(name) && port == old(port) && ledFlashFrequency == old(ledFlashFrequency)
      ensures audioInitialised == old(audioInitialised)
      ensures toneArray == old(toneArray) && numberOfTones == old(numberOfTones)
    {
      allLEDsOn := false;
    }

    /** Each call flips the LEDs between all on and all off. */
    method ToggleAllLEDs()
      requires Valid()
      modifies this
      ensures Valid()
      ensures allLEDsOn == !old(allLEDsOn)
      ensures name == old(name) && port == old(port) && ledFlashFrequency == old(ledFlashFrequency)
      ensures audioInitialised == old(audioInitialised)
      ensures toneArray == old(toneArray) && numberOfTones == old(numberOfTones)
    {
      if allLEDsOn {
        SetAllLEDsOff();
      } else {
        SetAllLEDsOn();
      }
    }

    /** setLED switches the whole robot: on exactly when `state` is 1; the
        index is not used. */
    method SetLED(index: int, state: int)
      requires Valid()
      modifies this
      ensures Valid()
      ensures allLEDsOn <==> state == 1
      ensures name == old(name) && port == old(port) && ledFlashFrequency == old(ledFlashFrequency)
      ensures audioInitialised == old(audioInitialised)
      ensures toneArray == old(toneArray) && numberOfTones == old(numberOfTones)
    {
      if state == 1 {
        SetAllLEDsOn();
      } else {
        SetAllLEDsOff();
      }
    }

    /** flashLEDs: a positive frequency is stored for the flashing thread; a
        frequency at or below zero stops the flashing. */
    method FlashLEDs(frequency: real)
      requires Valid()
      modifies this
      ensures Valid()
      ensures ledFlashFrequency == (if frequency <= 0.0 then 0.0 else frequency)
      ensures ledFlashFrequency >= 0.0
      ensures name == old(name) && port == old(port) && allLEDsOn == old(allLEDsOn)
      ensures audioInitialised == old(audioInitialised)
      ensures toneArray == old(toneArray) && numberOfTones == old(numberOfTones)
    {
      if frequency <= 0.0 {
        StopFlashLEDs();
        return;
      }
      ledFlashFrequency := frequency;
    }

    method StopFlashLEDs()
      requires Valid()
      modifies this
      ensures Valid()
      ensures ledFlashFrequency == 0.0
      ensures name == old(name) && port == old(port) && allLEDsOn == old(allLEDsOn)
      ensures audioInitialised == old(audioInitialised)
      ensures toneArray == old(toneArray) && numberOfTones == old(numberOfTones)
    {
      ledFlashFrequency := 0.0;
    }

    /** initaliseAudio succeeds (0) only on the first call; every later call
        answers -1. Afterwards audio is initialised either way. */
    method InitialiseAudio() returns (result: int)
      requires Valid()
      modifies this
      ensures Valid()
      ensures result == 0 <==> !old(audioInitialised)
      ensures result == -1 <==> old(audioInitialised)
      ensures audioInitialised
      ensures name == old(name) && port == old(port) && allLEDsOn == old(allLEDsOn)
      ensures ledFlashFrequency == old(ledFlashFrequency)
      ensures toneArray == old(toneArray) && numberOfTones == old(numberOfTones)
    {
      if !audioInitialised {
        audioInitialised := true;
        return 0;
      }
      return -1;
    }

    /** playTone forwards the request, under this robot's name, only once
        audio is initialised: 0 and the request, or -1 and nothing. */
    method PlayTone(frequency: int, duration: real, volume: real) returns (result: int, request: Option<ToneRequest>)
      ensures audioInitialised ==> result == 0 && request == Some(ToneRequest(frequency, duration, volume, name))
      ensures !audioInitialised ==> result == -1 && request == None
    {
      if audioInitialised {
        return 0, Some(ToneRequest(frequency, duration, volume, name));
      }
      return -1, None;
    }

    /** listenForTones: once audio is initialised, the old cache is replaced
        by a fresh array holding, in order, one tone per message of the
        handler, with the message's volume, direction and frequency; the
        count is returned. Before that it answers -1 and keeps its state. */
    method ListenForTones(messages: seq<AudioMessage>) returns (count: int)
      requires Valid()
      modifies this
      ensures Valid()
      ensures !old(audioInitialised) ==> count == -1 && toneArray == old(toneArray) && numberOfTones == old(numberOfTones)
      ensures old(audioInitialised) ==> count == |messages| == numberOfTones
      ensures old(audioInitialised) ==> toneArray != null && fresh(toneArray)
      ensures old(audioInitialised) ==> forall i :: 0 <= i < numberOfTones ==> HeardAs(toneArray[i], messages[i])
      ensures name == old(name) && port == old(port) && allLEDsOn == old(allLEDsOn)
      ensures ledFlashFrequency == old(ledFlashFrequency) && audioInitialised == old(audioInitialised)
    {
      if audioInitialised {
        numberOfTones := |messages|;
        var heard := new Tone[numberOfTones];
        toneArray := heard;
        var i := 0;
        while i < numberOfTones
          invariant 0 <= i <= numberOfTones == |messages| == heard.Length
          invariant forall k :: 0 <= k < i ==> HeardAs(heard[k], messages[k])
          modifies heard
        {
          heard[i] := heard[i].(volume := messages[i].volume, bearing := messages[i].direction,
                                frequency := messages[i].frequency);
          i := i + 1;
        }
        return numberOfTones;
      }
      return -1;
    }

    /** getTone: the cached tone at `index` when 0 <= index < numberOfTones,
        and the all-zero tone for any other index. */
    method GetTone(index: int) returns (t: Tone)
      requires Valid()
      requires 0 <= index < numberOfTones ==> toneArray != null
      ensures 0 <= index < numberOfTones ==> toneArray != null && t == toneArray[index]
      ensures !(0 <= index < numberOfTones) ==> t == SILENT
    {
      if index < numberOfTones && index > -1 {
        return toneArray[index];
      } else {
        return Tone(0.0, 0.0, 0);
      }
    }
  }
}
