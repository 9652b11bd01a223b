/**
  Output-device resolution and the synthesis guard of src/voice.py. The device
  list that `sounddevice.query_devices()` returns is an input, as is the outcome
  of the speech-generation call; audio playback is left out.
 */
module Voice {
  import opened Text

  /** One entry of the device list: its name, output channel count and host API name. */
  datatype Device = Device(name: string, maxOutputChannels: int, hostApi: string)

  /** What querying the devices gives: the list, or an exception. */
  datatype DeviceQuery = Devices(list: seq<Device>) | QueryError

  /** The two passes of the name search. */
  datatype MatchKind = Exact | Partial

  /**
    A device matches the configured name when it has output channels and its
    name equals the configured one (exact pass) or contains it ignoring ASCII
    case (partial pass).
   */
  predicate Matches(d: Device, name: string, kind: MatchKind) {
    d.maxOutputChannels > 0 &&
    match kind
    case Exact => d.name == name
    case Partial => Contains(Lower(d.name), Lower(name))
  }

  /** A device that matches exactly also matches partially. */
  lemma ExactIsPartial(d: Device, name: string)
    requires Matches(d, name, Exact)
    ensures Matches(d, name, Partial)
  {
    assert OccursAt(Lower(d.name), Lower(name), 0);
  }

  /** The lowest index of a device that matches, if there is one. */
  function FirstMatch(devices: seq<Device>, name: string, kind: MatchKind): (r: Option<nat>)
    ensures r.Some? ==> r.value < |devices| && Matches(devices[r.value], name, kind)
    ensures forall j :: 0 <= j < |devices| && (r.None? || j < r.value) ==> !Matches(devices[j], name, kind)
  {
    if devices == [] then None
    else if Matches(devices[0], name, kind) then Some(0)
    else match FirstMatch(devices[1..], name, kind)
      case None => None
      case Some(i) => Some(i + 1)
  }

  /**
    What `_find_device` returns: the configured index if any; otherwise, for a
    non-empty configured name and a successful query, the first exact match,
    failing that the first partial match; otherwise `None`.
   */
  function Resolve(index: Option<int>, name: Option<string>, query: DeviceQuery): Option<int> {
    if index.Some? then index
    else if name.None? || name.value == "" || query.QueryError? then None
    else match FirstMatch(query.list, name.value, Exact)
      case Some(i) => Some(i)
      case None =>
        match FirstMatch(query.list, name.value, Partial)
        case Some(i) => Some(i)
        case None => None
  }

  /** `_find_device`: the two passes over the device list, each returning at its first match. */
  method FindDevice(index: Option<int>, name: Option<string>, query: DeviceQuery) returns (r: Option<int>)
    ensures r == Resolve(index, name, query)
  {
    if index.Some? {
      return index;
    }
    if name.None? || name.value == "" || query.QueryError? {
      return None;
    }
    var devices := query.list;
    var i := 0;
    while i < |devices|
      invariant 0 <= i <= |devices|
      invariant forall j :: 0 <= j < i ==> !Matches(devices[j], name.value, Exact)
    {
      if name.value == devices[i].name && devices[i].maxOutputChannels > 0 {
        assert Matches(devices[i], name.value, Exact);
        return Some(i);
      }
      i := i + 1;
    }
    var wanted := Lower(name.value);
    i := 0;
    while i < |devices|
      invariant 0 <= i <= |devices|
      invariant forall j :: 0 <= j < i ==> !Matches(devices[j], name.value, Partial)
    {
      if Contains(Lower(devices[i].name), wanted) && devices[i].maxOutputChannels > 0 {
        return Some(i);
      }
      i := i + 1;
    }
    return None;
  }

  /** A configured index is used as given, whatever the name and the device list. */
  lemma IndexTakesPrecedence(index: int, name: Option<string>, query: DeviceQuery)
    ensures Resolve(Some(index), name, query) == Some(index)
  {
  }

  /** A device found by name is in the list and has output channels. */
  lemma FoundDeviceHasOutput(name: Option<string>, query: DeviceQuery)
    requires Resolve(None, name, query).Some?
    ensures query.Devices? && 0 <= Resolve(None, name, query).value < |query.list|
    ensures query.list[Resolve(None, name, query).value].maxOutputChannels > 0
  {
  }

  /** When some device matches exactly, the lowest such index wins over every partial match. */
  lemma ExactMatchWins(name: string, devices: seq<Device>, k: nat)
    requires name != "" && k < |devices| && Matches(devices[k], name, Exact)
    ensures var r := Resolve(None, Some(name), Devices(devices));
      r.Some? && r.value <= k && Matches(devices[r.value], name, Exact)
      && forall j :: 0 <= j < r.value ==> !Matches(devices[j], name, Exact)
  {
  }

  /** Without an exact match, the first partial match is taken. */
  lemma PartialMatchOtherwise(name: string, devices: seq<Device>)
    requires name != "" && forall j :: 0 <= j < |devices| ==> !Matches(devices[j], name, Exact)
    ensures Resolve(None, Some(name), Devices(devices)) == match FirstMatch(devices, name, Partial)
      case Some(i) => Some(i)
      case None => None
  {
  }

  /**
    The search falls back to the system default exactly when no index is
    configured and the name is missing or empty, the query fails, or no device
    with output channels contains the name.
   */
  lemma DefaultFallback(index: Option<int>, name: Option<string>, query: DeviceQuery)
    ensures Resolve(index, name, query).None? <==>
      index.None? && (name.None? || name.value == "" || query.QueryError?
        || forall j :: 0 <= j < |query.list| ==> !Matches(query.list[j], name.value, Partial))
  {
    if index.None? && name.Some? && name.value != "" && query.Devices? {
      var e := FirstMatch(query.list, name.value, Exact);
      if e.Some? {
        ExactIsPartial(query.list[e.value], name.value);
      }
    }
  }

  /** `SoundDevicePlayer`: where audio goes, and whether it is mirrored to the default device. */
  class SoundDevicePlayer {
    const deviceIndex: Option<int>
    const deviceName: Option<string>
    var monitor: bool
    var targetDevice: Option<int>
    var defaultDevice: Option<int>

    /** Mirroring is only ever on when a target device was resolved. */
    predicate Valid()
      reads this`monitor, this`targetDevice
    {
      monitor ==> targetDevice.Some?
    }

    /**
      `__init__`: resolves the target; with no target the player uses the
      system default, and monitoring is turned off as redundant. `defaultOutput`
      is the default output index, `None` when reading it raised.
     */
    constructor (name: Option<string>, index: Option<int>, monitorRequested: bool, query: DeviceQuery,
                 defaultOutput: Option<int>)
      ensures deviceName == name && deviceIndex == index && defaultDevice == defaultOutput
      ensures targetDevice == Resolve(index, name, query)
      ensures monitor == (monitorRequested && targetDevice.Some?)
      ensures Valid()
    {
      deviceIndex := index;
      deviceName := name;
      monitor := monitorRequested;
      var target := FindDevice(index, name, query);
      targetDevice := target;
      defaultDevice := defaultOutput;
      if target.None? {
        monitor := false;
      }
    }

    /** `_play_blocking` writes to the target and the default device together exactly in this case. */
    function DualPlayback(): (dual: bool)
      reads this`monitor, this`targetDevice
      requires Valid()
      ensures dual <==> monitor
    {
      monitor && targetDevice.Some?
    }
  }

  /** The result of the blocking generation step: the file written, or an exception. */
  datatype Generation = Generated(path: string) | GenerationFailed

  /** Python's truth test `not text or not text.strip()`. */
  predicate Blank(text: string) {
    text == "" || Strip(text) == ""
  }

  /** A text is blank exactly when it consists of whitespace only (including none). */
  lemma BlankIffWhitespace(text: string)
    ensures Blank(text) <==> forall i :: 0 <= i < |text| ==> IsSpace(text[i])
  {
    StripEmptyIffAllSpace(text);
  }

  /**
    `ElevenLabsTTS.synthesize`: without a client, or for blank text, it returns
    the empty path and generation is never attempted; otherwise it returns the
    generated file's path, or the empty path when generation failed.
   */
  function ElevenLabsSynthesize(hasClient: bool, text: string, generation: Generation): (path: string)
    ensures !hasClient || Blank(text) ==> path == ""
    ensures hasClient && !Blank(text) && generation.GenerationFailed? ==> path == ""
    ensures hasClient && !Blank(text) && generation.Generated? ==> path == generation.path
  {
    if !hasClient then ""
    else if Blank(text) then ""
    else match generation
      case Generated(p) => p
      case GenerationFailed => ""
  }

  /** The outcome of generation matters only for a client and a text that is not all whitespace. */
  lemma SynthesisGuard(hasClient: bool, text: string, g1: Generation, g2: Generation)
    requires !hasClient || forall i :: 0 <= i < |text| ==> IsSpace(text[i])
    ensures ElevenLabsSynthesize(hasClient, text, g1) == "" == ElevenLabsSynthesize(hasClient, text, g2)
  {
    BlankIffWhitespace(text);
  }
}
