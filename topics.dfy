/** The Booster topic namespace: the device prefix formed when a resource is opened, the
    path suffix of every operation, and a parser that recovers the path from a topic. */
module Topics {
  import opened Wrappers
  import opened Decimal

  /** The three calibrated power detectors (the `PwrType` constants). */
  datatype PwrType = Input | Output | Reflected

  function PwrTypeName(p: PwrType): string
  {
    match p
    case Input => "input_power"
    case Output => "output_power"
    case Reflected => "reflected_power"
  }

  /** A per-channel setting. */
  datatype ChannelParam = State | BiasVoltage | OutputInterlockThreshold | Transform(pwr: PwrType)

  /** Every address the client sends to or listens on, below the device prefix. */
  datatype Path =
    | Channel(channel: int, param: ChannelParam)
    | TelemetryPeriod
    | FanSpeed
    | CommandSave
    | Telemetry(channel: int)
    | Alive

  function ParseParamSegment(s: string): Option<ChannelParam>
  {
    if s == "state" then Some(State)
    else if s == "bias_voltage" then Some(BiasVoltage)
    else if s == "output_interlock_threshold" then Some(OutputInterlockThreshold)
    else if s == "input_power_transform" then Some(Transform(Input))
    else if s == "output_power_transform" then Some(Transform(Output))
    else if s == "reflected_power_transform" then Some(Transform(Reflected))
    else None
  }

  /** The last segment of a channel setting's path; a calibration record is named after its
      power type. Each segment names exactly one setting. */
  function ParamSegment(q: ChannelParam): (s: string)
    ensures forall i :: 0 <= i < |s| ==> s[i] != '/'
  {
    match q
    case State => "state"
    case BiasVoltage => "bias_voltage"
    case OutputInterlockThreshold => "output_interlock_threshold"
    case Transform(p) => PwrTypeName(p) + "_transform"
  }

  lemma ParamSegmentRoundTrip(q: ChannelParam)
    ensures ParseParamSegment(ParamSegment(q)) == Some(q)
  {
    match q
    case State =>
    case BiasVoltage =>
      assert |ParamSegment(q)| == 12;
    case OutputInterlockThreshold =>
      assert |ParamSegment(q)| == 26;
    case Transform(Input) =>
      assert |ParamSegment(q)| == 21;
    case Transform(Output) =>
      assert |ParamSegment(q)| == 22;
      assert ParamSegment(q)[0] == 'o';
    case Transform(Reflected) =>
      assert |ParamSegment(q)| == 25;
  }

  /** The suffix appended to the device prefix. Channel numbers are formatted as Python
      formats an int and are not range-checked. */
  function Suffix(p: Path): string
  {
    match p
    case Channel(ch, q) => "/channel/" + IntToString(ch) + "/" + ParamSegment(q)
    case TelemetryPeriod => "/telemetry_period"
    case FanSpeed => "/fan_speed"
    case CommandSave => "/command/save"
    case Telemetry(ch) => "/telemetry/ch" + IntToString(ch)
    case Alive => "/alive"
  }

  const Namespace: string := "dt/sinara/booster/"

  /** The prefix under which all of one Booster's topics live. */
  function DevicePrefix(boosterId: string): (prefix: string)
    ensures |prefix| == |Namespace| + |boosterId|
    ensures prefix[..|Namespace|] == Namespace && prefix[|Namespace|..] == boosterId
  {
    Namespace + boosterId
  }

  function Topic(boosterId: string, p: Path): string
  {
    DevicePrefix(boosterId) + Suffix(p)
  }

  /** Splits `s` at the first occurrence of `c`. */
  function SplitFirst(s: string, c: char): (r: Option<(string, string)>)
    ensures r.Some? ==> s == r.value.0 + [c] + r.value.1 && c !in r.value.0
    ensures r.None? ==> c !in s
  {
    if s == [] then None
    else if s[0] == c then Some(([], s[1..]))
    else match SplitFirst(s[1..], c)
      case None => None
      case Some((before, after)) => Some(([s[0]] + before, after))
  }

  lemma {:induction false} SplitFirstAt(before: string, c: char, after: string)
    requires c !in before
    ensures SplitFirst(before + [c] + after, c) == Some((before, after))
  {
    var s := before + [c] + after;
    if before != [] {
      assert s[0] == before[0];
      assert s[1..] == before[1..] + [c] + after;
      SplitFirstAt(before[1..], c, after);
      assert [s[0]] + before[1..] == before;
    }
  }

  predicate StartsWith(s: string, prefix: string)
  {
    |prefix| <= |s| && s[..|prefix|] == prefix
  }

  /** Recovers the path a suffix addresses; it reads back every suffix `Suffix` builds. */
  function ParseSuffix(s: string): Option<Path>
  {
    if s == "/telemetry_period" then Some(TelemetryPeriod)
    else if s == "/fan_speed" then Some(FanSpeed)
    else if s == "/command/save" then Some(CommandSave)
    else if s == "/alive" then Some(Alive)
    else if StartsWith(s, "/telemetry/ch") then
      match ParseInt(s[13..])
      case Some(ch) => Some(Telemetry(ch))
      case None => None
    else if StartsWith(s, "/channel/") then
      match SplitFirst(s[9..], '/')
      case None => None
      case Some((number, segment)) =>
        match (ParseInt(number), ParseParamSegment(segment))
        case (Some(ch), Some(q)) => Some(Channel(ch, q))
        case _ => None
    else None
  }

  lemma ChannelSuffixRoundTrip(ch: int, q: ChannelParam)
    ensures ParseSuffix(Suffix(Channel(ch, q))) == Some(Channel(ch, q))
  {
    var s, number, segment := Suffix(Channel(ch, q)), IntToString(ch), ParamSegment(q);
    assert s[1] == 'c' && s[2] == 'h';
    assert s != "/telemetry_period" && s != "/fan_speed" && s != "/alive";
    assert s != "/command/save";
    assert !StartsWith(s, "/telemetry/ch");
    assert StartsWith(s, "/channel/");
    assert s[9..] == number + ['/'] + segment;
    SplitFirstAt(number, '/', segment);
    IntToStringRoundTrip(ch);
    ParamSegmentRoundTrip(q);
  }

  lemma TelemetrySuffixRoundTrip(ch: int)
    ensures ParseSuffix(Suffix(Telemetry(ch))) == Some(Telemetry(ch))
  {
    var s := Suffix(Telemetry(ch));
    assert s[1] == 't' && s[10] == '/';
    assert s != "/telemetry_period" && s != "/fan_speed" && s != "/alive";
    assert s != "/command/save";
    assert StartsWith(s, "/telemetry/ch");
    assert s[13..] == IntToString(ch);
    IntToStringRoundTrip(ch);
  }

  /** Every suffix the client builds parses back to the operation that built it. */
  lemma SuffixRoundTrip(p: Path)
    ensures ParseSuffix(Suffix(p)) == Some(p)
  {
    match p
    case Channel(ch, q) => ChannelSuffixRoundTrip(ch, q);
    case Telemetry(ch) => TelemetrySuffixRoundTrip(ch);
    case TelemetryPeriod =>
    case FanSpeed =>
    case CommandSave =>
    case Alive =>
  }

  /** Distinct operations never share a topic suffix. */
  lemma SuffixInjective(p: Path, q: Path)
    ensures Suffix(p) == Suffix(q) <==> p == q
  {
    SuffixRoundTrip(p);
    SuffixRoundTrip(q);
  }

  /** Recovers the path from a full topic of the given device. */
  function ParseTopic(boosterId: string, topic: string): Option<Path>
  {
    var prefix := DevicePrefix(boosterId);
    if StartsWith(topic, prefix) then ParseSuffix(topic[|prefix|..]) else None
  }

  lemma TopicRoundTrip(boosterId: string, p: Path)
    ensures ParseTopic(boosterId, Topic(boosterId, p)) == Some(p)
  {
    var prefix, topic := DevicePrefix(boosterId), Topic(boosterId, p);
    assert topic[..|prefix|] == prefix && topic[|prefix|..] == Suffix(p);
    SuffixRoundTrip(p);
  }
}
