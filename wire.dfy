/** The values the client puts on the wire: the structured payloads handed to the schema codec,
    the two-valued channel state, the channel names of the save command and the calibration record. */
module Wire {
  import opened Wrappers

  /** A structured payload before encoding. Numbers are carried unchanged; the client never
      computes with them. */
  datatype Value =
    | Integer(i: int)
    | Number(x: real)
    | Text(s: string)
    | Record(fields: map<string, Value>)

  /** `v[key]` in Python: a record field, a KeyError for a missing one, a TypeError for a non-record. */
  function Field(v: Value, key: string): (r: Result<Value>)
    ensures r.Success? <==> v.Record? && key in v.fields
    ensures r.Success? ==> r.value == v.fields[key]
    ensures r.Failure? ==> r.error == (if v.Record? then KeyError(key) else TypeError)
  {
    match v
    case Record(fields) => if key in fields then Success(fields[key]) else Failure(KeyError(key))
    case _ => Failure(TypeError)
  }

  function ParseState(s: string): Option<bool>
  {
    if s == "Enabled" then Some(true) else if s == "Off" then Some(false) else None
  }

  /** The wire token for a channel state: exactly one token per state, and no other string
      denotes a state. */
  function StateValue(enabled: bool): (s: string)
    ensures forall t :: ParseState(t) == Some(enabled) <==> t == s
  {
    if enabled then "Enabled" else "Off"
  }

  lemma StateValueInjective(a: bool, b: bool)
    ensures StateValue(a) == StateValue(b) <==> a == b
  {
    assert ParseState(StateValue(a)) == Some(a);
  }

  /** The device's own names for channels 0..7, in order. */
  const ChannelNames: seq<string> := ["Zero", "One", "Two", "Three", "Four", "Five", "Six", "Seven"]

  /** First position of `x` in `s`. */
  function IndexOf<T(==)>(s: seq<T>, x: T): (r: Option<nat>)
    ensures r.Some? ==> r.value < |s| && s[r.value] == x && forall j :: 0 <= j < r.value ==> s[j] != x
    ensures r.None? ==> x !in s
  {
    if s == [] then None
    else if s[0] == x then Some(0)
    else match IndexOf(s[1..], x)
      case None => None
      case Some(i) => Some(i + 1)
  }

  lemma ChannelNamesDistinct()
    ensures |ChannelNames| == 8
    ensures forall i, j :: 0 <= i < j < 8 ==> ChannelNames[i] != ChannelNames[j]
  {
  }

  /** `channel_string[channel]` with Python's list indexing: a negative index counts from the end,
      anything beyond either end raises IndexError. */
  function ChannelStringAsWritten(channel: int): (r: Result<string>)
    ensures r.Success? <==> -8 <= channel < 8
    ensures r.Failure? ==> r.error == IndexError(channel)
    ensures r.Success? ==> r.value == ChannelNames[channel % 8]
  {
    if 0 <= channel < |ChannelNames| then Success(ChannelNames[channel])
    else if -|ChannelNames| <= channel < 0 then Success(ChannelNames[|ChannelNames| + channel])
    else Failure(IndexError(channel))
  }

  /** As written, a save request for channel -1 names the same channel as one for channel 7. */
  lemma NegativeChannelAliases()
    ensures ChannelStringAsWritten(-1) == ChannelStringAsWritten(7) == Success("Seven")
    ensures exists a, b :: a != b && ChannelStringAsWritten(a).Success? && ChannelStringAsWritten(a) == ChannelStringAsWritten(b)
  {
    assert ChannelStringAsWritten(-1) == ChannelStringAsWritten(7);
  }

  /** The channel name of the save command, refusing channel numbers outside 0..7. Each accepted
      number gets its own name, and the name leads back to the number. */
  function SaveChannelName(channel: int): (r: Result<string>)
    ensures r.Success? <==> 0 <= channel < 8
    ensures r.Failure? ==> r.error == ChannelOutOfRange(channel)
    ensures r.Success? ==> IndexOf(ChannelNames, r.value) == Some(channel as nat)
  {
    ChannelNamesDistinct();
    if 0 <= channel < |ChannelNames| then Success(ChannelNames[channel])
    else Failure(ChannelOutOfRange(channel))
  }

  /** The body of the save command: a record naming the channel, `{"channel": name}`. */
  function SavePayload(channel: int): (r: Result<Value>)
    ensures r.Success? <==> 0 <= channel < 8
    ensures r.Success? ==> r.value.Record? && r.value.fields.Keys == {"channel"}
    ensures r.Success? ==> exists name :: Field(r.value, "channel") == Success(Text(name))
                                         && IndexOf(ChannelNames, name) == Some(channel as nat)
    ensures r.Failure? ==> r.error == ChannelOutOfRange(channel)
  {
    match SaveChannelName(channel)
    case Success(name) =>
      var v := Record(map["channel" := Text(name)]);
      assert Field(v, "channel") == Success(Text(name));
      Success(v)
    case Failure(e) => Failure(e)
  }

  /** The calibration record written to a `*_transform` path: exactly the two fields `slope` and
      `offset`, each read back unchanged. */
  function CalibrationPayload(slope: real, offset: real): (v: Value)
    ensures v.Record? && v.fields.Keys == {"slope", "offset"}
    ensures Field(v, "slope") == Success(Number(slope))
    ensures Field(v, "offset") == Success(Number(offset))
  {
    Record(map["slope" := Number(slope), "offset" := Number(offset)])
  }
}
