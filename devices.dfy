/**
 * The microphone selector: the enumerated devices are filtered to audio
 * inputs once, each becomes an `<option>` whose value is the device id and
 * whose text is its label or a fallback, and the `<select>` shows the
 * selected id.
 */
module DeviceSelector {
  import opened Wrappers

  /** `MediaDeviceInfo.kind`. */
  datatype DeviceKind = AudioInput | AudioOutput | VideoInput

  /** The parts of a `MediaDeviceInfo` the selector reads. */
  datatype Device = Device(deviceId: string, kind: DeviceKind, deviceLabel: string)

  /** One rendered `<option>`: its `value` attribute and its text. */
  datatype SelectOption = SelectOption(value: string, text: string)

  /** The text shown for a device whose label is empty is this prefix followed by its id. */
  const FallbackPrefix: string := "Dispositivo "

  /**
   * `deviceInfos.filter((device) => device.kind === 'audioinput')`: the audio
   * inputs, each as often as it was enumerated, and nothing else. Devices with
   * an empty id (listed before permission is granted) are kept.
   */
  function AudioInputs(ds: seq<Device>): (r: seq<Device>)
    ensures |r| <= |ds|
    ensures forall i :: 0 <= i < |r| ==> r[i].kind == AudioInput
  {
    if ds == [] then []
    else (if ds[0].kind == AudioInput then [ds[0]] else []) + AudioInputs(ds[1..])
  }

  /** Each audio input is kept as often as it was enumerated; every other device is dropped. */
  lemma {:induction false} AudioInputsCount(ds: seq<Device>, d: Device)
    ensures multiset(AudioInputs(ds))[d] == if d.kind == AudioInput then multiset(ds)[d] else 0
  {
    if ds != [] {
      AudioInputsCount(ds[1..], d);
      assert ds == [ds[0]] + ds[1..];
      var head := if ds[0].kind == AudioInput then [ds[0]] else [];
      assert multiset(AudioInputs(ds)) == multiset(head) + multiset(AudioInputs(ds[1..]));
    }
  }

  /** The filter keeps the enumeration order: filtering a concatenation is concatenating the filtered parts. */
  lemma {:induction false} AudioInputsConcat(a: seq<Device>, b: seq<Device>)
    ensures AudioInputs(a + b) == AudioInputs(a) + AudioInputs(b)
  {
    if a == [] {
      assert a + b == b;
    } else {
      assert (a + b)[0] == a[0];
      assert (a + b)[1..] == a[1..] + b;
      AudioInputsConcat(a[1..], b);
    }
  }

  /** Filtering twice is filtering once. */
  lemma {:induction false} AudioInputsIdempotent(ds: seq<Device>)
    ensures AudioInputs(AudioInputs(ds)) == AudioInputs(ds)
  {
    if ds != [] {
      AudioInputsIdempotent(ds[1..]);
      var head := if ds[0].kind == AudioInput then [ds[0]] else [];
      AudioInputsConcat(head, AudioInputs(ds[1..]));
      assert head != [] ==> head[1..] == [];
    }
  }

  /** `device.label || `Dispositivo ${device.deviceId}``: never empty, and the fallback names the id. */
  function OptionText(d: Device): (r: string)
    ensures r != ""
    ensures d.deviceLabel != "" ==> r == d.deviceLabel
    ensures d.deviceLabel == "" ==> |r| == |FallbackPrefix| + |d.deviceId|
    ensures d.deviceLabel == "" ==> r[..|FallbackPrefix|] == FallbackPrefix && r[|FallbackPrefix|..] == d.deviceId
  {
    if d.deviceLabel != "" then d.deviceLabel else FallbackPrefix + d.deviceId
  }

  /** The options of the `<select>`: one per device, in list order, valued by the device id. */
  function Options(ds: seq<Device>): (r: seq<SelectOption>)
    ensures |r| == |ds|
    ensures forall i :: 0 <= i < |ds| ==> r[i].value == ds[i].deviceId && r[i].text == OptionText(ds[i])
  {
    seq(|ds|, i requires 0 <= i < |ds| => SelectOption(ds[i].deviceId, OptionText(ds[i])))
  }

  /** `selectedDeviceId || ''`: empty exactly when nothing (or the empty id) is selected. */
  function SelectValue(selected: Option<string>): (v: string)
    ensures v == "" <==> selected.None? || selected.value == ""
    ensures selected.Some? ==> v == selected.value
  {
    if selected.Some? && selected.value != "" then selected.value else ""
  }

  /** `onChange`: the setter receives the chosen option's value, which is the device id, unchanged. */
  function Choose(o: SelectOption): (id: string)
  {
    o.value
  }

  /** After choosing the i-th option, the `<select>` shows that device's id. */
  lemma ChosenIsShown(ds: seq<Device>, i: nat)
    requires i < |ds|
    ensures Choose(Options(ds)[i]) == ds[i].deviceId
    ensures SelectValue(Some(Choose(Options(ds)[i]))) == ds[i].deviceId
  {
  }
}
