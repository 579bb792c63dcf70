/** Microphone enumeration, default selection, option labels and the capture
    constraint built from the selection. */
module Devices {

  /** The fields of `MediaDeviceInfo` the component reads. */
  datatype DeviceInfo = DeviceInfo(deviceId: string, kind: string, labelText: string)

  const AudioInputKind: string := "audioinput"

  predicate IsMicrophone(d: DeviceInfo) {
    d.kind == AudioInputKind
  }

  /** `devices.filter(device => device.kind === 'audioinput')` */
  function Microphones(devices: seq<DeviceInfo>): (mics: seq<DeviceInfo>)
    ensures |mics| <= |devices|
    ensures forall d :: d in mics <==> d in devices && IsMicrophone(d)
  {
    if |devices| == 0 then []
    else if IsMicrophone(devices[0]) then [devices[0]] + Microphones(devices[1..])
    else Microphones(devices[1..])
  }

  /** Filtering a concatenation filters each part and keeps their order, so
      the microphones appear in the order the platform listed them. */
  lemma {:induction false} MicrophonesAppend(a: seq<DeviceInfo>, b: seq<DeviceInfo>)
    ensures Microphones(a + b) == Microphones(a) + Microphones(b)
    decreases |a|
  {
    if |a| > 0 {
      assert (a + b)[1..] == a[1..] + b;
      MicrophonesAppend(a[1..], b);
    } else {
      assert a + b == b;
    }
  }

  /** Every microphone keeps its multiplicity; every other device is dropped. */
  lemma {:induction false} MicrophonesCount(devices: seq<DeviceInfo>, d: DeviceInfo)
    ensures multiset(Microphones(devices))[d] == if IsMicrophone(d) then multiset(devices)[d] else 0
    decreases |devices|
  {
    if |devices| > 0 {
      MicrophonesCount(devices[1..], d);
      assert devices == [devices[0]] + devices[1..];
      assert multiset(devices) == multiset([devices[0]]) + multiset(devices[1..]);
    }
  }

  /** Filtering an already filtered list changes nothing. */
  lemma {:induction false} MicrophonesIdempotent(devices: seq<DeviceInfo>)
    ensures Microphones(Microphones(devices)) == Microphones(devices)
    decreases |devices|
  {
    if |devices| > 0 {
      MicrophonesIdempotent(devices[1..]);
      if IsMicrophone(devices[0]) {
        var rest := Microphones(devices[1..]);
        assert ([devices[0]] + rest)[1..] == rest;
      }
    }
  }

  /** After an enumeration the selection defaults to the first microphone's
      id, but only when nothing was selected and a microphone exists. */
  function DefaultSelection(selected: string, mics: seq<DeviceInfo>): (r: string)
    ensures selected != "" ==> r == selected
    ensures |mics| == 0 ==> r == selected
    ensures selected == "" && |mics| > 0 ==> r == mics[0].deviceId
  {
    if |mics| > 0 && selected == "" then mics[0].deviceId else selected
  }

  /** Defaulting twice against the same list is defaulting once, and a changed
      selection always names a listed microphone. */
  lemma DefaultSelectionStable(selected: string, mics: seq<DeviceInfo>)
    ensures DefaultSelection(DefaultSelection(selected, mics), mics) == DefaultSelection(selected, mics)
    ensures DefaultSelection(selected, mics) != selected ==>
              exists i :: 0 <= i < |mics| && mics[i].deviceId == DefaultSelection(selected, mics)
  {
    if DefaultSelection(selected, mics) != selected {
      assert mics[0].deviceId == DefaultSelection(selected, mics);
    }
  }

  const FallbackPrefix: string := "Microphone "
  const FallbackSuffix: string := "..."
  const FallbackIdChars: nat := 8

  /** `s.slice(0, n)` for a non-negative `n` */
  function Take(s: string, n: nat): (r: string)
    ensures |r| == if |s| < n then |s| else n
    ensures r == s[..|r|]
  {
    if |s| <= n then s else s[..n]
  }

  /** The text of a microphone's option: its label, or when the platform
      withholds the label, a name built from the first eight id characters. */
  function MicLabel(d: DeviceInfo): (r: string)
    ensures d.labelText != "" ==> r == d.labelText
    ensures d.labelText == "" ==>
              && |r| == |FallbackPrefix| + |Take(d.deviceId, FallbackIdChars)| + |FallbackSuffix|
              && r[..|FallbackPrefix|] == FallbackPrefix
              && r[|r| - |FallbackSuffix|..] == FallbackSuffix
              && r[|FallbackPrefix|..|r| - |FallbackSuffix|] == Take(d.deviceId, FallbackIdChars)
  {
    if d.labelText != "" then d.labelText
    else
      var r := FallbackPrefix + Take(d.deviceId, FallbackIdChars) + FallbackSuffix;
      assert r[|FallbackPrefix|..|r| - |FallbackSuffix|] == Take(d.deviceId, FallbackIdChars);
      r
  }

  /** Two unlabelled microphones show the same option text exactly when their
      ids agree on the first eight characters (or are equal when shorter). */
  lemma MicLabelCollision(a: DeviceInfo, b: DeviceInfo)
    requires a.labelText == "" && b.labelText == ""
    ensures MicLabel(a) == MicLabel(b) <==> Take(a.deviceId, FallbackIdChars) == Take(b.deviceId, FallbackIdChars)
  {
    var ra, rb := MicLabel(a), MicLabel(b);
    if ra == rb {
      assert |Take(a.deviceId, FallbackIdChars)| == |Take(b.deviceId, FallbackIdChars)|;
      assert ra[|FallbackPrefix|..|ra| - |FallbackSuffix|] == rb[|FallbackPrefix|..|rb| - |FallbackSuffix|];
    }
  }

  /** The `audio` member of the `getUserMedia` constraints. */
  datatype AudioConstraint = AnyMicrophone | ExactDevice(deviceId: string)

  /** `selectedMicId() ? { deviceId: { exact: selectedMicId() } } : true` */
  function CaptureConstraint(selected: string): (c: AudioConstraint)
    ensures c.ExactDevice? <==> selected != ""
    ensures c.ExactDevice? ==> c.deviceId == selected
  {
    if selected != "" then ExactDevice(selected) else AnyMicrophone
  }
}
