/** The device chain of one track (src/components/DeviceRack.tsx): an ordered
    list of devices that can be appended, removed, folded open or shut and
    re-parameterised, plus the three lookup tables that fill in a new
    device from its category. */
module DeviceRack {
  import opened Options

  datatype Category = Synth | Drum | Sampler | Reverb | Delay | Eq | Compressor

  datatype DeviceType = Instrument | Effect

  datatype Device = Device(
    id: string,
    name: string,
    deviceType: DeviceType,
    category: Category,
    isExpanded: bool,
    parameters: map<string, real>)

  /** The category as the source spells it, which prefixes a new device's id.
      No key holds a dash, so the id's first dash ends the category. */
  function CategoryKey(c: Category): (key: string)
    ensures |key| > 0 && '-' !in key
  {
    match c
    case Synth => "synth"
    case Drum => "drum"
    case Sampler => "sampler"
    case Reverb => "reverb"
    case Delay => "delay"
    case Eq => "eq"
    case Compressor => "compressor"
  }

  /** `getDeviceName`: the display name of each category. */
  function DeviceName(c: Category): (name: string)
    ensures |name| > 0
  {
    match c
    case Synth => "Operator"
    case Drum => "Drum Rack"
    case Sampler => "Sampler"
    case Reverb => "Reverb"
    case Delay => "Delay"
    case Eq => "EQ Eight"
    case Compressor => "Compressor"
  }

  /** Every category has its own name. */
  lemma DeviceNamesDistinct(c1: Category, c2: Category)
    ensures DeviceName(c1) == DeviceName(c2) <==> c1 == c2
  {
  }

  const Instruments: seq<Category> := [Synth, Drum, Sampler]

  /** `getDeviceType`: instrument exactly for the categories listed as instruments. */
  function DeviceTypeOf(c: Category): (t: DeviceType)
    ensures t == Instrument <==> c == Synth || c == Drum || c == Sampler
  {
    if c in Instruments then Instrument else Effect
  }

  /** The device browser's two menus (src/components/DeviceBrowser.tsx). */
  const BrowserInstruments: seq<(Category, string)> :=
    [(Synth, "Operator"), (Drum, "Drum Rack"), (Sampler, "Sampler")]
  const BrowserEffects: seq<(Category, string)> :=
    [(Reverb, "Reverb"), (Delay, "Delay"), (Eq, "EQ Eight"), (Compressor, "Compressor")]

  /** The browser offers every category exactly once, under the menu that
      matches `getDeviceType` and with the name `getDeviceName` gives it. */
  lemma BrowserAgreesWithTables(c: Category)
    ensures DeviceTypeOf(c) == Instrument <==> (c, DeviceName(c)) in BrowserInstruments
    ensures DeviceTypeOf(c) == Effect <==> (c, DeviceName(c)) in BrowserEffects
    ensures forall e :: e in BrowserInstruments + BrowserEffects && e.0 == c ==> e.1 == DeviceName(c)
  {
  }

  /** `getDefaultParameters`: four named parameters for the categories that
      have a panel, none for the others. */
  function DefaultParameters(c: Category): (p: map<string, real>)
    ensures c in {Synth, Drum, Sampler, Reverb} ==> |p.Keys| == 4
    ensures c in {Delay, Eq, Compressor} ==> p == map[]
  {
    match c
    case Synth => map["ratio" := 1.0, "frequency" := 440.0, "level" := 50.0, "envelope" := 50.0]
    case Drum => map["kick" := 75.0, "snare" := 70.0, "hihat" := 60.0, "swing" := 0.0]
    case Sampler => map["tune" := 0.0, "volume" := 75.0, "filter" := 50.0, "decay" := 50.0]
    case Reverb => map["size" := 50.0, "decay" := 40.0, "damping" := 30.0, "mix" := 25.0]
    case _ => map[]
  }

  /** The device a browser pick creates. `stamp` stands for the clock
      reading the source appends to the id. */
  function NewDevice(c: Category, stamp: string): (d: Device)
    ensures d.id == CategoryKey(c) + "-" + stamp
    ensures d.category == c && d.isExpanded
    ensures d.name == DeviceName(c) && d.deviceType == DeviceTypeOf(c)
    ensures d.parameters == DefaultParameters(c)
  {
    Device(CategoryKey(c) + "-" + stamp, DeviceName(c), DeviceTypeOf(c), c, true, DefaultParameters(c))
  }

  /** The panel the rack draws under a device's header. */
  datatype Panel = OperatorPanel | DrumRackPanel | SamplerPanel | ReverbPanel | NotImplemented

  /** `device.isExpanded && renderDevice(device)`: nothing when folded;
      otherwise the category's panel, or the "not implemented" notice. */
  function PanelOf(d: Device): (p: Option<Panel>)
    ensures p == None <==> !d.isExpanded
    ensures d.isExpanded && d.category == Synth ==> p == Some(OperatorPanel)
    ensures d.isExpanded && d.category == Drum ==> p == Some(DrumRackPanel)
    ensures d.isExpanded && d.category == Sampler ==> p == Some(SamplerPanel)
    ensures d.isExpanded && d.category == Reverb ==> p == Some(ReverbPanel)
    ensures p == Some(NotImplemented) <==> d.isExpanded && DefaultParameters(d.category) == map[]
  {
    if !d.isExpanded then None
    else
      match d.category
      case Synth => Some(OperatorPanel)
      case Drum => Some(DrumRackPanel)
      case Sampler => Some(SamplerPanel)
      case Reverb => Some(ReverbPanel)
      case _ => Some(NotImplemented)
  }

  /** `filter(d => d.id !== id)`: drops every device with that id. */
  function Without(ds: seq<Device>, id: string): (r: seq<Device>)
    ensures |r| <= |ds|
    ensures forall d :: d in r <==> d in ds && d.id != id
    ensures (forall d :: d in ds ==> d.id != id) ==> r == ds
  {
    if ds == [] then []
    else if ds[0].id == id then Without(ds[1..], id)
    else [ds[0]] + Without(ds[1..], id)
  }

  /** Removal keeps the survivors in their order: filtering a concatenation
      filters each part in place. */
  lemma {:induction false} WithoutAppend(a: seq<Device>, b: seq<Device>, id: string)
    ensures Without(a + b, id) == Without(a, id) + Without(b, id)
  {
    if a == [] {
      assert a + b == b;
    } else {
      assert (a + b)[0] == a[0] && (a + b)[1..] == a[1..] + b;
      WithoutAppend(a[1..], b, id);
    }
  }

  /** Removing the same id twice is the same as removing it once. */
  lemma WithoutIdempotent(ds: seq<Device>, id: string)
    ensures Without(Without(ds, id), id) == Without(ds, id)
  {
  }

  /** Devices other than `d` agree with `d` on every field but `isExpanded`. */
  predicate SameButExpanded(d: Device, e: Device)
  {
    d.(isExpanded := e.isExpanded) == e
  }

  /** `map(d => d.id === id ? {...d, isExpanded: !d.isExpanded} : d)`. */
  function ToggleExpanded(ds: seq<Device>, id: string): (r: seq<Device>)
    ensures |r| == |ds|
    ensures forall i :: 0 <= i < |ds| ==>
              SameButExpanded(ds[i], r[i]) && (r[i].isExpanded != ds[i].isExpanded <==> ds[i].id == id)
  {
    if ds == [] then []
    else
      var d := ds[0];
      [if d.id == id then d.(isExpanded := !d.isExpanded) else d] + ToggleExpanded(ds[1..], id)
  }

  /** Folding the same device twice restores the chain. */
  lemma ToggleTwice(ds: seq<Device>, id: string)
    ensures ToggleExpanded(ToggleExpanded(ds, id), id) == ds
  {
    var r := ToggleExpanded(ToggleExpanded(ds, id), id);
    assert forall i :: 0 <= i < |ds| ==> r[i] == ds[i];
  }

  /** `map(d => d.id === id ? {...d, parameters: {...d.parameters, [key]: value}} : d)`. */
  function SetParameter(ds: seq<Device>, id: string, key: string, value: real): (r: seq<Device>)
    ensures |r| == |ds|
    ensures forall i :: 0 <= i < |ds| && ds[i].id != id ==> r[i] == ds[i]
    ensures forall i :: 0 <= i < |ds| && ds[i].id == id ==>
              && r[i].(parameters := ds[i].parameters) == ds[i]
              && r[i].parameters.Keys == ds[i].parameters.Keys + {key}
              && r[i].parameters[key] == value
              && forall k :: k in ds[i].parameters && k != key ==> r[i].parameters[k] == ds[i].parameters[k]
  {
    if ds == [] then []
    else
      var d := ds[0];
      [if d.id == id then d.(parameters := d.parameters[key := value]) else d]
        + SetParameter(ds[1..], id, key, value)
  }

  /** Setting a parameter twice keeps only the second value. */
  lemma SetParameterLastWins(ds: seq<Device>, id: string, key: string, v1: real, v2: real)
    ensures SetParameter(SetParameter(ds, id, key, v1), id, key, v2) == SetParameter(ds, id, key, v2)
  {
    var r, s := SetParameter(SetParameter(ds, id, key, v1), id, key, v2), SetParameter(ds, id, key, v2);
    forall i | 0 <= i < |ds|
      ensures r[i] == s[i]
    {
      if ds[i].id == id {
        assert r[i].parameters == s[i].parameters;
      }
    }
  }

  /** The rack's component state: the device chain and whether the device
      browser is open. */
  class Rack {
    var devices: seq<Device>
    var showBrowser: bool

    constructor ()
      ensures devices == [] && !showBrowser
    {
      devices := [];
      showBrowser := false;
    }

    /** The "+" buttons open the browser. */
    method OpenBrowser()
      modifies this
      ensures showBrowser && devices == old(devices)
    {
      showBrowser := true;
    }

    /** The browser's close button. */
    method CloseBrowser()
      modifies this
      ensures !showBrowser && devices == old(devices)
    {
      showBrowser := false;
    }

    /** `handleDeviceAdd`: appends the new device, reports it to the host and
        closes the browser. */
    method Add(c: Category, stamp: string) returns (added: Device)
      modifies this
      ensures added == NewDevice(c, stamp)
      ensures devices == old(devices) + [added]
      ensures !showBrowser
    {
      added := NewDevice(c, stamp);
      devices := devices + [added];
      showBrowser := false;
    }

    /** `handleDeviceRemove`. */
    method Remove(id: string)
      modifies this
      ensures devices == Without(old(devices), id)
      ensures showBrowser == old(showBrowser)
    {
      devices := Without(devices, id);
    }

    /** `handleDeviceToggle`. */
    method Toggle(id: string)
      modifies this
      ensures devices == ToggleExpanded(old(devices), id)
      ensures showBrowser == old(showBrowser)
    {
      devices := ToggleExpanded(devices, id);
    }

    /** `handleParameterChange`. */
    method ChangeParameter(id: string, key: string, value: real)
      modifies this
      ensures devices == SetParameter(old(devices), id, key, value)
      ensures showBrowser == old(showBrowser)
    {
      devices := SetParameter(devices, id, key, value);
    }
  }
}
