/**
 * How the device record is read from and written to the "device"
 * namespace: which key holds which field, what a reload makes of the record,
 * what saveConfig and savePort write, and the record the firmware saves when
 * the namespace is empty.  These are the specification functions the
 * configuration methods of the Audiomatrix class are proved against.
 */
module Persistence {
  import opened CLib
  import opened Nvs
  import opened DeviceModel

  /** The store as a read-only handle sees it: when the namespace was never created, every read fails. */
  function View(store: Store, namespaceExists: bool): (v: Store)
    ensures namespaceExists ==> v == store
    ensures !namespaceExists ==> v == map[]
  {
    if namespaceExists then store else map[]
  }

  /** A stored output class names one of the three classes. */
  predicate ClassSane(s: Store, num: nat)
  {
    OutKey(num, Class) in s && s[OutKey(num, Class)].U8? ==> s[OutKey(num, Class)].v < 3
  }

  /** A stored input port names an existing input. */
  predicate PortSane(s: Store, num: nat)
  {
    OutKey(num, InputPort) in s && s[OutKey(num, InputPort)].U8? ==> s[OutKey(num, InputPort)].v < IN_PORTS as uint8
  }

  /** Every class and input port the firmware may read back is in range. */
  predicate StoreSane(s: Store)
  {
    forall num :: 0 <= num < OUT_PORTS ==> ClassSane(s, num) && PortSane(s, num)
  }

  /**
   * What a reload needs so that it is defined and keeps the record usable:
   * the class each output ends up with indexes the class names, and the
   * input it ends up routed to exists.
   */
  predicate LoadsSane(view: Store, prev: Device)
    requires Shaped(prev)
  {
    forall num :: 0 <= num < OUT_PORTS ==>
      && LoadU8(view, OutKey(num, Class), prev.outputs[num].cls) < 3
      && LoadU8(view, OutKey(num, InputPort), prev.outputs[num].inputPort) < IN_PORTS as uint8
  }

  lemma SaneLoads(s: Store, namespaceExists: bool, prev: Device)
    requires StoreSane(s) && Valid(prev)
    ensures LoadsSane(View(s, namespaceExists), prev)
  {
    var v := View(s, namespaceExists);
    forall num | 0 <= num < OUT_PORTS
      ensures LoadU8(v, OutKey(num, Class), prev.outputs[num].cls) < 3
      ensures LoadU8(v, OutKey(num, InputPort), prev.outputs[num].inputPort) < IN_PORTS as uint8
    {
      assert ClassSane(s, num) && PortSane(s, num);
    }
  }

  // ---------------------------------------------------------------------
  // Reading: inputConfigure, outputConfigure, deviceConfigure

  /** inputConfigure(num): the three names from "in<N>.*", and the formatted name from the name. */
  function LoadInput(view: Store, num: nat, prev: Input): (r: Input)
    requires num < IN_PORTS
    ensures r.num as nat == num
    ensures r.formattedName == SnakeCase(r.name, PORT_NAME_SIZE)
    ensures |r.shortName| < SHORT_NAME_SIZE || r.shortName == prev.shortName
    ensures |r.longName| < LONG_NAME_SIZE || r.longName == prev.longName
  {
    var name := LoadStr(view, InKey(num, Name), PORT_NAME_SIZE, prev.name);
    Input(num as uint8,
          name,
          SnakeCase(name, PORT_NAME_SIZE),
          LoadStr(view, InKey(num, ShortName), SHORT_NAME_SIZE, prev.shortName),
          LoadStr(view, InKey(num, LongName), LONG_NAME_SIZE, prev.longName))
  }

  /**
   * outputConfigure(num) once the device fields are loaded: class, names and
   * input port from "out<N>.*"; formatted name, object id, unique id and
   * command topic derived from them and from the device's formatted name,
   * identifier and state topic.
   */
  function LoadOutput(view: Store, num: nat, deviceFmt: string, identifier: string, stateTopic: string, prev: Output): (r: Output)
    requires num < OUT_PORTS
    requires LoadU8(view, OutKey(num, Class), prev.cls) < 3
    ensures r.num as nat == num && r.cls < 3
    ensures r.formattedName == SnakeCase(r.name, PORT_NAME_SIZE)
    ensures r.objectId == ObjectId(deviceFmt, r.formattedName)
    ensures r.uniqueId == UniqueId(identifier, r.cls, r.formattedName)
    ensures r.commandTopic == CommandTopic(stateTopic, num)
    ensures |r.shortName| < SHORT_NAME_SIZE || r.shortName == prev.shortName
  {
    var cls := LoadU8(view, OutKey(num, Class), prev.cls);
    var name := LoadStr(view, OutKey(num, Name), PORT_NAME_SIZE, prev.name);
    var fmt := SnakeCase(name, PORT_NAME_SIZE);
    Output(cls,
           num as uint8,
           name,
           fmt,
           LoadStr(view, OutKey(num, ShortName), SHORT_NAME_SIZE, prev.shortName),
           LoadStr(view, OutKey(num, LongName), LONG_NAME_SIZE, prev.longName),
           ObjectId(deviceFmt, fmt),
           UniqueId(identifier, cls, fmt),
           CommandTopic(stateTopic, num),
           LoadU8(view, OutKey(num, InputPort), prev.inputPort))
  }

  /** The input loop of deviceConfigure: inputConfigure on every input, each over its own old value. */
  function LoadInputs(view: Store, prev: seq<Input>): (r: seq<Input>)
    requires |prev| == IN_PORTS
    ensures |r| == IN_PORTS
  {
    seq(IN_PORTS, k requires 0 <= k < IN_PORTS => LoadInput(view, k, prev[k]))
  }

  /** Every output's class, once reloaded, indexes the class names. */
  predicate ClassesLoad(view: Store, prev: seq<Output>)
    requires |prev| == OUT_PORTS
  {
    forall k :: 0 <= k < OUT_PORTS ==> LoadU8(view, OutKey(k, Class), prev[k].cls) < 3
  }

  /** The output loop of deviceConfigure: outputConfigure on every output, over the device fields already loaded. */
  function LoadOutputs(view: Store, deviceFmt: string, identifier: string, stateTopic: string, prev: seq<Output>): (r: seq<Output>)
    requires |prev| == OUT_PORTS && ClassesLoad(view, prev)
    ensures |r| == OUT_PORTS
  {
    seq(OUT_PORTS, k requires 0 <= k < OUT_PORTS => LoadOutput(view, k, deviceFmt, identifier, stateTopic, prev[k]))
  }

  /**
   * What deviceConfigure leaves in the static record, given what its
   * read-only handle sees: every field a key holds is replaced (cut to its
   * buffer), every field whose key is missing keeps its old value, the
   * build strings are copied, and the derived fields are recomputed.
   */
  function LoadDevice(b: Build, view: Store, prev: Device): (d: Device)
    requires Shaped(prev) && LoadsSane(view, prev)
    ensures Shaped(d)
  {
    var ident := LoadStr(view, DevKey(Identifier), IDENTIFIER_SIZE, prev.identifier);
    var name := LoadStr(view, DevKey(Name), DEVICE_STR_SIZE, prev.name);
    var fmt := SnakeCase(name, DEVICE_STR_SIZE);
    var stateTopic := LoadStr(view, DevKey(StateTopic), TOPIC_SIZE, prev.stateTopic);
    Device(LoadInputs(view, prev.inputs),
           LoadOutputs(view, fmt, ident, stateTopic, prev.outputs),
           ident,
           name,
           fmt,
           Fit(b.manufacturer, DEVICE_STR_SIZE),
           Fit(b.model, DEVICE_STR_SIZE),
           Fit(b.modelId, DEVICE_STR_SIZE),
           Fit(b.hwVersion, DEVICE_STR_SIZE),
           Fit(b.swVersion, DEVICE_STR_SIZE),
           LoadStr(view, DevKey(ConfUrl), URL_SIZE, prev.configurationUrl),
           stateTopic,
           LoadStr(view, DevKey(HassTopic), TOPIC_SIZE, prev.hassTopic))
  }

  /** A reload keeps the record valid, and routes every output to the stored input or to the one it had. */
  lemma LoadDeviceValid(b: Build, view: Store, prev: Device)
    requires Valid(prev) && LoadsSane(view, prev)
    ensures Valid(LoadDevice(b, view, prev))
    ensures forall k :: 0 <= k < OUT_PORTS ==>
      LoadDevice(b, view, prev).outputs[k].inputPort == LoadU8(view, OutKey(k, InputPort), prev.outputs[k].inputPort)
  {
  }

  // ---------------------------------------------------------------------
  // Writing: saveConfig and savePort

  /** The device keys saveConfig writes; an empty identifier is not written. */
  function SaveDev(s: Store, d: Device): Store
  {
    var s1 := if |d.identifier| > 0 then s[DevKey(Identifier) := Str(d.identifier)] else s;
    s1[DevKey(Name) := Str(d.name)]
      [DevKey(ConfUrl) := Str(d.configurationUrl)]
      [DevKey(StateTopic) := Str(d.stateTopic)]
      [DevKey(HassTopic) := Str(d.hassTopic)]
  }

  /** The device keys of a saved record hold its fields; an empty identifier leaves the old key. */
  lemma SaveDevAt(s: Store, d: Device)
    ensures var r := SaveDev(s, d);
      && (|d.identifier| > 0 ==> DevKey(Identifier) in r && r[DevKey(Identifier)] == Str(d.identifier))
      && (|d.identifier| == 0 ==> Agree(r, s, DevKey(Identifier)))
      && DevKey(Name) in r && r[DevKey(Name)] == Str(d.name)
      && DevKey(ConfUrl) in r && r[DevKey(ConfUrl)] == Str(d.configurationUrl)
      && DevKey(StateTopic) in r && r[DevKey(StateTopic)] == Str(d.stateTopic)
      && DevKey(HassTopic) in r && r[DevKey(HassTopic)] == Str(d.hassTopic)
  {
  }

  /** The keys of one input. */
  function SaveInput(s: Store, num: nat, i: Input): Store
  {
    s[InKey(num, Name) := Str(i.name)]
     [InKey(num, ShortName) := Str(i.shortName)]
     [InKey(num, LongName) := Str(i.longName)]
  }

  /** The keys of one output. */
  function SaveOutput(s: Store, num: nat, o: Output): Store
  {
    s[OutKey(num, Class) := U8(o.cls)]
     [OutKey(num, Name) := Str(o.name)]
     [OutKey(num, ShortName) := Str(o.shortName)]
     [OutKey(num, LongName) := Str(o.longName)]
     [OutKey(num, InputPort) := U8(o.inputPort)]
  }

  /** The first n inputs, in order. */
  function SaveInputs(s: Store, ins: seq<Input>, n: nat): (r: Store)
    requires n <= |ins|
    ensures s.Keys <= r.Keys
  {
    if n == 0 then s else SaveInput(SaveInputs(s, ins, n - 1), n - 1, ins[n - 1])
  }

  /** The first n outputs, in order. */
  function SaveOutputs(s: Store, outs: seq<Output>, n: nat): (r: Store)
    requires n <= |outs|
    ensures s.Keys <= r.Keys
  {
    if n == 0 then s else SaveOutput(SaveOutputs(s, outs, n - 1), n - 1, outs[n - 1])
  }

  /** saveConfig(pdevice) on an open read-write handle: device keys, then inputs, then outputs. */
  function SaveAll(s: Store, d: Device): (r: Store)
    requires Shaped(d)
    ensures s.Keys <= r.Keys
    ensures DevKey(Name) in r && DevKey(StateTopic) in r && DevKey(HassTopic) in r
  {
    SaveOutputs(SaveInputs(SaveDev(s, d), d.inputs, |d.inputs|), d.outputs, |d.outputs|)
  }

  /** savePort(numOutput, numInput) on an open read-write handle: the one key "out<N>.input". */
  function SavePortKey(s: Store, numOutput: nat, numInput: uint8): (r: Store)
    ensures OutKey(numOutput, InputPort) in r && r[OutKey(numOutput, InputPort)] == U8(numInput)
    ensures forall key :: key != OutKey(numOutput, InputPort) ==> Agree(r, s, key)
  {
    s[OutKey(numOutput, InputPort) := U8(numInput)]
  }

  /** Two stores hold the same thing, or nothing, under a key. */
  predicate Agree(a: Store, b: Store, key: Key)
  {
    (key in a <==> key in b) && (key in a ==> a[key] == b[key])
  }

  /** The value of a field name of an input. */
  function InField(i: Input, f: Field): string
  {
    if f == Name then i.name else if f == ShortName then i.shortName else i.longName
  }

  predicate InFieldName(f: Field) { f == Name || f == ShortName || f == LongName }

  /** The value of a field name of an output. */
  function OutField(o: Output, f: Field): Pref
  {
    if f == Class then U8(o.cls)
    else if f == Name then Str(o.name)
    else if f == ShortName then Str(o.shortName)
    else if f == LongName then Str(o.longName)
    else U8(o.inputPort)
  }

  predicate OutFieldName(f: Field)
  {
    PortField(f)
  }

  /** Saving inputs writes "in<N>.*" keys only. */
  lemma {:induction false} SaveInputsKeeps(s: Store, ins: seq<Input>, n: nat, key: Key)
    requires n <= |ins| && !key.InKey?
    ensures Agree(SaveInputs(s, ins, n), s, key)
    decreases n
  {
    if n > 0 {
      SaveInputsKeeps(s, ins, n - 1, key);
    }
  }

  /** After saving, each of the first n inputs' keys holds that input's field. */
  lemma {:induction false} SaveInputsAt(s: Store, ins: seq<Input>, n: nat, k: nat, f: Field)
    requires k < n <= |ins| && InFieldName(f)
    ensures InKey(k, f) in SaveInputs(s, ins, n)
    ensures SaveInputs(s, ins, n)[InKey(k, f)] == Str(InField(ins[k], f))
    decreases n
  {
    if k < n - 1 {
      SaveInputsAt(s, ins, n - 1, k, f);
    } else {
      SaveInputAt(SaveInputs(s, ins, n - 1), k, ins[k], f);
    }
  }

  /** One input's keys hold its fields. */
  lemma SaveInputAt(s: Store, num: nat, i: Input, f: Field)
    requires InFieldName(f)
    ensures InKey(num, f) in SaveInput(s, num, i)
    ensures SaveInput(s, num, i)[InKey(num, f)] == Str(InField(i, f))
  {
  }

  /** Saving outputs writes "out<N>.*" keys only. */
  lemma {:induction false} SaveOutputsKeeps(s: Store, outs: seq<Output>, n: nat, key: Key)
    requires n <= |outs| && !key.OutKey?
    ensures Agree(SaveOutputs(s, outs, n), s, key)
    decreases n
  {
    if n > 0 {
      SaveOutputsKeeps(s, outs, n - 1, key);
    }
  }

  /** One output's keys hold its fields. */
  lemma SaveOutputAt(s: Store, num: nat, o: Output, f: Field)
    requires OutFieldName(f)
    ensures OutKey(num, f) in SaveOutput(s, num, o)
    ensures SaveOutput(s, num, o)[OutKey(num, f)] == OutField(o, f)
  {
  }

  /** Saving one output leaves the keys of the other outputs alone. */
  lemma SaveOutputOther(s: Store, num: nat, o: Output, k: nat, f: Field)
    requires k != num
    ensures Agree(SaveOutput(s, num, o), s, OutKey(k, f))
  {
  }

  /** After saving, each of the first n outputs' keys holds that output's field. */
  lemma {:induction false} SaveOutputsAt(s: Store, outs: seq<Output>, n: nat, k: nat, f: Field)
    requires k < n <= |outs| && OutFieldName(f)
    ensures OutKey(k, f) in SaveOutputs(s, outs, n)
    ensures SaveOutputs(s, outs, n)[OutKey(k, f)] == OutField(outs[k], f)
    decreases n
  {
    if k < n - 1 {
      SaveOutputsAt(s, outs, n - 1, k, f);
      SaveOutputOther(SaveOutputs(s, outs, n - 1), n - 1, outs[n - 1], k, f);
    } else {
      SaveOutputAt(SaveOutputs(s, outs, n - 1), n - 1, outs[n - 1], f);
    }
  }

  /** Where a field of a saved record ends up. */
  lemma SaveAllIn(s: Store, d: Device, k: nat, f: Field)
    requires Shaped(d) && k < IN_PORTS && InFieldName(f)
    ensures InKey(k, f) in SaveAll(s, d) && SaveAll(s, d)[InKey(k, f)] == Str(InField(d.inputs[k], f))
  {
    SaveInputsAt(SaveDev(s, d), d.inputs, |d.inputs|, k, f);
    SaveOutputsKeeps(SaveInputs(SaveDev(s, d), d.inputs, |d.inputs|), d.outputs, |d.outputs|, InKey(k, f));
  }

  lemma SaveAllOut(s: Store, d: Device, k: nat, f: Field)
    requires Shaped(d) && k < OUT_PORTS && OutFieldName(f)
    ensures OutKey(k, f) in SaveAll(s, d) && SaveAll(s, d)[OutKey(k, f)] == OutField(d.outputs[k], f)
  {
    SaveOutputsAt(SaveInputs(SaveDev(s, d), d.inputs, |d.inputs|), d.outputs, |d.outputs|, k, f);
  }

  lemma SaveAllDev(s: Store, d: Device, f: Field)
    requires Shaped(d)
    ensures Agree(SaveAll(s, d), SaveDev(s, d), DevKey(f))
  {
    SaveInputsKeeps(SaveDev(s, d), d.inputs, |d.inputs|, DevKey(f));
    SaveOutputsKeeps(SaveInputs(SaveDev(s, d), d.inputs, |d.inputs|), d.outputs, |d.outputs|, DevKey(f));
  }

  /** Saving a record whose classes and ports are in range leaves a sane store. */
  lemma SaveAllSane(s: Store, d: Device)
    requires Shaped(d)
    requires forall k :: 0 <= k < OUT_PORTS ==> d.outputs[k].cls < 3 && d.outputs[k].inputPort < IN_PORTS as uint8
    ensures StoreSane(SaveAll(s, d))
  {
    forall num | 0 <= num < OUT_PORTS
      ensures ClassSane(SaveAll(s, d), num) && PortSane(SaveAll(s, d), num)
    {
      SaveAllOut(s, d, num, Class);
      SaveAllOut(s, d, num, InputPort);
    }
  }

  /** Writing one port key keeps a store sane when the port exists. */
  lemma SavePortSane(s: Store, numOutput: nat, numInput: uint8)
    requires StoreSane(s) && numInput < IN_PORTS as uint8
    ensures StoreSane(SavePortKey(s, numOutput, numInput))
  {
    var r := SavePortKey(s, numOutput, numInput);
    forall num | 0 <= num < OUT_PORTS
      ensures ClassSane(r, num) && PortSane(r, num)
    {
      assert ClassSane(s, num) && PortSane(s, num);
    }
  }

  // ---------------------------------------------------------------------
  // The save/reload round trip

  /** An input as a reload makes it from its own saved keys. */
  function ReloadedInput(i: Input, num: nat): Input
    requires num < IN_PORTS
  {
    Input(num as uint8, i.name, SnakeCase(i.name, PORT_NAME_SIZE), i.shortName, i.longName)
  }

  /** An output as a reload makes it from its own saved keys. */
  function ReloadedOutput(o: Output, num: nat, deviceFmt: string, identifier: string, stateTopic: string): Output
    requires num < OUT_PORTS && o.cls < 3
  {
    var fmt := SnakeCase(o.name, PORT_NAME_SIZE);
    Output(o.cls, num as uint8, o.name, fmt, o.shortName, o.longName,
           ObjectId(deviceFmt, fmt), UniqueId(identifier, o.cls, fmt), CommandTopic(stateTopic, num), o.inputPort)
  }

  /**
   * The record a reload makes out of a saved one: every field the user set
   * comes back unchanged, the build strings are copied afresh, the derived
   * fields are recomputed, and the identifier is the one given.
   */
  function Reloaded(b: Build, d: Device, identifier: string): (r: Device)
    requires Submittable(d)
    ensures Shaped(r)
  {
    var fmt := SnakeCase(d.name, DEVICE_STR_SIZE);
    Device(seq(IN_PORTS, k requires 0 <= k < IN_PORTS => ReloadedInput(d.inputs[k], k)),
           seq(OUT_PORTS, k requires 0 <= k < OUT_PORTS => ReloadedOutput(d.outputs[k], k, fmt, identifier, d.stateTopic)),
           identifier, d.name, fmt,
           Fit(b.manufacturer, DEVICE_STR_SIZE), Fit(b.model, DEVICE_STR_SIZE), Fit(b.modelId, DEVICE_STR_SIZE),
           Fit(b.hwVersion, DEVICE_STR_SIZE), Fit(b.swVersion, DEVICE_STR_SIZE),
           d.configurationUrl, d.stateTopic, d.hassTopic)
  }

  /** The identifier a reload after saving d finds: d's own, or, when d's is empty, whatever the store held. */
  function SavedIdentifier(s: Store, d: Device, prev: Device): string
  {
    if |d.identifier| > 0 then d.identifier else LoadStr(s, DevKey(Identifier), IDENTIFIER_SIZE, prev.identifier)
  }

  lemma SavedInputReloads(s: Store, d: Device, k: nat, prev: Input)
    requires Submittable(d) && k < IN_PORTS
    ensures LoadInput(SaveAll(s, d), k, prev) == ReloadedInput(d.inputs[k], k)
  {
    SaveAllIn(s, d, k, Name);
    SaveAllIn(s, d, k, ShortName);
    SaveAllIn(s, d, k, LongName);
    assert InputFits(d.inputs[k]);
  }

  lemma SavedOutputReloads(s: Store, d: Device, k: nat, deviceFmt: string, identifier: string, stateTopic: string, prev: Output)
    requires Submittable(d) && k < OUT_PORTS
    ensures LoadU8(SaveAll(s, d), OutKey(k, Class), prev.cls) == d.outputs[k].cls
    ensures LoadU8(SaveAll(s, d), OutKey(k, InputPort), prev.inputPort) == d.outputs[k].inputPort
    ensures LoadOutput(SaveAll(s, d), k, deviceFmt, identifier, stateTopic, prev)
         == ReloadedOutput(d.outputs[k], k, deviceFmt, identifier, stateTopic)
  {
    SaveAllOut(s, d, k, Class);
    SaveAllOut(s, d, k, Name);
    SaveAllOut(s, d, k, ShortName);
    SaveAllOut(s, d, k, LongName);
    SaveAllOut(s, d, k, InputPort);
    assert OutputFits(d.outputs[k]);
  }

  /** The device keys of a saved record read back as its fields. */
  lemma SavedDevReloads(s: Store, d: Device, prev: Device)
    requires Submittable(d)
    ensures LoadStr(SaveAll(s, d), DevKey(Identifier), IDENTIFIER_SIZE, prev.identifier) == SavedIdentifier(s, d, prev)
    ensures LoadStr(SaveAll(s, d), DevKey(Name), DEVICE_STR_SIZE, prev.name) == d.name
    ensures LoadStr(SaveAll(s, d), DevKey(ConfUrl), URL_SIZE, prev.configurationUrl) == d.configurationUrl
    ensures LoadStr(SaveAll(s, d), DevKey(StateTopic), TOPIC_SIZE, prev.stateTopic) == d.stateTopic
    ensures LoadStr(SaveAll(s, d), DevKey(HassTopic), TOPIC_SIZE, prev.hassTopic) == d.hassTopic
  {
    SaveDevAt(s, d);
    SaveAllDev(s, d, Identifier);
    SaveAllDev(s, d, Name);
    SaveAllDev(s, d, ConfUrl);
    SaveAllDev(s, d, StateTopic);
    SaveAllDev(s, d, HassTopic);
  }

  /**
   * Saving a record and reloading it gives the record back: every name,
   * class, route, URL and topic the user set survives, the derived fields
   * are recomputed from them, and an empty identifier leaves the stored one
   * in place.
   */
  lemma SaveThenLoad(b: Build, s: Store, d: Device, prev: Device)
    requires Submittable(d) && Shaped(prev)
    ensures LoadsSane(SaveAll(s, d), prev)
    ensures LoadDevice(b, SaveAll(s, d), prev) == Reloaded(b, d, SavedIdentifier(s, d, prev))
  {
    var v := SaveAll(s, d);
    forall k | 0 <= k < OUT_PORTS
      ensures LoadU8(v, OutKey(k, Class), prev.outputs[k].cls) < 3
      ensures LoadU8(v, OutKey(k, InputPort), prev.outputs[k].inputPort) < IN_PORTS as uint8
    {
      SavedOutputReloads(s, d, k, "", "", "", prev.outputs[k]);
      assert OutputFits(d.outputs[k]);
    }
    SavedDevReloads(s, d, prev);
    var ident := SavedIdentifier(s, d, prev);
    var fmt := SnakeCase(d.name, DEVICE_STR_SIZE);
    var loaded := LoadDevice(b, v, prev);
    var expected := Reloaded(b, d, ident);
    forall k | 0 <= k < IN_PORTS
      ensures loaded.inputs[k] == expected.inputs[k]
    {
      SavedInputReloads(s, d, k, prev.inputs[k]);
    }
    forall k | 0 <= k < OUT_PORTS
      ensures loaded.outputs[k] == expected.outputs[k]
    {
      SavedOutputReloads(s, d, k, fmt, ident, d.stateTopic, prev.outputs[k]);
    }
    assert loaded.inputs == expected.inputs;
    assert loaded.outputs == expected.outputs;
  }

  /** Two views that agree on an input's keys load the same input. */
  lemma LoadInputAgree(a: Store, b: Store, num: nat, prev: Input)
    requires num < IN_PORTS
    requires Agree(a, b, InKey(num, Name)) && Agree(a, b, InKey(num, ShortName)) && Agree(a, b, InKey(num, LongName))
    ensures LoadInput(a, num, prev) == LoadInput(b, num, prev)
  {
  }

  /** Two views that agree on an output's keys other than its input port load the same output but for the port. */
  lemma LoadOutputAgree(a: Store, b: Store, num: nat, fmt: string, ident: string, topic: string, prev: Output)
    requires num < OUT_PORTS
    requires Agree(a, b, OutKey(num, Class)) && Agree(a, b, OutKey(num, Name))
    requires Agree(a, b, OutKey(num, ShortName)) && Agree(a, b, OutKey(num, LongName))
    requires LoadU8(a, OutKey(num, Class), prev.cls) < 3
    ensures LoadU8(b, OutKey(num, Class), prev.cls) < 3
    ensures LoadOutput(a, num, fmt, ident, topic, prev)
         == LoadOutput(b, num, fmt, ident, topic, prev).(inputPort := LoadU8(a, OutKey(num, InputPort), prev.inputPort))
  {
  }

  /** Writing the port key keeps every reload well defined. */
  lemma SavedPortSane(s: Store, num: nat, port: uint8, prev: Device)
    requires Shaped(prev) && LoadsSane(s, prev) && num < OUT_PORTS && port < IN_PORTS as uint8
    ensures LoadsSane(SavePortKey(s, num, port), prev)
  {
    forall k | 0 <= k < OUT_PORTS
      ensures LoadU8(SavePortKey(s, num, port), OutKey(k, Class), prev.outputs[k].cls) < 3
      ensures LoadU8(SavePortKey(s, num, port), OutKey(k, InputPort), prev.outputs[k].inputPort) < IN_PORTS as uint8
    {
    }
  }

  /** Writing the port key changes none of the device fields a reload makes. */
  lemma SavedPortDev(b: Build, s: Store, num: nat, port: uint8, prev: Device)
    requires Shaped(prev) && LoadsSane(s, prev) && num < OUT_PORTS && port < IN_PORTS as uint8
    requires LoadsSane(SavePortKey(s, num, port), prev)
    ensures var before, after := LoadDevice(b, s, prev), LoadDevice(b, SavePortKey(s, num, port), prev);
      after == before.(inputs := after.inputs, outputs := after.outputs)
  {
    PortKeyKeepsDevStr(s, num, port, Identifier, IDENTIFIER_SIZE, prev.identifier);
    PortKeyKeepsDevStr(s, num, port, Name, DEVICE_STR_SIZE, prev.name);
    PortKeyKeepsDevStr(s, num, port, StateTopic, TOPIC_SIZE, prev.stateTopic);
    PortKeyKeepsDevStr(s, num, port, ConfUrl, URL_SIZE, prev.configurationUrl);
    PortKeyKeepsDevStr(s, num, port, HassTopic, TOPIC_SIZE, prev.hassTopic);
  }

  lemma PortKeyKeepsDevStr(s: Store, num: nat, port: uint8, f: Field, cap: nat, prev: string)
    requires cap > 0
    ensures LoadStr(SavePortKey(s, num, port), DevKey(f), cap, prev) == LoadStr(s, DevKey(f), cap, prev)
  {
    assert Agree(SavePortKey(s, num, port), s, DevKey(f));
  }

  /** Writing the port key changes no input a reload makes. */
  lemma SavedPortInputs(b: Build, s: Store, num: nat, port: uint8, prev: Device)
    requires Shaped(prev) && LoadsSane(s, prev) && num < OUT_PORTS && port < IN_PORTS as uint8
    requires LoadsSane(SavePortKey(s, num, port), prev)
    ensures LoadDevice(b, SavePortKey(s, num, port), prev).inputs == LoadDevice(b, s, prev).inputs
  {
    var s' := SavePortKey(s, num, port);
    forall k | 0 <= k < IN_PORTS
      ensures LoadInput(s', k, prev.inputs[k]) == LoadInput(s, k, prev.inputs[k])
    {
      LoadInputAgree(s', s, k, prev.inputs[k]);
    }
  }

  /** Writing the port key changes one output a reload makes, and only its input port. */
  lemma SavedPortOutput(s: Store, num: nat, port: uint8, k: nat, fmt: string, ident: string, topic: string, prev: Output)
    requires num < OUT_PORTS && k < OUT_PORTS && LoadU8(s, OutKey(k, Class), prev.cls) < 3
    ensures LoadU8(SavePortKey(s, num, port), OutKey(k, Class), prev.cls) < 3
    ensures LoadOutput(SavePortKey(s, num, port), k, fmt, ident, topic, prev)
         == if k == num then LoadOutput(s, k, fmt, ident, topic, prev).(inputPort := port)
            else LoadOutput(s, k, fmt, ident, topic, prev)
  {
    LoadOutputAgree(SavePortKey(s, num, port), s, k, fmt, ident, topic, prev);
  }

  lemma SavedPortOutputs(b: Build, s: Store, num: nat, port: uint8, prev: Device)
    requires Shaped(prev) && LoadsSane(s, prev) && num < OUT_PORTS && port < IN_PORTS as uint8
    requires LoadsSane(SavePortKey(s, num, port), prev)
    ensures var before, after := LoadDevice(b, s, prev), LoadDevice(b, SavePortKey(s, num, port), prev);
      after.outputs == before.outputs[num := before.outputs[num].(inputPort := port)]
  {
    var s' := SavePortKey(s, num, port);
    var before, after := LoadDevice(b, s, prev), LoadDevice(b, s', prev);
    SavedPortDev(b, s, num, port, prev);
    forall k | 0 <= k < OUT_PORTS
      ensures after.outputs[k] == if k == num then before.outputs[k].(inputPort := port) else before.outputs[k]
    {
      assert after.outputs[k] == LoadOutput(s', k, before.formattedName, before.identifier, before.stateTopic, prev.outputs[k]);
      assert before.outputs[k] == LoadOutput(s, k, before.formattedName, before.identifier, before.stateTopic, prev.outputs[k]);
      SavedPortOutput(s, num, port, k, before.formattedName, before.identifier, before.stateTopic, prev.outputs[k]);
    }
  }

  /**
   * savePort's key survives a reboot: a reload after it routes that output
   * to the saved input and makes exactly the record a reload before it made
   * otherwise.
   */
  lemma SavedPortReloads(b: Build, s: Store, num: nat, port: uint8, prev: Device)
    requires Shaped(prev) && LoadsSane(s, prev) && num < OUT_PORTS && port < IN_PORTS as uint8
    ensures LoadsSane(SavePortKey(s, num, port), prev)
    ensures var before := LoadDevice(b, s, prev);
      LoadDevice(b, SavePortKey(s, num, port), prev)
        == before.(outputs := before.outputs[num := before.outputs[num].(inputPort := port)])
  {
    SavedPortSane(s, num, port, prev);
    SavedPortDev(b, s, num, port, prev);
    SavedPortInputs(b, s, num, port, prev);
    SavedPortOutputs(b, s, num, port, prev);
  }

  // ---------------------------------------------------------------------
  // setDefaultPreferences

  /** getDeviceId: "0x" and the six MAC bytes as two lower-case hex digits each. */
  function MacId(mac: seq<uint8>): (r: string)
    requires |mac| == 6
    ensures |r| == 14 && r[..2] == "0x"
  {
    "0x" + Hex2(mac[0]) + Hex2(mac[1]) + Hex2(mac[2]) + Hex2(mac[3]) + Hex2(mac[4]) + Hex2(mac[5])
  }

  /** The default classes: output 5 disabled, output 6 a select, the others switches. */
  function DefaultClass(num: nat): (c: uint8)
    ensures c < 3
    ensures c == CLASS_DISABLE <==> num == 4
    ensures c == CLASS_SELECT <==> num == 5
  {
    if num == 4 then CLASS_DISABLE else if num == 5 then CLASS_SELECT else CLASS_SWITCH
  }

  /** The default routing: output 1 from input 2, every other output from input 1. */
  function DefaultPort(num: nat): (p: uint8)
    ensures p < IN_PORTS as uint8
  {
    if num == 0 then 1 else 0
  }

  /** The names setDefaultPreferences gives input k, by snprintf into each buffer. */
  function DefaultInput(i: Input, k: nat): Input
  {
    i.(name := Fit("In" + DecStr(k + 1), PORT_NAME_SIZE),
       shortName := Fit("In" + DecStr(k + 1), SHORT_NAME_SIZE),
       longName := Fit("In" + DecStr(k + 1), LONG_NAME_SIZE))
  }

  /** The class, names and route setDefaultPreferences gives output k. */
  function DefaultOutput(o: Output, k: nat): Output
  {
    o.(cls := DefaultClass(k),
       name := Fit("Out" + DecStr(k + 1), PORT_NAME_SIZE),
       shortName := Fit("Ou" + DecStr(k + 1), SHORT_NAME_SIZE),
       longName := Fit("Out" + DecStr(k + 1), LONG_NAME_SIZE),
       inputPort := DefaultPort(k))
  }

  /**
   * The record setDefaultPreferences saves.  It lives in freshly allocated,
   * uninitialised memory `heap`: the fields the function sets are the
   * identifier (only when the MAC can be read), the name, the two topics,
   * and each port's names, class and route; everything else, the
   * configuration URL included, is whatever `heap` held.
   */
  function DefaultDevice(b: Build, mac: Option<seq<uint8>>, heap: Device): (d: Device)
    requires Shaped(heap) && (mac.Some? ==> |mac.value| == 6)
    ensures Shaped(d)
  {
    var ins := seq(IN_PORTS, k requires 0 <= k < IN_PORTS => DefaultInput(heap.inputs[k], k));
    var outs := seq(OUT_PORTS, k requires 0 <= k < OUT_PORTS => DefaultOutput(heap.outputs[k], k));
    heap.(inputs := ins,
          outputs := outs,
          identifier := if mac.Some? then MacId(mac.value) else heap.identifier,
          name := Fit(b.deviceName, DEVICE_STR_SIZE),
          stateTopic := Fit(b.deviceTopic, TOPIC_SIZE),
          hassTopic := Fit(b.haTopic, TOPIC_SIZE))
  }

  /**
   * The default names are never cut: inputs are "In<N>" in all three names,
   * outputs "Out<N>" with short name "Ou<N>"; classes and routes are in
   * range, so the record can be saved and reloaded.
   */
  lemma DefaultNames(b: Build, mac: Option<seq<uint8>>, heap: Device)
    requires Shaped(heap) && (mac.Some? ==> |mac.value| == 6)
    ensures var d := DefaultDevice(b, mac, heap);
      && (forall k :: 0 <= k < IN_PORTS ==>
            var n := "In" + [Digit(k + 1)];
            d.inputs[k].name == n && d.inputs[k].shortName == n && d.inputs[k].longName == n)
      && (forall k :: 0 <= k < OUT_PORTS ==>
            && d.outputs[k].name == "Out" + [Digit(k + 1)]
            && d.outputs[k].shortName == "Ou" + [Digit(k + 1)]
            && d.outputs[k].longName == "Out" + [Digit(k + 1)]
            && d.outputs[k].cls < 3 && d.outputs[k].inputPort < IN_PORTS as uint8)
  {
    forall j | 1 <= j <= OUT_PORTS
      ensures DecStr(j) == [Digit(j)]
    {
      DecStrSmall(j);
    }
  }

  /** The default routing, as sendOutputToMatrix sees it: output 1 from input 2, outputs 2 to 6 from input 1. */
  lemma DefaultRouting(b: Build, mac: Option<seq<uint8>>, heap: Device)
    requires Shaped(heap) && (mac.Some? ==> |mac.value| == 6)
    ensures Ports(DefaultDevice(b, mac, heap)) == [1, 0, 0, 0, 0, 0]
  {
  }

  /** A device id always fits the identifier buffer: sprintf never overruns it. */
  lemma MacIdFits(mac: seq<uint8>)
    requires |mac| == 6
    ensures |MacId(mac)| < IDENTIFIER_SIZE
  {
  }
}
