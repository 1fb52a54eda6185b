/**
 * The audio matrix component: the static device record, the "device"
 * namespace behind it, the mutex that guards both, and the relays, the
 * display and the event loop its operations drive.
 *
 * The mutex is a flag: taking it fails exactly when it is already taken,
 * which, the component being driven one call at a time here, happens only
 * after saveConfig or savePort has left it taken.  Whether nvsOpen on a
 * read-write handle succeeds is a parameter of the operations that open
 * one.  Posted events are appended to `notices`.
 */
module Audiomatrix {
  import opened CLib
  import opened Nvs
  import opened DeviceModel
  import opened Routing
  import opened Persistence
  import opened Representation
  import opened MatrixRelay
  import opened MatrixLcd

  /** The events the component posts: config changed (with the record), port changed, and the LED colour at start-up. */
  datatype Notice = ConfigChanged(device: Device) | PortChanged(num: nat) | LedColor(red: nat, green: nat, blue: nat)

  const LINE_SIZE: nat := 9

  // ---------------------------------------------------------------------
  // The display

  /** The display line of an output: "<output short name>:<input short name> ". */
  function DisplayLine(d: Device, num: nat): (line: string)
    requires DeviceModel.Valid(d) && num < OUT_PORTS
    ensures |line| < LINE_SIZE && NulFree(line) && CStr(line) == line
  {
    CLenNulFree(CStr(d.outputs[num].shortName) + ":" + CStr(d.inputs[d.outputs[num].inputPort].shortName) + " ");
    CStr(d.outputs[num].shortName) + ":" + CStr(d.inputs[d.outputs[num].inputPort].shortName) + " "
  }

  /** The column of an output's line, (num % 2) * 8: even outputs on the left, odd ones on the right. */
  function DisplayColumn(num: nat): (col: bv8)
    ensures num % 2 == 0 <==> col == 0
  {
    if num % 2 == 0 then 0 else 8
  }

  /** The row asked for an output's line, num / 2. */
  function DisplayRow(num: nat): (row: bv8)
    requires num < OUT_PORTS
    ensures row as nat == num / 2
  {
    if num < 2 then 0 else if num < 4 then 1 else 2
  }

  /** The cursor command of an output's line: two lines per row, eight columns each. */
  function DisplayCursor(c: Codes, num: nat): bv8
    requires num < OUT_PORTS
  {
    CursorCommand(c, DisplayColumn(num), DisplayRow(num))
  }

  /** The identifier audiomatrixInit reads: none when the namespace or its key is missing. */
  function StoredIdentifier(store: Store, namespaceExists: bool): (r: Option<string>)
    ensures r.Some? <==> namespaceExists && DevKey(Identifier) in store && store[DevKey(Identifier)].Str?
  {
    if namespaceExists then GetStr(store, DevKey(Identifier), IDENTIFIER_SIZE) else None
  }

  /** What sendOutputToDispaly sends for the first n outputs: a cursor command and the line of each. */
  function DisplayBytes(c: Codes, d: Device, n: nat): (r: seq<bv8>)
    requires DeviceModel.Valid(d) && n <= OUT_PORTS
    ensures |r| >= 6 * n
  {
    if n == 0 then []
    else DisplayBytes(c, d, n - 1) + ByteBytes(c, DisplayCursor(c, n - 1), c.command) + TextBytes(c, DisplayLine(d, n - 1))
  }

  /** What sendOutputToDispaly sends: the cursor command and the line of every output, in output order. */
  function DisplayAll(c: Codes, d: Device): (r: seq<bv8>)
    requires DeviceModel.Valid(d)
    ensures |r| >= 6 * OUT_PORTS
  {
    DisplayBytes(c, d, |d.outputs|)
  }

  /** What the display shows depends on the short names and the routing only. */
  predicate SameFaces(a: Device, b: Device)
    requires Shaped(a) && Shaped(b)
  {
    && (forall k :: 0 <= k < IN_PORTS ==> a.inputs[k].shortName == b.inputs[k].shortName)
    && (forall k :: 0 <= k < OUT_PORTS ==> a.outputs[k].shortName == b.outputs[k].shortName)
    && Ports(a) == Ports(b)
  }

  lemma {:induction false} DisplayDependsOnFaces(c: Codes, a: Device, b: Device, n: nat)
    requires DeviceModel.Valid(a) && DeviceModel.Valid(b) && n <= OUT_PORTS && SameFaces(a, b)
    ensures DisplayBytes(c, a, n) == DisplayBytes(c, b, n)
    decreases n
  {
    if n > 0 {
      DisplayDependsOnFaces(c, a, b, n - 1);
      SameFacesLine(a, b, n - 1);
    }
  }

  lemma SameFacesLine(a: Device, b: Device, num: nat)
    requires DeviceModel.Valid(a) && DeviceModel.Valid(b) && num < OUT_PORTS && SameFaces(a, b)
    ensures DisplayLine(a, num) == DisplayLine(b, num)
  {
    var p := a.outputs[num].inputPort;
    assert p == Ports(a)[num] == Ports(b)[num] == b.outputs[num].inputPort;
    assert a.outputs[num].shortName == b.outputs[num].shortName;
    assert a.inputs[p].shortName == b.inputs[p].shortName;
  }

  /**
   * The display has two rows: the cursor of outputs 5 and 6 is clamped onto
   * the row of outputs 3 and 4, so their lines are written over those.
   */
  lemma LastRowsOverwrite(c: Codes)
    ensures DisplayCursor(c, 4) == DisplayCursor(c, 2)
    ensures DisplayCursor(c, 5) == DisplayCursor(c, 3)
  {
    assert CursorRow(2) == 1 && CursorRow(1) == 1;
  }

  /** The characters of a line can be read back from the bytes it was sent as. */
  lemma DisplayLineReadsBack(c: Codes, d: Device, num: nat, k: nat)
    requires DeviceModel.Valid(d) && num < OUT_PORTS && LowControls(c)
    requires k < |DisplayLine(d, num)|
    ensures DecodeByte(TextBytes(c, DisplayLine(d, num))[6 * k..]) == CharByte(DisplayLine(d, num)[k])
  {
    TextBytesDecode(c, DisplayLine(d, num), k);
  }

  // ---------------------------------------------------------------------
  // Routing updates

  /** The record after setPort: one output routed to another input, nothing else changed. */
  function Routed(d: Device, numOutput: nat, numInput: uint8): (r: Device)
    requires Shaped(d) && numOutput < OUT_PORTS
    ensures Shaped(r)
  {
    d.(outputs := d.outputs[numOutput := d.outputs[numOutput].(inputPort := numInput)])
  }

  /** Rerouting changes the routing at that output only, and keeps the record valid. */
  lemma RoutedPorts(d: Device, numOutput: nat, numInput: uint8)
    requires DeviceModel.Valid(d) && numOutput < OUT_PORTS && numInput < IN_PORTS as uint8
    ensures Ports(Routed(d, numOutput, numInput)) == Ports(d)[numOutput := numInput]
    ensures DeviceModel.Valid(Routed(d, numOutput, numInput))
  {
  }

  /** Rerouting outputs 5 and 6 leaves the relay word as it was: only outputs 1 to 4 have relays. */
  lemma RoutedBeyondRelays(d: Device, numOutput: nat, numInput: uint8)
    requires DeviceModel.Valid(d) && 4 <= numOutput < OUT_PORTS
    ensures RelayWord(Ports(Routed(d, numOutput, numInput))) == RelayWord(Ports(d))
  {
    var p, q := Ports(Routed(d, numOutput, numInput)), Ports(d);
    assert p[..4] == q[..4];
    OnlyFirstFourOutputs(p, q);
  }

  /** Rerouting one of outputs 1 to 4 shows in its own nibble of the relay word. */
  lemma RoutedRelayNibble(d: Device, numOutput: nat, numInput: uint8)
    requires DeviceModel.Valid(d) && numOutput < 4
    ensures NibbleOf(RelayWord(Ports(Routed(d, numOutput, numInput))), numOutput) == Nibble(numOutput, numInput)
  {
    NibbleOfRelayWord(Ports(Routed(d, numOutput, numInput)), numOutput);
  }

  /** toSnakeCase into a fresh buffer of `size` bytes, returned as the C string it holds. */
  method FormatName(src: string, size: nat) returns (r: string)
    requires size >= 1
    ensures r == SnakeCase(src, size)
  {
    var buf := new char[size](_ => '\0');
    ToSnakeCase(buf, src);
    r := buf[..Min(CLen(src), size - 1)];
  }

  /** The record setDefaultPreferences fills in before saving it: factory names, classes and routes over the fresh memory `heap`. */
  method DefaultRecord(b: Build, mac: Option<seq<uint8>>, heap: Device) returns (d: Device)
    requires Shaped(heap) && (mac.Some? ==> |mac.value| == 6)
    ensures d == DefaultDevice(b, mac, heap)
  {
    d := heap;
    if mac.Some? {
      d := d.(identifier := MacId(mac.value));
    }
    d := d.(name := Fit(b.deviceName, DEVICE_STR_SIZE));
    d := d.(stateTopic := Fit(b.deviceTopic, TOPIC_SIZE));
    d := d.(hassTopic := Fit(b.haTopic, TOPIC_SIZE));
    ghost var head := d;
    var num := 0;
    while num < IN_PORTS
      invariant 0 <= num <= IN_PORTS && Shaped(d)
      invariant forall k :: 0 <= k < num ==> d.inputs[k] == DefaultInput(heap.inputs[k], k)
      invariant forall k :: num <= k < IN_PORTS ==> d.inputs[k] == heap.inputs[k]
      invariant d == head.(inputs := d.inputs)
    {
      var input := d.inputs[num];
      input := input.(name := Fit("In" + DecStr(num + 1), PORT_NAME_SIZE));
      input := input.(shortName := Fit("In" + DecStr(num + 1), SHORT_NAME_SIZE));
      input := input.(longName := Fit("In" + DecStr(num + 1), LONG_NAME_SIZE));
      d := d.(inputs := d.inputs[num := input]);
      num := num + 1;
    }
    ghost var middle := d;
    num := 0;
    while num < OUT_PORTS
      invariant 0 <= num <= OUT_PORTS && Shaped(d)
      invariant forall k :: 0 <= k < num ==> d.outputs[k] == DefaultOutput(heap.outputs[k], k)
      invariant forall k :: num <= k < OUT_PORTS ==> d.outputs[k] == heap.outputs[k]
      invariant d == middle.(outputs := d.outputs)
    {
      var output := d.outputs[num];
      if num == 4 {
        output := output.(cls := CLASS_DISABLE);
      } else if num == 5 {
        output := output.(cls := CLASS_SELECT);
      } else {
        output := output.(cls := CLASS_SWITCH);
      }
      output := output.(name := Fit("Out" + DecStr(num + 1), PORT_NAME_SIZE));
      output := output.(shortName := Fit("Ou" + DecStr(num + 1), SHORT_NAME_SIZE));
      output := output.(longName := Fit("Out" + DecStr(num + 1), LONG_NAME_SIZE));
      if num == 0 {
        output := output.(inputPort := 1);
      } else {
        output := output.(inputPort := 0);
      }
      d := d.(outputs := d.outputs[num := output]);
      num := num + 1;
    }
    assert d.inputs == DefaultDevice(b, mac, heap).inputs;
    assert d.outputs == DefaultDevice(b, mac, heap).outputs;
  }

  class Audiomatrix {
    const build: Build
    const relay: Relay
    const lcd: Lcd
    var device: Device
    var store: Store
    var namespaceExists: bool
    var locked: bool
    var notices: seq<Notice>

    /** The record is usable and every class and input the store may give back is in range. */
    predicate Valid()
      reads this
    {
      DeviceModel.Valid(device) && StoreSane(store)
    }

    /** The static record before start-up, over the flash contents found at boot. */
    constructor(build: Build, relay: Relay, lcd: Lcd, store: Store, namespaceExists: bool)
      requires StoreSane(store)
      ensures Valid()
      ensures this.build == build && this.relay == relay && this.lcd == lcd
      ensures this.store == store && this.namespaceExists == namespaceExists
      ensures device == ZeroDevice() && !locked && notices == []
    {
      this.build := build;
      this.relay := relay;
      this.lcd := lcd;
      device := ZeroDevice();
      this.store := store;
      this.namespaceExists := namespaceExists;
      locked := false;
      notices := [];
    }

    /** After the record changed: the relays got its word, the display its lines, and one event was posted. */
    twostate predicate Announced(n: Notice)
      reads this, relay, lcd
    {
      && DeviceModel.Valid(device)
      && relay.transmitted == old(relay.transmitted) + [RelayWord(Ports(device)) as uint16]
      && relay.log == old(relay.log) + Relay.LogLines([RelayWord(Ports(device)) as uint16], 1)
      && lcd.sent == old(lcd.sent) + DisplayAll(lcd.codes, device)
      && notices == old(notices) + [n]
    }

    /** What the boot sends out once the record is set: its relay word and its display lines. */
    twostate predicate Shown()
      reads this, relay, lcd
    {
      && DeviceModel.Valid(device)
      && relay.transmitted == old(relay.transmitted) + [RelayWord(Ports(device)) as uint16]
      && relay.log == old(relay.log) + Relay.LogLines([RelayWord(Ports(device)) as uint16], 1)
      && lcd.sent == old(lcd.sent) + DisplayAll(lcd.codes, device)
    }

    /** A refused save: nothing but the lock changed, and the lock is left taken. */
    twostate predicate Refused()
      reads this, relay, lcd
    {
      && device == old(device) && store == old(store) && namespaceExists == old(namespaceExists)
      && notices == old(notices) && unchanged(relay, lcd)
      && locked
    }

    /** saveConfig's success: the store holds the saved record, the lock is free, and the record is reloaded from it. */
    twostate predicate ConfigSaved(d: Device)
      requires Shaped(d)
      reads this, relay, lcd
    {
      && store == SaveAll(old(store), d) && namespaceExists && !locked
      && Shaped(old(device)) && LoadsSane(store, old(device))
      && device == LoadDevice(build, store, old(device))
      && Announced(ConfigChanged(device))
    }

    /** savePort's success: the one key is written, the lock is free, and the output is rerouted. */
    twostate predicate PortSaved(numOutput: nat, numInput: uint8)
      requires numOutput < OUT_PORTS
      reads this, relay, lcd
    {
      && store == SavePortKey(old(store), numOutput, numInput) && namespaceExists && !locked
      && Shaped(old(device)) && device == Routed(old(device), numOutput, numInput)
      && Announced(PortChanged(numOutput))
    }

    /** sendOutputToMatrix: the complement of the packed routing, as one relay transaction. */
    method SendOutputToMatrix()
      requires DeviceModel.Valid(device)
      modifies relay
      ensures relay.transmitted == old(relay.transmitted) + [RelayWord(Ports(device)) as uint16]
      ensures relay.log == old(relay.log) + Relay.LogLines([RelayWord(Ports(device)) as uint16], 1)
    {
      var shift := PackRouting(Ports(device));
      shift := !shift;
      relay.SendToRelay([shift as uint16], 1);
    }

    /** sendOutputToDispaly: each output's line at its place on the display. */
    method SendOutputToDisplay()
      requires DeviceModel.Valid(device)
      modifies lcd
      ensures lcd.sent == old(lcd.sent) + DisplayAll(lcd.codes, device)
    {
      var d, c := device, lcd.codes;
      ghost var start := lcd.sent;
      var num := 0;
      while num < OUT_PORTS
        invariant 0 <= num <= OUT_PORTS
        invariant lcd.sent == start + DisplayBytes(c, d, num)
      {
        var line := DisplayLine(d, num);
        lcd.SetCursor(DisplayColumn(num), DisplayRow(num));
        lcd.WriteStr(line);
        AppendStep(start, DisplayBytes(c, d, num), ByteBytes(c, DisplayCursor(c, num), c.command), TextBytes(c, line));
        num := num + 1;
      }
    }

    /** inputConfigure(num): the input's names from its keys, its formatted name from its name. */
    method InputConfigure(num: nat)
      requires num < IN_PORTS && Shaped(device)
      modifies this
      ensures device == old(device).(inputs := old(device).inputs[num := LoadInput(View(store, namespaceExists), num, old(device).inputs[num])])
      ensures store == old(store) && namespaceExists == old(namespaceExists) && locked == old(locked) && notices == old(notices)
    {
      var view := View(store, namespaceExists);
      var input := device.inputs[num];
      input := input.(num := num as uint8);
      input := input.(name := LoadStr(view, InKey(num, Name), PORT_NAME_SIZE, input.name));
      input := input.(shortName := LoadStr(view, InKey(num, ShortName), SHORT_NAME_SIZE, input.shortName));
      input := input.(longName := LoadStr(view, InKey(num, LongName), LONG_NAME_SIZE, input.longName));
      var fmt := FormatName(input.name, PORT_NAME_SIZE);
      input := input.(formattedName := fmt);
      device := device.(inputs := device.inputs[num := input]);
    }

    /** outputConfigure(num): class, names and route from the output's keys; the derived identifiers from them. */
    method OutputConfigure(num: nat)
      requires num < OUT_PORTS && Shaped(device)
      requires LoadU8(View(store, namespaceExists), OutKey(num, Class), device.outputs[num].cls) < 3
      modifies this
      ensures store == old(store) && namespaceExists == old(namespaceExists) && locked == old(locked) && notices == old(notices)
      ensures device == old(device).(outputs := old(device).outputs[num :=
        LoadOutput(View(store, namespaceExists), num, old(device).formattedName, old(device).identifier,
                   old(device).stateTopic, old(device).outputs[num])])
    {
      var view := View(store, namespaceExists);
      var output := device.outputs[num];
      output := output.(num := num as uint8);
      output := output.(cls := LoadU8(view, OutKey(num, Class), output.cls));
      output := output.(name := LoadStr(view, OutKey(num, Name), PORT_NAME_SIZE, output.name));
      output := output.(shortName := LoadStr(view, OutKey(num, ShortName), SHORT_NAME_SIZE, output.shortName));
      output := output.(longName := LoadStr(view, OutKey(num, LongName), LONG_NAME_SIZE, output.longName));
      var fmt := FormatName(output.name, PORT_NAME_SIZE);
      output := output.(formattedName := fmt);
      var objectId := Fit(device.formattedName, OBJECT_ID_SIZE);
      ghost var o0 := objectId;
      objectId := Strlcat(objectId, "_", OBJECT_ID_SIZE);
      objectId := Strlcat(objectId, fmt, OBJECT_ID_SIZE);
      StrlcatAllTwo(o0, "_", fmt, OBJECT_ID_SIZE);
      var uniqueId := Fit(device.identifier, UNIQUE_ID_SIZE);
      ghost var u0 := uniqueId;
      uniqueId := Strlcat(uniqueId, "_", UNIQUE_ID_SIZE);
      uniqueId := Strlcat(uniqueId, ClassName(output.cls), UNIQUE_ID_SIZE);
      uniqueId := Strlcat(uniqueId, "_", UNIQUE_ID_SIZE);
      uniqueId := Strlcat(uniqueId, fmt, UNIQUE_ID_SIZE);
      StrlcatAllFour(u0, "_", ClassName(output.cls), "_", fmt, UNIQUE_ID_SIZE);
      output := output.(objectId := objectId, uniqueId := uniqueId, commandTopic := CommandTopic(device.stateTopic, num));
      output := output.(inputPort := LoadU8(view, OutKey(num, InputPort), output.inputPort));
      device := device.(outputs := device.outputs[num := output]);
    }

    /** The device fields deviceConfigure reads before the ports: identifier, name, build strings, URL and topics. */
    static function LoadedFields(b: Build, view: Store, prev: Device): (d: Device)
      ensures Shaped(prev) ==> Shaped(d)
    {
      var name := LoadStr(view, DevKey(Name), DEVICE_STR_SIZE, prev.name);
      prev.(identifier := LoadStr(view, DevKey(Identifier), IDENTIFIER_SIZE, prev.identifier),
            name := name,
            formattedName := SnakeCase(name, DEVICE_STR_SIZE),
            manufacturer := Fit(b.manufacturer, DEVICE_STR_SIZE),
            model := Fit(b.model, DEVICE_STR_SIZE),
            modelId := Fit(b.modelId, DEVICE_STR_SIZE),
            hwVersion := Fit(b.hwVersion, DEVICE_STR_SIZE),
            swVersion := Fit(b.swVersion, DEVICE_STR_SIZE),
            configurationUrl := LoadStr(view, DevKey(ConfUrl), URL_SIZE, prev.configurationUrl),
            stateTopic := LoadStr(view, DevKey(StateTopic), TOPIC_SIZE, prev.stateTopic),
            hassTopic := LoadStr(view, DevKey(HassTopic), TOPIC_SIZE, prev.hassTopic))
    }

    /** The device-level reads of deviceConfigure. */
    method ConfigureFields()
      modifies this
      ensures store == old(store) && namespaceExists == old(namespaceExists) && locked == old(locked) && notices == old(notices)
      ensures device == LoadedFields(build, View(store, namespaceExists), old(device))
    {
      var view := View(store, namespaceExists);
      device := device.(identifier := LoadStr(view, DevKey(Identifier), IDENTIFIER_SIZE, device.identifier));
      device := device.(name := LoadStr(view, DevKey(Name), DEVICE_STR_SIZE, device.name));
      var fmt := FormatName(device.name, DEVICE_STR_SIZE);
      device := device.(formattedName := fmt);
      device := device.(manufacturer := Fit(build.manufacturer, DEVICE_STR_SIZE),
                        model := Fit(build.model, DEVICE_STR_SIZE),
                        modelId := Fit(build.modelId, DEVICE_STR_SIZE),
                        hwVersion := Fit(build.hwVersion, DEVICE_STR_SIZE),
                        swVersion := Fit(build.swVersion, DEVICE_STR_SIZE));
      device := device.(configurationUrl := LoadStr(view, DevKey(ConfUrl), URL_SIZE, device.configurationUrl));
      device := device.(stateTopic := LoadStr(view, DevKey(StateTopic), TOPIC_SIZE, device.stateTopic));
      device := device.(hassTopic := LoadStr(view, DevKey(HassTopic), TOPIC_SIZE, device.hassTopic));
    }

    /** The input loop of deviceConfigure. */
    method ConfigureInputs()
      requires Shaped(device)
      modifies this
      ensures store == old(store) && namespaceExists == old(namespaceExists) && locked == old(locked) && notices == old(notices)
      ensures device == old(device).(inputs := LoadInputs(View(store, namespaceExists), old(device).inputs))
    {
      var view := View(store, namespaceExists);
      var num := 0;
      while num < IN_PORTS
        invariant 0 <= num <= IN_PORTS && Shaped(device)
        invariant forall k :: 0 <= k < num ==> device.inputs[k] == LoadInput(view, k, old(device).inputs[k])
        invariant forall k :: num <= k < IN_PORTS ==> device.inputs[k] == old(device).inputs[k]
        invariant device == old(device).(inputs := device.inputs)
        invariant store == old(store) && namespaceExists == old(namespaceExists) && locked == old(locked) && notices == old(notices)
      {
        InputConfigure(num);
        num := num + 1;
      }
      assert device.inputs == LoadInputs(view, old(device).inputs);
    }

    /** The output loop of deviceConfigure, once the device fields are loaded. */
    method ConfigureOutputs()
      requires Shaped(device)
      requires ClassesLoad(View(store, namespaceExists), device.outputs)
      modifies this
      ensures store == old(store) && namespaceExists == old(namespaceExists) && locked == old(locked) && notices == old(notices)
      ensures device == old(device).(outputs := LoadOutputs(View(store, namespaceExists), old(device).formattedName,
                                                           old(device).identifier, old(device).stateTopic, old(device).outputs))
    {
      var view := View(store, namespaceExists);
      var num := 0;
      while num < OUT_PORTS
        invariant 0 <= num <= OUT_PORTS && Shaped(device)
        invariant forall k :: 0 <= k < num ==>
          (device.outputs[k] == LoadOutput(view, k, old(device).formattedName, old(device).identifier, old(device).stateTopic, old(device).outputs[k]))
        invariant forall k :: num <= k < OUT_PORTS ==> device.outputs[k] == old(device).outputs[k]
        invariant device == old(device).(outputs := device.outputs)
        invariant store == old(store) && namespaceExists == old(namespaceExists) && locked == old(locked) && notices == old(notices)
      {
        OutputConfigure(num);
        num := num + 1;
      }
      assert device.outputs == LoadOutputs(view, old(device).formattedName, old(device).identifier, old(device).stateTopic, old(device).outputs);
    }

    /** The three steps of deviceConfigure make the reloaded record. */
    lemma ConfiguredRecord(view: Store, prev: Device)
      requires Shaped(prev) && LoadsSane(view, prev)
      ensures var head := LoadedFields(build, view, prev);
        var middle := head.(inputs := LoadInputs(view, head.inputs));
        && ClassesLoad(view, middle.outputs)
        && middle.(outputs := LoadOutputs(view, middle.formattedName, middle.identifier, middle.stateTopic, middle.outputs))
           == LoadDevice(build, view, prev)
    {
    }

    /** The record-changed tail of deviceConfigure and setPort: relays, display, then the event. */
    method Announce(n: Notice)
      requires DeviceModel.Valid(device)
      modifies this, relay, lcd
      ensures device == old(device) && store == old(store) && namespaceExists == old(namespaceExists) && locked == old(locked)
      ensures Announced(n)
    {
      SendOutputToMatrix();
      SendOutputToDisplay();
      notices := notices + [n];
    }

    /** The locked part of deviceConfigure: the device fields, then every input, then every output. */
    method LoadRecord()
      requires Valid() && !locked
      modifies this
      ensures Valid()
      ensures store == old(store) && namespaceExists == old(namespaceExists) && locked == old(locked) && notices == old(notices)
      ensures LoadsSane(View(store, namespaceExists), old(device))
      ensures device == LoadDevice(build, View(store, namespaceExists), old(device))
    {
      SaneLoads(store, namespaceExists, device);
      locked := true;
      ghost var view, prev := View(store, namespaceExists), device;
      ConfiguredRecord(view, prev);
      ConfigureFields();
      ConfigureInputs();
      ConfigureOutputs();
      locked := false;
      LoadDeviceValid(build, view, prev);
    }

    /**
     * deviceConfigure: with the lock free, the record is reloaded from the
     * namespace, then sent to the relays and the display, and the change is
     * posted; with the lock taken nothing happens.
     */
    method DeviceConfigure() returns (ok: bool)
      requires Valid()
      modifies this, relay, lcd
      ensures Valid()
      ensures ok == !old(locked)
      ensures store == old(store) && namespaceExists == old(namespaceExists) && locked == old(locked)
      ensures !ok ==> device == old(device) && notices == old(notices) && unchanged(relay, lcd)
      ensures LoadsSane(View(store, namespaceExists), old(device))
      ensures ok ==> device == LoadDevice(build, View(store, namespaceExists), old(device)) && Announced(ConfigChanged(device))
    {
      SaneLoads(store, namespaceExists, device);
      if locked {
        return false;
      }
      LoadRecord();
      Announce(ConfigChanged(device));
      ok := true;
    }

    /** The writes of saveConfig on an open handle: the device keys, then each input's, then each output's. */
    method WriteRecord(d: Device)
      requires Shaped(d)
      modifies this
      ensures device == old(device) && namespaceExists == old(namespaceExists) && locked == old(locked) && notices == old(notices)
      ensures store == SaveAll(old(store), d)
    {
      if |d.identifier| > 0 {
        store := store[DevKey(Identifier) := Str(d.identifier)];
      }
      store := store[DevKey(Name) := Str(d.name)];
      store := store[DevKey(ConfUrl) := Str(d.configurationUrl)];
      store := store[DevKey(StateTopic) := Str(d.stateTopic)];
      store := store[DevKey(HassTopic) := Str(d.hassTopic)];
      assert store == SaveDev(old(store), d);
      var num := 0;
      while num < IN_PORTS
        invariant 0 <= num <= IN_PORTS
        invariant store == SaveInputs(SaveDev(old(store), d), d.inputs, num)
        invariant device == old(device) && namespaceExists == old(namespaceExists) && locked == old(locked) && notices == old(notices)
      {
        var input := d.inputs[num];
        store := store[InKey(num, Name) := Str(input.name)];
        store := store[InKey(num, ShortName) := Str(input.shortName)];
        store := store[InKey(num, LongName) := Str(input.longName)];
        num := num + 1;
      }
      num := 0;
      while num < OUT_PORTS
        invariant 0 <= num <= OUT_PORTS
        invariant store == SaveOutputs(SaveInputs(SaveDev(old(store), d), d.inputs, |d.inputs|), d.outputs, num)
        invariant device == old(device) && namespaceExists == old(namespaceExists) && locked == old(locked) && notices == old(notices)
      {
        var output := d.outputs[num];
        store := store[OutKey(num, Class) := U8(output.cls)];
        store := store[OutKey(num, Name) := Str(output.name)];
        store := store[OutKey(num, ShortName) := Str(output.shortName)];
        store := store[OutKey(num, LongName) := Str(output.longName)];
        store := store[OutKey(num, InputPort) := U8(output.inputPort)];
        num := num + 1;
      }
    }

    /**
     * saveConfig(pdevice): with the lock free and the namespace open for
     * writing, every field of the record is written under its key and the
     * record is reloaded.  A taken lock refuses; a failed open refuses and
     * leaves the lock taken for good.
     */
    method SaveConfig(d: Device, openOk: bool) returns (ok: bool)
      requires Valid()
      requires Shaped(d) && forall k :: 0 <= k < OUT_PORTS ==> d.outputs[k].cls < 3 && d.outputs[k].inputPort < IN_PORTS as uint8
      modifies this, relay, lcd
      ensures Valid()
      ensures ok <==> !old(locked) && openOk
      ensures !ok ==> Refused()
      ensures ok ==> ConfigSaved(d)
      ensures ok && Submittable(d) ==> device == Reloaded(build, d, SavedIdentifier(old(store), d, old(device)))
    {
      if locked {
        ok := false;
        return;
      }
      locked := true;
      if !openOk {
        ok := false;
        return;
      }
      namespaceExists := true;
      WriteRecord(d);
      SaveAllSane(old(store), d);
      locked := false;
      ok := DeviceConfigure();
      if Submittable(d) {
        SaveThenLoad(build, old(store), d, old(device));
      }
    }

    /** setPort(numOutput, numInput): reroutes one output, then updates the relays and the display and posts the change. */
    method SetPort(numOutput: nat, numInput: uint8) returns (ok: bool)
      requires Valid() && numOutput < OUT_PORTS && numInput < IN_PORTS as uint8
      modifies this, relay, lcd
      ensures ok && Valid()
      ensures device == Routed(old(device), numOutput, numInput)
      ensures store == old(store) && namespaceExists == old(namespaceExists) && locked == old(locked)
      ensures Announced(PortChanged(numOutput))
    {
      RoutedPorts(device, numOutput, numInput);
      var output := device.outputs[numOutput];
      output := output.(inputPort := numInput);
      device := device.(outputs := device.outputs[numOutput := output]);
      Announce(PortChanged(numOutput));
      ok := true;
    }

    /**
     * savePort(numOutput, numInput): with the lock free and the namespace
     * open, writes only "out<N>.input" and reroutes the output.  A taken lock
     * refuses; a failed open refuses and leaves the lock taken.
     */
    method SavePort(numOutput: nat, numInput: uint8, openOk: bool) returns (ok: bool)
      requires Valid() && numOutput < OUT_PORTS && numInput < IN_PORTS as uint8
      modifies this, relay, lcd
      ensures Valid()
      ensures ok <==> !old(locked) && openOk
      ensures !ok ==> Refused()
      ensures ok ==> PortSaved(numOutput, numInput)
    {
      if locked {
        ok := false;
        return;
      }
      locked := true;
      if !openOk {
        ok := false;
        return;
      }
      namespaceExists := true;
      SavePortSane(store, numOutput, numInput);
      store := store[OutKey(numOutput, InputPort) := U8(numInput)];
      locked := false;
      ok := SetPort(numOutput, numInput);
    }

    /**
     * setDefaultPreferences: builds the factory record in uninitialised
     * memory `heap` (the identifier from the MAC when it can be read) and
     * saves it; it reports success whatever the save did.
     */
    method SetDefaultPreferences(mac: Option<seq<uint8>>, heap: Device, openOk: bool) returns (ok: bool)
      requires Valid() && Shaped(heap) && (mac.Some? ==> |mac.value| == 6)
      modifies this, relay, lcd
      ensures ok && Valid()
      ensures !old(locked) && openOk ==> ConfigSaved(DefaultDevice(build, mac, heap))
      ensures !(!old(locked) && openOk) ==> Refused()
    {
      var d := DefaultRecord(build, mac, heap);
      DefaultNames(build, mac, heap);
      var _ := SaveConfig(d, openOk);
      ok := true;
    }

    /**
     * setHaMQTTOutput(topic, topicSize, payload, payloadSize): the last output
     * whose command topic agrees with the first topicSize characters of the
     * topic, and a one-digit payload naming an input, make a savePort call
     * and a true result; anything else changes nothing and gives false.
     */
    method SetHaMQTTOutput(topic: string, topicSize: nat, payload: string, payloadSize: nat, openOk: bool) returns (ok: bool)
      requires Valid() && payloadSize <= |payload|
      modifies this, relay, lcd
      ensures Valid()
      ensures var sel, port := LastMatch(old(device).outputs, topic, topicSize, OUT_PORTS), CommandPort(payload, payloadSize);
        && (ok <==> sel.Some? && port.Some?)
        && (!ok ==> unchanged(this, relay, lcd))
        && (ok && !old(locked) && openOk ==> PortSaved(sel.value, port.value))
        && (ok && !(!old(locked) && openOk) ==> Refused())
    {
      var numOutput: int := -1;
      var num := 0;
      while num < OUT_PORTS
        invariant 0 <= num <= OUT_PORTS
        invariant numOutput == match LastMatch(device.outputs, topic, topicSize, num) case Some(j) => j case None => -1
      {
        if StrnEq(device.outputs[num].commandTopic, topic, topicSize) {
          numOutput := num;
        }
        num := num + 1;
      }
      if numOutput >= 0 && payloadSize == 1 && payload[0] as int >= 48 && payload[0] as int < 48 + IN_PORTS {
        var _ := SavePort(numOutput, (payload[0] as int - 48) as uint8, openOk);
        return true;
      }
      return false;
    }

    /**
     * audiomatrixInit: a fresh, free mutex; the factory record saved when
     * the namespace or its identifier is missing, otherwise the identifier
     * read and the record configured from the namespace; then the LED colour
     * event.
     */
    method Init(mac: Option<seq<uint8>>, heap: Device, openOk: bool)
      requires Valid() && Shaped(heap) && (mac.Some? ==> |mac.value| == 6)
      modifies this, relay, lcd
      ensures Valid()
      ensures |notices| > 0 && notices[|notices| - 1] == LedColor(0, 16, 0)
      ensures StoredIdentifier(old(store), old(namespaceExists)).None? && openOk ==>
        && store == SaveAll(old(store), DefaultDevice(build, mac, heap)) && namespaceExists && !locked
        && LoadsSane(store, old(device)) && device == LoadDevice(build, store, old(device))
        && Shown() && notices == old(notices) + [ConfigChanged(device)] + [LedColor(0, 16, 0)]
      ensures StoredIdentifier(old(store), old(namespaceExists)).None? && !openOk ==>
        && store == old(store) && namespaceExists == old(namespaceExists) && locked && device == old(device)
        && unchanged(relay, lcd) && notices == old(notices) + [LedColor(0, 16, 0)]
      ensures StoredIdentifier(old(store), old(namespaceExists)).Some? ==>
        store == old(store) && namespaceExists && !locked
      ensures StoredIdentifier(old(store), old(namespaceExists)).Some? ==>
        var prev := old(device).(identifier := StoredIdentifier(old(store), old(namespaceExists)).value);
        && LoadsSane(store, prev) && device == LoadDevice(build, store, prev)
        && Shown() && notices == old(notices) + [ConfigChanged(device)] + [LedColor(0, 16, 0)]
    {
      var identifier := StoredIdentifier(store, namespaceExists);
      if identifier.None? {
        FactoryBoot(mac, heap, openOk);
      } else {
        StoredBoot(identifier.value);
      }
    }

    /** audiomatrixInit without a stored identifier: a free mutex, setDefaultPreferences, the LED colour. */
    method FactoryBoot(mac: Option<seq<uint8>>, heap: Device, openOk: bool)
      requires Valid() && Shaped(heap) && (mac.Some? ==> |mac.value| == 6)
      modifies this, relay, lcd
      ensures Valid()
      ensures openOk ==>
        && store == SaveAll(old(store), DefaultDevice(build, mac, heap)) && namespaceExists && !locked
        && LoadsSane(store, old(device)) && device == LoadDevice(build, store, old(device))
        && Shown() && notices == old(notices) + [ConfigChanged(device)] + [LedColor(0, 16, 0)]
      ensures !openOk ==>
        && store == old(store) && namespaceExists == old(namespaceExists) && locked && device == old(device)
        && unchanged(relay, lcd) && notices == old(notices) + [LedColor(0, 16, 0)]
    {
      locked := false;
      FactoryStart(mac, heap, openOk);
      PostLedColor();
    }

    /** The LED colour event of audiomatrixInit, posted to the event loop. */
    method PostLedColor()
      requires Valid()
      modifies this
      ensures Valid()
      ensures device == old(device) && store == old(store) && namespaceExists == old(namespaceExists) && locked == old(locked)
      ensures notices == old(notices) + [LedColor(0, 16, 0)]
    {
      notices := notices + [LedColor(0, 16, 0)];
    }

    /** setDefaultPreferences on a free lock. */
    method FactoryStart(mac: Option<seq<uint8>>, heap: Device, openOk: bool)
      requires Valid() && !locked && Shaped(heap) && (mac.Some? ==> |mac.value| == 6)
      modifies this, relay, lcd
      ensures Valid()
      ensures openOk ==> ConfigSaved(DefaultDevice(build, mac, heap))
      ensures !openOk ==> Refused()
    {
      var _ := SetDefaultPreferences(mac, heap, openOk);
    }

    /** audiomatrixInit with a stored identifier: a free mutex, the identifier kept, deviceConfigure, the LED colour. */
    method StoredBoot(identifier: string)
      requires Valid() && namespaceExists
      modifies this, relay, lcd
      ensures Valid()
      ensures store == old(store) && namespaceExists && !locked
      ensures var prev := old(device).(identifier := identifier);
        && LoadsSane(store, prev) && device == LoadDevice(build, store, prev)
        && Shown() && notices == old(notices) + [ConfigChanged(device)] + [LedColor(0, 16, 0)]
    {
      locked := false;
      StoredStart(identifier);
      PostLedColor();
    }

    /** The identifier kept, then deviceConfigure on a free lock. */
    method StoredStart(identifier: string)
      requires Valid() && !locked && namespaceExists
      modifies this, relay, lcd
      ensures Valid()
      ensures store == old(store) && namespaceExists && !locked
      ensures var prev := old(device).(identifier := identifier);
        && LoadsSane(store, prev) && device == LoadDevice(build, store, prev)
        && Announced(ConfigChanged(device))
    {
      device := device.(identifier := identifier);
      var _ := DeviceConfigure();
    }
  }
}
