/**
 * The device record of the audio matrix: its inputs, its outputs with their
 * routing, its identity and MQTT topics.  Every character field is the
 * content of a fixed-size char array; the capacities below are the sizes of
 * those arrays, terminator included.
 */
module DeviceModel {
  import opened CLib

  /** Build-time port counts (Kconfig AM_DEVICE_IN_PORTS / AM_DEVICE_OUT_PORTS). */
  const IN_PORTS: nat := 3
  const OUT_PORTS: nat := 6

  const CLASS_DISABLE: uint8 := 0
  const CLASS_SWITCH: uint8 := 1
  const CLASS_SELECT: uint8 := 2

  // Buffer sizes of the port records
  const PORT_NAME_SIZE: nat := 16
  const SHORT_NAME_SIZE: nat := 4
  const LONG_NAME_SIZE: nat := 32
  const OBJECT_ID_SIZE: nat := 49
  const UNIQUE_ID_SIZE: nat := 40
  const COMMAND_TOPIC_SIZE: nat := 76
  // Buffer sizes of the device record
  const IDENTIFIER_SIZE: nat := 16
  const DEVICE_STR_SIZE: nat := 32
  const URL_SIZE: nat := 64
  const TOPIC_SIZE: nat := 64

  /** The names of the output classes, indexed by class. */
  function ClassName(cls: uint8): string
    requires cls < 3
  {
    if cls == CLASS_DISABLE then "disable" else if cls == CLASS_SWITCH then "switch" else "select"
  }

  datatype Input = Input(
    num: uint8,
    name: string,
    formattedName: string,
    shortName: string,
    longName: string)

  datatype Output = Output(
    cls: uint8,
    num: uint8,
    name: string,
    formattedName: string,
    shortName: string,
    longName: string,
    objectId: string,
    uniqueId: string,
    commandTopic: string,
    inputPort: uint8)

  datatype Device = Device(
    inputs: seq<Input>,
    outputs: seq<Output>,
    identifier: string,
    name: string,
    formattedName: string,
    manufacturer: string,
    model: string,
    modelId: string,
    hwVersion: string,
    swVersion: string,
    configurationUrl: string,
    stateTopic: string,
    hassTopic: string)

  /** Kconfig strings and the running firmware release, fixed for one boot. */
  datatype Build = Build(
    deviceName: string,
    deviceTopic: string,
    haTopic: string,
    manufacturer: string,
    model: string,
    modelId: string,
    hwVersion: string,
    swVersion: string)

  predicate Shaped(d: Device)
  {
    |d.inputs| == IN_PORTS && |d.outputs| == OUT_PORTS
  }

  /** The fields a user sets on an input fit their buffers. */
  predicate InputFits(i: Input)
  {
    |i.name| < PORT_NAME_SIZE && |i.shortName| < SHORT_NAME_SIZE && |i.longName| < LONG_NAME_SIZE
  }

  /** The fields a user sets on an output fit their buffers, and it names a class and an input. */
  predicate OutputFits(o: Output)
  {
    && |o.name| < PORT_NAME_SIZE && |o.shortName| < SHORT_NAME_SIZE && |o.longName| < LONG_NAME_SIZE
    && o.cls < 3 && o.inputPort < IN_PORTS
  }

  /** A device record a caller may hand to saveConfig. */
  predicate Submittable(d: Device)
  {
    && Shaped(d)
    && |d.identifier| < IDENTIFIER_SIZE && |d.name| < DEVICE_STR_SIZE
    && |d.configurationUrl| < URL_SIZE && |d.stateTopic| < TOPIC_SIZE && |d.hassTopic| < TOPIC_SIZE
    && (forall i :: 0 <= i < IN_PORTS ==> InputFits(d.inputs[i]))
    && (forall i :: 0 <= i < OUT_PORTS ==> OutputFits(d.outputs[i]))
  }

  /**
   * The in-memory record: shaped, every class valid, every output routed to
   * an existing input, every short name and every input's long name within
   * its buffer.
   */
  predicate Valid(d: Device)
  {
    && Shaped(d)
    && (forall i :: 0 <= i < OUT_PORTS ==> d.outputs[i].cls < 3 && d.outputs[i].inputPort < IN_PORTS)
    && (forall i :: 0 <= i < OUT_PORTS ==> |d.outputs[i].shortName| < SHORT_NAME_SIZE)
    && (forall i :: 0 <= i < IN_PORTS ==> |d.inputs[i].shortName| < SHORT_NAME_SIZE)
    && (forall i :: 0 <= i < IN_PORTS ==> |d.inputs[i].longName| < LONG_NAME_SIZE)
  }

  /** The routing: the input port of every output, in output order. */
  function Ports(d: Device): (p: seq<uint8>)
    ensures |p| == |d.outputs|
    ensures forall k :: 0 <= k < |p| ==> p[k] == d.outputs[k].inputPort
  {
    seq(|d.outputs|, k requires 0 <= k < |d.outputs| => d.outputs[k].inputPort)
  }

  /** The zero-filled static record before anything is loaded. */
  function ZeroDevice(): (d: Device)
    ensures Valid(d)
  {
    Device(seq(IN_PORTS, _ => Input(0, "", "", "", "")),
           seq(OUT_PORTS, _ => Output(0, 0, "", "", "", "", "", "", "", 0)),
           "", "", "", "", "", "", "", "", "", "", "")
  }

  // ---------------------------------------------------------------------
  // Snake case

  function SnakeChar(c: char): char
  {
    if c == ' ' then '_' else ToLower(c)
  }

  /** What toSnakeCase leaves in a buffer of `size` bytes (terminator excluded). */
  function SnakeCase(src: string, size: nat): (r: string)
    requires size >= 1
  {
    var n := Min(CLen(src), size - 1);
    seq(n, i requires 0 <= i < n => SnakeChar(src[i]))
  }

  /**
   * toSnakeCase(dst, src, dst.Length): copies the C string in src into dst,
   * lower-casing letters and turning blanks into underscores, and stops at the
   * terminator or when only the terminator's byte is left.
   */
  method ToSnakeCase(dst: array<char>, src: seq<char>)
    requires dst.Length >= 1
    modifies dst
    ensures var n := Min(CLen(src), dst.Length - 1);
      && (forall i :: 0 <= i < n ==> dst[i] == if src[i] == ' ' then '_' else ToLower(src[i]))
      && dst[n] == '\0'
      && dst[..n] == SnakeCase(src, dst.Length)
      && dst[n + 1..] == old(dst[n + 1..])
  {
    var i := 0;
    while i < dst.Length - 1 && i < |src| && src[i] != '\0'
      invariant 0 <= i <= Min(CLen(src), dst.Length - 1)
      invariant forall k :: 0 <= k < i ==> dst[k] == SnakeChar(src[k])
      invariant dst[i..] == old(dst[i..])
    {
      if src[i] != ' ' {
        dst[i] := ToLower(src[i]);
      } else {
        dst[i] := '_';
      }
      i := i + 1;
    }
    dst[i] := '\0';
    assert dst[i + 1..] == old(dst[i + 1..]) by {
      assert forall k :: i + 1 <= k < dst.Length ==> dst[k] == old(dst[k]);
    }
  }

  /** A snake-cased name has no blanks and no capitals, and snake-casing it again changes nothing. */
  lemma SnakeCaseNormal(src: string, size: nat)
    requires size >= 1
    ensures var r := SnakeCase(src, size);
      && (forall i :: 0 <= i < |r| ==> r[i] != ' ' && !('A' <= r[i] <= 'Z'))
      && SnakeCase(r, size) == r
  {
    var r := SnakeCase(src, size);
    assert forall i :: 0 <= i < |r| ==> r[i] != '\0' && SnakeChar(r[i]) == r[i];
    CLenNulFree(r);
  }

  lemma {:induction false} CLenNulFree(s: string)
    requires forall i :: 0 <= i < |s| ==> s[i] != '\0'
    ensures CLen(s) == |s|
    decreases |s|
  {
    if s != [] {
      CLenNulFree(s[1..]);
    }
  }

  // ---------------------------------------------------------------------
  // Identifiers derived by outputConfigure

  /** objectId: strlcpy of the device's formatted name, then "_" and the output's formatted name. */
  function ObjectId(deviceFmt: string, outputFmt: string): string
  {
    StrlcatAll(Fit(deviceFmt, OBJECT_ID_SIZE), ["_", outputFmt], OBJECT_ID_SIZE)
  }

  /** uniqueId: identifier, "_", class name, "_", the output's formatted name. */
  function UniqueId(identifier: string, cls: uint8, outputFmt: string): string
    requires cls < 3
  {
    StrlcatAll(Fit(identifier, UNIQUE_ID_SIZE), ["_", ClassName(cls), "_", outputFmt], UNIQUE_ID_SIZE)
  }

  /** commandTopic: snprintf "%s/set/out%d" of the state topic and the 1-based output number. */
  function CommandTopic(stateTopic: string, num: nat): string
  {
    Fit(stateTopic + "/set/out" + DecStr(num + 1), COMMAND_TOPIC_SIZE)
  }

  /** objectId is the bounded copy of "<device>_<output>"; with both names from their buffers it is never cut. */
  lemma ObjectIdSpec(deviceFmt: string, outputFmt: string)
    ensures ObjectId(deviceFmt, outputFmt) == Fit(deviceFmt + "_" + outputFmt, OBJECT_ID_SIZE)
    ensures |deviceFmt| < DEVICE_STR_SIZE && |outputFmt| < PORT_NAME_SIZE
         ==> ObjectId(deviceFmt, outputFmt) == deviceFmt + "_" + outputFmt
  {
    StrlcatAllFit(deviceFmt, ["_", outputFmt], OBJECT_ID_SIZE);
    assert Concat(["_", outputFmt]) == "_" + outputFmt by {
      ConcatOne(outputFmt);
      assert ["_", outputFmt][1..] == [outputFmt];
    }
  }

  /** uniqueId is the bounded copy of "<identifier>_<class>_<output>"; it is never cut either. */
  lemma UniqueIdSpec(identifier: string, cls: uint8, outputFmt: string)
    requires cls < 3
    ensures UniqueId(identifier, cls, outputFmt)
         == Fit(identifier + "_" + ClassName(cls) + "_" + outputFmt, UNIQUE_ID_SIZE)
    ensures |identifier| < IDENTIFIER_SIZE && |outputFmt| < PORT_NAME_SIZE
         ==> UniqueId(identifier, cls, outputFmt) == identifier + "_" + ClassName(cls) + "_" + outputFmt
  {
    var cn := ClassName(cls);
    StrlcatAllFit(identifier, ["_", cn, "_", outputFmt], UNIQUE_ID_SIZE);
    ConcatFour("_", cn, "_", outputFmt);
    AppendAssoc(identifier, "_" + cn + "_", outputFmt);
    AppendAssoc(identifier, "_" + cn, "_");
    AppendAssoc(identifier, "_", cn);
  }

  /** The command topic of an output with a one- or two-digit number always fits its buffer. */
  lemma CommandTopicFits(stateTopic: string, num: nat)
    requires num + 1 < 100 && |stateTopic| < TOPIC_SIZE
    ensures CommandTopic(stateTopic, num) == stateTopic + "/set/out" + DecStr(num + 1)
  {
    DecStrLength(num + 1);
  }
}
