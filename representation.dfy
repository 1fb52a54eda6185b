/**
 * What the device publishes: the JSON state document, the Home Assistant
 * MQTT discovery topic and document of an output with their Jinja templates,
 * and the parsing of inbound output commands.  JSON is modelled as a tree;
 * the text cJSON_Print makes of it is a function given by the caller, since
 * only its length matters to the firmware.
 */
module Representation {
  import opened CLib
  import opened DeviceModel

  datatype Json = JStr(s: string) | JNum(n: int) | JArr(items: seq<Json>) | JObj(members: seq<Member>)

  datatype Member = Member(key: string, value: Json)

  /** cJSON_GetObjectItem on a member list: the value of the first member with the key. */
  function Find(ms: seq<Member>, key: string): Option<Json>
  {
    if ms == [] then None else if ms[0].key == key then Some(ms[0].value) else Find(ms[1..], key)
  }

  /** The member of an object with the key; nothing when it is not an object. */
  function Field(j: Json, key: string): Option<Json>
  {
    if j.JObj? then Find(j.members, key) else None
  }

  /** The first member with a key is the one found. */
  lemma {:induction false} FindFirst(ms: seq<Member>, key: string, i: nat)
    requires i < |ms| && ms[i].key == key
    requires forall j :: 0 <= j < i ==> ms[j].key != key
    ensures Find(ms, key) == Some(ms[i].value)
    decreases i
  {
    if i > 0 {
      FindFirst(ms[1..], key, i - 1);
    }
  }

  /** A key no member has is not found. */
  lemma {:induction false} FindNone(ms: seq<Member>, key: string)
    requires forall j :: 0 <= j < |ms| ==> ms[j].key != key
    ensures Find(ms, key) == None
    decreases |ms|
  {
    if ms != [] {
      FindNone(ms[1..], key);
    }
  }

  // ---------------------------------------------------------------------
  // getDeviceState

  /** The name of an output's member in the state document: "out<N>" with N = index + 1. */
  function OutName(num: nat): string
  {
    "out" + DecStr(num + 1)
  }

  /** getDeviceState: "state": "online", then every output's input port under its "out<N>". */
  function DeviceStateDoc(d: Device): (j: Json)
    ensures j.JObj? && |j.members| == |d.outputs| + 1
  {
    JObj([Member("state", JStr("online"))]
         + seq(|d.outputs|, k requires 0 <= k < |d.outputs| => Member(OutName(k), JNum(d.outputs[k].inputPort as int))))
  }

  /** What a subscriber reads from a state document: the port of every output, if all are there. */
  function ReadPorts(j: Json, n: nat): Option<seq<uint8>>
  {
    if n == 0 then Some([])
    else match (ReadPorts(j, n - 1), Field(j, OutName(n - 1)))
      case (Some(ps), Some(JNum(v))) => if 0 <= v < 256 then Some(ps + [v as uint8]) else None
      case _ => None
  }

  lemma OutNameInjective(a: nat, b: nat)
    requires OutName(a) == OutName(b)
    ensures a == b
  {
    assert OutName(a)[3..] == DecStr(a + 1);
    assert OutName(b)[3..] == DecStr(b + 1);
    DecStrInjective(a + 1, b + 1);
  }

  /** The state document says the device is online and reads back as the routing. */
  lemma StateDocReadsBack(d: Device)
    ensures Field(DeviceStateDoc(d), "state") == Some(JStr("online"))
    ensures ReadPorts(DeviceStateDoc(d), |d.outputs|) == Some(Ports(d))
  {
    var ms := DeviceStateDoc(d).members;
    FindFirst(ms, "state", 0);
    forall k | 0 <= k < |d.outputs|
      ensures Field(DeviceStateDoc(d), OutName(k)) == Some(JNum(d.outputs[k].inputPort as int))
    {
      forall j | 0 <= j < k + 1
        ensures ms[j].key != OutName(k)
      {
        if j == 0 {
          assert ms[j].key[0] != OutName(k)[0];
        } else {
          assert ms[j].key == OutName(j - 1);
          if ms[j].key == OutName(k) { OutNameInjective(j - 1, k); }
        }
      }
      FindFirst(ms, OutName(k), k + 1);
    }
    ReadPortsPrefix(d, |d.outputs|);
    assert Ports(d)[..|d.outputs|] == Ports(d);
  }

  lemma {:induction false} ReadPortsPrefix(d: Device, n: nat)
    requires n <= |d.outputs|
    requires forall k :: 0 <= k < |d.outputs| ==> Field(DeviceStateDoc(d), OutName(k)) == Some(JNum(d.outputs[k].inputPort as int))
    ensures ReadPorts(DeviceStateDoc(d), n) == Some(Ports(d)[..n])
    decreases n
  {
    if n > 0 {
      ReadPortsPrefix(d, n - 1);
      assert Ports(d)[..n] == Ports(d)[..n - 1] + [Ports(d)[n - 1]];
    }
  }

  // ---------------------------------------------------------------------
  // getConfigurationUrl

  const CONF_URL_SIZE: nat := 64
  const IPV4_STR_SIZE: nat := 16

  /** getConfigurationUrl: the configured URL, or "http://" and the station's IPv4 address. */
  function ConfigurationUrl(d: Device, ip: string): (r: string)
    ensures |r| < CONF_URL_SIZE
    ensures |d.configurationUrl| > 0 ==> r == Fit(d.configurationUrl, CONF_URL_SIZE)
    ensures |d.configurationUrl| == 0 ==> "http://" <= r
  {
    if |d.configurationUrl| > 0 then Fit(d.configurationUrl, CONF_URL_SIZE)
    else Fit("http://" + Fit(ip, IPV4_STR_SIZE), CONF_URL_SIZE)
  }

  /** A URL that fits is used as it is; without one, any address the station can have gives its http URL. */
  lemma ConfigurationUrlExact(d: Device, ip: string)
    ensures |d.configurationUrl| < CONF_URL_SIZE ==> |d.configurationUrl| > 0 ==> ConfigurationUrl(d, ip) == d.configurationUrl
    ensures |ip| < IPV4_STR_SIZE && |d.configurationUrl| == 0 ==> ConfigurationUrl(d, ip) == "http://" + ip
    ensures ConfigurationUrl(d, ip) != ""
  {
  }

  // ---------------------------------------------------------------------
  // Discovery topic

  /** The discovery topic text: <hass>/<class>/<identifier>/<class>_<output>/config. */
  function TopicText(hassTopic: string, cls: uint8, identifier: string, outputFmt: string): string
    requires cls < 3
  {
    hassTopic + "/" + ClassName(cls) + "/" + identifier + "/" + ClassName(cls) + "_" + outputFmt + "/config"
  }

  /**
   * The topic getHaMQTTOutputConfig writes: strlcpy of the Home Assistant
   * topic, then nine strlcat calls into the same buffer.
   */
  method DiscoveryTopic(hassTopic: string, cls: uint8, identifier: string, outputFmt: string, topicSize: nat)
    returns (topic: string)
    requires cls < 3
    ensures topic == Fit(TopicText(hassTopic, cls, identifier, outputFmt), topicSize)
  {
    var c := ClassName(cls);
    var text := hassTopic;
    topic := Fit(hassTopic, topicSize);
    StrlcatFit(text, "/", topicSize);
    topic, text := Strlcat(topic, "/", topicSize), text + "/";
    StrlcatFit(text, c, topicSize);
    topic, text := Strlcat(topic, c, topicSize), text + c;
    StrlcatFit(text, "/", topicSize);
    topic, text := Strlcat(topic, "/", topicSize), text + "/";
    StrlcatFit(text, identifier, topicSize);
    topic, text := Strlcat(topic, identifier, topicSize), text + identifier;
    StrlcatFit(text, "/", topicSize);
    topic, text := Strlcat(topic, "/", topicSize), text + "/";
    StrlcatFit(text, c, topicSize);
    topic, text := Strlcat(topic, c, topicSize), text + c;
    StrlcatFit(text, "_", topicSize);
    topic, text := Strlcat(topic, "_", topicSize), text + "_";
    StrlcatFit(text, outputFmt, topicSize);
    topic, text := Strlcat(topic, outputFmt, topicSize), text + outputFmt;
    StrlcatFit(text, "/config", topicSize);
    topic, text := Strlcat(topic, "/config", topicSize), text + "/config";
  }

  // ---------------------------------------------------------------------
  // Jinja templates of the discovery documents

  const OUTPUT_TEMPLATE_SIZE: nat := 24
  const OPTION_SIZE: nat := LONG_NAME_SIZE + 16
  const TEMPLATE_SIZE: nat := 100 + 48 * IN_PORTS
  const SETX_SIZE: nat := 34

  const STATE_TEMPLATE := "{{ value_json.state }}"
  const MAPPER_OPEN := "{% set mapper = {"
  const MAPPER_CLOSE := "} %}"
  const VALUE_TAIL := "{{ mapper[x] if x in mapper else 'Failed' }}"
  const COMMAND_TAIL := "{{ mapper[value] if value in mapper else 'Failed' }}"

  /** The state template of a switch: the output's member of the state document. */
  function SwitchTemplate(num: nat): string
  {
    Fit("{{ value_json.out" + DecStr(num + 1) + " }}", OUTPUT_TEMPLATE_SIZE)
  }

  /** One entry of the value mapper: the input index to its long name. */
  function ValueOption(inum: nat, longName: string): string
  {
    DecStr(inum) + ":'" + longName + "',"
  }

  /** One entry of the command mapper: the long name to the input index. */
  function CommandOption(inum: nat, longName: string): string
  {
    "'" + longName + "':" + DecStr(inum) + ","
  }

  /** The Jinja statement binding x to the output's member of the state document. */
  function SetX(num: nat): string
  {
    "{% set x = value_json.out" + DecStr(num + 1) + " %}"
  }

  /** The value entries of the first n inputs, each cut to the option buffer as snprintf does. */
  function ValueOptions(ins: seq<Input>, n: nat): string
    requires n <= |ins|
  {
    if n == 0 then "" else ValueOptions(ins, n - 1) + Fit(ValueOption(n - 1, ins[n - 1].longName), OPTION_SIZE)
  }

  function CommandOptions(ins: seq<Input>, n: nat): string
    requires n <= |ins|
  {
    if n == 0 then "" else CommandOptions(ins, n - 1) + Fit(CommandOption(n - 1, ins[n - 1].longName), OPTION_SIZE)
  }

  /** The value entries of the first n inputs, uncut. */
  function ValueMapper(ins: seq<Input>, n: nat): string
    requires n <= |ins|
  {
    if n == 0 then "" else ValueMapper(ins, n - 1) + ValueOption(n - 1, ins[n - 1].longName)
  }

  function CommandMapper(ins: seq<Input>, n: nat): string
    requires n <= |ins|
  {
    if n == 0 then "" else CommandMapper(ins, n - 1) + CommandOption(n - 1, ins[n - 1].longName)
  }

  /** What the strlcpy/strlcat chain leaves in the value template buffer. */
  function ValueTemplateText(ins: seq<Input>, num: nat): string
    requires |ins| == IN_PORTS
  {
    Fit(MAPPER_OPEN + ValueOptions(ins, IN_PORTS) + MAPPER_CLOSE + Fit(SetX(num), SETX_SIZE) + VALUE_TAIL, TEMPLATE_SIZE)
  }

  /** What the strlcpy/strlcat chain leaves in the command template buffer. */
  function CommandTemplateText(ins: seq<Input>): string
    requires |ins| == IN_PORTS
  {
    Fit(MAPPER_OPEN + CommandOptions(ins, IN_PORTS) + MAPPER_CLOSE + COMMAND_TAIL, TEMPLATE_SIZE)
  }

  /** The value_template of a select: the mapper's entries appended one input at a time. */
  method ValueTemplate(ins: seq<Input>, num: nat) returns (t: string)
    requires |ins| == IN_PORTS
    ensures t == ValueTemplateText(ins, num)
  {
    t := Fit(MAPPER_OPEN, TEMPLATE_SIZE);
    var inum := 0;
    while inum < IN_PORTS
      invariant 0 <= inum <= IN_PORTS
      invariant t == Fit(MAPPER_OPEN + ValueOptions(ins, inum), TEMPLATE_SIZE)
    {
      var option := Fit(ValueOption(inum, ins[inum].longName), OPTION_SIZE);
      ValueOptionStep(MAPPER_OPEN, ins, inum);
      t := Strlcat(t, option, TEMPLATE_SIZE);
      inum := inum + 1;
    }
    t := Strlcat(t, MAPPER_CLOSE, TEMPLATE_SIZE);
    var setx := Fit(SetX(num), SETX_SIZE);
    t := Strlcat(t, setx, TEMPLATE_SIZE);
    t := Strlcat(t, VALUE_TAIL, TEMPLATE_SIZE);
    StrlcatFitThree(MAPPER_OPEN + ValueOptions(ins, IN_PORTS), MAPPER_CLOSE, setx, VALUE_TAIL, TEMPLATE_SIZE);
  }

  /** Appending one more option to the template buffer. */
  lemma ValueOptionStep(p: string, ins: seq<Input>, inum: nat)
    requires inum < |ins|
    ensures Strlcat(Fit(p + ValueOptions(ins, inum), TEMPLATE_SIZE), Fit(ValueOption(inum, ins[inum].longName), OPTION_SIZE), TEMPLATE_SIZE)
         == Fit(p + ValueOptions(ins, inum + 1), TEMPLATE_SIZE)
  {
    var option := Fit(ValueOption(inum, ins[inum].longName), OPTION_SIZE);
    assert ValueOptions(ins, inum + 1) == ValueOptions(ins, inum) + option;
    StrlcatFitStep(p, ValueOptions(ins, inum), option, ValueOptions(ins, inum + 1), TEMPLATE_SIZE);
  }

  lemma CommandOptionStep(p: string, ins: seq<Input>, inum: nat)
    requires inum < |ins|
    ensures Strlcat(Fit(p + CommandOptions(ins, inum), TEMPLATE_SIZE), Fit(CommandOption(inum, ins[inum].longName), OPTION_SIZE), TEMPLATE_SIZE)
         == Fit(p + CommandOptions(ins, inum + 1), TEMPLATE_SIZE)
  {
    var option := Fit(CommandOption(inum, ins[inum].longName), OPTION_SIZE);
    assert CommandOptions(ins, inum + 1) == CommandOptions(ins, inum) + option;
    StrlcatFitStep(p, CommandOptions(ins, inum), option, CommandOptions(ins, inum + 1), TEMPLATE_SIZE);
  }

  /** Three strlcat calls after a bounded copy build the bounded copy of the four texts joined. */
  lemma StrlcatFitThree(a: string, b: string, c: string, e: string, size: nat)
    ensures Strlcat(Strlcat(Strlcat(Fit(a, size), b, size), c, size), e, size) == Fit(a + b + c + e, size)
  {
    StrlcatFit(a, b, size);
    StrlcatFit(a + b, c, size);
    StrlcatFit(a + b + c, e, size);
  }

  /** The command_template of a select. */
  method CommandTemplate(ins: seq<Input>) returns (t: string)
    requires |ins| == IN_PORTS
    ensures t == CommandTemplateText(ins)
  {
    t := Fit(MAPPER_OPEN, TEMPLATE_SIZE);
    var inum := 0;
    while inum < IN_PORTS
      invariant 0 <= inum <= IN_PORTS
      invariant t == Fit(MAPPER_OPEN + CommandOptions(ins, inum), TEMPLATE_SIZE)
    {
      var option := Fit(CommandOption(inum, ins[inum].longName), OPTION_SIZE);
      CommandOptionStep(MAPPER_OPEN, ins, inum);
      t := Strlcat(t, option, TEMPLATE_SIZE);
      inum := inum + 1;
    }
    var text := MAPPER_OPEN + CommandOptions(ins, IN_PORTS);
    StrlcatFit(text, MAPPER_CLOSE, TEMPLATE_SIZE);
    t, text := Strlcat(t, MAPPER_CLOSE, TEMPLATE_SIZE), text + MAPPER_CLOSE;
    StrlcatFit(text, COMMAND_TAIL, TEMPLATE_SIZE);
    t := Strlcat(t, COMMAND_TAIL, TEMPLATE_SIZE);
  }

  /** Every input's long name fits its buffer. */
  predicate LongNamesFit(ins: seq<Input>)
  {
    forall k :: 0 <= k < |ins| ==> |ins[k].longName| < LONG_NAME_SIZE
  }

  /** With long names from their buffers no option is cut, and each takes at most 36 characters. */
  lemma {:induction false} OptionsUncut(ins: seq<Input>, n: nat)
    requires n <= |ins| && n <= 10 && LongNamesFit(ins)
    ensures ValueOptions(ins, n) == ValueMapper(ins, n) && |ValueMapper(ins, n)| <= 36 * n
    ensures CommandOptions(ins, n) == CommandMapper(ins, n) && |CommandMapper(ins, n)| <= 36 * n
    decreases n
  {
    if n > 0 {
      OptionsUncut(ins, n - 1);
      DecStrSmall(n - 1);
      assert |ins[n - 1].longName| < LONG_NAME_SIZE;
    }
  }

  /**
   * The value template of a select is never cut: the mapper from input
   * index to long name, the binding of x to the output's state member, and
   * the lookup with its 'Failed' fallback.
   */
  lemma ValueTemplateExact(ins: seq<Input>, num: nat)
    requires |ins| == IN_PORTS && LongNamesFit(ins) && num < OUT_PORTS
    ensures ValueTemplateText(ins, num)
         == MAPPER_OPEN + ValueMapper(ins, IN_PORTS) + MAPPER_CLOSE
            + "{% set x = value_json.out" + DecStr(num + 1) + " %}" + VALUE_TAIL
  {
    OptionsUncut(ins, IN_PORTS);
    DecStrSmall(num + 1);
    var setx := SetX(num);
    assert |setx| == 29;
    assert Fit(setx, SETX_SIZE) == setx;
    var whole := MAPPER_OPEN + ValueMapper(ins, IN_PORTS) + MAPPER_CLOSE + setx + VALUE_TAIL;
    assert |whole| == 17 + |ValueMapper(ins, IN_PORTS)| + 4 + 29 + 44;
    assert Fit(whole, TEMPLATE_SIZE) == whole;
  }

  /** The command template of a select is never cut: the mapper from long name to input index, and the lookup. */
  lemma CommandTemplateExact(ins: seq<Input>)
    requires |ins| == IN_PORTS && LongNamesFit(ins)
    ensures CommandTemplateText(ins) == MAPPER_OPEN + CommandMapper(ins, IN_PORTS) + MAPPER_CLOSE + COMMAND_TAIL
  {
    OptionsUncut(ins, IN_PORTS);
  }

  /** The switch template is never cut either. */
  lemma SwitchTemplateExact(num: nat)
    requires num < OUT_PORTS
    ensures SwitchTemplate(num) == "{{ value_json.out" + DecStr(num + 1) + " }}"
  {
    DecStrSmall(num + 1);
  }

  // ---------------------------------------------------------------------
  // The discovery document of an output

  /**
   * The "device" block: the identifier always; the device's descriptive
   * fields only in the document of the first output.
   */
  function DeviceBlock(d: Device, num: nat, ip: string): Json
  {
    JObj([Member("identifiers", JArr([JStr(d.identifier)]))]
         + (if num == 0 then
              [Member("name", JStr(d.name)),
               Member("manufacturer", JStr(d.manufacturer)),
               Member("model", JStr(d.model)),
               Member("model_id", JStr(d.modelId)),
               Member("hw_version", JStr(d.hwVersion)),
               Member("sw_version", JStr(d.swVersion)),
               Member("configuration_url", JStr(ConfigurationUrl(d, ip)))]
            else []))
  }

  /** The members that depend on the output's class. */
  function ClassMembers(d: Device, num: nat): seq<Member>
    requires Shaped(d) && num < OUT_PORTS
  {
    var o := d.outputs[num];
    if o.cls == CLASS_SWITCH then
      [Member("payload_off", JNum(1)), Member("payload_on", JNum(0)), Member("value_template", JStr(SwitchTemplate(num)))]
    else if o.cls == CLASS_SELECT then
      [Member("options", JArr(seq(IN_PORTS, k requires 0 <= k < IN_PORTS => JStr(d.inputs[k].longName)))),
       Member("value_template", JStr(ValueTemplateText(d.inputs, num))),
       Member("command_template", JStr(CommandTemplateText(d.inputs)))]
    else []
  }

  /** The members every discovery document has: availability, device block, names, ids and topics. */
  function HeadMembers(d: Device, num: nat, ip: string): (ms: seq<Member>)
    requires Shaped(d) && num < OUT_PORTS
    ensures |ms| == 7
  {
    var o := d.outputs[num];
    [Member("availability", JArr([JObj([Member("topic", JStr(d.stateTopic)), Member("value_template", JStr(STATE_TEMPLATE))])])),
     Member("device", DeviceBlock(d, num, ip)),
     Member("name", JStr(o.name)),
     Member("object_id", JStr(o.objectId)),
     Member("unique_id", JStr(o.uniqueId)),
     Member("command_topic", JStr(o.commandTopic)),
     Member("state_topic", JStr(d.stateTopic))]
  }

  /** The discovery document getHaMQTTOutputConfig builds for output num. */
  function DiscoveryDoc(d: Device, num: nat, ip: string): (r: Json)
    requires Shaped(d) && num < OUT_PORTS
    ensures r.JObj? && |r.members| >= 7
    ensures Field(r, "availability") == Some(JArr([JObj([Member("topic", JStr(d.stateTopic)), Member("value_template", JStr(STATE_TEMPLATE))])]))
  {
    JObj(HeadMembers(d, num, ip) + ClassMembers(d, num))
  }

  /** A key found in the first members is found there in any longer list. */
  lemma {:induction false} FindPrefix(a: seq<Member>, b: seq<Member>, key: string)
    requires Find(a, key).Some?
    ensures Find(a + b, key) == Find(a, key)
    decreases |a|
  {
    if a[0].key != key {
      assert (a + b)[1..] == a[1..] + b;
      FindPrefix(a[1..], b, key);
    }
  }

  /** A key none of the first members has is looked up in the rest. */
  lemma {:induction false} FindSuffix(a: seq<Member>, b: seq<Member>, key: string)
    requires forall j :: 0 <= j < |a| ==> a[j].key != key
    ensures Find(a + b, key) == Find(b, key)
    decreases |a|
  {
    if a != [] {
      assert (a + b)[0] == a[0];
      assert (a + b)[1..] == a[1..] + b;
      FindSuffix(a[1..], b, key);
    } else {
      assert a + b == b;
    }
  }

  /**
   * getHaMQTTOutputConfig(num, class, topic, topicSize, payload, payloadSize):
   * the discovery topic always; when the output has another class, an empty
   * payload and success; otherwise the document's text cut to the payload
   * buffer, reported as failed only when the text is longer than the buffer.
   */
  method GetHaMQTTOutputConfig(d: Device, ip: string, render: Json -> string, num: nat, cls: uint8, topicSize: nat, payloadSize: nat)
    returns (ok: bool, topic: string, payload: string)
    requires Shaped(d) && num < OUT_PORTS && cls < 3
    ensures topic == Fit(TopicText(d.hassTopic, cls, d.identifier, d.outputs[num].formattedName), topicSize)
    ensures d.outputs[num].cls != cls ==> ok && payload == ""
    ensures d.outputs[num].cls == cls ==>
      var text := render(DiscoveryDoc(d, num, ip));
      && payload == Fit(text, payloadSize)
      && (ok <==> |text| <= payloadSize)
  {
    var o := d.outputs[num];
    topic := DiscoveryTopic(d.hassTopic, cls, d.identifier, o.formattedName, topicSize);
    if o.cls != cls {
      payload := Fit("", payloadSize);
      ok := true;
      return;
    }
    var head := [Member("availability", JArr([JObj([Member("topic", JStr(d.stateTopic)), Member("value_template", JStr(STATE_TEMPLATE))])])),
                 Member("device", DeviceBlock(d, num, ip)),
                 Member("name", JStr(o.name)),
                 Member("object_id", JStr(o.objectId)),
                 Member("unique_id", JStr(o.uniqueId)),
                 Member("command_topic", JStr(o.commandTopic)),
                 Member("state_topic", JStr(d.stateTopic))];
    assert head == HeadMembers(d, num, ip);
    var members := head;
    if o.cls == CLASS_SWITCH {
      members := members + [Member("payload_off", JNum(1)), Member("payload_on", JNum(0)),
                            Member("value_template", JStr(SwitchTemplate(num)))];
    }
    if o.cls == CLASS_SELECT {
      var options := seq(IN_PORTS, k requires 0 <= k < IN_PORTS => JStr(d.inputs[k].longName));
      var valueTemplate := ValueTemplate(d.inputs, num);
      var commandTemplate := CommandTemplate(d.inputs);
      members := members + [Member("options", JArr(options)), Member("value_template", JStr(valueTemplate)),
                            Member("command_template", JStr(commandTemplate))];
    }
    assert members == head + ClassMembers(d, num);
    var text := render(JObj(members));
    payload := Fit(text, payloadSize);
    ok := PayloadReported(text, payloadSize);
  }

  /** getHaMQTTStateTopic and the topic half of getHaMQTTDeviceState: the state topic, cut to the buffer. */
  function StateTopic(d: Device, topicSize: nat): (t: string)
    ensures t <= d.stateTopic
    ensures topicSize > |d.stateTopic| ==> t == d.stateTopic
  {
    Fit(d.stateTopic, topicSize)
  }

  /** getHaMQTTDeviceState(topic, topicSize, payload, payloadSize): the state topic and the state document. */
  method GetHaMQTTDeviceState(d: Device, render: Json -> string, topicSize: nat, payloadSize: nat)
    returns (ok: bool, topic: string, payload: string)
    ensures topic == StateTopic(d, topicSize)
    ensures payload == Fit(render(DeviceStateDoc(d)), payloadSize)
    ensures ok <==> |render(DeviceStateDoc(d))| <= payloadSize
  {
    topic := Fit(d.stateTopic, topicSize);
    var text := render(DeviceStateDoc(d));
    payload := Fit(text, payloadSize);
    ok := PayloadReported(text, payloadSize);
  }

  /** The payload check as written: failure only when the buffer is smaller than the text. */
  function PayloadReported(text: string, payloadSize: nat): bool
  {
    !(payloadSize < |text|)
  }

  /**
   * A text exactly as long as the payload buffer is reported complete
   * although strlcpy dropped its last character.
   */
  lemma ExactFitReportedComplete(text: string)
    requires |text| > 0
    ensures PayloadReported(text, |text|) && Fit(text, |text|) != text && !PayloadComplete(text, |text|)
  {
  }

  /** The check intended: the payload is reported complete exactly when strlcpy copied the whole text. */
  function PayloadComplete(text: string, payloadSize: nat): (ok: bool)
    ensures ok <==> payloadSize > 0 && Fit(text, payloadSize) == text
  {
    |text| < payloadSize
  }

  lemma DiscoveryDocHead(d: Device, num: nat, ip: string)
    requires Shaped(d) && num < OUT_PORTS
    ensures var doc, o := DiscoveryDoc(d, num, ip), d.outputs[num];
      && Field(doc, "device") == Some(DeviceBlock(d, num, ip))
      && Field(doc, "name") == Some(JStr(o.name))
      && Field(doc, "object_id") == Some(JStr(o.objectId))
      && Field(doc, "unique_id") == Some(JStr(o.uniqueId))
      && Field(doc, "command_topic") == Some(JStr(o.commandTopic))
      && Field(doc, "state_topic") == Some(JStr(d.stateTopic))
  {
    HeadKeys(HeadMembers(d, num, ip), ClassMembers(d, num));
  }

  /** Lookups in a list that starts with the seven head members. */
  lemma HeadKeys(head: seq<Member>, rest: seq<Member>)
    requires |head| == 7
    requires head[0].key == "availability" && head[1].key == "device" && head[2].key == "name"
    requires head[3].key == "object_id" && head[4].key == "unique_id" && head[5].key == "command_topic"
    requires head[6].key == "state_topic"
    ensures Find(head + rest, "device") == Some(head[1].value)
    ensures Find(head + rest, "name") == Some(head[2].value)
    ensures Find(head + rest, "object_id") == Some(head[3].value)
    ensures Find(head + rest, "unique_id") == Some(head[4].value)
    ensures Find(head + rest, "command_topic") == Some(head[5].value)
    ensures Find(head + rest, "state_topic") == Some(head[6].value)
  {
    FindFirst(head, "device", 1);
    FindPrefix(head, rest, "device");
    FindFirst(head, "name", 2);
    FindPrefix(head, rest, "name");
    FindFirst(head, "object_id", 3);
    FindPrefix(head, rest, "object_id");
    FindFirst(head, "unique_id", 4);
    FindPrefix(head, rest, "unique_id");
    FindFirst(head, "command_topic", 5);
    FindPrefix(head, rest, "command_topic");
    FindFirst(head, "state_topic", 6);
    FindPrefix(head, rest, "state_topic");
  }

  /** Only the first output's document describes the device; every document names it by its identifier. */
  lemma DeviceBlockOnlyFirst(d: Device, num: nat, ip: string)
    ensures var dev := DeviceBlock(d, num, ip);
      && Field(dev, "identifiers") == Some(JArr([JStr(d.identifier)]))
      && (Field(dev, "name").Some? <==> num == 0)
      && (Field(dev, "configuration_url").Some? <==> num == 0)
      && (num == 0 ==> (Field(dev, "name") == Some(JStr(d.name))
                        && Field(dev, "configuration_url") == Some(JStr(ConfigurationUrl(d, ip)))))
  {
    var ms := DeviceBlock(d, num, ip).members;
    FindFirst(ms, "identifiers", 0);
    if num == 0 {
      FindFirst(ms, "name", 1);
      FindFirst(ms, "configuration_url", 7);
    } else {
      FindNone(ms, "name");
      FindNone(ms, "configuration_url");
    }
  }

  /** A switch's document: off is 1, on is 0, and the state is the output's member of the state document. */
  lemma SwitchDoc(d: Device, num: nat, ip: string)
    requires Shaped(d) && num < OUT_PORTS && d.outputs[num].cls == CLASS_SWITCH
    ensures var doc := DiscoveryDoc(d, num, ip);
      && Field(doc, "payload_off") == Some(JNum(1))
      && Field(doc, "payload_on") == Some(JNum(0))
      && Field(doc, "value_template") == Some(JStr("{{ value_json.out" + DecStr(num + 1) + " }}"))
      && Field(doc, "options") == None
  {
    var ms := DiscoveryDoc(d, num, ip).members;
    SwitchTemplateExact(num);
    FindFirst(ms, "payload_off", 7);
    FindFirst(ms, "payload_on", 8);
    FindFirst(ms, "value_template", 9);
    FindNone(ms, "options");
  }

  /** A select's document: the options are the inputs' long names in order, and both templates are whole. */
  lemma SelectDoc(d: Device, num: nat, ip: string)
    requires Shaped(d) && LongNamesFit(d.inputs) && num < OUT_PORTS && d.outputs[num].cls == CLASS_SELECT
    ensures var doc := DiscoveryDoc(d, num, ip);
      && Field(doc, "options") == Some(JArr(seq(IN_PORTS, k requires 0 <= k < IN_PORTS => JStr(d.inputs[k].longName))))
      && Field(doc, "value_template")
         == Some(JStr(MAPPER_OPEN + ValueMapper(d.inputs, IN_PORTS) + MAPPER_CLOSE
                      + "{% set x = value_json.out" + DecStr(num + 1) + " %}" + VALUE_TAIL))
      && Field(doc, "command_template")
         == Some(JStr(MAPPER_OPEN + CommandMapper(d.inputs, IN_PORTS) + MAPPER_CLOSE + COMMAND_TAIL))
      && Field(doc, "payload_on") == None
  {
    var ms := DiscoveryDoc(d, num, ip).members;
    ValueTemplateExact(d.inputs, num);
    CommandTemplateExact(d.inputs);
    FindFirst(ms, "options", 7);
    FindFirst(ms, "value_template", 8);
    FindFirst(ms, "command_template", 9);
    FindNone(ms, "payload_on");
  }

  /** A disabled output's document has no class members at all. */
  lemma DisabledDoc(d: Device, num: nat, ip: string)
    requires Shaped(d) && num < OUT_PORTS && d.outputs[num].cls == CLASS_DISABLE
    ensures var doc := DiscoveryDoc(d, num, ip);
      Field(doc, "value_template") == None && Field(doc, "options") == None && Field(doc, "payload_on") == None
  {
    var ms := DiscoveryDoc(d, num, ip).members;
    FindNone(ms, "value_template");
    FindNone(ms, "options");
    FindNone(ms, "payload_on");
  }

  // ---------------------------------------------------------------------
  // Inbound output commands (setHaMQTTOutput)

  /** strncmp(commandTopic, topic, topicSize) == 0. */
  predicate TopicMatches(o: Output, topic: string, topicSize: nat)
  {
    StrnEq(o.commandTopic, topic, topicSize)
  }

  /** The output setHaMQTTOutput picks among the first k: the last whose command topic matches. */
  function LastMatch(outs: seq<Output>, topic: string, topicSize: nat, k: nat): (r: Option<nat>)
    requires k <= |outs|
    ensures r.None? ==> forall j :: 0 <= j < k ==> !TopicMatches(outs[j], topic, topicSize)
    ensures r.Some? ==> r.value < k && TopicMatches(outs[r.value], topic, topicSize)
    ensures r.Some? ==> forall j :: r.value < j < k ==> !TopicMatches(outs[j], topic, topicSize)
  {
    if k == 0 then None
    else if TopicMatches(outs[k - 1], topic, topicSize) then Some(k - 1)
    else LastMatch(outs, topic, topicSize, k - 1)
  }

  /** The output an exact topic comparison picks: the last whose command topic is the received topic. */
  function ExactMatch(outs: seq<Output>, topic: string, k: nat): (r: Option<nat>)
    requires k <= |outs|
    ensures r.None? ==> forall j :: 0 <= j < k ==> outs[j].commandTopic != topic
    ensures r.Some? ==> r.value < k && outs[r.value].commandTopic == topic
    ensures r.Some? ==> forall j :: r.value < j < k ==> outs[j].commandTopic != topic
  {
    if k == 0 then None
    else if outs[k - 1].commandTopic == topic then Some(k - 1)
    else ExactMatch(outs, topic, k - 1)
  }

  /** The input a command payload selects: one digit naming an existing input. */
  function CommandPort(payload: string, payloadSize: nat): (p: Option<uint8>)
    requires payloadSize <= |payload|
    ensures p.Some? <==> payloadSize == 1 && '0' as int <= payload[0] as int < '0' as int + IN_PORTS
    ensures p.Some? ==> p.value < IN_PORTS as uint8 && p.value as int == payload[0] as int - '0' as int
  {
    if payloadSize == 1 && payload[0] as int >= 48 && payload[0] as int < 48 + IN_PORTS then
      Some((payload[0] as int - 48) as uint8)
    else None
  }

  /** The command template sends an input's index as one digit, and that is the input the command selects. */
  lemma CommandPortDigits(i: nat)
    requires i < IN_PORTS
    ensures CommandPort(DecStr(i), 1) == Some(i as uint8)
  {
    DecStrSmall(i);
  }

  /** The command topics of a device are "<state topic>/set/out<N>". */
  predicate CommandTopics(d: Device)
    requires Shaped(d)
  {
    && |d.stateTopic| < TOPIC_SIZE && NulFree(d.stateTopic)
    && forall k :: 0 <= k < OUT_PORTS ==> d.outputs[k].commandTopic == CommandTopic(d.stateTopic, k)
  }

  lemma CommandTopicShape(d: Device, k: nat)
    requires Shaped(d) && CommandTopics(d) && k < OUT_PORTS
    ensures d.outputs[k].commandTopic == d.stateTopic + "/set/out" + [Digit(k + 1)]
    ensures NulFree(d.outputs[k].commandTopic)
  {
    CommandTopicFits(d.stateTopic, k);
    DecStrSmall(k + 1);
  }

  /**
   * On the command topics themselves the prefix comparison picks the right
   * output: received whole, the topic of output j selects output j, as an
   * exact comparison does.
   */
  lemma CommandTopicSelectsItsOutput(d: Device, j: nat)
    requires Shaped(d) && CommandTopics(d) && j < OUT_PORTS
    ensures var topic := d.outputs[j].commandTopic;
      && LastMatch(d.outputs, topic, |topic|, OUT_PORTS) == Some(j)
      && ExactMatch(d.outputs, topic, OUT_PORTS) == Some(j)
  {
    var topic := d.outputs[j].commandTopic;
    CommandTopicShape(d, j);
    forall k | 0 <= k < OUT_PORTS && k != j
      ensures !TopicMatches(d.outputs[k], topic, |topic|) && d.outputs[k].commandTopic != topic
    {
      var c := d.outputs[k].commandTopic;
      CommandTopicShape(d, k);
      StrnEqPrefix(c, topic);
      assert c[|c| - 1] == Digit(k + 1) && topic[|topic| - 1] == Digit(j + 1);
      assert c != topic;
      assert !(topic <= c);
    }
    StrnEqPrefix(topic, topic);
    var r := LastMatch(d.outputs, topic, |topic|, OUT_PORTS);
    assert r.Some? && r.value == j;
  }

  /**
   * The prefix comparison as written accepts a topic that is no command
   * topic: "<state topic>/set/out" selects the last output, which an exact
   * comparison rejects.
   */
  lemma TruncatedTopicSelectsLast(d: Device)
    requires Shaped(d) && CommandTopics(d)
    ensures var topic := d.stateTopic + "/set/out";
      && LastMatch(d.outputs, topic, |topic|, OUT_PORTS) == Some(OUT_PORTS - 1)
      && ExactMatch(d.outputs, topic, OUT_PORTS) == None
  {
    var topic := d.stateTopic + "/set/out";
    forall k | 0 <= k < OUT_PORTS
      ensures d.outputs[k].commandTopic != topic
    {
      CommandTopicShape(d, k);
    }
    CommandTopicShape(d, OUT_PORTS - 1);
    var c := d.outputs[OUT_PORTS - 1].commandTopic;
    assert topic <= c;
    StrnEqPrefix(c, topic);
  }

  /** A received topic length of zero matches every command topic, so the last output is picked. */
  lemma EmptyTopicSelectsLast(outs: seq<Output>, topic: string)
    requires |outs| == OUT_PORTS
    ensures LastMatch(outs, topic, 0, OUT_PORTS) == Some(OUT_PORTS - 1)
  {
  }
}
