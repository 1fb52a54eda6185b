# Audio matrix switch firmware: a Dafny model

This project models the core of an ESP32 firmware that drives an audio matrix
switch. The switch has three inputs and six outputs. It is controlled over MQTT
by Home Assistant and over a small REST server.

The main component is `audiomatrix`. It keeps one static device record: the
inputs, the outputs with their class (disabled, switch or select) and routing,
and the identifiers and MQTT topics. It covers five jobs:

- It loads the record from the `device` NVS namespace, and writes a factory
  layout when the namespace or the identifier is missing.
- It saves the whole record, or a single routing key, under a mutex.
- It derives the snake-case names, object and unique ids, command topics and
  Home Assistant discovery documents.
- It packs the routing of the first four outputs into the 16-bit word the relay
  board is sent.
- It validates inbound MQTT commands.

Four smaller components are modelled beside it:

- `events`: a bounded callback registry, and a FIFO data queue whose heap copies
  are freed late, through a "garbage" list.
- `home_web_server`: the content type of a static file, the path it is read
  from, and the LED colour request handler.
- `matrix_relay`: one SPI transaction per 16-bit word, each logged as a 16-digit
  binary string.
- `matrix_lcd`: an HD44780 display behind an I2C expander in 4-bit mode. Each
  byte becomes two nibbles, and each nibble becomes three I2C bytes.

## How the model is built

- The device record is a `Device` datatype. The component is the class
  `Audiomatrix.Audiomatrix`, whose methods update `device`, the NVS `store` and
  a `locked` flag for the mutex. They drive a `Relay` and an `Lcd` object, each
  keeping a trace of what it has been sent, and a `notices` trace of the events
  posted.
- NVS is a map from a key datatype to string or `uint8` values.
  `Nvs.KeyName` gives a key's text (`dev.name`, `in2.sh_name`,
  `out3.input`, ...). `Nvs.KeyNameInjective` proves that distinct keys have
  distinct texts, so a map over keys behaves like the store's map over key
  strings.
- One Dafny `char` stands for one C byte. Buffer capacities, and so
  `CLib.Fit`, count bytes. The UTF-8 names of `audiomatrix_types.h` are byte
  sequences here, not code points.
- C strings are their contents without the terminator. `CLib.Fit(s, size)` is
  the truncation `strlcpy`/`snprintf` perform into a buffer of `size` bytes,
  and `CLib.Strlcat` is `strlcat`.
- JSON documents are an abstract tree (`Representation.Json`). `cJSON_Print`
  is a parameter (`render`). Only the length of its output enters a contract:
  the overflow check.
- Loops in the source are loops in the model:
  - `toSnakeCase`, `sendOutputToMatrix`, the template builders and
    `setDefaultPreferences` in `audiomatrix`;
  - `eventsCallbackExec` and the garbage collection in `events`;
  - the receive loop of the web server;
  - `uint16ToBinaryStr` and `sendToRelay`;
  - `lcdWriteStr`.

  Each such loop is proved against a function that specifies its result, and the
  properties are proved about those functions.
- `audiomatrixInit` is modelled by `Init`. It calls `FactoryBoot` or
  `StoredBoot`, one per branch of the source. Each of these frees the mutex,
  runs `setDefaultPreferences` (through `FactoryStart`) or `deviceConfigure`
  (through `StoredStart`), and then posts the LED colour (`PostLedColor`).
- The two loops of `setDefaultPreferences` are the module-level method
  `Audiomatrix.DefaultRecord`.

Details of the code that the model keeps:

- `setPort` does not check its indices. The model requires them in range, and
  every caller in the source passes in-range values.
- In the relay table, input 2 gives `0b1111` and any other value gives
  `0b0000`.
- The inbound command matches topics with `strncmp` over the received length,
  not exactly (Finding 2).
- The payload overflow check misses a text that exactly fills the buffer
  (Finding 1).
- When `nvsOpen` fails in `savePort` or `saveConfig`, the mutex is left taken.
  In the model every later save and load is then refused.
- `int total_len = req->content_len` turns a Content-Length of 2^31 or more
  into a negative length that passes the size guard (Finding 3).

## Model

| member | source | states |
|---|---|---|
| Nvs.GetStr | components/nvs_preferences/src/nvs_preferences.c:21-42 | a string read succeeds exactly when the key holds a string; the value is the stored string cut to the buffer, and whole when it fits |
| Nvs.GetU8 | components/nvs_preferences/src/nvs_preferences.c:55-64 | a byte read succeeds exactly when the key holds a byte, and yields it |
| Nvs.KeyNameInjective | components/audiomatrix/src/audiomatrix.c:219-241 | two keys with the same text (`dev.<f>`, `in<N>.<f>`, `out<N>.<f>`) are the same key |
| Nvs.KeysFit | components/audiomatrix/src/audiomatrix.c:202 | every key text is shorter than the 16-byte key buffer, so `snprintf` never cuts a key |
| DeviceModel.ZeroDevice | components/audiomatrix/src/audiomatrix.c:30 | the zero-initialised static record satisfies the record invariant |
| DeviceModel.ToSnakeCase | components/audiomatrix/src/audiomatrix.c:35-43 | writes min(strlen(src), size-1) characters, each `_` for a space and the lower-case character otherwise, then the terminator; the rest of the buffer is untouched |
| DeviceModel.SnakeCaseNormal | components/audiomatrix/src/audiomatrix.c:38-39 | a snake-cased name holds no space and no upper-case letter, and snake-casing it again changes nothing |
| DeviceModel.ObjectIdSpec | components/audiomatrix/src/audiomatrix.c:136-138 | objectId is device formatted name + `_` + output formatted name, cut to 49 bytes, and uncut when both names fit their buffers |
| DeviceModel.UniqueIdSpec | components/audiomatrix/src/audiomatrix.c:140-144 | uniqueId is identifier + `_` + class name + `_` + output formatted name, cut to 40 bytes, and uncut when the parts fit their buffers |
| DeviceModel.CommandTopicFits | components/audiomatrix/src/audiomatrix.c:146-147 | commandTopic is state topic + `/set/out` + (num+1) whole, for a state topic that fits its buffer |
| Routing.PackRouting | components/audiomatrix/src/audiomatrix.c:81-101 | the loop's `shift` is the packed nibble word of outputs 1, 0, 3, 2, and its complement is the relay word |
| Routing.PackedLayout | components/audiomatrix/src/audiomatrix.c:82-86 | output 1's nibble is the most significant, then outputs 0, 3 and 2 |
| Routing.OnlyFirstFourOutputs | components/audiomatrix/src/audiomatrix.c:82-100 | two routings that agree on outputs 0 to 3 give the same relay word |
| Routing.DefaultRelayWord | components/audiomatrix/src/audiomatrix.c:79-103 | the default routing (output 0 to input 1, the rest to input 0) packs to 0x5555 and sends 0xAAAA |
| Routing.NibbleOfRelayWord | components/audiomatrix/src/audiomatrix.c:87-101 | the complement of each of outputs 0 to 3's nibble in the sent word is that output's wiring-table entry for its input |
| Routing.RelayWordDecodes | components/audiomatrix/src/audiomatrix.c:87-101 | for inputs in range, the routing of outputs 0 to 3 can be read back from the relay word |
| Persistence.View | components/audiomatrix/src/audiomatrix.c:160 | a namespace that cannot be opened reads as an empty store |
| Persistence.SaneLoads | components/audiomatrix/src/audiomatrix.c:126 | a store whose classes and ports are in range loads only classes and ports in range |
| Persistence.LoadInput | components/audiomatrix/src/audiomatrix.c:105-117 | the loaded input has its index, a formatted name that is the snake case of its name, and names that fit their buffers or were kept from before |
| Persistence.LoadOutput | components/audiomatrix/src/audiomatrix.c:119-151 | the loaded output has its index, an in-range class, and an object id, unique id and command topic that follow their formulas over the loaded fields |
| Persistence.LoadDeviceValid | components/audiomatrix/src/audiomatrix.c:153-183 | loading a valid record from a sane store gives a valid record whose input ports are the stored ones, or the previous ones where a key is missing |
| Persistence.LoadDevice | components/audiomatrix/src/audiomatrix.c:153-183 | deviceConfigure's load of the whole record from the namespace over the previous record; the result keeps the record's shape |
| Persistence.SaveDevAt | components/audiomatrix/src/audiomatrix.c:210-215 | `dev.identifier` is written only for a non-empty identifier and is otherwise left as it was; name, URL and the two topics are always written |
| Persistence.SavePortKey | components/audiomatrix/src/audiomatrix.c:277-278 | `out<N>.input` holds the new input and every other key is unchanged |
| Persistence.SaveInputsKeeps | components/audiomatrix/src/audiomatrix.c:217-225 | saving the inputs changes no key outside the `in<N>` family |
| Persistence.SaveInputsAt | components/audiomatrix/src/audiomatrix.c:217-225 | after saving the inputs, each input's name, short and long name are stored under its own keys |
| Persistence.SaveInputAt | components/audiomatrix/src/audiomatrix.c:219-224 | one input's save stores each of its three names under its key |
| Persistence.SaveOutputsKeeps | components/audiomatrix/src/audiomatrix.c:227-243 | saving the outputs changes no key outside the `out<N>` family |
| Persistence.SaveOutputAt | components/audiomatrix/src/audiomatrix.c:230-241 | one output's save stores its class, three names and input under its keys |
| Persistence.SaveOutputOther | components/audiomatrix/src/audiomatrix.c:227-243 | saving output N touches no key of another output |
| Persistence.SaveOutputsAt | components/audiomatrix/src/audiomatrix.c:227-243 | after saving the outputs, each output's fields are stored under its own keys |
| Persistence.SaveAllIn | components/audiomatrix/src/audiomatrix.c:217-225 | the whole save leaves every input field stored |
| Persistence.SaveAllOut | components/audiomatrix/src/audiomatrix.c:227-243 | the whole save leaves every output field stored |
| Persistence.SaveAllDev | components/audiomatrix/src/audiomatrix.c:209-243 | the port keys written after the device keys do not disturb them |
| Persistence.SaveAllSane | components/audiomatrix/src/audiomatrix.c:199-243 | saving a record with classes and ports in range keeps the store in range |
| Persistence.SaveAll | components/audiomatrix/src/audiomatrix.c:199-243 | saveConfig's writes on an open handle; no key is removed, and the device name and both topics are always present afterwards |
| Persistence.SavePortSane | components/audiomatrix/src/audiomatrix.c:277-278 | writing an in-range port keeps the store in range |
| Persistence.SavedInputReloads | components/audiomatrix/src/audiomatrix.c:105-117 | an input reloaded after a save has the saved names and a recomputed formatted name |
| Persistence.SavedOutputReloads | components/audiomatrix/src/audiomatrix.c:119-151 | an output reloaded after a save has the saved class, names and input, and recomputed derived ids |
| Persistence.SavedDevReloads | components/audiomatrix/src/audiomatrix.c:161-175 | the device strings reload as saved, and the identifier as saved, or as stored before when the saved one is empty |
| Persistence.SaveThenLoad | components/audiomatrix/src/audiomatrix.c:199-247 | saving a record and reloading gives back that record with its formatted names and derived ids recomputed, and with an empty identifier replaced by the stored one |
| Persistence.LoadInputAgree | components/audiomatrix/src/audiomatrix.c:105-117 | an input's load depends only on its own three keys |
| Persistence.LoadOutputAgree | components/audiomatrix/src/audiomatrix.c:119-151 | an output's load depends only on its own keys, its input key only for `inputPort` |
| Persistence.SavedPortSane | components/audiomatrix/src/audiomatrix.c:266-283 | after the port key is written, the reload still loads classes and ports in range |
| Persistence.SavedPortDev | components/audiomatrix/src/audiomatrix.c:161-175 | the port key changes none of the device-level fields of a reload |
| Persistence.PortKeyKeepsDevStr | components/audiomatrix/src/audiomatrix.c:277-278 | reading a `dev.*` key after the port key is written gives what it gave before |
| Persistence.SavedPortInputs | components/audiomatrix/src/audiomatrix.c:177-179 | the port key changes no reloaded input |
| Persistence.SavedPortOutput | components/audiomatrix/src/audiomatrix.c:149-150 | the port key changes only the `inputPort` of its own output on reload |
| Persistence.SavedPortOutputs | components/audiomatrix/src/audiomatrix.c:181-183 | across all outputs, only the chosen one's `inputPort` reloads differently |
| Persistence.SavedPortReloads | components/audiomatrix/src/audiomatrix.c:266-283 | a reload after `savePort(o, i)` equals the reload before it with `outputs[o].inputPort = i` |
| Persistence.MacId | components/audiomatrix/src/audiomatrix.c:61-68 | the identifier is `0x` followed by two hex digits per MAC byte, 14 characters in all |
| Persistence.MacIdFits | components/audiomatrix/src/audiomatrix.c:66 | the MAC identifier fits the 16-byte identifier buffer |
| Persistence.DefaultClass | components/audiomatrix/src/audiomatrix.c:306-315 | the default class is Disable exactly for output 4, Select exactly for output 5, and Switch otherwise |
| Persistence.DefaultPort | components/audiomatrix/src/audiomatrix.c:321-322 | every default input port is in range |
| Persistence.DefaultNames | components/audiomatrix/src/audiomatrix.c:295-323 | default inputs are named `In<N>`, and default outputs `Out<N>` with short name `Ou<N>`, all with in-range classes and ports |
| Persistence.DefaultRouting | components/audiomatrix/src/audiomatrix.c:321-322 | the default routing is [1, 0, 0, 0, 0, 0] |
| Representation.DeviceStateDoc | components/audiomatrix/src/audiomatrix.c:379-392 | the state document is an object with one member per output plus `state` |
| Representation.OutNameInjective | components/audiomatrix/src/audiomatrix.c:386 | different outputs get different `out<N>` member names |
| Representation.StateDocReadsBack | components/audiomatrix/src/audiomatrix.c:379-392 | the state document reads `state: online`, and its `out<N>` members read back as the routing |
| Representation.ConfigurationUrl | components/audiomatrix/src/audiomatrix.c:45-54 | the URL is the configured one, cut to 64 bytes, or otherwise starts with `http://` |
| Representation.ConfigurationUrlExact | components/audiomatrix/src/audiomatrix.c:45-54 | a configured URL that fits is used whole; otherwise the URL is `http://` + IP when the IP fits; it is never empty |
| Representation.DiscoveryTopic | components/audiomatrix/src/audiomatrix.c:405-414 | the `strlcat` chain yields `<hass>/<class>/<identifier>/<class>_<name>/config`, cut to the topic buffer |
| Representation.ValueTemplate | components/audiomatrix/src/audiomatrix.c:463-474 | the value template built option by option is the full template text cut to its buffer |
| Representation.CommandTemplate | components/audiomatrix/src/audiomatrix.c:477-486 | the command template built option by option is the full template text cut to its buffer |
| Representation.ValueOptionStep | components/audiomatrix/src/audiomatrix.c:465-469 | appending one `<i>:'<long>',` option extends the cut prefix as appending to the whole text would |
| Representation.CommandOptionStep | components/audiomatrix/src/audiomatrix.c:479-483 | appending one `'<long>':<i>,` option extends the cut prefix as appending to the whole text would |
| Representation.OptionsUncut | components/audiomatrix/src/audiomatrix.c:463-469 | with long names that fit their buffer, no option is cut, and the options text is the whole mapper within a known length |
| Representation.ValueTemplateExact | components/audiomatrix/src/audiomatrix.c:463-475 | the select value template is `{% set mapper = {` + options + `} %}{% set x = value_json.out<N> %}{{ mapper[x] if x in mapper else 'Failed' }}` |
| Representation.CommandTemplateExact | components/audiomatrix/src/audiomatrix.c:477-488 | the select command template is `{% set mapper = {` + options + `} %}{{ mapper[value] if value in mapper else 'Failed' }}` |
| Representation.SwitchTemplateExact | components/audiomatrix/src/audiomatrix.c:453-455 | the switch value template is `{{ value_json.out<N> }}` |
| Representation.GetHaMQTTOutputConfig | components/audiomatrix/src/audiomatrix.c:400-501 | the topic is always the discovery topic; a class mismatch gives an empty payload and success; otherwise the payload is the rendered document cut to the buffer, with success exactly when the text is not longer than the buffer |
| Representation.StateTopic | components/audiomatrix/src/audiomatrix.c:394-398 | the topic is a prefix of the state topic, and the whole state topic when it fits |
| Representation.GetHaMQTTDeviceState | components/audiomatrix/src/audiomatrix.c:508-521 | the topic is the state topic; the payload is the rendered state document cut to the buffer, with success exactly when it is not longer than the buffer |
| Representation.ExactFitReportedComplete | components/audiomatrix/src/audiomatrix.c:494 | a text exactly as long as the buffer passes the check as written, yet is cut and not complete |
| Representation.PayloadComplete | components/audiomatrix/src/audiomatrix.c:493-494 | the corrected check: success exactly when the copy holds the whole text |
| Representation.DiscoveryDocHead | components/audiomatrix/src/audiomatrix.c:423-449 | the discovery document has the device block and the output's name, object id, unique id, command topic and the state topic |
| Representation.DiscoveryDoc | components/audiomatrix/src/audiomatrix.c:423-492 | the discovery tree of an output: an object with at least the seven head members, the first being the availability list on the state topic with the state template |
| Representation.DeviceBlockOnlyFirst | components/audiomatrix/src/audiomatrix.c:430-443 | the device block always lists the identifier, and carries name and configuration URL exactly when num is 0 |
| Representation.SwitchDoc | components/audiomatrix/src/audiomatrix.c:450-456 | a switch has `payload_off` 1, `payload_on` 0, the switch value template and no options |
| Representation.SelectDoc | components/audiomatrix/src/audiomatrix.c:457-489 | a select has the input long names as options, in order, and the two mapper templates, and no on/off payloads |
| Representation.DisabledDoc | components/audiomatrix/src/audiomatrix.c:450-489 | a disabled output has no value template, options or on/off payloads |
| Representation.LastMatch | components/audiomatrix/src/audiomatrix.c:531-537 | the chosen output is the highest-indexed one whose command topic matches the first topicSize characters of the topic, and there is none exactly when no output matches |
| Representation.ExactMatch | components/audiomatrix/src/audiomatrix.c:534 | the corrected choice: the highest-indexed output whose command topic equals the topic |
| Representation.CommandPort | components/audiomatrix/src/audiomatrix.c:538 | a payload selects an input exactly when it is one character from `0` to `0`+IN_PORTS-1, and it selects that digit's input |
| Representation.CommandPortDigits | components/audiomatrix/src/audiomatrix.c:481 | the index a command template sends is the input the command handler selects |
| Representation.CommandTopicShape | components/audiomatrix/src/audiomatrix.c:146-147 | each command topic is the state topic + `/set/out` + one digit |
| Representation.CommandTopicSelectsItsOutput | components/audiomatrix/src/audiomatrix.c:531-537 | received whole, output j's own command topic selects output j under both the prefix and the exact comparison |
| Representation.TruncatedTopicSelectsLast | components/audiomatrix/src/audiomatrix.c:534 | `<state topic>/set/out` selects the last output under the prefix comparison, and no output under the exact one |
| Representation.EmptyTopicSelectsLast | components/audiomatrix/src/audiomatrix.c:534 | a received length of zero selects the last output |
| Audiomatrix.DisplayLine | components/audiomatrix/src/audiomatrix.c:73-74 | the line `<out short>:<in short> ` fits the 9-byte buffer and holds no NUL |
| Audiomatrix.DisplayColumn | components/audiomatrix/src/audiomatrix.c:75 | even outputs start at column 0, odd ones at column 8 |
| Audiomatrix.DisplayRow | components/audiomatrix/src/audiomatrix.c:75 | output num is shown on row num/2 |
| Audiomatrix.StoredIdentifier | components/audiomatrix/src/audiomatrix.c:562-566 | a stored identifier is found exactly when the namespace opens and `dev.identifier` holds a string |
| Audiomatrix.DisplayDependsOnFaces | components/audiomatrix/src/audiomatrix.c:70-78 | the display bytes depend only on the short names and the routing |
| Audiomatrix.SameFacesLine | components/audiomatrix/src/audiomatrix.c:74 | one output's line depends only on the short names and its routing |
| Audiomatrix.LastRowsOverwrite | components/audiomatrix/src/audiomatrix.c:75 | on a two-row display, outputs 4 and 5 are written at the cursor positions of outputs 2 and 3 |
| Audiomatrix.DisplayLineReadsBack | components/audiomatrix/src/audiomatrix.c:74-76 | each character of an output's line can be read back from the bytes sent to the display |
| Audiomatrix.RoutedPorts | components/audiomatrix/src/audiomatrix.c:253-254 | routing an output changes exactly that output's input in the routing, and keeps the record valid |
| Audiomatrix.RoutedBeyondRelays | components/audiomatrix/src/audiomatrix.c:253-255 | routing output 4 or 5 leaves the relay word unchanged |
| Audiomatrix.RoutedRelayNibble | components/audiomatrix/src/audiomatrix.c:253-255 | routing one of outputs 0 to 3 sets its nibble of the relay word to its wiring-table entry for the new input |
| Audiomatrix.FormatName | components/audiomatrix/src/audiomatrix.c:164 | the formatted name written through `toSnakeCase` is the snake case of the name |
| Audiomatrix.DefaultRecord | components/audiomatrix/src/audiomatrix.c:288-323 | the record the two default loops fill in is the factory layout |
| Audiomatrix.Audiomatrix.constructor | components/audiomatrix/src/audiomatrix.c:30-31 | the component starts with a zero record, a free mutex and no events |
| Audiomatrix.Audiomatrix.SendOutputToMatrix | components/audiomatrix/src/audiomatrix.c:79-103 | the relay receives exactly one word, the relay word of the current routing, and logs its binary text |
| Audiomatrix.Audiomatrix.SendOutputToDisplay | components/audiomatrix/src/audiomatrix.c:70-78 | the display receives, for each output in order, the cursor command and its line |
| Audiomatrix.Audiomatrix.InputConfigure | components/audiomatrix/src/audiomatrix.c:105-117 | only input num changes, to its load from the store |
| Audiomatrix.Audiomatrix.OutputConfigure | components/audiomatrix/src/audiomatrix.c:119-151 | only output num changes, to its load from the store and the device fields |
| Audiomatrix.Audiomatrix.ConfigureFields | components/audiomatrix/src/audiomatrix.c:160-175 | the device-level fields are loaded and the build strings copied in; nothing else changes |
| Audiomatrix.Audiomatrix.ConfigureInputs | components/audiomatrix/src/audiomatrix.c:177-179 | the inputs are replaced by their loads; nothing else changes |
| Audiomatrix.Audiomatrix.ConfigureOutputs | components/audiomatrix/src/audiomatrix.c:181-183 | the outputs are replaced by their loads; nothing else changes |
| Audiomatrix.Audiomatrix.ConfiguredRecord | components/audiomatrix/src/audiomatrix.c:160-183 | the three load steps in order give the loaded record |
| Audiomatrix.Audiomatrix.Announce | components/audiomatrix/src/audiomatrix.c:187-195 | after a record change, the relays get its word, the display its lines, and one event is posted |
| Audiomatrix.Audiomatrix.LoadRecord | components/audiomatrix/src/audiomatrix.c:160-184 | the record becomes its load from the store, and the store is unchanged |
| Audiomatrix.Audiomatrix.DeviceConfigure | components/audiomatrix/src/audiomatrix.c:153-197 | with the mutex taken, fails and changes nothing; otherwise loads the record, announces it and succeeds |
| Audiomatrix.Audiomatrix.WriteRecord | components/audiomatrix/src/audiomatrix.c:209-243 | the store becomes the whole-record save of d, and nothing else changes |
| Audiomatrix.Audiomatrix.SaveConfig | components/audiomatrix/src/audiomatrix.c:199-248 | succeeds exactly when the mutex is free and the namespace opens; failure changes nothing but the lock; success saves d, reloads and announces, and for a submitted record the reload is d with derived fields recomputed |
| Audiomatrix.Audiomatrix.SetPort | components/audiomatrix/src/audiomatrix.c:250-264 | the one output is rerouted, the store is untouched, and the change is announced with the output's index |
| Audiomatrix.Audiomatrix.SavePort | components/audiomatrix/src/audiomatrix.c:266-283 | succeeds exactly when the mutex is free and the namespace opens; failure changes nothing but the lock; success writes the one key and reroutes the output |
| Audiomatrix.Audiomatrix.SetDefaultPreferences | components/audiomatrix/src/audiomatrix.c:285-327 | always reports success; the factory layout is saved and reloaded when the save can proceed, and refused otherwise |
| Audiomatrix.Audiomatrix.SetHaMQTTOutput | components/audiomatrix/src/audiomatrix.c:529-543 | acts exactly when an output matches and the payload is one valid digit, saving that port; otherwise it fails with nothing changed |
| Audiomatrix.Audiomatrix.Init | components/audiomatrix/src/audiomatrix.c:546-587 | without a stored identifier: the factory record is saved and reloaded from the store, its relay word and display lines are sent, and ConfigChanged and then the LED colour are posted; when the namespace cannot be opened for writing, the mutex is left taken and only the LED colour is posted; with a stored identifier: the record is loaded over it from the unchanged store, shown, and ConfigChanged and then the LED colour are posted |
| Audiomatrix.Audiomatrix.FactoryBoot | components/audiomatrix/src/audiomatrix.c:559-580 | the factory branch of the boot: the saved default record, the reload, the relay word, the display lines, then ConfigChanged and the LED notice; or, when the open fails, only the taken mutex and the LED notice |
| Audiomatrix.Audiomatrix.FactoryStart | components/audiomatrix/src/audiomatrix.c:562-570 | setDefaultPreferences on a free mutex: ConfigSaved of the default record (saved store, reload, relay word, display lines, ConfigChanged), or Refused when the open fails |
| Audiomatrix.Audiomatrix.StoredBoot | components/audiomatrix/src/audiomatrix.c:559-580 | the load branch of the boot: the record loaded over the stored identifier from the unchanged store, the relay word, the display lines, then ConfigChanged and the LED notice |
| Audiomatrix.Audiomatrix.StoredStart | components/audiomatrix/src/audiomatrix.c:571-574 | deviceConfigure over the stored identifier: the record is loaded from the unchanged store, sent to the relays and the display, and ConfigChanged is posted |
| Audiomatrix.Audiomatrix.PostLedColor | components/audiomatrix/src/audiomatrix.c:575-580 | appends the green LED colour (0, 16, 0) to the notices and changes nothing else |
| Events.MatchingAppend | components/events/src/events.c:73-78 | one more registration adds its call at the end of the dispatch, exactly when it matches |
| Events.Matching | components/events/src/events.c:73-78 | the calls eventsCallbackExec makes for an event: never more than there are registrations |
| Events.MatchingMembers | components/events/src/events.c:73-78 | a handler is called with an argument exactly when it was registered with it for that base and id |
| Events.MatchingEvent | components/events/src/events.c:75-76 | every call gets the event's own base, id and data |
| Events.HeadToGarbage | components/events/src/events.c:158-166 | removing the matching head and adding it to the garbage list keeps the queue and garbage invariant |
| Events.RefOf | components/events/src/events.c:159-165 | the reference handed out is NULL exactly for an item without data |
| Events.InlineVal | components/events/src/events.c:125-131 | the inline value holds the copied bytes, then zeros |
| Events.EventBus.Boot | components/events/src/events.c:18-27 | before initialisation, nothing is registered, queued or allocated |
| Events.EventBus.Init | components/events/src/events.c:201-208 | allocates the registry and the garbage list at their configured sizes and creates an empty queue |
| Events.EventBus.Free | components/events/src/events.c:31-33 | frees exactly the one live block |
| Events.EventBus.CollectGarbage | components/events/src/events.c:37-43 | frees the block of every collected item and empties the list, leaving live exactly the blocks still queued |
| Events.EventBus.Register | components/events/src/events.c:50-68 | succeeds exactly when there is room, appending the registration; a failure changes nothing |
| Events.EventBus.Exec | components/events/src/events.c:70-80 | calls exactly the matching handlers, in registration order, and returns ESP_OK |
| Events.EventBus.SendToBack | components/events/src/events.c:108 | appends exactly when the queue has a free slot |
| Events.EventBus.Post | components/events/src/events.c:82-114 | empties the garbage first; copies data only for a non-null pointer and non-zero size; NO_MEM exactly when that copy fails; appends on success; a full queue frees the copy and leaves the queue as it was |
| Events.EventBus.PostFromISR | components/events/src/events.c:116-144 | empties the garbage first; refuses more than four bytes with INVALID_ARG; stores the data inline; appends exactly when there is room |
| Events.EventBus.Get | components/events/src/events.c:146-173 | looks only at the head; a non-matching head stays, with NULL handed out; a matching head is removed and its data handed out, with success and a garbage entry exactly when it has data |
| Events.EventBus.AddGarbage | components/events/src/events.c:45-48 | appends the item to the garbage list within its capacity |
| WebServer.ContentTypeIsTableLookup | components/home_web_server/src/home_web_server.c:19-36 | the if-chain is the first match in the table .html, .js, .css, .png, .ico, .svg, else text/plain |
| WebServer.ContentType | components/home_web_server/src/home_web_server.c:19-36 | set_content_type_from_file's if-chain: always one of the six known types or text/plain |
| WebServer.ContentTypeIgnoresCase | components/home_web_server/src/home_web_server.c:22-33 | a name and its lower-case form get the same content type |
| WebServer.ContentTypeDefault | components/home_web_server/src/home_web_server.c:21 | a name ending in none of the six extensions is text/plain |
| WebServer.FilePath | components/home_web_server/src/home_web_server.c:53-59 | the path is base + `/index.html` for a URI ending in `/`, else base + URI, cut to FILE_PATH_MAX-1, and uncut when both parts fit |
| WebServer.PathTail | components/home_web_server/src/home_web_server.c:55-59 | what is appended to the base: the URI itself, or `/index.html` for a URI ending in `/`, so the path never ends in `/` |
| WebServer.RecvInto | components/home_web_server/src/home_web_server.c:110 | the received bytes land at the offset, and the rest of the buffer is unchanged |
| WebServer.TotalLen | components/home_web_server/src/home_web_server.c:100 | the 32-bit Content-Length read as a signed int: the same value below 2^31, that value minus 2^32 (negative) from 2^31 on |
| WebServer.HugeLengthPassesGuard | components/home_web_server/src/home_web_server.c:100-118 | every Content-Length from 2^31 on is too long for the buffer, yet passes the guard as written, with a negative total_len as the terminator's index |
| WebServer.GuardsAgree | components/home_web_server/src/home_web_server.c:100-104 | below 2^31 the guard as written refuses exactly the lengths the unsigned comparison refuses |
| WebServer.ReceiveBody | components/home_web_server/src/home_web_server.c:100-118 | with the guard comparing the unsigned length: a body of SCRATCH_BUFSIZE bytes or more is refused before any read; the body is accepted exactly when the reads deliver it, and is then in the buffer with its terminator |
| WebServer.RouteOf | components/home_web_server/src/home_web_server.c:132-152 | types 0, 1 and 2 go to the event loop, the callbacks and the data queue; any other type goes nowhere |
| WebServer.OnboardLedSetPost | components/home_web_server/src/home_web_server.c:98-156 | replies success exactly when the body is received; type 1 runs the matching callbacks; type 2 queues a heap copy of the colour exactly when the queue is initialised, the copy can be allocated and a slot is free, and otherwise leaves the queue as it was; other types touch neither |
| MatrixRelay.BinaryStr | components/matrix_relay/src/matrix_relay.c:17-25 | 16 characters of `0`/`1`, character k being `1` exactly when bit 15-k is set |
| MatrixRelay.ParseBinaryStr | components/matrix_relay/src/matrix_relay.c:18-22 | the binary text reads back as the word it came from |
| MatrixRelay.Uint16ToBinaryStr | components/matrix_relay/src/matrix_relay.c:17-25 | writes the binary text and the terminator, leaves the rest of the buffer untouched, and returns true |
| MatrixRelay.Relay.constructor | components/matrix_relay/src/matrix_relay.c:15 | the device starts with nothing sent and nothing logged |
| MatrixRelay.Relay.SendToRelay | components/matrix_relay/src/matrix_relay.c:27-39 | transmits buf[0..sz) in order, one word per transaction, and logs the text of buf[0] once per transaction |
| MatrixLcd.Pulse | components/matrix_lcd/src/matrix_lcd.c:23-31 | an enable pulse is two bus bytes |
| MatrixLcd.NibbleBytes | components/matrix_lcd/src/matrix_lcd.c:33-38 | a nibble is three bus bytes |
| MatrixLcd.ByteBytes | components/matrix_lcd/src/matrix_lcd.c:40-44 | a byte is six bus bytes |
| MatrixLcd.ByteBytesDecode | components/matrix_lcd/src/matrix_lcd.c:33-44 | of a byte's six bus bytes, the first and fourth carry its high and low nibble with mode and backlight below, and each is followed by its copy with enable raised and then dropped |
| MatrixLcd.TextBytes | components/matrix_lcd/src/matrix_lcd.c:61-66 | a string is six bus bytes per character |
| MatrixLcd.TextBytesDecode | components/matrix_lcd/src/matrix_lcd.c:61-66 | each character can be read back from its six bus bytes |
| MatrixLcd.CursorRow | components/matrix_lcd/src/matrix_lcd.c:48-51 | a row past the last one is clamped to it, and any other row is kept |
| MatrixLcd.Lcd.constructor | components/matrix_lcd/src/matrix_lcd.c:21 | the display starts with nothing sent |
| MatrixLcd.Lcd.PulseEnable | components/matrix_lcd/src/matrix_lcd.c:23-31 | sends data with enable raised, then with it dropped |
| MatrixLcd.Lcd.WriteNibble | components/matrix_lcd/src/matrix_lcd.c:33-38 | sends the nibble's bus byte, then its enable pulse |
| MatrixLcd.Lcd.WriteByte | components/matrix_lcd/src/matrix_lcd.c:40-44 | sends the high nibble, then the low nibble, in the given mode |
| MatrixLcd.Lcd.SetCursor | components/matrix_lcd/src/matrix_lcd.c:46-54 | sends one command byte, addressing the column in the clamped row |
| MatrixLcd.Lcd.WriteChar | components/matrix_lcd/src/matrix_lcd.c:56-59 | sends the character as one data byte |
| MatrixLcd.Lcd.WriteStr | components/matrix_lcd/src/matrix_lcd.c:61-66 | sends every character before the terminator, in order, as data |
| MatrixLcd.Lcd.Home | components/matrix_lcd/src/matrix_lcd.c:68-72 | sends exactly the home command byte |
| MatrixLcd.Lcd.ClearScreen | components/matrix_lcd/src/matrix_lcd.c:74-78 | sends exactly the clear command byte |

## Left out

- I/O and hardware are left out: the SPI and I2C drivers and their `*Init` functions, the delays, logging, and streaming a static file. They appear only as the traces `transmitted`, `log`, `sent` and `notices`.
- Concurrency is left out: FreeRTOS tasks, mutex timeouts and the ISR variants of queue access (`eventsDataQueueGetFromISR`). The mutex is a flag taken when free, and `esp_event_post` always delivers.
- The `ticks_to_wait` blocking of `xQueueSendToBack` in `eventsDataQueuePost` and of `xQueuePeek` in `eventsDataQueueGet` is left out. The model treats both as immediate: a full queue refuses at once, and an empty queue yields nothing at once.
- `cJSON_Print` and `cJSON_Parse` are left out. The rendered text is the function parameter `render`, and the parsed LED request is an input, so the model says nothing about the exact JSON text or about a malformed body.
- `getDeviceConfig`, `getDevice`, `JSON_Message`, `systemInfoGetHandler`, `startWebServer`, `stopWebServer` and `fsInit` are left out. They are outside the modelled core.
- `getMAC`, `getIPv4Str` and `getCurrentRelease` are foreign calls. The MAC, the IP string and the build strings are inputs.
- The uninitialised memory `malloc` returns in `setDefaultPreferences` is the input `heap`.
- IN_PORTS and OUT_PORTS are build settings. The model fixes them at 3 and 6.
- The LCD header constants are not part of this model. They are the fields of `MatrixLcd.Codes`.
- `nvs_preferences` is modelled only as a map. A read of a missing or wrongly typed key fails and leaves the field as it was. Write failures are not modelled, and every write succeeds once the namespace is open.
- Event bases, handlers, their arguments and data pointers are numbers compared by identity. The C heap is the set of live block numbers.
- Audiomatrix.Audiomatrix.SetPort: the C code posts the bytes of the pointer `&output` (sizeof(output_t*)) with the port-changed event. The model's PortChanged notice carries the output's index instead.
- WebServer.OnboardLedSetPost: posting to the default event loop (type 0) is left out, and the body is received through ReceiveBody's unsigned guard.
- Events.EventBus.Get: in the inline case the C code hands out the address of a local copy. The model hands out the value itself.
- Audiomatrix.Audiomatrix.SetPort requires the output index and the input below IN_PORTS. The C code does not check them, but every caller passes in-range values. Out-of-range values would make the display read outside `device.inputs`.
- Audiomatrix.Audiomatrix.SavePort has the same requirement as SetPort.
- Audiomatrix.Audiomatrix.constructor requires a store whose classes and ports are in range. A stored class of 3 or more would make `outputConfigure` index outside `outputClass`.
- Audiomatrix.Audiomatrix.OutputConfigure has the same requirement, through the store invariant.
- Audiomatrix.Audiomatrix.SaveConfig requires every output's class below 3 and every input port below IN_PORTS. `saveConfig` does not check them. Its only caller, `setDefaultPreferences`, always passes such a record.
- WebServer.ReceiveBody compares the unsigned Content-Length with SCRATCH_BUFSIZE. The code converts it to a signed `int` first, and that is the as-written half of Finding 3. The two agree below 2^31 (`WebServer.GuardsAgree`).
- WebServer.ContentType requires a name of at least five characters. `CHECK_FILE_EXTENSION` reads before the start of a shorter name on its first test.
- WebServer.FilePath requires a non-empty URI. The handler reads the URI's last character.
- Audiomatrix.Audiomatrix.SaveConfig: the reload is stated as `Reloaded(...)` only for a submitted record whose strings fit their buffers. Otherwise it is stated as `LoadDevice` of the saved store.

## Findings

| source | as written | input that shows it | evidently intended | confidence | as-written member | corrected member |
|---|---|---|---|---|---|---|
| components/audiomatrix/src/audiomatrix.c:494 | `payloadSize < jsonPayloadSize` after `strlcpy` reports failure only for a text longer than the buffer (the same check is at line 515) | a rendered document exactly `payloadSize` characters long: `strlcpy` drops its last character, yet the call reports success | report success only when the whole text and its terminator fit (`jsonPayloadSize < payloadSize`) | high; not executed | Representation.ExactFitReportedComplete | Representation.PayloadComplete |
| components/audiomatrix/src/audiomatrix.c:534 | `strncmp(commandTopic, topic, topicSize) == 0` accepts any command topic that begins with the received text | topic `<stateTopic>/set/out`, or a received length of 0, selects the last output | act only on a topic equal to an output's command topic | medium; not executed | Representation.TruncatedTopicSelectsLast | Representation.ExactMatch |
| components/home_web_server/src/home_web_server.c:100 | `int total_len = req->content_len` turns the 32-bit size_t into a signed int before the guard `total_len >= SCRATCH_BUFSIZE` | a Content-Length of 2^31: `total_len` is -2^31, the guard lets it through, the receive loop is skipped, and `buf[total_len] = '\0'` writes before the scratch buffer | refuse every Content-Length of SCRATCH_BUFSIZE or more, compared unsigned | medium; not executed | WebServer.HugeLengthPassesGuard | WebServer.ReceiveBody |

The component's methods (`GetHaMQTTOutputConfig`, `GetHaMQTTDeviceState` and
`SetHaMQTTOutput`) model the code as written. The corrected definitions are
proved beside them. `Representation.CommandTopicSelectsItsOutput` shows that
the two comparisons agree on every genuine command topic.

For the web server it is the other way round. `WebServer.ReceiveBody`, which
`WebServer.OnboardLedSetPost` uses, compares the length unsigned.
`WebServer.AdmitsAsWritten` and `WebServer.HugeLengthPassesGuard` state what
the signed comparison in the code lets through.
