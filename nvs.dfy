/**
 * The persistent key/value namespace "device", as the preference wrappers
 * see it: each key holds either a string or an unsigned byte.  Reading a key
 * that is missing or holds the other type fails and leaves the destination
 * untouched; a string longer than its destination buffer is truncated.
 */
module Nvs {
  import opened CLib

  datatype Pref = Str(s: string) | U8(v: uint8)

  type Store = map<Key, Pref>

  /** getStrPref(handle, key, value, cap): Some(new content of value), or None when it fails. */
  function GetStr(store: Store, key: Key, cap: nat): (r: Option<string>)
    requires cap > 0
    ensures r.Some? <==> key in store && store[key].Str?
    ensures r.Some? ==> r.value == Fit(store[key].s, cap) && |r.value| < cap
    ensures r.Some? && |store[key].s| < cap ==> r.value == store[key].s
  {
    if key in store && store[key].Str? then Some(Fit(store[key].s, cap)) else None
  }

  /** getUInt8Pref(handle, key, value). */
  function GetU8(store: Store, key: Key): (r: Option<uint8>)
    ensures r.Some? <==> key in store && store[key].U8?
    ensures r.Some? ==> r.value == store[key].v
  {
    if key in store && store[key].U8? then Some(store[key].v) else None
  }

  /** The field of a destination after a string read: the read value, or the old one. */
  function LoadStr(store: Store, key: Key, cap: nat, prev: string): string
    requires cap > 0
  {
    match GetStr(store, key, cap)
    case Some(s) => s
    case None => prev
  }

  function LoadU8(store: Store, key: Key, prev: uint8): uint8
  {
    match GetU8(store, key)
    case Some(v) => v
    case None => prev
  }

  // ---------------------------------------------------------------------
  // Keys: "dev.<field>", "in<N>.<field>", "out<N>.<field>" with N = index + 1

  /** The field a key ends in. */
  datatype Field = Identifier | Name | ConfUrl | StateTopic | HassTopic | ShortName | LongName | Class | InputPort

  /** A key of the namespace, by family; KeyName gives the string the firmware formats for it. */
  datatype Key = DevKey(field: Field) | InKey(num: nat, field: Field) | OutKey(num: nat, field: Field)

  function FieldName(f: Field): string
  {
    match f
    case Identifier => "identifier"
    case Name => "name"
    case ConfUrl => "conf_url"
    case StateTopic => "state_topic"
    case HassTopic => "hass_topic"
    case ShortName => "sh_name"
    case LongName => "ln_name"
    case Class => "class"
    case InputPort => "input"
  }

  /** The field a key suffix names, if any: the inverse of FieldName. */
  function FieldOf(name: string): (r: Option<Field>)
  {
    if name == "identifier" then Some(Identifier)
    else if name == "name" then Some(Name)
    else if name == "conf_url" then Some(ConfUrl)
    else if name == "state_topic" then Some(StateTopic)
    else if name == "hass_topic" then Some(HassTopic)
    else if name == "sh_name" then Some(ShortName)
    else if name == "ln_name" then Some(LongName)
    else if name == "class" then Some(Class)
    else if name == "input" then Some(InputPort)
    else None
  }

  lemma FieldOfName(f: Field)
    ensures FieldOf(FieldName(f)) == Some(f)
  {
  }

  /** The key string: "dev." + field, or the family, the 1-based port number, "." and the field. */
  function KeyName(k: Key): (r: string)
    ensures |r| > 0
  {
    match k
    case DevKey(f) => "dev." + FieldName(f)
    case InKey(num, f) => "in" + DecStr(num + 1) + "." + FieldName(f)
    case OutKey(num, f) => "out" + DecStr(num + 1) + "." + FieldName(f)
  }

  /** The first character of a key name tells its family. */
  lemma KeyFamily(k: Key)
    ensures KeyName(k)[0] == (if k.DevKey? then 'd' else if k.InKey? then 'i' else 'o')
  {
  }

  lemma PortKeySplit(prefix: string, x: nat, f: Field, y: nat, g: Field)
    requires prefix + DecStr(x + 1) + "." + FieldName(f) == prefix + DecStr(y + 1) + "." + FieldName(g)
    ensures x == y && f == g
  {
    AppendAssoc(prefix, DecStr(x + 1), ".");
    AppendAssoc(prefix, DecStr(x + 1) + ".", FieldName(f));
    AppendAssoc(prefix, DecStr(y + 1), ".");
    AppendAssoc(prefix, DecStr(y + 1) + ".", FieldName(g));
    PrefixCancel(prefix, DecStr(x + 1) + "." + FieldName(f), DecStr(y + 1) + "." + FieldName(g));
    DigitsDotSplit(DecStr(x + 1), FieldName(f), DecStr(y + 1), FieldName(g));
    DecStrInjective(x + 1, y + 1);
    FieldOfName(f);
    FieldOfName(g);
  }

  /**
   * Different keys have different names, so a namespace indexed by key
   * strings holds exactly what one indexed by keys holds.
   */
  lemma KeyNameInjective(a: Key, b: Key)
    requires KeyName(a) == KeyName(b)
    ensures a == b
  {
    KeyFamily(a);
    KeyFamily(b);
    match a
    case DevKey(f) =>
      assert FieldName(f) == KeyName(a)[4..] == FieldName(b.field);
      FieldOfName(f);
      FieldOfName(b.field);
    case InKey(x, f) =>
      PortKeySplit("in", x, f, b.num, b.field);
    case OutKey(x, f) =>
      PortKeySplit("out", x, f, b.num, b.field);
  }

  /** The fields of a port key. */
  predicate PortField(f: Field)
  {
    f.Name? || f.ShortName? || f.LongName? || f.Class? || f.InputPort?
  }

  /** Every key the firmware formats fits the 16-byte key buffer, so snprintf never cuts it. */
  lemma KeysFit(k: Key)
    requires !k.DevKey? ==> k.num + 1 < 100 && PortField(k.field)
    ensures |KeyName(k)| < 16
  {
    if !k.DevKey? {
      DecStrLength(k.num + 1);
    }
  }
}
