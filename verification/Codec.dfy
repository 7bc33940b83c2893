/** The snapshot codec: store values to JSON and back. UUID and time texts and the class table are parameters. */
module Codec {
  import opened Prelude

  /** Values the store holds. A set is listed in its iteration order, a dict in insertion order; 1, 1.0 and True are three values. */
  datatype Val =
    | VNull | VBool(b: bool) | VInt(i: int) | VFloat(r: real) | VStr(s: string)
    | VUuid(u: Uuid) | VTime(t: int)
    | VList(items: seq<Val>) | VTuple(items: seq<Val>) | VSet(items: seq<Val>)
    | VDict(entries: seq<Entry>)
    | VData(cls: string, fields: seq<Field>)

  datatype Entry = Entry(key: Val, value: Val)

  datatype Field = Field(name: string, value: Val)

  datatype Json =
    | JNull | JBool(b: bool) | JInt(i: int) | JFloat(r: real) | JStr(s: string)
    | JList(items: seq<Json>)
    | JObject(members: seq<Member>)

  datatype Member = Member(name: string, value: Json)

  /** A dataclass the decoder knows: its fields in order, and those with defaults. */
  datatype ClassInfo = ClassInfo(fields: seq<string>, defaults: map<string, Val>)

  /** `frozen` names the dataclasses that can be hashed, whether or not the decoder knows them. */
  datatype Tables = Tables(
    uuidText: Uuid -> string, parseUuid: string -> Option<Uuid>,
    timeText: int -> string, parseTime: string -> Option<int>,
    classes: map<string, ClassInfo>, frozen: set<string>)

  /** Parsing undoes rendering, for ids and for times. */
  ghost predicate TextsInvert(c: Tables) {
    (forall u: Uuid :: c.parseUuid(c.uuidText(u)) == Some(u)) && (forall t :: c.parseTime(c.timeText(t)) == Some(t))
  }

  /** The order in which a set iterates that was built from these distinct values, one after another. It depends on the
      process's hash seed and on the set's table, so nothing is known of it but that it lists the values, each once. */
  type SetOrder = seq<Val> -> seq<Val>

  ghost predicate Reorders(o: SetOrder) {
    forall vs: seq<Val> :: Distinct(vs) ==> Distinct(o(vs)) && Elements(o(vs)) == Elements(vs)
  }

  ghost predicate Distinct(vs: seq<Val>) {
    forall i, k :: 0 <= i < k < |vs| ==> vs[i] != vs[k]
  }

  function Elements(vs: seq<Val>): set<Val> {
    set v | v in vs
  }

  datatype CodecError = UnknownType | BadFields | Malformed | Unhashable

  // --- Encoding ---------------------------------------------------------------------------------

  const KIND := "__kind__"

  function Tagged(kind: string, name: string, json: Json): Json {
    JObject([Member(KIND, JStr(kind)), Member(name, json)])
  }

  function Encode(c: Tables, v: Val): Json {
    match v
    case VNull => JNull
    case VBool(b) => JBool(b)
    case VInt(i) => JInt(i)
    case VFloat(r) => JFloat(r)
    case VStr(s) => JStr(s)
    case VUuid(u) => Tagged("uuid", "value", JStr(c.uuidText(u)))
    case VTime(t) => Tagged("datetime", "value", JStr(c.timeText(t)))
    case VList(items) => JList(EncodeAll(c, items))
    case VTuple(items) => Tagged("tuple", "items", JList(EncodeAll(c, items)))
    case VSet(items) => Tagged("set", "items", JList(EncodeAll(c, items)))
    case VDict(entries) => Tagged("dict", "items", JList(EncodeEntries(c, entries)))
    case VData(cls, fields) =>
      JObject([Member(KIND, JStr("dataclass")), Member("type", JStr(cls)), Member("fields", JObject(EncodeFields(c, fields)))])
  }

  function EncodeAll(c: Tables, items: seq<Val>): (r: seq<Json>)
    ensures |r| == |items|
  {
    if items == [] then [] else EncodeAll(c, items[..|items| - 1]) + [Encode(c, items[|items| - 1])]
  }

  function EncodeEntry(c: Tables, entry: Entry): Json {
    JList([Encode(c, entry.key), Encode(c, entry.value)])
  }

  function EncodeEntries(c: Tables, entries: seq<Entry>): (r: seq<Json>)
    ensures |r| == |entries|
  {
    if entries == [] then []
    else EncodeEntries(c, entries[..|entries| - 1]) + [EncodeEntry(c, entries[|entries| - 1])]
  }

  function EncodeFields(c: Tables, fields: seq<Field>): (r: seq<Member>)
    ensures |r| == |fields|
  {
    if fields == [] then []
    else
      var last := fields[|fields| - 1];
      EncodeFields(c, fields[..|fields| - 1]) + [Member(last.name, Encode(c, last.value))]
  }

  // --- Decoding ---------------------------------------------------------------------------------

  predicate Hashable(c: Tables, v: Val) {
    match v
    case VList(_) => false
    case VSet(_) => false
    case VDict(_) => false
    case VTuple(items) => forall i :: 0 <= i < |items| ==> Hashable(c, items[i])
    case VData(cls, fields) => cls in c.frozen && forall i :: 0 <= i < |fields| ==> Hashable(c, fields[i].value)
    case _ => true
  }

  /** A set display: each value once. */
  function SetOf(items: seq<Val>): seq<Val> {
    if items == [] then []
    else
      var last := |items| - 1;
      var earlier := SetOf(items[..last]);
      if items[last] in earlier then earlier else earlier + [items[last]]
  }

  /** A dict assignment: an existing key keeps its place. */
  function PutEntry(entries: seq<Entry>, entry: Entry): seq<Entry> {
    if entries == [] then [entry]
    else if entries[0].key == entry.key then [entry] + entries[1..]
    else [entries[0]] + PutEntry(entries[1..], entry)
  }

  function DictOf(entries: seq<Entry>): seq<Entry> {
    if entries == [] then [] else PutEntry(DictOf(entries[..|entries| - 1]), entries[|entries| - 1])
  }

  /** Where the object has the name. */
  function IndexOf(members: seq<Member>, name: string): (r: Option<nat>)
    ensures r.Some? ==> r.value < |members| && members[r.value].name == name
    ensures r == None ==> forall i :: 0 <= i < |members| ==> members[i].name != name
  {
    if members == [] then None
    else if members[0].name == name then Some(0)
    else
      var rest := IndexOf(members[1..], name);
      if rest.Some? then Some(rest.value + 1) else None
  }

  function TextAt(members: seq<Member>, name: string): Option<string> {
    var k := IndexOf(members, name);
    if k.Some? && members[k.value].value.JStr? then Some(members[k.value].value.s) else None
  }

  function Decode(c: Tables, o: SetOrder, j: Json): Result<Val, CodecError>
    decreases j, 0
  {
    match j
    case JNull => Ok(VNull)
    case JBool(b) => Ok(VBool(b))
    case JInt(i) => Ok(VInt(i))
    case JFloat(r) => Ok(VFloat(r))
    case JStr(s) => Ok(VStr(s))
    case JList(items) => (match DecodeAll(c, o, items) case Ok(vs) => Ok(VList(vs)) case Err(e) => Err(e))
    case JObject(members) =>
      var kind := TextAt(members, KIND);
      if kind == Some("uuid") then
        var text := TextAt(members, "value");
        var u := if text.Some? then c.parseUuid(text.value) else None;
        if u.Some? then Ok(VUuid(u.value)) else Err(Malformed)
      else if kind == Some("datetime") then
        var text := TextAt(members, "value");
        var t := if text.Some? then c.parseTime(text.value) else None;
        if t.Some? then Ok(VTime(t.value)) else Err(Malformed)
      else if kind == Some("dict") || kind == Some("set") || kind == Some("tuple") then
        var k := IndexOf(members, "items");
        if k == None || !members[k.value].value.JList? then Err(Malformed)
        else
          var items := members[k.value].value.items;
          if kind == Some("dict") then (match DecodeEntries(c, o, items) case Ok(es) => Ok(VDict(DictOf(es))) case Err(e) => Err(e))
          else
            match DecodeAll(c, o, items)
            case Err(e) => Err(e)
            case Ok(vs) =>
              if kind == Some("tuple") then Ok(VTuple(vs))
              else if forall i :: 0 <= i < |vs| ==> Hashable(c, vs[i]) then Ok(VSet(o(SetOf(vs))))
              else Err(Unhashable)
      else if kind == Some("dataclass") then
        var cls, k := TextAt(members, "type"), IndexOf(members, "fields");
        if cls == None || k == None || !members[k.value].value.JObject? then Err(Malformed)
        else DecodeData(c, o, cls.value, members[k.value].value.members)
      else (match DecodeMembers(c, o, members) case Ok(es) => Ok(VDict(DictOf(es))) case Err(e) => Err(e))
  }

  /** A dataclass by name: unknown classes and unknown or missing fields are errors. */
  function DecodeData(c: Tables, o: SetOrder, cls: string, given: seq<Member>): Result<Val, CodecError>
    decreases given, 1 + if cls in c.classes then |c.classes[cls].fields| else 0
  {
    if cls !in c.classes then Err(UnknownType)
    else
      var info := c.classes[cls];
      if exists i :: 0 <= i < |given| && given[i].name !in info.fields then Err(BadFields)
      else match DecodeFields(c, o, given, info.fields, info.defaults) case Ok(fs) => Ok(VData(cls, fs)) case Err(e) => Err(e)
  }

  function DecodeAll(c: Tables, o: SetOrder, items: seq<Json>): Result<seq<Val>, CodecError>
    decreases items
  {
    if items == [] then Ok([])
    else
      match DecodeAll(c, o, items[..|items| - 1])
      case Err(e) => Err(e)
      case Ok(vs) => match Decode(c, o, items[|items| - 1]) case Ok(v) => Ok(vs + [v]) case Err(e) => Err(e)
  }

  /** One key and value; anything but a pair is malformed. */
  function DecodeEntry(c: Tables, o: SetOrder, item: Json): Result<Entry, CodecError>
    decreases item, 0
  {
    if !item.JList? || |item.items| != 2 then Err(Malformed)
    else
      match Decode(c, o, item.items[0])
      case Err(e) => Err(e)
      case Ok(key) =>
        if !Hashable(c, key) then Err(Unhashable)
        else match Decode(c, o, item.items[1]) case Ok(value) => Ok(Entry(key, value)) case Err(e) => Err(e)
  }

  function DecodeEntries(c: Tables, o: SetOrder, items: seq<Json>): Result<seq<Entry>, CodecError>
    decreases items
  {
    if items == [] then Ok([])
    else
      match DecodeEntries(c, o, items[..|items| - 1])
      case Err(e) => Err(e)
      case Ok(es) => match DecodeEntry(c, o, items[|items| - 1]) case Ok(entry) => Ok(es + [entry]) case Err(e) => Err(e)
  }

  /** The constructor's arguments in field order; a field that is not given takes its default. */
  function DecodeFields(c: Tables, o: SetOrder, given: seq<Member>, names: seq<string>, defaults: map<string, Val>): Result<seq<Field>, CodecError>
    decreases given, |names|
  {
    if names == [] then Ok([])
    else
      var name := names[|names| - 1];
      match DecodeFields(c, o, given, names[..|names| - 1], defaults)
      case Err(e) => Err(e)
      case Ok(fs) =>
        var k := IndexOf(given, name);
        if k.Some? then (match Decode(c, o, given[k.value].value) case Ok(v) => Ok(fs + [Field(name, v)]) case Err(e) => Err(e))
        else if name in defaults then Ok(fs + [Field(name, defaults[name])])
        else Err(BadFields)
  }

  /** An object without a known kind is a dict with text keys. */
  function DecodeMembers(c: Tables, o: SetOrder, members: seq<Member>): Result<seq<Entry>, CodecError>
    decreases members
  {
    if members == [] then Ok([])
    else
      var last := members[|members| - 1];
      match DecodeMembers(c, o, members[..|members| - 1])
      case Err(e) => Err(e)
      case Ok(es) => match Decode(c, o, last.value) case Ok(v) => Ok(es + [Entry(VStr(last.name), v)]) case Err(e) => Err(e)
  }

  // --- What values are well formed ----------------------------------------------------------------

  /** A set holds no value twice, a dict no key twice, keys and set members are hashable, and a dataclass has its class's fields. */
  ghost predicate WellFormed(c: Tables, v: Val) {
    match v
    case VList(items) => forall i :: 0 <= i < |items| ==> WellFormed(c, items[i])
    case VTuple(items) => forall i :: 0 <= i < |items| ==> WellFormed(c, items[i])
    case VSet(items) =>
      && Distinct(items)
      && (forall i :: 0 <= i < |items| ==> Hashable(c, items[i]) && WellFormed(c, items[i]))
    case VDict(entries) =>
      && (forall i, k :: 0 <= i < k < |entries| ==> entries[i].key != entries[k].key)
      && (forall i :: 0 <= i < |entries| ==> Hashable(c, entries[i].key) && WellFormed(c, entries[i].key) && WellFormed(c, entries[i].value))
    case VData(cls, fields) =>
      && (forall i, k :: 0 <= i < k < |fields| ==> fields[i].name != fields[k].name)
      && (cls in c.classes ==> c.classes[cls].fields == Names(fields))
      && (forall i :: 0 <= i < |fields| ==> WellFormed(c, fields[i].value))
    case _ => true
  }

  function Names(fields: seq<Field>): (r: seq<string>)
    ensures |r| == |fields| && forall i :: 0 <= i < |fields| ==> r[i] == fields[i].name
  {
    seq(|fields|, i requires 0 <= i < |fields| => fields[i].name)
  }

  /** Every dataclass in the value is in the class table. */
  ghost predicate Registered(c: Tables, v: Val) {
    match v
    case VList(items) => forall i :: 0 <= i < |items| ==> Registered(c, items[i])
    case VTuple(items) => forall i :: 0 <= i < |items| ==> Registered(c, items[i])
    case VSet(items) => forall i :: 0 <= i < |items| ==> Registered(c, items[i])
    case VDict(entries) => forall i :: 0 <= i < |entries| ==> Registered(c, entries[i].key) && Registered(c, entries[i].value)
    case VData(cls, fields) => cls in c.classes && forall i :: 0 <= i < |fields| ==> Registered(c, fields[i].value)
    case _ => true
  }

  /** Equal JSON: the members of an object may stand in any order, as a database may return them. */
  predicate Same(a: Json, b: Json) {
    match a
    case JList(xs) => b.JList? && |b.items| == |xs| && forall i :: 0 <= i < |xs| ==> Same(xs[i], b.items[i])
    case JObject(ms) =>
      && b.JObject?
      && (forall k :: 0 <= k < |b.members| ==> IndexOf(ms, b.members[k].name).Some?)
      && (forall i :: 0 <= i < |ms| ==>
            var k := IndexOf(b.members, ms[i].name); k.Some? && Same(ms[i].value, b.members[k.value].value))
    case _ => a == b
  }

  /** No object has a name twice. */
  ghost predicate Proper(j: Json) {
    match j
    case JList(items) => forall i :: 0 <= i < |items| ==> Proper(items[i])
    case JObject(members) =>
      && (forall i, k :: 0 <= i < k < |members| ==> members[i].name != members[k].name)
      && (forall i :: 0 <= i < |members| ==> Proper(members[i].value))
    case _ => true
  }

  // --- Equality and re-reading ----------------------------------------------------------------------

  /** Equal as the program compares values: sets by their members and dicts by key, in whatever order they are listed. */
  ghost predicate Equal(v: Val, w: Val) {
    match v
    case VList(items) => w.VList? && |w.items| == |items| && forall i :: 0 <= i < |items| ==> Equal(items[i], w.items[i])
    case VTuple(items) => w.VTuple? && |w.items| == |items| && forall i :: 0 <= i < |items| ==> Equal(items[i], w.items[i])
    case VSet(items) => w.VSet? && Elements(w.items) == Elements(items)
    case VDict(entries) =>
      && w.VDict?
      && (forall i :: 0 <= i < |entries| ==> HasEqual(w.entries, entries[i]))
      && (forall k :: 0 <= k < |w.entries| ==> HasKey(entries, w.entries[k].key))
    case VData(cls, fields) =>
      && w.VData? && w.cls == cls && |w.fields| == |fields|
      && (forall i :: 0 <= i < |fields| ==> w.fields[i].name == fields[i].name && Equal(fields[i].value, w.fields[i].value))
    case _ => v == w
  }

  ghost predicate HasEqual(entries: seq<Entry>, entry: Entry)
    decreases entry, 1
  {
    exists k :: 0 <= k < |entries| && EqualEntry(entry, entries[k])
  }

  ghost predicate EqualEntry(entry: Entry, other: Entry)
    decreases entry, 0
  {
    other.key == entry.key && Equal(entry.value, other.value)
  }

  predicate HasKey(entries: seq<Entry>, key: Val) {
    exists i :: 0 <= i < |entries| && entries[i].key == key
  }

  /** Where both hold a set or a dict, they list it in the same order. */
  ghost predicate SameOrder(v: Val, w: Val) {
    match v
    case VList(items) => w.VList? ==> forall i :: 0 <= i < |items| && i < |w.items| ==> SameOrder(items[i], w.items[i])
    case VTuple(items) => w.VTuple? ==> forall i :: 0 <= i < |items| && i < |w.items| ==> SameOrder(items[i], w.items[i])
    case VSet(items) => w.VSet? ==> w.items == items
    case VDict(entries) =>
      w.VDict? ==>
        && |w.entries| == |entries|
        && forall i :: 0 <= i < |entries| ==> w.entries[i].key == entries[i].key && SameOrder(entries[i].value, w.entries[i].value)
    case VData(_, fields) =>
      w.VData? ==> forall i :: 0 <= i < |fields| && i < |w.fields| ==> SameOrder(fields[i].value, w.fields[i].value)
    case _ => true
  }

  /** The value with its sets rebuilt, as reading it back yields it; what is hashable holds no set. */
  function Reread(o: SetOrder, v: Val): Val {
    match v
    case VList(items) => VList(RereadAll(o, items))
    case VTuple(items) => VTuple(RereadAll(o, items))
    case VSet(items) => VSet(o(items))
    case VDict(entries) => VDict(RereadEntries(o, entries))
    case VData(cls, fields) => VData(cls, RereadFields(o, fields))
    case _ => v
  }

  function RereadAll(o: SetOrder, items: seq<Val>): (r: seq<Val>)
    ensures |r| == |items| && forall i :: 0 <= i < |items| ==> r[i] == Reread(o, items[i])
  {
    seq(|items|, i requires 0 <= i < |items| => Reread(o, items[i]))
  }

  function RereadEntries(o: SetOrder, entries: seq<Entry>): (r: seq<Entry>)
    ensures |r| == |entries| && forall i :: 0 <= i < |entries| ==> r[i] == RereadEntry(o, entries[i])
  {
    seq(|entries|, i requires 0 <= i < |entries| => RereadEntry(o, entries[i]))
  }

  function RereadEntry(o: SetOrder, entry: Entry): Entry {
    Entry(entry.key, Reread(o, entry.value))
  }

  function RereadFields(o: SetOrder, fields: seq<Field>): (r: seq<Field>)
    ensures |r| == |fields| && forall i :: 0 <= i < |fields| ==> r[i] == RereadField(o, fields[i])
  {
    seq(|fields|, i requires 0 <= i < |fields| => RereadField(o, fields[i]))
  }

  function RereadField(o: SetOrder, field: Field): Field {
    Field(field.name, Reread(o, field.value))
  }
}
