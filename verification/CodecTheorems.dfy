/** Reading a snapshot back: which values survive it, and up to what. */
module CodecTheorems {
  import opened Prelude
  import opened Codec

  // --- Round trip -------------------------------------------------------------------------------------

  lemma {:induction false} SameIsReflexive(j: Json)
    requires Proper(j)
    ensures Same(j, j)
  {
    match j
    case JList(items) =>
      forall i | 0 <= i < |items| ensures Same(items[i], items[i]) {
        SameIsReflexive(items[i]);
      }
    case JObject(members) =>
      forall i | 0 <= i < |members|
        ensures IndexOf(members, members[i].name) == Some(i) && Same(members[i].value, members[i].value)
      {
        SameIsReflexive(members[i].value);
      }
    case _ =>
  }

  lemma {:induction false} EncodeAllAt(c: Tables, items: seq<Val>, i: nat)
    requires i < |items|
    ensures EncodeAll(c, items)[i] == Encode(c, items[i])
  {
    if i == |items| - 1 {
    } else {
      EncodeAllAt(c, items[..|items| - 1], i);
    }
  }

  lemma {:induction false} EncodeEntriesAt(c: Tables, entries: seq<Entry>, i: nat)
    requires i < |entries|
    ensures EncodeEntries(c, entries)[i] == EncodeEntry(c, entries[i])
  {
    if i == |entries| - 1 {
    } else {
      EncodeEntriesAt(c, entries[..|entries| - 1], i);
    }
  }

  lemma {:induction false} EncodeFieldsAt(c: Tables, fields: seq<Field>, i: nat)
    requires i < |fields|
    ensures EncodeFields(c, fields)[i] == Member(fields[i].name, Encode(c, fields[i].value))
  {
    if i == |fields| - 1 {
    } else {
      EncodeFieldsAt(c, fields[..|fields| - 1], i);
    }
  }

  /** Every object the encoder makes has each name once. */
  lemma {:induction false} EncodeIsProper(c: Tables, v: Val)
    requires WellFormed(c, v)
    ensures Proper(Encode(c, v))
    decreases v
  {
    match v
    case VList(items) => EncodeAllIsProper(c, items);
    case VTuple(items) => EncodeAllIsProper(c, items);
    case VSet(items) => EncodeAllIsProper(c, items);
    case VDict(entries) =>
      forall i | 0 <= i < |entries| ensures Proper(EncodeEntries(c, entries)[i]) {
        EncodeEntriesAt(c, entries, i);
        EncodeIsProper(c, entries[i].key);
        EncodeIsProper(c, entries[i].value);
      }
    case VData(cls, fields) =>
      forall i | 0 <= i < |fields| ensures EncodeFields(c, fields)[i].name == fields[i].name && Proper(EncodeFields(c, fields)[i].value) {
        EncodeFieldsAt(c, fields, i);
        EncodeIsProper(c, fields[i].value);
      }
      assert Proper(JObject(EncodeFields(c, fields)));
    case _ =>
  }

  lemma {:induction false} EncodeAllIsProper(c: Tables, items: seq<Val>)
    requires forall i :: 0 <= i < |items| ==> WellFormed(c, items[i])
    ensures forall i :: 0 <= i < |items| ==> Proper(EncodeAll(c, items)[i])
    decreases items
  {
    forall i | 0 <= i < |items| ensures Proper(EncodeAll(c, items)[i]) {
      EncodeAllAt(c, items, i);
      EncodeIsProper(c, items[i]);
    }
  }

  lemma {:induction false} SetOfDistinct(items: seq<Val>)
    requires forall i, k :: 0 <= i < k < |items| ==> items[i] != items[k]
    ensures SetOf(items) == items
  {
    if items == [] {
    } else {
      SetOfDistinct(items[..|items| - 1]);
    }
  }

  lemma {:induction false} PutNewEntry(entries: seq<Entry>, entry: Entry)
    requires forall i :: 0 <= i < |entries| ==> entries[i].key != entry.key
    ensures PutEntry(entries, entry) == entries + [entry]
  {
    if entries == [] {
    } else {
      PutNewEntry(entries[1..], entry);
    }
  }

  lemma {:induction false} DictOfDistinct(entries: seq<Entry>)
    requires forall i, k :: 0 <= i < k < |entries| ==> entries[i].key != entries[k].key
    ensures DictOf(entries) == entries
  {
    if entries == [] {
    } else {
      DictOfDistinct(entries[..|entries| - 1]);
      PutNewEntry(entries[..|entries| - 1], entries[|entries| - 1]);
    }
  }

  /** A tagged object is found again by its kind and its other member. */
  lemma TaggedMembers(kind: string, name: string, json: Json, j: Json)
    requires Same(Tagged(kind, name, json), j) && name != KIND
    ensures j.JObject? && TextAt(j.members, KIND) == Some(kind)
    ensures var k := IndexOf(j.members, name); k.Some? && Same(json, j.members[k.value].value)
  {
    var ms := Tagged(kind, name, json).members;
    assert ms[0].name == KIND && ms[1].name == name;
  }

  /** Two lists of JSON, equal one by one. */
  ghost predicate AllSame(xs: seq<Json>, ys: seq<Json>) {
    |xs| == |ys| && forall i :: 0 <= i < |xs| ==> Same(xs[i], ys[i])
  }

  lemma AllSameSplits(xs: seq<Json>, x: Json, ys: seq<Json>)
    requires AllSame(xs + [x], ys)
    ensures |ys| == |xs| + 1 && AllSame(xs, ys[..|xs|]) && Same(x, ys[|xs|])
  {
    assert (xs + [x])[|xs|] == x;
    forall i | 0 <= i < |xs| ensures Same(xs[i], ys[i]) {
      assert (xs + [x])[i] == xs[i];
    }
  }

  lemma TaggedItems(kind: string, items: seq<Json>, j: Json)
    requires Same(Tagged(kind, "items", JList(items)), j)
    ensures j.JObject? && TextAt(j.members, KIND) == Some(kind)
    ensures var k := IndexOf(j.members, "items");
            k.Some? && j.members[k.value].value.JList? && AllSame(items, j.members[k.value].value.items)
  {
    TaggedMembers(kind, "items", JList(items), j);
  }

  // --- Reading back -------------------------------------------------------------------------------------

  /** Hashable values hold no set and are read back as they are. */
  lemma {:induction false} HashableRereads(c: Tables, o: SetOrder, v: Val)
    requires Hashable(c, v)
    ensures Reread(o, v) == v
  {
    match v
    case VTuple(items) =>
      forall i | 0 <= i < |items| ensures RereadAll(o, items)[i] == items[i] {
        HashableRereads(c, o, items[i]);
      }
    case VData(_, fields) =>
      forall i | 0 <= i < |fields| ensures RereadFields(o, fields)[i] == fields[i] {
        HashableRereads(c, o, fields[i].value);
      }
    case _ =>
  }

  lemma HashableItemsReread(c: Tables, o: SetOrder, items: seq<Val>)
    requires forall i :: 0 <= i < |items| ==> Hashable(c, items[i])
    ensures RereadAll(o, items) == items
  {
    forall i | 0 <= i < |items| ensures RereadAll(o, items)[i] == items[i] {
      HashableRereads(c, o, items[i]);
    }
  }

  ghost predicate Readable(c: Tables, v: Val, j: Json) {
    WellFormed(c, v) && Registered(c, v) && Same(Encode(c, v), j)
  }

  /** Decoding what was encoded, its object members in any order, gives the value back with its sets rebuilt. */
  lemma {:induction false} RoundTrip(c: Tables, o: SetOrder, v: Val, j: Json)
    requires TextsInvert(c) && Readable(c, v, j)
    ensures Decode(c, o, j) == Ok(Reread(o, v))
    decreases v, 1
  {
    match v
    case VUuid(u) => TaggedMembers("uuid", "value", JStr(c.uuidText(u)), j);
    case VTime(t) => TaggedMembers("datetime", "value", JStr(c.timeText(t)), j);
    case VList(items) => RoundTripAll(c, o, items, j.items);
    case VTuple(items) => RoundTripTuple(c, o, v, j);
    case VSet(items) => RoundTripSet(c, o, v, j);
    case VDict(entries) => RoundTripDict(c, o, v, j);
    case VData(_, _) => RoundTripData(c, o, v, j);
    case _ =>
  }

  /** The list under a tagged object's "items". */
  function ItemsOf(j: Json): seq<Json>
    requires j.JObject? && HasItems(j)
  {
    j.members[IndexOf(j.members, "items").value].value.items
  }

  predicate HasItems(j: Json)
    requires j.JObject?
  {
    var k := IndexOf(j.members, "items");
    k.Some? && j.members[k.value].value.JList?
  }

  lemma DecodeAsTuple(c: Tables, o: SetOrder, j: Json)
    requires j.JObject? && TextAt(j.members, KIND) == Some("tuple") && HasItems(j)
    ensures var decoded := DecodeAll(c, o, ItemsOf(j));
            if decoded.Ok? then Decode(c, o, j) == Ok(VTuple(decoded.value)) else Decode(c, o, j).Err?
  {
  }

  lemma DecodeAsSet(c: Tables, o: SetOrder, j: Json)
    requires j.JObject? && TextAt(j.members, KIND) == Some("set") && HasItems(j)
    ensures var decoded := DecodeAll(c, o, ItemsOf(j));
            if decoded.Ok? && forall i :: 0 <= i < |decoded.value| ==> Hashable(c, decoded.value[i])
            then Decode(c, o, j) == Ok(VSet(o(SetOf(decoded.value)))) else Decode(c, o, j).Err?
  {
  }

  lemma DecodeAsDict(c: Tables, o: SetOrder, j: Json)
    requires j.JObject? && TextAt(j.members, KIND) == Some("dict") && HasItems(j)
    ensures var decoded := DecodeEntries(c, o, ItemsOf(j));
            if decoded.Ok? then Decode(c, o, j) == Ok(VDict(DictOf(decoded.value))) else Decode(c, o, j).Err?
  {
  }

  lemma {:induction false} RoundTripTuple(c: Tables, o: SetOrder, v: Val, j: Json)
    requires v.VTuple? && TextsInvert(c) && Readable(c, v, j)
    ensures Decode(c, o, j) == Ok(Reread(o, v))
    decreases v, 0
  {
    TaggedItems("tuple", EncodeAll(c, v.items), j);
    RoundTripAll(c, o, v.items, ItemsOf(j));
    DecodeAsTuple(c, o, j);
  }

  lemma {:induction false} RoundTripSet(c: Tables, o: SetOrder, v: Val, j: Json)
    requires v.VSet? && TextsInvert(c) && Readable(c, v, j)
    ensures Decode(c, o, j) == Ok(Reread(o, v))
    decreases v, 0
  {
    TaggedItems("set", EncodeAll(c, v.items), j);
    RoundTripAll(c, o, v.items, ItemsOf(j));
    HashableItemsReread(c, o, v.items);
    DecodeAsSet(c, o, j);
    SetOfDistinct(v.items);
  }

  lemma {:induction false} RoundTripDict(c: Tables, o: SetOrder, v: Val, j: Json)
    requires v.VDict? && TextsInvert(c) && Readable(c, v, j)
    ensures Decode(c, o, j) == Ok(Reread(o, v))
    decreases v, 0
  {
    TaggedItems("dict", EncodeEntries(c, v.entries), j);
    RoundTripAllEntries(c, o, v.entries, ItemsOf(j));
    DecodeAsDict(c, o, j);
    DictOfDistinct(RereadEntries(o, v.entries));
  }

  lemma {:induction false} RoundTripAllEntries(c: Tables, o: SetOrder, entries: seq<Entry>, js: seq<Json>)
    requires TextsInvert(c) && AllSame(EncodeEntries(c, entries), js) && forall i :: 0 <= i < |entries| ==> ReadableEntry(c, entries[i])
    ensures DecodeEntries(c, o, js) == Ok(RereadEntries(o, entries))
    decreases entries, |entries| + 2
  {
    RoundTripEntries(c, o, entries, js, |entries|);
    assert js[..|entries|] == js && RereadEntries(o, entries)[..|entries|] == RereadEntries(o, entries);
  }

  lemma DecodeAllNext(c: Tables, o: SetOrder, js: seq<Json>, vs: seq<Val>, v: Val)
    requires js != [] && DecodeAll(c, o, js[..|js| - 1]) == Ok(vs) && Decode(c, o, js[|js| - 1]) == Ok(v)
    ensures DecodeAll(c, o, js) == Ok(vs + [v])
  {
  }

  lemma DecodeEntriesNext(c: Tables, o: SetOrder, js: seq<Json>, es: seq<Entry>, e: Entry)
    requires js != [] && DecodeEntries(c, o, js[..|js| - 1]) == Ok(es) && DecodeEntry(c, o, js[|js| - 1]) == Ok(e)
    ensures DecodeEntries(c, o, js) == Ok(es + [e])
  {
  }

  lemma DecodeFieldsNext(c: Tables, o: SetOrder, given: seq<Member>, names: seq<string>, name: string,
                         defaults: map<string, Val>, fs: seq<Field>, v: Val)
    requires DecodeFields(c, o, given, names, defaults) == Ok(fs)
    requires IndexOf(given, name).Some? && Decode(c, o, given[IndexOf(given, name).value].value) == Ok(v)
    ensures DecodeFields(c, o, given, names + [name], defaults) == Ok(fs + [Field(name, v)])
  {
    assert (names + [name])[..|names|] == names;
  }

  lemma RereadAllNext(o: SetOrder, items: seq<Val>)
    requires items != []
    ensures RereadAll(o, items) == RereadAll(o, items[..|items| - 1]) + [Reread(o, items[|items| - 1])]
  {
    var all, front := RereadAll(o, items), RereadAll(o, items[..|items| - 1]);
    forall i | 0 <= i < |front| ensures front[i] == all[i] {
      assert items[..|items| - 1][i] == items[i];
    }
    Extends(all, |front|);
    assert all[..|front|] == front;
  }

  lemma {:induction false} RoundTripAll(c: Tables, o: SetOrder, items: seq<Val>, js: seq<Json>)
    requires TextsInvert(c) && forall i :: 0 <= i < |items| ==> WellFormed(c, items[i]) && Registered(c, items[i])
    requires AllSame(EncodeAll(c, items), js)
    ensures DecodeAll(c, o, js) == Ok(RereadAll(o, items))
    decreases items
  {
    if items == [] {
    } else {
      var last := |items| - 1;
      AllSameSplits(EncodeAll(c, items[..last]), Encode(c, items[last]), js);
      RoundTripAll(c, o, items[..last], js[..last]);
      RoundTrip(c, o, items[last], js[last]);
      DecodeAllNext(c, o, js, RereadAll(o, items[..last]), Reread(o, items[last]));
      RereadAllNext(o, items);
    }
  }

  ghost predicate ReadableEntry(c: Tables, entry: Entry) {
    && Hashable(c, entry.key) && WellFormed(c, entry.key) && Registered(c, entry.key)
    && WellFormed(c, entry.value) && Registered(c, entry.value)
  }

  lemma {:induction false} RoundTripEntry(c: Tables, o: SetOrder, entry: Entry, j: Json)
    requires TextsInvert(c) && ReadableEntry(c, entry) && Same(EncodeEntry(c, entry), j)
    ensures DecodeEntry(c, o, j) == Ok(RereadEntry(o, entry))
    decreases entry
  {
    assert Same(EncodeEntry(c, entry).items[0], j.items[0]) && Same(EncodeEntry(c, entry).items[1], j.items[1]);
    RoundTrip(c, o, entry.key, j.items[0]);
    HashableRereads(c, o, entry.key);
    RoundTrip(c, o, entry.value, j.items[1]);
  }

  lemma {:induction false} RoundTripEntryAt(c: Tables, o: SetOrder, entries: seq<Entry>, js: seq<Json>, i: nat)
    requires TextsInvert(c) && i < |entries| && ReadableEntry(c, entries[i]) && AllSame(EncodeEntries(c, entries), js)
    ensures DecodeEntry(c, o, js[i]) == Ok(RereadEntry(o, entries[i]))
    decreases entries, 0
  {
    EncodeEntriesAt(c, entries, i);
    assert Same(EncodeEntries(c, entries)[i], js[i]);
    RoundTripEntry(c, o, entries[i], js[i]);
  }

  lemma {:induction false} RoundTripEntries(c: Tables, o: SetOrder, entries: seq<Entry>, js: seq<Json>, n: nat)
    requires TextsInvert(c) && n <= |entries| && forall i :: 0 <= i < |entries| ==> ReadableEntry(c, entries[i])
    requires AllSame(EncodeEntries(c, entries), js)
    ensures DecodeEntries(c, o, js[..n]) == Ok(RereadEntries(o, entries)[..n])
    decreases entries, n + 1
  {
    if n == 0 {
    } else {
      RoundTripEntries(c, o, entries, js, n - 1);
      RoundTripEntryAt(c, o, entries, js, n - 1);
      assert js[..n][..n - 1] == js[..n - 1];
      DecodeEntriesNext(c, o, js[..n], RereadEntries(o, entries)[..n - 1], RereadEntry(o, entries[n - 1]));
      Extends(RereadEntries(o, entries), n - 1);
    }
  }

  /** What a dataclass's JSON contains. */
  lemma DataMembers(c: Tables, v: Val, j: Json)
    requires v.VData? && Same(Encode(c, v), j)
    ensures j.JObject? && TextAt(j.members, KIND) == Some("dataclass") && TextAt(j.members, "type") == Some(v.cls)
    ensures var k := IndexOf(j.members, "fields");
            k.Some? && j.members[k.value].value.JObject? && AllGiven(c, v.fields, j.members[k.value].value.members)
  {
    var ms := Encode(c, v).members;
    assert ms[0].name == KIND && ms[1].name == "type" && ms[2].name == "fields";
    FieldsAreGiven(c, v.fields, j.members[IndexOf(j.members, "fields").value].value);
  }

  /** The members are the value's fields: no other name, and each field's JSON under its name. */
  ghost predicate AllGiven(c: Tables, fields: seq<Field>, given: seq<Member>) {
    && (forall i :: 0 <= i < |given| ==> given[i].name in Names(fields))
    && forall i :: 0 <= i < |fields| ==> Given(c, fields[i], given)
  }

  ghost predicate Given(c: Tables, field: Field, given: seq<Member>) {
    var k := IndexOf(given, field.name);
    k.Some? && Same(Encode(c, field.value), given[k.value].value)
  }

  lemma FieldsAreGiven(c: Tables, fields: seq<Field>, j: Json)
    requires Same(JObject(EncodeFields(c, fields)), j)
    ensures j.JObject? && AllGiven(c, fields, j.members)
  {
    var ms := EncodeFields(c, fields);
    forall i | 0 <= i < |fields| ensures ms[i] == Member(fields[i].name, Encode(c, fields[i].value)) {
      EncodeFieldsAt(c, fields, i);
    }
    forall k | 0 <= k < |j.members| ensures j.members[k].name in Names(fields) {
      var i := IndexOf(ms, j.members[k].name).value;
      assert Names(fields)[i] == j.members[k].name;
    }
    forall i | 0 <= i < |fields| ensures Given(c, fields[i], j.members) {
      assert Same(ms[i].value, j.members[IndexOf(j.members, ms[i].name).value].value);
    }
  }

  lemma DecodeAsData(c: Tables, o: SetOrder, j: Json, cls: string)
    requires j.JObject? && TextAt(j.members, KIND) == Some("dataclass") && TextAt(j.members, "type") == Some(cls)
    requires var k := IndexOf(j.members, "fields"); k.Some? && j.members[k.value].value.JObject?
    ensures Decode(c, o, j) == DecodeData(c, o, cls, j.members[IndexOf(j.members, "fields").value].value.members)
  {
  }

  lemma {:induction false} RoundTripData(c: Tables, o: SetOrder, v: Val, j: Json)
    requires v.VData? && TextsInvert(c) && Readable(c, v, j)
    ensures Decode(c, o, j) == Ok(Reread(o, v))
    decreases v, 0
  {
    DataMembers(c, v, j);
    RoundTripGiven(c, o, v, j.members[IndexOf(j.members, "fields").value].value.members);
    DecodeAsData(c, o, j, v.cls);
  }

  lemma {:induction false} RoundTripGiven(c: Tables, o: SetOrder, v: Val, given: seq<Member>)
    requires v.VData? && TextsInvert(c) && WellFormed(c, v) && Registered(c, v) && AllGiven(c, v.fields, given)
    ensures DecodeData(c, o, v.cls, given) == Ok(Reread(o, v))
    decreases v.fields, |v.fields| + 1
  {
    RoundTripFields(c, o, v.fields, given, c.classes[v.cls].defaults, |v.fields|);
    assert Names(v.fields)[..|v.fields|] == Names(v.fields) && RereadFields(o, v.fields)[..|v.fields|] == RereadFields(o, v.fields);
  }

  lemma {:induction false} RoundTripField(c: Tables, o: SetOrder, field: Field, given: seq<Member>)
    requires TextsInvert(c) && WellFormed(c, field.value) && Registered(c, field.value) && Given(c, field, given)
    ensures Decode(c, o, given[IndexOf(given, field.name).value].value) == Ok(Reread(o, field.value))
    decreases field
  {
    RoundTrip(c, o, field.value, given[IndexOf(given, field.name).value].value);
  }

  lemma {:induction false} RoundTripFields(c: Tables, o: SetOrder, fields: seq<Field>, given: seq<Member>, defaults: map<string, Val>, n: nat)
    requires TextsInvert(c) && forall i :: 0 <= i < |fields| ==> WellFormed(c, fields[i].value) && Registered(c, fields[i].value)
    requires n <= |fields| && forall i :: 0 <= i < |fields| ==> Given(c, fields[i], given)
    ensures DecodeFields(c, o, given, Names(fields)[..n], defaults) == Ok(RereadFields(o, fields)[..n])
    decreases fields, n
  {
    if n == 0 {
    } else {
      var field := fields[n - 1];
      RoundTripFields(c, o, fields, given, defaults, n - 1);
      assert Given(c, field, given);
      RoundTripField(c, o, field, given);
      DecodeFieldsNext(c, o, given, Names(fields)[..n - 1], field.name, defaults, RereadFields(o, fields)[..n - 1], Reread(o, field.value));
      Extends(RereadFields(o, fields), n - 1);
      Extends(Names(fields), n - 1);
    }
  }

  lemma Extends<T>(s: seq<T>, n: nat)
    requires n < |s|
    ensures s[..n + 1] == s[..n] + [s[n]]
  {
  }

  // --- What cannot be read back --------------------------------------------------------------------------

  lemma {:induction false} DecodeAllFails(c: Tables, o: SetOrder, js: seq<Json>, i: nat)
    requires i < |js| && Decode(c, o, js[i]).Err?
    ensures DecodeAll(c, o, js).Err?
    decreases js
  {
    if i == |js| - 1 {
    } else {
      DecodeAllFails(c, o, js[..|js| - 1], i);
    }
  }

  lemma {:induction false} DecodeEntriesFails(c: Tables, o: SetOrder, js: seq<Json>, i: nat)
    requires i < |js| && DecodeEntry(c, o, js[i]).Err?
    ensures DecodeEntries(c, o, js).Err?
    decreases js
  {
    if i == |js| - 1 {
    } else {
      DecodeEntriesFails(c, o, js[..|js| - 1], i);
    }
  }

  lemma {:induction false} DecodeFieldsFails(c: Tables, o: SetOrder, given: seq<Member>, names: seq<string>, defaults: map<string, Val>, i: nat)
    requires i < |names| && IndexOf(given, names[i]).Some? && Decode(c, o, given[IndexOf(given, names[i]).value].value).Err?
    ensures DecodeFields(c, o, given, names, defaults).Err?
    decreases |names|
  {
    if i == |names| - 1 {
    } else {
      DecodeFieldsFails(c, o, given, names[..|names| - 1], defaults, i);
    }
  }

  /** A value with an unknown dataclass anywhere in it is written but cannot be read back. */
  lemma {:induction false} UnregisteredFails(c: Tables, o: SetOrder, v: Val, j: Json)
    requires WellFormed(c, v) && !Registered(c, v) && Same(Encode(c, v), j)
    ensures Decode(c, o, j).Err?
    decreases v, 1
  {
    match v
    case VList(items) => UnregisteredItem(c, o, items, j.items);
    case VTuple(items) =>
      TaggedItems("tuple", EncodeAll(c, items), j);
      DecodeAsTuple(c, o, j);
      UnregisteredItem(c, o, items, ItemsOf(j));
    case VSet(items) =>
      TaggedItems("set", EncodeAll(c, items), j);
      DecodeAsSet(c, o, j);
      UnregisteredItem(c, o, items, ItemsOf(j));
    case VDict(entries) =>
      TaggedItems("dict", EncodeEntries(c, entries), j);
      DecodeAsDict(c, o, j);
      UnregisteredEntries(c, o, entries, ItemsOf(j));
    case VData(_, _) => UnregisteredData(c, o, v, j);
    case _ => assert false;
  }

  lemma {:induction false} UnregisteredItem(c: Tables, o: SetOrder, items: seq<Val>, js: seq<Json>)
    requires forall i :: 0 <= i < |items| ==> WellFormed(c, items[i])
    requires AllSame(EncodeAll(c, items), js) && exists i :: 0 <= i < |items| && !Registered(c, items[i])
    ensures DecodeAll(c, o, js).Err?
    decreases items
  {
    var i :| 0 <= i < |items| && !Registered(c, items[i]);
    EncodeAllAt(c, items, i);
    UnregisteredFails(c, o, items[i], js[i]);
    DecodeAllFails(c, o, js, i);
  }

  lemma {:induction false} UnregisteredEntry(c: Tables, o: SetOrder, entry: Entry, j: Json)
    requires WellFormed(c, entry.key) && WellFormed(c, entry.value) && Same(EncodeEntry(c, entry), j)
    requires !(Registered(c, entry.key) && Registered(c, entry.value))
    ensures DecodeEntry(c, o, j).Err?
    decreases entry
  {
    assert Same(EncodeEntry(c, entry).items[0], j.items[0]) && Same(EncodeEntry(c, entry).items[1], j.items[1]);
    if !Registered(c, entry.key) {
      UnregisteredFails(c, o, entry.key, j.items[0]);
    } else {
      UnregisteredFails(c, o, entry.value, j.items[1]);
    }
  }

  lemma {:induction false} UnregisteredEntries(c: Tables, o: SetOrder, entries: seq<Entry>, js: seq<Json>)
    requires forall i :: 0 <= i < |entries| ==> WellFormed(c, entries[i].key) && WellFormed(c, entries[i].value)
    requires AllSame(EncodeEntries(c, entries), js)
    requires exists i :: 0 <= i < |entries| && !(Registered(c, entries[i].key) && Registered(c, entries[i].value))
    ensures DecodeEntries(c, o, js).Err?
    decreases entries
  {
    var i :| 0 <= i < |entries| && !(Registered(c, entries[i].key) && Registered(c, entries[i].value));
    EncodeEntriesAt(c, entries, i);
    UnregisteredEntry(c, o, entries[i], js[i]);
    DecodeEntriesFails(c, o, js, i);
  }

  lemma {:induction false} UnregisteredData(c: Tables, o: SetOrder, v: Val, j: Json)
    requires v.VData? && WellFormed(c, v) && !Registered(c, v) && Same(Encode(c, v), j)
    ensures Decode(c, o, j).Err?
    decreases v, 0
  {
    DataMembers(c, v, j);
    DecodeAsData(c, o, j, v.cls);
    if v.cls in c.classes {
      var given := j.members[IndexOf(j.members, "fields").value].value.members;
      var i :| 0 <= i < |v.fields| && !Registered(c, v.fields[i].value);
      UnregisteredField(c, o, v.fields[i], given);
      DecodeFieldsFails(c, o, given, Names(v.fields), c.classes[v.cls].defaults, i);
    }
  }

  lemma {:induction false} UnregisteredField(c: Tables, o: SetOrder, field: Field, given: seq<Member>)
    requires WellFormed(c, field.value) && !Registered(c, field.value) && Given(c, field, given)
    ensures Decode(c, o, given[IndexOf(given, field.name).value].value).Err?
    decreases field
  {
    UnregisteredFails(c, o, field.value, given[IndexOf(given, field.name).value].value);
  }

  // --- Up to what a value comes back ------------------------------------------------------------------------

  /** Rebuilding the sets of a value changes no more than the order in which they are listed. */
  lemma {:induction false} RereadIsEqual(c: Tables, o: SetOrder, v: Val)
    requires Reorders(o) && WellFormed(c, v)
    ensures Equal(Reread(o, v), v) && Equal(v, Reread(o, v))
  {
    match v
    case VList(items) => RereadItemsAreEqual(c, o, items);
    case VTuple(items) => RereadItemsAreEqual(c, o, items);
    case VDict(entries) => RereadEntriesAreEqual(c, o, entries);
    case VData(_, fields) =>
      forall i | 0 <= i < |fields|
        ensures Equal(RereadFields(o, fields)[i].value, fields[i].value) && Equal(fields[i].value, RereadFields(o, fields)[i].value)
      {
        RereadIsEqual(c, o, fields[i].value);
      }
    case _ =>
  }

  lemma {:induction false} RereadItemsAreEqual(c: Tables, o: SetOrder, items: seq<Val>)
    requires Reorders(o) && forall i :: 0 <= i < |items| ==> WellFormed(c, items[i])
    ensures forall i :: 0 <= i < |items| ==> Equal(RereadAll(o, items)[i], items[i]) && Equal(items[i], RereadAll(o, items)[i])
  {
    forall i | 0 <= i < |items| ensures Equal(RereadAll(o, items)[i], items[i]) && Equal(items[i], RereadAll(o, items)[i]) {
      RereadIsEqual(c, o, items[i]);
    }
  }

  lemma {:induction false} RereadEntryIsEqual(c: Tables, o: SetOrder, entry: Entry)
    requires Reorders(o) && WellFormed(c, entry.value)
    ensures EqualEntry(RereadEntry(o, entry), entry) && EqualEntry(entry, RereadEntry(o, entry))
  {
    RereadIsEqual(c, o, entry.value);
  }

  lemma {:induction false} RereadEntriesAreEqual(c: Tables, o: SetOrder, entries: seq<Entry>)
    requires Reorders(o) && forall i :: 0 <= i < |entries| ==> WellFormed(c, entries[i].value)
    ensures Equal(VDict(RereadEntries(o, entries)), VDict(entries)) && Equal(VDict(entries), VDict(RereadEntries(o, entries)))
  {
    var again := RereadEntries(o, entries);
    forall i | 0 <= i < |entries|
      ensures HasEqual(entries, again[i]) && HasEqual(again, entries[i]) && HasKey(again, entries[i].key) && HasKey(entries, again[i].key)
    {
      RereadEntryIsEqual(c, o, entries[i]);
    }
  }

  /** A value read back is again well formed and of known classes. */
  lemma {:induction false} RereadIsUsable(c: Tables, o: SetOrder, v: Val)
    requires Reorders(o) && WellFormed(c, v)
    ensures WellFormed(c, Reread(o, v)) && (Registered(c, v) ==> Registered(c, Reread(o, v)))
  {
    match v
    case VList(items) =>
      forall i | 0 <= i < |items| ensures WellFormed(c, RereadAll(o, items)[i]) && (Registered(c, items[i]) ==> Registered(c, RereadAll(o, items)[i])) {
        RereadIsUsable(c, o, items[i]);
      }
    case VTuple(items) =>
      forall i | 0 <= i < |items| ensures WellFormed(c, RereadAll(o, items)[i]) && (Registered(c, items[i]) ==> Registered(c, RereadAll(o, items)[i])) {
        RereadIsUsable(c, o, items[i]);
      }
    case VSet(items) =>
      forall i | 0 <= i < |o(items)| ensures o(items)[i] in items {
        assert o(items)[i] in Elements(o(items));
      }
    case VDict(entries) =>
      forall i | 0 <= i < |entries|
        ensures WellFormed(c, RereadEntries(o, entries)[i].value)
        ensures Registered(c, entries[i].value) ==> Registered(c, RereadEntries(o, entries)[i].value)
      {
        RereadIsUsable(c, o, entries[i].value);
      }
    case VData(_, fields) =>
      forall i | 0 <= i < |fields|
        ensures WellFormed(c, RereadFields(o, fields)[i].value)
        ensures Registered(c, fields[i].value) ==> Registered(c, RereadFields(o, fields)[i].value)
      {
        RereadIsUsable(c, o, fields[i].value);
      }
      assert Names(RereadFields(o, fields)) == Names(fields);
    case _ =>
  }

  /** A well-formed value is read back as an equal one exactly when every dataclass in it is known; otherwise reading fails. */
  lemma RoundTripIff(c: Tables, o: SetOrder, v: Val, j: Json)
    requires TextsInvert(c) && Reorders(o) && WellFormed(c, v) && Same(Encode(c, v), j)
    ensures var decoded := Decode(c, o, j);
            (decoded.Ok? <==> Registered(c, v)) && (decoded.Ok? ==> Equal(decoded.value, v) && WellFormed(c, decoded.value))
  {
    if Registered(c, v) {
      RoundTrip(c, o, v, j);
      RereadIsEqual(c, o, v);
      RereadIsUsable(c, o, v);
    } else {
      UnregisteredFails(c, o, v, j);
    }
  }

  // --- What equal encodings say -----------------------------------------------------------------------------

  lemma {:induction false} EqualIsReflexive(v: Val)
    ensures Equal(v, v) && SameOrder(v, v)
  {
    match v
    case VList(items) =>
      forall i | 0 <= i < |items| ensures Equal(items[i], items[i]) && SameOrder(items[i], items[i]) {
        EqualIsReflexive(items[i]);
      }
    case VTuple(items) =>
      forall i | 0 <= i < |items| ensures Equal(items[i], items[i]) && SameOrder(items[i], items[i]) {
        EqualIsReflexive(items[i]);
      }
    case VDict(entries) =>
      forall i | 0 <= i < |entries|
        ensures HasEqual(entries, entries[i]) && SameOrder(entries[i].value, entries[i].value) && HasKey(entries, entries[i].key)
      {
        EqualIsReflexive(entries[i].value);
        assert EqualEntry(entries[i], entries[i]);
      }
    case VData(_, fields) =>
      forall i | 0 <= i < |fields| ensures Equal(fields[i].value, fields[i].value) && SameOrder(fields[i].value, fields[i].value) {
        EqualIsReflexive(fields[i].value);
      }
    case _ =>
  }

  /** Equal values listed in the same order throughout are the same listing. */
  lemma {:induction false} EqualInOrder(c: Tables, v: Val, w: Val)
    requires WellFormed(c, v) && Equal(v, w) && SameOrder(v, w)
    ensures v == w
    decreases v, 1
  {
    match v
    case VList(items) =>
      forall i | 0 <= i < |items| ensures items[i] == w.items[i] {
        EqualInOrder(c, items[i], w.items[i]);
      }
    case VTuple(items) =>
      forall i | 0 <= i < |items| ensures items[i] == w.items[i] {
        EqualInOrder(c, items[i], w.items[i]);
      }
    case VDict(_) => EqualDictsInOrder(c, v, w);
    case VData(_, fields) =>
      forall i | 0 <= i < |fields| ensures fields[i] == w.fields[i] {
        EqualInOrder(c, fields[i].value, w.fields[i].value);
      }
    case _ =>
  }

  lemma {:induction false} EqualDictsInOrder(c: Tables, v: Val, w: Val)
    requires v.VDict? && WellFormed(c, v) && Equal(v, w) && SameOrder(v, w)
    ensures v == w
    decreases v, 0
  {
    forall i | 0 <= i < |v.entries| ensures v.entries[i] == w.entries[i] {
      EqualWhereListed(v.entries, w.entries, i);
      EqualInOrder(c, v.entries[i].value, w.entries[i].value);
    }
  }

  ghost predicate DistinctKeys(entries: seq<Entry>) {
    forall i, k :: 0 <= i < k < |entries| ==> entries[i].key != entries[k].key
  }

  lemma EqualWhereListed(entries: seq<Entry>, others: seq<Entry>, i: nat)
    requires i < |entries| == |others| && DistinctKeys(entries) && HasEqual(others, entries[i])
    requires forall k :: 0 <= k < |entries| ==> others[k].key == entries[k].key
    ensures Equal(entries[i].value, others[i].value)
  {
    var k :| 0 <= k < |others| && EqualEntry(entries[i], others[k]);
    assert entries[k].key == entries[i].key;
  }

  const AS_LISTED: SetOrder := vs => vs

  /** Read back in listing order a value is itself, so the encoding determines the listing. */
  lemma EncodingsAreSameIff(c: Tables, v: Val, w: Val)
    requires TextsInvert(c) && WellFormed(c, v) && WellFormed(c, w) && Registered(c, v) && Registered(c, w)
    ensures Same(Encode(c, v), Encode(c, w)) <==> v == w
  {
    EncodeIsProper(c, w);
    SameIsReflexive(Encode(c, w));
    if Same(Encode(c, v), Encode(c, w)) {
      ReadTwice(c, v, w, Encode(c, w));
    }
  }

  lemma ReadTwice(c: Tables, v: Val, w: Val, j: Json)
    requires TextsInvert(c) && Readable(c, v, j) && Readable(c, w, j)
    ensures v == w
  {
    ReadAsListed(c, v, j);
    ReadAsListed(c, w, j);
  }

  lemma ReadAsListed(c: Tables, v: Val, j: Json)
    requires TextsInvert(c) && Readable(c, v, j)
    ensures Decode(c, AS_LISTED, j) == Ok(v)
  {
    RoundTrip(c, AS_LISTED, v, j);
    RereadAsListed(v);
  }

  lemma {:induction false} RereadAsListed(v: Val)
    ensures Reread(AS_LISTED, v) == v
  {
    match v
    case VList(items) =>
      forall i | 0 <= i < |items| ensures RereadAll(AS_LISTED, items)[i] == items[i] {
        RereadAsListed(items[i]);
      }
    case VTuple(items) =>
      forall i | 0 <= i < |items| ensures RereadAll(AS_LISTED, items)[i] == items[i] {
        RereadAsListed(items[i]);
      }
    case VDict(entries) =>
      forall i | 0 <= i < |entries| ensures RereadEntries(AS_LISTED, entries)[i] == entries[i] {
        RereadAsListed(entries[i].value);
      }
    case VData(_, fields) =>
      forall i | 0 <= i < |fields| ensures RereadFields(AS_LISTED, fields)[i] == fields[i] {
        RereadAsListed(fields[i].value);
      }
    case _ =>
  }

  lemma SameListingIff(c: Tables, v: Val, w: Val)
    requires WellFormed(c, v)
    ensures v == w <==> Equal(v, w) && SameOrder(v, w)
  {
    EqualIsReflexive(v);
    if Equal(v, w) && SameOrder(v, w) {
      EqualInOrder(c, v, w);
    }
  }

  /** Values with equal encodings are equal; equal values have equal encodings exactly when every set and dict in them is
      listed in the same order. */
  lemma EncodingDetermines(c: Tables, v: Val, w: Val)
    requires TextsInvert(c) && WellFormed(c, v) && WellFormed(c, w) && Registered(c, v) && Registered(c, w)
    ensures Same(Encode(c, v), Encode(c, w)) <==> Equal(v, w) && SameOrder(v, w)
  {
    EncodingsAreSameIff(c, v, w);
    SameListingIff(c, v, w);
  }

  const EIGHT_LAST := VSet([VInt(0), VInt(8)])

  const EIGHT_FIRST := VSet([VInt(8), VInt(0)])

  /** One set of two numbers in two orders: equal, with different encodings. */
  lemma SetsHaveTwoEncodings(c: Tables)
    ensures WellFormed(c, EIGHT_LAST) && WellFormed(c, EIGHT_FIRST) && Registered(c, EIGHT_LAST) && Registered(c, EIGHT_FIRST)
    ensures Equal(EIGHT_LAST, EIGHT_FIRST) && !Same(Encode(c, EIGHT_LAST), Encode(c, EIGHT_FIRST))
  {
    assert Elements(EIGHT_LAST.items) == {VInt(0), VInt(8)} && Elements(EIGHT_FIRST.items) == {VInt(0), VInt(8)};
    if Same(Encode(c, EIGHT_LAST), Encode(c, EIGHT_FIRST)) {
      SameSetsStartAlike(c, EIGHT_LAST.items, EIGHT_FIRST.items);
    }
  }

  lemma SameSetsStartAlike(c: Tables, vs: seq<Val>, ws: seq<Val>)
    requires |vs| == |ws| == 2 && vs[0].VInt? && ws[0].VInt? && Same(Encode(c, VSet(vs)), Encode(c, VSet(ws)))
    ensures vs[0] == ws[0]
  {
    var j := Encode(c, VSet(ws));
    TaggedItems("set", EncodeAll(c, vs), j);
    EncodeAllAt(c, vs, 0);
    EncodeAllAt(c, ws, 0);
    assert j.members[1].name == "items" && ItemsOf(j) == EncodeAll(c, ws);
  }

  // --- Equality is an equivalence -----------------------------------------------------------------------------

  lemma {:induction false} EqualIsTransitive(u: Val, v: Val, w: Val)
    requires Equal(u, v) && Equal(v, w)
    ensures Equal(u, w)
    decreases u, 1
  {
    match u
    case VList(items) =>
      forall i | 0 <= i < |items| ensures Equal(items[i], w.items[i]) {
        EqualIsTransitive(items[i], v.items[i], w.items[i]);
      }
    case VTuple(items) =>
      forall i | 0 <= i < |items| ensures Equal(items[i], w.items[i]) {
        EqualIsTransitive(items[i], v.items[i], w.items[i]);
      }
    case VDict(_) => EqualDictsAreTransitive(u, v, w);
    case VData(_, fields) =>
      forall i | 0 <= i < |fields| ensures Equal(fields[i].value, w.fields[i].value) {
        EqualIsTransitive(fields[i].value, v.fields[i].value, w.fields[i].value);
      }
    case _ =>
  }

  lemma {:induction false} EqualDictsAreTransitive(u: Val, v: Val, w: Val)
    requires u.VDict? && Equal(u, v) && Equal(v, w)
    ensures Equal(u, w)
    decreases u, 0
  {
    forall i | 0 <= i < |u.entries| ensures HasEqual(w.entries, u.entries[i]) {
      assert HasEqual(v.entries, u.entries[i]);
      var m :| 0 <= m < |v.entries| && EqualEntry(u.entries[i], v.entries[m]);
      assert HasEqual(w.entries, v.entries[m]);
      var k :| 0 <= k < |w.entries| && EqualEntry(v.entries[m], w.entries[k]);
      EqualIsTransitive(u.entries[i].value, v.entries[m].value, w.entries[k].value);
      assert EqualEntry(u.entries[i], w.entries[k]);
    }
    forall k | 0 <= k < |w.entries| ensures HasKey(u.entries, w.entries[k].key) {
      assert HasKey(v.entries, w.entries[k].key);
      var m :| 0 <= m < |v.entries| && v.entries[m].key == w.entries[k].key;
      assert HasKey(u.entries, v.entries[m].key);
    }
  }

  lemma {:induction false} EqualIsSymmetric(c: Tables, v: Val, w: Val)
    requires WellFormed(c, w) && Equal(v, w)
    ensures Equal(w, v)
    decreases v, 1
  {
    match v
    case VList(items) =>
      forall i | 0 <= i < |items| ensures Equal(w.items[i], items[i]) {
        EqualIsSymmetric(c, items[i], w.items[i]);
      }
    case VTuple(items) =>
      forall i | 0 <= i < |items| ensures Equal(w.items[i], items[i]) {
        EqualIsSymmetric(c, items[i], w.items[i]);
      }
    case VDict(_) => EqualDictsAreSymmetric(c, v, w);
    case VData(_, fields) =>
      forall i | 0 <= i < |fields| ensures Equal(w.fields[i].value, fields[i].value) {
        EqualIsSymmetric(c, fields[i].value, w.fields[i].value);
      }
    case _ =>
  }

  lemma {:induction false} EqualDictsAreSymmetric(c: Tables, v: Val, w: Val)
    requires v.VDict? && WellFormed(c, w) && Equal(v, w)
    ensures Equal(w, v)
    decreases v, 0
  {
    forall k | 0 <= k < |w.entries| ensures HasEqual(v.entries, w.entries[k]) {
      var i := EqualEntryOf(v.entries, w.entries, k);
      EqualIsSymmetric(c, v.entries[i].value, w.entries[k].value);
      assert EqualEntry(w.entries[k], v.entries[i]);
    }
    forall i | 0 <= i < |v.entries| ensures HasKey(w.entries, v.entries[i].key) {
      assert HasEqual(w.entries, v.entries[i]);
    }
  }

  /** The entry that goes with the k-th one of an equal dict. */
  lemma EqualEntryOf(entries: seq<Entry>, others: seq<Entry>, k: nat) returns (i: nat)
    requires k < |others| && DistinctKeys(others) && HasKey(entries, others[k].key)
    requires forall i :: 0 <= i < |entries| ==> HasEqual(others, entries[i])
    ensures i < |entries| && EqualEntry(entries[i], others[k])
  {
    i :| 0 <= i < |entries| && entries[i].key == others[k].key;
    assert HasEqual(others, entries[i]);
    var m :| 0 <= m < |others| && EqualEntry(entries[i], others[m]);
    assert others[m].key == others[k].key;
  }
}
