/** The stored snapshot: each request loads it, runs, and writes it back when the state has changed. */
module Snapshot {
  import opened Prelude
  import opened Codec
  import opened CodecTheorems

  /** The store's attributes by name. */
  type Attributes = map<string, Val>

  datatype Row = Row(state: Json, revision: nat)

  /** What a request does to the attributes, and whether it raises. */
  type Body = Attributes -> (Attributes, bool)

  const NEW_ROW := Row(JObject([]), 0)

  function Listing(names: seq<string>, attributes: Attributes): (r: seq<Entry>)
    requires forall n :: n in names ==> n in attributes
    ensures |r| == |names| && forall i :: 0 <= i < |names| ==> r[i] == Entry(VStr(names[i]), attributes[names[i]])
  {
    if names == [] then []
    else
      var last := names[|names| - 1];
      Listing(names[..|names| - 1], attributes) + [Entry(VStr(last), attributes[last])]
  }

  function EncodeStore(c: Tables, names: seq<string>, attributes: Attributes): Json
    requires forall n :: n in names ==> n in attributes
  {
    Encode(c, VDict(Listing(names, attributes)))
  }

  function ToAttributes(entries: seq<Entry>): Result<Attributes, CodecError> {
    if entries == [] then Ok(map[])
    else
      var last := entries[|entries| - 1];
      var earlier := ToAttributes(entries[..|entries| - 1]);
      if earlier.Err? || !last.key.VStr? then Err(Malformed) else Ok(earlier.value[last.key.s := last.value])
  }

  function DecodeStore(c: Tables, o: SetOrder, j: Json): Result<Attributes, CodecError> {
    match Decode(c, o, j)
    case Err(e) => Err(e)
    case Ok(v) => if v.VDict? then ToAttributes(v.entries) else Err(Malformed)
  }

  /** Exactly the named attributes, all well formed and of known classes. */
  ghost predicate Usable(c: Tables, names: seq<string>, attributes: Attributes) {
    && (forall n :: n in names <==> n in attributes)
    && forall n :: n in attributes ==> WellFormed(c, attributes[n]) && Registered(c, attributes[n])
  }

  predicate DistinctNames(names: seq<string>) {
    forall i, k :: 0 <= i < k < |names| ==> names[i] != names[k]
  }

  /** The attributes of exactly these names. */
  ghost predicate Part(m: Attributes, names: seq<string>, attributes: Attributes) {
    (forall x :: x in m <==> x in names) && forall x :: x in m ==> x in attributes && m[x] == attributes[x]
  }

  lemma PartNext(m: Attributes, names: seq<string>, name: string, attributes: Attributes)
    requires Part(m, names, attributes) && name in attributes
    ensures Part(m[name := attributes[name]], names + [name], attributes)
  {
  }

  lemma ToAttributesNext(entries: seq<Entry>, n: nat, m: Attributes, name: string, v: Val)
    requires n < |entries| && ToAttributes(entries[..n]) == Ok(m) && entries[n] == Entry(VStr(name), v)
    ensures ToAttributes(entries[..n + 1]) == Ok(m[name := v])
  {
    assert entries[..n + 1][..n] == entries[..n];
  }

  lemma {:induction false} EntriesBack(entries: seq<Entry>, names: seq<string>, attributes: Attributes, n: nat) returns (m: Attributes)
    requires n <= |names| == |entries|
    requires forall i :: 0 <= i < |names| ==> names[i] in attributes && entries[i] == Entry(VStr(names[i]), attributes[names[i]])
    ensures ToAttributes(entries[..n]) == Ok(m) && Part(m, names[..n], attributes)
  {
    if n == 0 {
      m := map[];
    } else {
      var earlier := EntriesBack(entries, names, attributes, n - 1);
      var name := names[n - 1];
      ToAttributesNext(entries, n - 1, earlier, name, attributes[name]);
      PartNext(earlier, names[..n - 1], name, attributes);
      Extends(names, n - 1);
      m := earlier[name := attributes[name]];
    }
  }

  lemma ListingIsUsable(c: Tables, names: seq<string>, attributes: Attributes)
    requires DistinctNames(names) && Usable(c, names, attributes)
    ensures WellFormed(c, VDict(Listing(names, attributes))) && Registered(c, VDict(Listing(names, attributes)))
  {
    assert forall i :: 0 <= i < |names| ==> names[i] in names;
  }

  lemma ListingAllBack(names: seq<string>, attributes: Attributes)
    requires DistinctNames(names) && forall n :: n in names <==> n in attributes
    ensures ToAttributes(Listing(names, attributes)) == Ok(attributes)
  {
    var entries := Listing(names, attributes);
    var m := EntriesBack(entries, names, attributes, |names|);
    Whole(entries);
    Whole(names);
    SameMaps(m, attributes);
  }

  lemma Whole<T>(s: seq<T>)
    ensures s[..|s|] == s
  {
  }

  lemma SameMaps(a: Attributes, b: Attributes)
    requires (forall x :: x in a <==> x in b) && forall x :: x in a ==> a[x] == b[x]
    ensures a == b
  {
  }

  /** The named attributes with their sets rebuilt. */
  function RereadStore(o: SetOrder, names: seq<string>, attributes: Attributes): (r: Attributes)
    ensures forall n :: n in r <==> n in names && n in attributes
    ensures forall n :: n in r ==> r[n] == Reread(o, attributes[n])
  {
    if names == [] then map[]
    else
      var last := names[|names| - 1];
      assert names == names[..|names| - 1] + [last];
      var earlier := RereadStore(o, names[..|names| - 1], attributes);
      if last in attributes then earlier[last := Reread(o, attributes[last])] else earlier
  }

  /** The same attributes with equal values. */
  ghost predicate EqualStates(a: Attributes, b: Attributes) {
    (forall n :: n in a <==> n in b) && forall n :: n in a ==> Equal(a[n], b[n])
  }

  ghost predicate SameOrders(a: Attributes, b: Attributes) {
    forall n :: n in a && n in b ==> SameOrder(a[n], b[n])
  }

  lemma RereadListing(o: SetOrder, names: seq<string>, attributes: Attributes)
    requires forall n :: n in names <==> n in attributes
    ensures Reread(o, VDict(Listing(names, attributes))) == VDict(Listing(names, RereadStore(o, names, attributes)))
  {
    forall i | 0 <= i < |names| ensures RereadEntry(o, Listing(names, attributes)[i]) == Listing(names, RereadStore(o, names, attributes))[i] {
      RereadListingAt(o, names, attributes, i);
    }
    RereadEntriesAre(o, Listing(names, attributes), Listing(names, RereadStore(o, names, attributes)));
  }

  lemma RereadEntriesAre(o: SetOrder, entries: seq<Entry>, again: seq<Entry>)
    requires |again| == |entries| && forall i :: 0 <= i < |entries| ==> RereadEntry(o, entries[i]) == again[i]
    ensures Reread(o, VDict(entries)) == VDict(again)
  {
    assert RereadEntries(o, entries) == again;
  }

  lemma RereadListingAt(o: SetOrder, names: seq<string>, attributes: Attributes, i: nat)
    requires i < |names| && forall n :: n in names <==> n in attributes
    ensures RereadEntry(o, Listing(names, attributes)[i]) == Listing(names, RereadStore(o, names, attributes))[i]
  {
    assert names[i] in names;
  }

  /** Reading back leaves the attributes equal and usable. */
  lemma RereadStoreIsEqual(c: Tables, o: SetOrder, names: seq<string>, attributes: Attributes)
    requires Reorders(o) && Usable(c, names, attributes)
    ensures var seen := RereadStore(o, names, attributes);
            Usable(c, names, seen) && EqualStates(seen, attributes) && EqualStates(attributes, seen)
  {
    var seen := RereadStore(o, names, attributes);
    forall n | n in attributes
      ensures Equal(seen[n], attributes[n]) && Equal(attributes[n], seen[n]) && WellFormed(c, seen[n]) && Registered(c, seen[n])
    {
      RereadIsEqual(c, o, attributes[n]);
      RereadIsUsable(c, o, attributes[n]);
    }
  }

  /** The row is the snapshot of these attributes, its object members in any order. */
  ghost predicate Holds(c: Tables, names: seq<string>, row: Row, attributes: Attributes) {
    Usable(c, names, attributes) && Same(EncodeStore(c, names, attributes), row.state)
  }

  /** A written snapshot is read back as the attributes it was made from, with their sets rebuilt: equal attributes. */
  lemma StoreRoundTrip(c: Tables, o: SetOrder, names: seq<string>, attributes: Attributes, row: Row)
    requires TextsInvert(c) && Reorders(o) && DistinctNames(names) && Holds(c, names, row, attributes)
    ensures var seen := RereadStore(o, names, attributes);
            DecodeStore(c, o, row.state) == Ok(seen) && Usable(c, names, seen) && EqualStates(seen, attributes)
  {
    ListingIsUsable(c, names, attributes);
    RoundTrip(c, o, VDict(Listing(names, attributes)), row.state);
    RereadListing(o, names, attributes);
    RereadStoreIsEqual(c, o, names, attributes);
    ListingAllBack(names, RereadStore(o, names, attributes));
  }

  /** Two states have the same snapshot exactly when they are the same listing. */
  lemma SnapshotsAreSameIff(c: Tables, names: seq<string>, a: Attributes, b: Attributes)
    requires TextsInvert(c) && DistinctNames(names) && Usable(c, names, a) && Usable(c, names, b)
    ensures Same(EncodeStore(c, names, a), EncodeStore(c, names, b)) <==> a == b
  {
    ListingIsUsable(c, names, a);
    ListingIsUsable(c, names, b);
    EncodingsAreSameIff(c, VDict(Listing(names, a)), VDict(Listing(names, b)));
    ListingAllBack(names, a);
    ListingAllBack(names, b);
  }

  lemma SameListing(c: Tables, names: seq<string>, a: Attributes, b: Attributes)
    requires Usable(c, names, a) && Usable(c, names, b) && EqualStates(a, b) && SameOrders(a, b)
    ensures a == b
  {
    forall n | n in a ensures a[n] == b[n] {
      EqualInOrder(c, a[n], b[n]);
    }
    SameMaps(a, b);
  }

  lemma EqualStatesReflexive(a: Attributes)
    ensures EqualStates(a, a) && SameOrders(a, a)
  {
    forall n | n in a ensures Equal(a[n], a[n]) && SameOrder(a[n], a[n]) {
      EqualIsReflexive(a[n]);
    }
  }

  /** Comparing snapshots misses no change: states with the same snapshot are equal. Equal states have the same snapshot exactly
      when their sets and dicts are listed in the same order. */
  lemma SnapshotsDetermineStates(c: Tables, names: seq<string>, a: Attributes, b: Attributes)
    requires TextsInvert(c) && DistinctNames(names) && Usable(c, names, a) && Usable(c, names, b)
    ensures Same(EncodeStore(c, names, a), EncodeStore(c, names, b)) <==> EqualStates(a, b) && SameOrders(a, b)
  {
    SnapshotsAreSameIff(c, names, a, b);
    EqualStatesReflexive(a);
    if EqualStates(a, b) && SameOrders(a, b) {
      SameListing(c, names, a, b);
    }
  }

  lemma EqualStatesChain(a: Attributes, b: Attributes, d: Attributes)
    requires EqualStates(a, b) && EqualStates(b, d)
    ensures EqualStates(a, d)
  {
    forall n | n in a ensures Equal(a[n], d[n]) {
      EqualIsTransitive(a[n], b[n], d[n]);
    }
  }

  // --- One request ---------------------------------------------------------------------------------

  datatype System = System(memory: Attributes, row: Row)

  /** The stored attributes over those in memory. */
  function Load(c: Tables, o: SetOrder, s: System): Result<Attributes, CodecError> {
    match DecodeStore(c, o, s.row.state)
    case Err(e) => Err(e)
    case Ok(loaded) => Ok(s.memory + loaded)
  }

  /** A request: load, run, and write the snapshot unless the request raised or left every listing as it was. */
  ghost function Serve(c: Tables, o: SetOrder, names: seq<string>, s: System, body: Body): System
    requires forall n :: n in names ==> n in s.memory
    requires KeepsNames(names, body)
  {
    match Load(c, o, s)
    case Err(_) => s
    case Ok(seen) =>
      var (after, raised) := body(seen);
      if raised || Same(EncodeStore(c, names, after), EncodeStore(c, names, seen)) then System(after, s.row)
      else System(after, Row(EncodeStore(c, names, after), s.row.revision + 1))
  }

  ghost predicate KeepsNames(names: seq<string>, body: Body) {
    forall a: Attributes :: (forall n :: n in names ==> n in a) ==> forall n :: n in names ==> n in body(a).0
  }

  ghost predicate KeepsUsable(c: Tables, names: seq<string>, body: Body) {
    forall a: Attributes :: Usable(c, names, a) ==> Usable(c, names, body(a).0)
  }

  lemma WrittenIsHeld(c: Tables, names: seq<string>, attributes: Attributes, revision: nat)
    requires DistinctNames(names) && Usable(c, names, attributes)
    ensures Holds(c, names, Row(EncodeStore(c, names, attributes), revision), attributes)
  {
    ListingIsUsable(c, names, attributes);
    EncodeIsProper(c, VDict(Listing(names, attributes)));
    SameIsReflexive(EncodeStore(c, names, attributes));
  }

  ghost predicate HasNames(names: seq<string>, attributes: Attributes) {
    forall n :: n in names <==> n in attributes
  }

  /** A complete snapshot decides what a request sees, whatever is in memory. */
  lemma SeesTheSnapshot(c: Tables, o: SetOrder, names: seq<string>, s: System, held: Attributes)
    requires TextsInvert(c) && Reorders(o) && DistinctNames(names) && HasNames(names, s.memory) && Holds(c, names, s.row, held)
    ensures Load(c, o, s) == Ok(RereadStore(o, names, held))
  {
    StoreRoundTrip(c, o, names, held, s.row);
    SameMaps(s.memory + RereadStore(o, names, held), RereadStore(o, names, held));
  }

  /** On a complete snapshot a request is a transaction: it runs on a state equal to the committed one, commits its result unless it
      raised, and advances the revision exactly when it changed a value or the order of a set or dict. */
  lemma ServeIsTransaction(c: Tables, o: SetOrder, names: seq<string>, s: System, body: Body, held: Attributes)
    requires TextsInvert(c) && Reorders(o) && DistinctNames(names) && KeepsNames(names, body) && KeepsUsable(c, names, body)
    requires HasNames(names, s.memory) && Holds(c, names, s.row, held)
    ensures var seen := RereadStore(o, names, held);
            var (after, raised) := body(seen);
            var s' := Serve(c, o, names, s, body);
            var unwritten := raised || (EqualStates(after, seen) && SameOrders(after, seen));
            && EqualStates(seen, held)
            && HasNames(names, s'.memory)
            && Holds(c, names, s'.row, if unwritten then held else after)
            && s'.row.revision == s.row.revision + if unwritten then 0 else 1
  {
    var seen := RereadStore(o, names, held);
    SeesTheSnapshot(c, o, names, s, held);
    RereadStoreIsEqual(c, o, names, held);
    var after := body(seen).0;
    SnapshotsDetermineStates(c, names, after, seen);
    WrittenIsHeld(c, names, after, s.row.revision + 1);
  }

  // --- Runs ------------------------------------------------------------------------------------------

  /** A process serves requests, each rebuilding sets in an order of its own, and may be restarted, which leaves anything in
      its memory. */
  datatype Step = Request(body: Body, order: SetOrder) | Restart(memory: Attributes)

  ghost predicate Allowed(c: Tables, names: seq<string>, step: Step) {
    match step
    case Request(body, order) => KeepsNames(names, body) && KeepsUsable(c, names, body) && Reorders(order)
    case Restart(memory) => HasNames(names, memory)
  }

  ghost function Next(c: Tables, names: seq<string>, s: System, step: Step): System
    requires HasNames(names, s.memory) && Allowed(c, names, step)
  {
    match step
    case Request(body, order) => Serve(c, order, names, s, body)
    case Restart(memory) => s.(memory := memory)
  }

  ghost predicate Behaviour(c: Tables, names: seq<string>, states: seq<System>, steps: seq<Step>) {
    && |states| == |steps| + 1
    && (forall i :: 0 <= i < |steps| ==> Allowed(c, names, steps[i]))
    && (forall i :: 0 <= i <= |steps| ==> HasNames(names, states[i].memory))
    && forall i :: 0 <= i < |steps| ==> states[i + 1] == Next(c, names, states[i], steps[i])
  }

  /** A serial account of one step: restarts and raised requests leave the committed state equal, and a successful request turns a
      state equal to it into one equal to the request's result. */
  ghost predicate SerialStep(before: Attributes, step: Step, after: Attributes) {
    match step
    case Restart(_) => after == before
    case Request(body, _) =>
      exists seen ::
        && EqualStates(seen, before)
        && if body(seen).1 then after == before else EqualStates(after, body(seen).0)
  }

  ghost predicate Serial(committed: seq<Attributes>, steps: seq<Step>, start: Attributes) {
    && |committed| == |steps| + 1 && committed[0] == start
    && forall i :: 0 <= i < |steps| ==> SerialStep(committed[i], steps[i], committed[i + 1])
  }

  /** What the row holds after one more step, and that the step is serial. */
  lemma NextIsSerial(c: Tables, names: seq<string>, s: System, step: Step, held: Attributes) returns (after: Attributes)
    requires TextsInvert(c) && DistinctNames(names) && Allowed(c, names, step)
    requires HasNames(names, s.memory) && Holds(c, names, s.row, held)
    ensures Holds(c, names, Next(c, names, s, step).row, after) && SerialStep(held, step, after)
  {
    match step
    case Restart(_) => after := held;
    case Request(body, order) =>
      var seen := RereadStore(order, names, held);
      ServeIsTransaction(c, order, names, s, body, held);
      RereadStoreIsEqual(c, order, names, held);
      var (result, raised) := body(seen);
      if raised {
        after := held;
      } else if EqualStates(result, seen) && SameOrders(result, seen) {
        after := held;
        SameListing(c, names, result, seen);
      } else {
        after := result;
        EqualStatesReflexive(result);
      }
  }

  /** In every run over a complete snapshot the row holds what the successful requests produced in order, each on a state equal to
      what the ones before it left: raised requests, restarts and memory leave no trace. */
  lemma {:induction false} RunIsSerial(c: Tables, names: seq<string>, states: seq<System>, steps: seq<Step>, start: Attributes, n: nat)
    returns (committed: seq<Attributes>)
    requires TextsInvert(c) && DistinctNames(names) && Behaviour(c, names, states, steps) && n <= |steps|
    requires Holds(c, names, states[0].row, start)
    ensures Serial(committed, steps[..n], start)
    ensures AllHeld(c, names, states, committed, n)
    decreases n
  {
    if n == 0 {
      committed := [start];
    } else {
      var earlier := RunIsSerial(c, names, states, steps, start, n - 1);
      var after := NextIsSerial(c, names, states[n - 1], steps[n - 1], earlier[n - 1]);
      committed := earlier + [after];
      SerialNext(earlier, steps, start, n - 1, after);
      HeldNext(c, names, states, earlier, n - 1, after);
    }
  }

  /** The rows of the first n states and the next hold the committed states. */
  ghost predicate AllHeld(c: Tables, names: seq<string>, states: seq<System>, committed: seq<Attributes>, n: nat) {
    n < |states| && |committed| == n + 1 && forall i :: 0 <= i <= n ==> Holds(c, names, states[i].row, committed[i])
  }

  lemma HeldNext(c: Tables, names: seq<string>, states: seq<System>, earlier: seq<Attributes>, n: nat, after: Attributes)
    requires AllHeld(c, names, states, earlier, n) && n + 1 < |states| && Holds(c, names, states[n + 1].row, after)
    ensures AllHeld(c, names, states, earlier + [after], n + 1)
  {
  }

  lemma SerialNext(earlier: seq<Attributes>, steps: seq<Step>, start: Attributes, n: nat, after: Attributes)
    requires n < |steps| && Serial(earlier, steps[..n], start) && SerialStep(earlier[n], steps[n], after)
    ensures Serial(earlier + [after], steps[..n + 1], start)
  {
    var committed := earlier + [after];
    forall i | 0 <= i < n + 1 ensures SerialStep(committed[i], steps[..n + 1][i], committed[i + 1]) {
      if i < n {
        assert steps[..n][i] == steps[i];
        assert SerialStep(earlier[i], steps[i], earlier[i + 1]);
      }
    }
  }

  /** The state the successful requests produce, one after another, on one machine without any storage. */
  function Committed(start: Attributes, steps: seq<Step>): Attributes {
    if steps == [] then start
    else
      var before, last := Committed(start, steps[..|steps| - 1]), steps[|steps| - 1];
      if last.Request? && !last.body(before).1 then last.body(before).0 else before
  }

  /** The request does not depend on the order in which sets and dicts are listed. */
  ghost predicate IgnoresOrder(body: Body) {
    forall a, b :: EqualStates(a, b) ==> body(a).1 == body(b).1 && EqualStates(body(a).0, body(b).0)
  }

  ghost predicate AllIgnoreOrder(steps: seq<Step>) {
    forall i :: 0 <= i < |steps| && steps[i].Request? ==> IgnoresOrder(steps[i].body)
  }

  /** When no request depends on the order of sets, every serial account ends in a state equal to the one without storage. */
  lemma {:induction false} SerialIsCommitted(committed: seq<Attributes>, steps: seq<Step>, start: Attributes)
    requires Serial(committed, steps, start) && AllIgnoreOrder(steps)
    ensures EqualStates(committed[|steps|], Committed(start, steps))
    decreases |steps|
  {
    if steps == [] {
      EqualStatesReflexive(start);
    } else {
      var last := |steps| - 1;
      SerialPrefix(committed, steps, start);
      SerialIsCommitted(committed[..|steps|], steps[..last], start);
      SerialStepIsCommitted(committed[last], steps[last], committed[|steps|], Committed(start, steps[..last]));
    }
  }

  lemma SerialPrefix(committed: seq<Attributes>, steps: seq<Step>, start: Attributes)
    requires Serial(committed, steps, start) && AllIgnoreOrder(steps) && steps != []
    ensures Serial(committed[..|steps|], steps[..|steps| - 1], start) && AllIgnoreOrder(steps[..|steps| - 1])
    ensures SerialStep(committed[|steps| - 1], steps[|steps| - 1], committed[|steps|])
  {
    var front := committed[..|steps|];
    forall i | 0 <= i < |steps| - 1 ensures SerialStep(front[i], steps[..|steps| - 1][i], front[i + 1]) {
      assert SerialStep(committed[i], steps[i], committed[i + 1]);
    }
  }

  lemma SerialStepIsCommitted(before: Attributes, step: Step, after: Attributes, ideal: Attributes)
    requires SerialStep(before, step, after) && EqualStates(before, ideal) && (step.Request? ==> IgnoresOrder(step.body))
    ensures EqualStates(after, if step.Request? && !step.body(ideal).1 then step.body(ideal).0 else ideal)
  {
    if step.Request? {
      var seen :| && EqualStates(seen, before)
                  && if step.body(seen).1 then after == before else EqualStates(after, step.body(seen).0);
      EqualStatesChain(seen, before, ideal);
      if !step.body(seen).1 {
        EqualStatesChain(after, step.body(seen).0, step.body(ideal).0);
      }
    }
  }

  /** In every run of requests that do not depend on the order of sets, what the row holds equals what the same requests produce
      without any storage. */
  lemma RunIsCommitted(c: Tables, names: seq<string>, states: seq<System>, steps: seq<Step>, start: Attributes) returns (held: Attributes)
    requires TextsInvert(c) && DistinctNames(names) && Behaviour(c, names, states, steps) && Holds(c, names, states[0].row, start)
    requires AllIgnoreOrder(steps)
    ensures Holds(c, names, states[|steps|].row, held) && EqualStates(held, Committed(start, steps))
  {
    var committed := RunIsSerial(c, names, states, steps, start, |steps|);
    assert steps[..|steps|] == steps;
    SerialIsCommitted(committed, steps, start);
    held := committed[|steps|];
  }

  // --- Rebuilding alone ---------------------------------------------------------------------------------

  /** The request leaves every attribute as it sees it. */
  ghost predicate OnlyReads(body: Body) {
    forall a :: body(a).0 == a
  }

  ghost predicate AllOnlyRead(steps: seq<Step>) {
    forall i :: 0 <= i < |steps| && steps[i].Request? ==> OnlyReads(steps[i].body)
  }

  lemma ReaderLeavesRow(c: Tables, names: seq<string>, s: System, step: Step, held: Attributes)
    requires TextsInvert(c) && DistinctNames(names) && Allowed(c, names, step) && (step.Request? ==> OnlyReads(step.body))
    requires HasNames(names, s.memory) && Holds(c, names, s.row, held)
    ensures Next(c, names, s, step).row == s.row
  {
    match step
    case Restart(_) =>
    case Request(body, order) =>
      var seen := RereadStore(order, names, held);
      SeesTheSnapshot(c, order, names, s, held);
      RereadStoreIsEqual(c, order, names, held);
      SnapshotsAreSameIff(c, names, body(seen).0, seen);
  }

  /** However the sets are listed on each load, requests that only read and restarts never write: what is compared is the state
      after its sets were rebuilt. */
  lemma {:induction false} ReadersNeverWrite(c: Tables, names: seq<string>, states: seq<System>, steps: seq<Step>, start: Attributes, n: nat)
    requires TextsInvert(c) && DistinctNames(names) && Behaviour(c, names, states, steps) && n <= |steps|
    requires Holds(c, names, states[0].row, start) && AllOnlyRead(steps)
    ensures states[n].row == states[0].row
  {
    if n == 0 {
    } else {
      ReadersNeverWrite(c, names, states, steps, start, n - 1);
      ReaderLeavesRow(c, names, states[n - 1], steps[n - 1], start);
    }
  }

  // --- Where isolation ends -----------------------------------------------------------------------------

  /** What a request sees is independent of what is in memory exactly when the snapshot has every attribute. */
  lemma IsolatedIff(c: Tables, o: SetOrder, names: seq<string>, row: Row, loaded: Attributes)
    requires DecodeStore(c, o, row.state) == Ok(loaded)
    ensures (forall m, m' :: HasNames(names, m) && HasNames(names, m') ==> Load(c, o, System(m, row)) == Load(c, o, System(m', row)))
       <==> forall n :: n in names ==> n in loaded
  {
    if forall n :: n in names ==> n in loaded {
      forall m, m' | HasNames(names, m) && HasNames(names, m') ensures m + loaded == m' + loaded {
      }
    } else {
      var n :| n in names && n !in loaded;
      var m, m' := Constant(names, VNull), Constant(names, VBool(true));
      assert (m + loaded)[n] != (m' + loaded)[n];
      assert Load(c, o, System(m, row)) != Load(c, o, System(m', row));
    }
  }

  function Constant(names: seq<string>, v: Val): (r: Attributes)
    ensures forall n :: n in names <==> n in r
    ensures forall n :: n in r ==> r[n] == v
  {
    if names == [] then map[] else Constant(names[..|names| - 1], v)[names[|names| - 1] := v]
  }

  /** Until the first snapshot is written, the next request sees what a raised one left behind. */
  lemma NewRowKeepsRaisedChanges(c: Tables, o: SetOrder, o': SetOrder, names: seq<string>, s: System, body: Body)
    requires s.row == NEW_ROW && HasNames(names, s.memory) && KeepsNames(names, body) && body(s.memory).1
    ensures var s' := Serve(c, o, names, s, body);
            s'.row == NEW_ROW && Load(c, o', s') == Ok(body(s.memory).0)
  {
    assert DecodeStore(c, o, NEW_ROW.state) == Ok(map[]) && DecodeStore(c, o', NEW_ROW.state) == Ok(map[]);
    assert s.memory + map[] == s.memory;
    assert body(s.memory).0 + map[] == body(s.memory).0;
  }
}
