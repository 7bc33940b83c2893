/** What an operator's review of a held mutation writes, in every run, told from the mutation as it was delivered. */
module ReviewEffects {
  import opened Prelude
  import opened Reconciler
  import opened ReconcilerTheorems

  // --- The record of a mutation -----------------------------------------------------------------------

  ghost predicate ArrivedClashing(met: State, m: Mutation) {
    exists f :: ClashesAt(met, m, f)
  }

  /** The record carries the particulars of the mutation, and of its changes those that clashed on arrival. */
  ghost predicate Records(c: Conflict, met: State, m: Mutation) {
    && c.mutationId == m.mutationId && c.clientId == m.clientId
    && c.workspaceId == m.workspaceId && c.userId == m.userId
    && c.entityType == m.entityType && c.entityId == m.entityId && c.timestamp == m.timestamp
    && forall f :: (f in AsMap(c.clientFields) <==> ClashesAt(met, m, f))
                && (f in AsMap(c.clientFields) ==> AsMap(c.clientFields)[f] == AsMap(m.changes)[f])
  }

  ghost predicate KnownAs(s: State, met: State, m: Mutation) {
    && m.mutationId in s.processed
    && (ConflictId(m.mutationId) in s.conflicts <==> ArrivedClashing(met, m))
    && (ConflictId(m.mutationId) in s.conflicts ==> Records(s.conflicts[ConflictId(m.mutationId)], met, m))
  }

  lemma ArrivalIsRecorded(met: State, m: Mutation)
    requires Inv(met) && m.mutationId !in met.processed
    ensures KnownAs(ReconcileOne(met, m).0, met, m)
  {
    ConflictIdInjective();
    NewMutationConflicts(met, m);
  }

  lemma StaysKnownAs(s: State, e: ServerEvent, met: State, m: Mutation)
    requires Inv(s) && KnownAs(s, met, m)
    ensures KnownAs(ServerStep(s, e), met, m)
  {
    ConflictIdInjective();
    StepRemembers(s, e);
    if e.Deliver? && e.m.mutationId !in s.processed {
      NewMutationConflicts(s, e.m);
    }
  }

  lemma {:induction false} KnownAsInRun(s: State, es: seq<ServerEvent>, met: State, m: Mutation)
    requires Inv(s) && KnownAs(s, met, m)
    ensures KnownAs(Run(s, es), met, m)
  {
    if es == [] {
    } else {
      var last := |es| - 1;
      KnownAsInRun(s, es[..last], met, m);
      RunKeepsInv(s, es[..last]);
      StaysKnownAs(Run(s, es[..last]), es[last], met, m);
    }
  }

  /** In every run there is a record of a first-delivered mutation exactly if it arrived with a clash, and it tells the
      mutation and its clashing fields for as long as the run goes on. */
  lemma RecordedIff(es: seq<ServerEvent>, k: nat)
    requires k < |es| && es[k].Deliver? && FirstAt(es, k, es[k].m.mutationId)
    ensures KnownAs(Run(EMPTY, es), Run(EMPTY, es[..k]), es[k].m)
  {
    var met, m := Run(EMPTY, es[..k]), es[k].m;
    RunSplitsAt(es, k);
    RunProcesses(EMPTY, es[..k]);
    RunKeepsInv(EMPTY, es[..k]);
    RunKeepsInv(EMPTY, es[..k + 1]);
    ArrivalIsRecorded(met, m);
    KnownAsInRun(Run(EMPTY, es[..k + 1]), es[k + 1..], met, m);
  }

  /** The k-th event of the run delivers, for the first time, the mutation the conflict is named after. */
  ghost predicate RaisedAt(es: seq<ServerEvent>, k: nat, conflictId: string) {
    && k < |es| && es[k].Deliver? && FirstAt(es, k, es[k].m.mutationId)
    && ConflictId(es[k].m.mutationId) == conflictId && ArrivedClashing(Run(EMPTY, es[..k]), es[k].m)
  }

  lemma RaisedEarlier(es: seq<ServerEvent>, e: ServerEvent, k: nat, conflictId: string)
    requires RaisedAt(es, k, conflictId)
    ensures RaisedAt(es + [e], k, conflictId)
  {
    assert (es + [e])[..k] == es[..k];
  }

  lemma StagedJustNow(s: State, e: ServerEvent, conflictId: string)
    requires conflictId in ServerStep(s, e).conflicts && conflictId !in s.conflicts
    ensures e.Deliver? && e.m.mutationId !in s.processed && conflictId == ConflictId(e.m.mutationId) && ArrivedClashing(s, e.m)
  {
    if e.Deliver? && e.m.mutationId !in s.processed {
      NewMutationConflicts(s, e.m);
    }
  }

  lemma RaisedNow(es: seq<ServerEvent>, e: ServerEvent, conflictId: string)
    requires conflictId in Run(EMPTY, es + [e]).conflicts && conflictId !in Run(EMPTY, es).conflicts
    ensures RaisedAt(es + [e], |es|, conflictId)
  {
    assert (es + [e])[..|es|] == es;
    RunProcesses(EMPTY, es);
    StagedJustNow(Run(EMPTY, es), e, conflictId);
  }

  /** Nothing else is ever up for review. */
  lemma {:induction false} RaisedBefore(es: seq<ServerEvent>, conflictId: string)
    requires conflictId in Run(EMPTY, es).conflicts
    ensures exists k: nat :: RaisedAt(es, k, conflictId)
  {
    if es == [] {
    } else {
      var front, last := es[..|es| - 1], es[|es| - 1];
      assert front + [last] == es;
      if conflictId in Run(EMPTY, front).conflicts {
        RaisedBefore(front, conflictId);
        var k: nat :| RaisedAt(front, k, conflictId);
        RaisedEarlier(front, last, k, conflictId);
      } else {
        RaisedNow(front, last, conflictId);
      }
    }
  }

  // --- Which reviews are accepted ----------------------------------------------------------------------

  /** The operator gives values, gives nothing, or names the client whose change is held. */
  predicate Admissible(m: Mutation, chosen: Option<string>, custom: Option<seq<(string, Value)>>) {
    custom.Some? || chosen.None? || (chosen == Some(m.clientId) && m.clientId != "")
  }

  ghost predicate OnlySettles(s: State, s': State, conflictId: string)
    requires conflictId in s.conflicts
  {
    && s'.processed == s.processed
    && s'.conflicts == s.conflicts[conflictId := s.conflicts[conflictId].(status := Resolved)]
  }

  /** In every run a review of a first-delivered mutation is accepted exactly if it arrived with a clash and the operator's
      choice is admissible; it then settles that record, and otherwise no record changes. */
  lemma ReviewAcceptedIff(es: seq<ServerEvent>, k: nat, chosen: Option<string>, custom: Option<seq<(string, Value)>>, now: int)
    requires k < |es| && es[k].Deliver? && FirstAt(es, k, es[k].m.mutationId)
    ensures var m, s, id := es[k].m, Run(EMPTY, es), ConflictId(es[k].m.mutationId);
            var (s', answer) := Resolve(s, id, chosen, custom, now);
            && (answer.Ok? <==> ArrivedClashing(Run(EMPTY, es[..k]), m) && Admissible(m, chosen, custom))
            && (answer == Err(ConflictNotFound) <==> !ArrivedClashing(Run(EMPTY, es[..k]), m))
            && (if answer.Ok? then id in s.conflicts && OnlySettles(s, s', id) && answer == Ok(s'.conflicts[id])
                else s'.processed == s.processed && s'.conflicts == s.conflicts)
  {
    RecordedIff(es, k);
  }

  // --- What an accepted review writes -------------------------------------------------------------------

  /** The field holds the value, stamped with its writer and the time. */
  predicate Shows(s: State, key: string, f: string, writer: string, time: int, value: Value) {
    && f in GetOrEmpty(s.values, key) && s.values[key][f] == value
    && f in GetOrEmpty(s.stamps, key) && s.stamps[key][f] == Stamp(writer, time, value)
  }

  ghost function Reviewed(es: seq<ServerEvent>, m: Mutation, chosen: Option<string>, custom: Option<seq<(string, Value)>>, now: int): State {
    Run(EMPTY, es + [Review(ConflictId(m.mutationId), chosen, custom, now)])
  }

  lemma ReviewIsResolve(es: seq<ServerEvent>, id: string, chosen: Option<string>, custom: Option<seq<(string, Value)>>, now: int)
    ensures Run(EMPTY, es + [Review(id, chosen, custom, now)]) == Resolve(Run(EMPTY, es), id, chosen, custom, now).0
  {
    assert (es + [Review(id, chosen, custom, now)])[..|es|] == es;
  }

  /** Choosing the client puts each of its fields that clashed on arrival in place, whatever was written since, and no other field. */
  lemma ChosenClientWins(es: seq<ServerEvent>, k: nat, now: int, key: string, f: string)
    requires k < |es| && es[k].Deliver? && FirstAt(es, k, es[k].m.mutationId) && es[k].m.clientId != ""
    ensures var m, s := es[k].m, Run(EMPTY, es);
            var s' := Reviewed(es, m, Some(m.clientId), None, now);
            if key == EntityKey(m.entityType, m.entityId) && ClashesAt(Run(EMPTY, es[..k]), m, f)
            then Shows(s', key, f, m.clientId, now, AsMap(m.changes)[f])
            else SameField(s, s', key, f)
  {
    var m, s := es[k].m, Run(EMPTY, es);
    var id := ConflictId(m.mutationId);
    RecordedIff(es, k);
    ReviewIsResolve(es, id, Some(m.clientId), None, now);
    if id in s.conflicts && key == EntityKey(m.entityType, m.entityId) {
      WrittenAt(GetOrEmpty(s.values, key), GetOrEmpty(s.stamps, key), m.clientId, now, s.conflicts[id].clientFields, f);
    }
  }

  /** Values given by the operator are written as they are, and nothing else, under the chosen client or else the mutation's own. */
  lemma CustomValuesWin(es: seq<ServerEvent>, k: nat, chosen: Option<string>, values: seq<(string, Value)>, now: int, key: string, f: string)
    requires k < |es| && es[k].Deliver? && FirstAt(es, k, es[k].m.mutationId) && ArrivedClashing(Run(EMPTY, es[..k]), es[k].m)
    ensures var m, s := es[k].m, Run(EMPTY, es);
            var s' := Reviewed(es, m, chosen, Some(values), now);
            if key == EntityKey(m.entityType, m.entityId) && f in AsMap(values)
            then Shows(s', key, f, if chosen.Some? && chosen.value != "" then chosen.value else m.clientId, now, AsMap(values)[f])
            else SameField(s, s', key, f)
  {
    var m, s := es[k].m, Run(EMPTY, es);
    RecordedIff(es, k);
    ReviewIsResolve(es, ConflictId(m.mutationId), chosen, Some(values), now);
    if key == EntityKey(m.entityType, m.entityId) {
      var writer := if chosen.Some? && chosen.value != "" then chosen.value else m.clientId;
      WrittenAt(GetOrEmpty(s.values, key), GetOrEmpty(s.stamps, key), writer, now, values, f);
    }
  }

  /** A review that gives no values and does not name the client of the conflict writes no field, be it accepted or not. */
  lemma OtherReviewsWriteNothing(es: seq<ServerEvent>, conflictId: string, chosen: Option<string>, now: int, key: string, f: string)
    requires forall k: nat :: RaisedAt(es, k, conflictId) ==> chosen != Some(es[k].m.clientId) || chosen == Some("")
    ensures SameField(Run(EMPTY, es), Run(EMPTY, es + [Review(conflictId, chosen, None, now)]), key, f)
  {
    ReviewIsResolve(es, conflictId, chosen, None, now);
    var s := Run(EMPTY, es);
    if conflictId in s.conflicts {
      RaisedBefore(es, conflictId);
      var k: nat :| RaisedAt(es, k, conflictId);
      RecordedIff(es, k);
      NothingWritten(s, conflictId, chosen, now, key, f);
    }
  }

  lemma NothingWritten(s: State, conflictId: string, chosen: Option<string>, now: int, key: string, f: string)
    requires conflictId in s.conflicts && (chosen != Some(s.conflicts[conflictId].clientId) || chosen == Some(""))
    ensures SameField(s, Resolve(s, conflictId, chosen, None, now).0, key, f)
  {
  }

  /** A review of anything else than a mutation that arrived with a clash leaves the server as it is. */
  lemma UnknownConflictIsIgnored(es: seq<ServerEvent>, conflictId: string, chosen: Option<string>, custom: Option<seq<(string, Value)>>, now: int)
    requires forall k: nat :: !RaisedAt(es, k, conflictId)
    ensures Run(EMPTY, es + [Review(conflictId, chosen, custom, now)]) == Run(EMPTY, es)
    ensures Resolve(Run(EMPTY, es), conflictId, chosen, custom, now).1 == Err(ConflictNotFound)
  {
    ReviewIsResolve(es, conflictId, chosen, custom, now);
    if conflictId in Run(EMPTY, es).conflicts {
      RaisedBefore(es, conflictId);
    }
  }
}
