// All projections of an installation: fed event by event, rebuilt together or not at all.
module Projectors {
  import opened Wrappers
  import opened Listing
  import opened Tables
  import opened HistoryCoverage
  import opened Projections
  import opened EventStores
  import opened LogReading
  import W = ModelWrites

  ghost predicate Replayable(log: Log, coverage: Coverages, p: TableProjection) {
    p.transactional && MayRebuild(coverage, p.sourceModel) && forall r <- Rows(log, p.sourceModel) :: !Refused(p.columns, r.event)
  }

  // --- What a projection is fed ---

  // A model's own events, in order.
  function OfModel(events: seq<Event>, model: string): seq<Event> {
    if events == [] then []
    else OfModel(events[..|events| - 1], model) + if events[|events| - 1].model == model then [events[|events| - 1]] else []
  }

  // Those a projection can take; the others are skipped.
  function Accepted(columns: seq<string>, events: seq<Event>): seq<Event> {
    if events == [] then []
    else Accepted(columns, events[..|events| - 1]) + if Refused(columns, events[|events| - 1]) then [] else [events[|events| - 1]]
  }

  function Fed(columns: seq<string>, model: string, events: seq<Event>): seq<Event> {
    Accepted(columns, OfModel(events, model))
  }

  lemma FedOneMore(columns: seq<string>, model: string, events: seq<Event>, e: Event)
    ensures Fed(columns, model, events + [e])
              == Fed(columns, model, events) + if e.model == model && !Refused(columns, e) then [e] else []
  {
    assert (events + [e])[..|events|] == events;
    var mine := OfModel(events, model);
    if e.model == model {
      assert (mine + [e])[..|mine|] == mine;
    } else {
      assert mine + [] == mine;
    }
  }

  lemma {:induction false} KeyedAreAccepted(columns: seq<string>, events: seq<Event>)
    requires Keyed(events)
    ensures Accepted(columns, events) == events
  {
    if events != [] {
      var front, last := events[..|events| - 1], events[|events| - 1];
      hide Refused, HasId;
      KeyedFront(events);
      KeyedIsTaken(columns, last);
      KeyedAreAccepted(columns, front);
      assert events == front + [last];
    }
  }

  lemma KeyedFront(events: seq<Event>)
    requires Keyed(events) && events != []
    ensures Keyed(events[..|events| - 1]) && HasId(events[|events| - 1].data)
  {
    assert events[|events| - 1] in events;
    assert forall e <- events[..|events| - 1] :: e in events;
  }

  lemma KeyedIsTaken(columns: seq<string>, e: Event)
    requires HasId(e.data)
    ensures !Refused(columns, e)
  {
  }

  lemma NothingFed()
    ensures forall columns, model :: Fed(columns, model, []) == []
  {
  }

  // Fed every change of a model as it happened, in whatever company, a projection that started empty shows the
  // live rows, if the changes were benign.
  lemma FeedGivesLiveRows(columns: seq<string>, model: string, changes: seq<W.Change>, events: seq<Event>)
    requires ID in columns && W.AllApply(map[], changes) && forall i :: 0 <= i < |changes| ==> W.BenignAt(columns, changes, i)
    requires SameHappenings(OfModel(events, model), W.Events(model, map[], changes))
    ensures Replay(columns, Fed(columns, model, events)) == LiveRows(columns, W.After(map[], changes))
  {
    hide W.BenignAt, W.After, W.AllApply, W.Events, Keyed, SameHappenings, Replay, Live;
    var mine := OfModel(events, model);
    EventsAreKeyed(model, map[], changes);
    HappeningsAreKeyed(W.Events(model, map[], changes), mine);
    KeyedAreAccepted(columns, mine);
    W.RunAgreesIffBenign(columns, model, changes);
    assert W.AgreesAfter(columns, model, changes, |changes|);
    assert changes[..|changes|] == changes;
    ReplayByHappenings(columns, mine, W.Events(model, map[], changes));
  }

  // --- What a rebuild gives ---

  // The same happenings, under whatever ids and times.
  ghost predicate SameHappenings(a: seq<Event>, b: seq<Event>) {
    |a| == |b| && forall i :: 0 <= i < |a| ==> a[i].kind == b[i].kind && a[i].data == b[i].data
  }

  lemma {:induction false} ReplayByHappenings(columns: seq<string>, a: seq<Event>, b: seq<Event>)
    requires SameHappenings(a, b)
    ensures Replay(columns, a) == Replay(columns, b)
  {
    if a != [] { ReplayByHappenings(columns, a[..|a| - 1], b[..|b| - 1]); }
  }

  lemma {:induction false} EventsAreKeyed(model: string, base: Table, changes: seq<W.Change>)
    requires W.TableOk(base) && W.AllApply(base, changes)
    ensures Keyed(W.Events(model, base, changes))
  {
    if changes != [] {
      var front := changes[..|changes| - 1];
      EventsAreKeyed(model, base, front);
      W.AfterKeepsTable(model, base, front);
    }
  }

  // Where coverage lets a model be rebuilt, all its changes were benign, and the events of each row were
  // stamped in the order they were committed, the rebuilt table is the live rows: the log still has every
  // event, it is read in an order that serves, and the events say enough.
  lemma RebuildGivesLiveRows(columns: seq<string>, model: string, changes: seq<W.Change>,
                             log: Log, coverage: Coverages, committed: Log, stored: Log, table: Projected)
    requires ID in columns && Faithful(log, coverage, committed, stored) && MayRebuild(coverage, model)
    requires W.AllApply(map[], changes) && forall i :: 0 <= i < |changes| ==> W.BenignAt(columns, changes, i)
    requires SameHappenings(EventsIn(Rows(committed, model)), W.Events(model, map[], changes))
    requires StampsIncrease(Rows(committed, model), StampLe) && Rebuilt(columns, Rows(log, model), table)
    ensures table == LiveRows(columns, W.After(map[], changes))
  {
    hide W.BenignAt, W.After, W.AllApply, W.Events, Keyed, SameHappenings, StampsIncrease, Rebuilt, Replay, Live;
    assert FaithfulFor(log, coverage, committed, stored, model);
    EventsAreKeyed(model, map[], changes);
    HappeningsAreKeyed(W.Events(model, map[], changes), EventsIn(Rows(committed, model)));
    RebuiltInOrder(columns, Rows(log, model), table);
    W.RunAgreesIffBenign(columns, model, changes);
    assert W.AgreesAfter(columns, model, changes, |changes|);
    assert changes[..|changes|] == changes;
    ReplayByHappenings(columns, EventsIn(Rows(committed, model)), W.Events(model, map[], changes));
  }

  lemma HappeningsAreKeyed(a: seq<Event>, b: seq<Event>)
    requires SameHappenings(b, a) && Keyed(a)
    ensures Keyed(b)
  {
    forall e <- b ensures HasId(e.data) {
      var i :| 0 <= i < |b| && b[i] == e;
      assert a[i] in a;
    }
  }

  // Two writers of one row, the second with a clock behind: its update is replayed before there is a row.
  lemma SkewedClocksLoseAnUpdate(model: string, first: real, second: real)
    ensures var changes := [W.Create(Draft()), W.Patch("1", map["title" := Text("final")])];
            var rows := SkewedRows(model, first, second);
            W.AllApply(map[], changes) && (forall i :: 0 <= i < |changes| ==> W.BenignAt([ID, "title"], changes, i)) &&
            SameHappenings(EventsIn(rows), W.Events(model, map[], changes)) &&
            W.After(map[], changes) == map["1" := Draft()["title" := Text("final")]] &&
            !StampsIncrease(rows, StampLe) &&
            forall table :: Rebuilt([ID, "title"], rows, table) ==>
              table == map["1" := map[ID := Some("1"), "title" := Some("draft")]] != LiveRows([ID, "title"], W.After(map[], changes))
  {
    hide Rebuilt, Replay, W.AllApply, W.After, W.BenignAt, LiveRows, W.Events, EventsIn;
    SkewedHistory(model);
    var rows := SkewedRows(model, first, second);
    var final := map["1" := Draft()["title" := Text("final")]];
    assert !StampLe(rows[0], rows[1]) by { assert !NameLe("2", "1"); }
    assert EventsIn(rows) == [rows[0].event, rows[1].event];
    FinalTitle(final);
    forall table | Rebuilt([ID, "title"], rows, table) ensures table == map["1" := map[ID := Some("1"), "title" := Some("draft")]] {
      SkewedReplay(model, first, second, table);
    }
  }

  lemma FinalTitle(base: Table)
    requires base == map["1" := Draft()["title" := Text("final")]]
    ensures LiveRows([ID, "title"], base) != map["1" := map[ID := Some("1"), "title" := Some("draft")]]
  {
    assert "title" in [ID, "title"] && "1" in LiveRows([ID, "title"], base);
    assert LiveRows([ID, "title"], base)["1"]["title"] == Some("final");
  }

  lemma SkewedReplay(model: string, first: real, second: real, table: Projected)
    requires Rebuilt([ID, "title"], SkewedRows(model, first, second), table)
    ensures table == map["1" := map[ID := Some("1"), "title" := Some("draft")]]
  {
    hide Replay;
    var columns, rows := [ID, "title"], SkewedRows(model, first, second);
    var read :| IsRead(rows, read, StampLe) && table == Replay(columns, EventsIn(read));
    var turned := [rows[1], rows[0]];
    SwappedReads(rows[0], rows[1], read);
    DraftWins(columns, rows[0].event, rows[1].event);
    assert EventsIn(turned) == [rows[1].event, rows[0].event];
  }

  // An update of a row that is not there yet is lost.
  lemma DraftWins(columns: seq<string>, create: Event, update: Event)
    requires columns == [ID, "title"] && create.kind == Created && create.data == Draft() && update.kind == Updated
    ensures Replay(columns, [update, create]) == map["1" := map[ID := Some("1"), "title" := Some("draft")]]
  {
    ReplayAppend(columns, [], update);
    ReplayAppend(columns, [update], create);
    assert [] + [update] == [update] && [update] + [create] == [update, create];
    assert Replay(columns, [update]) == map[];
    assert ID in columns && "title" in columns;
    assert Rendered(columns, Draft()) == map[ID := Some("1"), "title" := Some("draft")];
  }

  lemma SwappedReads(a: Row, b: Row, read: seq<Row>)
    requires !StampLe(a, b) && IsRead([a, b], read, StampLe)
    ensures read == [b, a]
  {
    assert multiset([b, a]) == multiset([a, b]);
    SortedOnce([b, a], read, StampLe);
  }

  lemma SkewedHistory(model: string)
    ensures var changes := [W.Create(Draft()), W.Patch("1", map["title" := Text("final")])];
            W.AllApply(map[], changes) && (forall i :: 0 <= i < |changes| ==> W.BenignAt([ID, "title"], changes, i)) &&
            W.Events(model, map[], changes) ==
              [W.EventOf(model, map[], changes[0]), W.EventOf(model, map["1" := Draft()], changes[1])] &&
            W.After(map[], changes) == map["1" := Draft()["title" := Text("final")]]
  {
    var create, patch := W.Create(Draft()), W.Patch("1", map["title" := Text("final")]);
    assert [] + [create] == [create] && [create] + [patch] == [create, patch];
    W.NoChanges(model, map[]);
    W.OneMore(model, map[], [], create);
    W.OneMore(model, map[], [create], patch);
    assert Draft() + map["title" := Text("final")] == Draft()["title" := Text("final")];
    assert [create, patch][..0] == [] && [create, patch][..1] == [create];
  }

  function Draft(): Record { map[ID := Text("1"), "title" := Text("draft"), DELETED_AT := Null] }

  function SkewedRows(model: string, first: real, second: real): seq<Row> {
    [Row(Event("a", Created, model, Draft(), "2"), first, 1),
     Row(Event("b", Updated, model, Draft()["title" := Text("final")], "1"), second, 1)]
  }

  class ProjectorManager {
    const db: Database
    const projections: seq<TableProjection>

    constructor (db: Database, projections: seq<TableProjection>)
      requires NoDup(projections)
      ensures this.db == db && this.projections == projections && Valid()
    {
      this.db := db;
      this.projections := projections;
    }

    ghost predicate Valid() { NoDup(projections) }

    // Every projection of the event's model takes it, one that cannot is skipped, and no other changes.
    method ProcessEvent(e: Event)
      requires Valid()
      modifies set p | p in projections
      ensures forall p <- projections :: p.sourceModel != e.model || Refused(p.columns, e) ==> p.table == old(p.table)
      ensures forall p <- projections :: p.sourceModel == e.model && !Refused(p.columns, e) ==> p.table == Project(p.columns, old(p.table), e)
    {
      for i := 0 to |projections|
        invariant forall j :: 0 <= j < i ==>
                    projections[j].table == if projections[j].sourceModel == e.model && !Refused(projections[j].columns, e)
                                            then Project(projections[j].columns, old(projections[j].table), e) else old(projections[j].table)
        invariant forall j :: i <= j < |projections| ==> projections[j].table == old(projections[j].table)
      {
        if projections[i].sourceModel == e.model {
          var ok := projections[i].HandleEvent(e);
        }
      }
    }

    // The listener: event after event, of whatever models. A projection that starts empty ends up as the replay
    // of its own model's events.
    method Listen(events: seq<Event>)
      requires Valid()
      modifies set p | p in projections
      ensures forall p <- projections :: old(p.table) == map[] ==> p.table == Replay(p.columns, Fed(p.columns, p.sourceModel, events))
    {
      hide Project, Refused, Fed;
      NothingFed();
      for i := 0 to |events|
        invariant forall p <- projections :: old(p.table) == map[] ==> p.table == Replay(p.columns, Fed(p.columns, p.sourceModel, events[..i]))
      {
        label before:
        ProcessEvent(events[i]);
        assert events[..i + 1] == events[..i] + [events[i]];
        forall p <- projections | old(p.table) == map[]
          ensures p.table == Replay(p.columns, Fed(p.columns, p.sourceModel, events[..i + 1])) {
          FedOneMore(p.columns, p.sourceModel, events[..i], events[i]);
          ReplayAppend(p.columns, Fed(p.columns, p.sourceModel, events[..i]), events[i]);
          var mine := Fed(p.columns, p.sourceModel, events[..i]);
          assert mine + [] == mine;
        }
      }
      assert events[..|events|] == events;
    }

    // Nothing is touched before every projection is known to be rebuildable, and the tables change
    // together: all of them become what their model's whole history, as it is read back, says, or none changes.
    method RebuildAll() returns (ok: bool)
      requires Valid() && db.Valid()
      modifies set p | p in projections
      ensures ok <==> forall p <- projections :: Replayable(db.log, db.coverage, p)
      ensures if ok then forall p <- projections ::
                  Rows(db.log, p.sourceModel) == Rows(db.committed, p.sourceModel) &&
                  Rebuilt(p.columns, Rows(db.committed, p.sourceModel), p.table)
              else forall p <- projections :: p.table == old(p.table)
    {
      hide Replay, Refused;
      for i := 0 to |projections|
        invariant forall j :: 0 <= j < i ==> projections[j].transactional && MayRebuild(db.coverage, projections[j].sourceModel)
        invariant forall p <- projections :: p.table == old(p.table)
      {
        if !projections[i].transactional || !MayRebuild(db.coverage, projections[i].sourceModel) {
          assert !Replayable(db.log, db.coverage, projections[i]);
          return false;
        }
      }
      forall p <- projections ensures Rows(db.log, p.sourceModel) == Rows(db.committed, p.sourceModel) {
        assert FaithfulFor(db.log, db.coverage, db.committed, db.stored, p.sourceModel);
      }
      ok := RebuildEach();
    }

    // The second half of the transaction; a failure rolls every table back.
    method RebuildEach() returns (ok: bool)
      requires Valid() && forall p <- projections :: p.transactional && MayRebuild(db.coverage, p.sourceModel)
      modifies set p | p in projections
      ensures ok <==> forall p <- projections :: Replayable(db.log, db.coverage, p)
      ensures forall p <- projections ::
                if ok then Rebuilt(p.columns, Rows(db.log, p.sourceModel), p.table) else p.table == old(p.table)
    {
      hide Replay, Refused, IsRead, Rebuilt;
      var saved := [];
      for i := 0 to |projections|
        invariant |saved| == i && forall j :: 0 <= j < i ==> saved[j] == old(projections[j].table)
        invariant forall p <- projections :: p.table == old(p.table)
      {
        saved := saved + [projections[i].table];
      }
      for i := 0 to |projections|
        invariant forall j :: 0 <= j < i ==> Replayable(db.log, db.coverage, projections[j])
        invariant forall j :: 0 <= j < i ==>
                    Rebuilt(projections[j].columns, Rows(db.log, projections[j].sourceModel), projections[j].table)
      {
        var rebuilt := projections[i].RebuildIn(db.coverage, Rows(db.log, projections[i].sourceModel));
        if !rebuilt {
          assert !Replayable(db.log, db.coverage, projections[i]);
          RollBack(saved);
          return false;
        }
      }
      return true;
    }

    method RollBack(saved: seq<Projected>)
      requires Valid() && |saved| == |projections|
      modifies set p | p in projections
      ensures forall j :: 0 <= j < |projections| ==> projections[j].table == saved[j]
    {
      for i := 0 to |projections|
        invariant forall j :: 0 <= j < i ==> projections[j].table == saved[j]
      {
        projections[i].table := saved[i];
      }
    }
  }
}
