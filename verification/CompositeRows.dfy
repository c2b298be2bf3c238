/** The outbox rows of a transition: they never collide with existing keys, and they extend exactly one errand's
    saga. */
module CompositeRows {
  import opened Keys
  import opened Errands
  import opened StoreModel
  import opened Lifecycle
  import opened CompositeInv
  import Saga

  /** The slots of a transition's rows: its credit command, then its announcements. */
  ghost function SlotsOf(x: Saga.Emission, names: seq<EventName>, version: nat): (slots: seq<Slot>) {
    (if x.Quiet? then [] else [x.slot]) + seq(|names|, i requires 0 <= i < |names| => Slot(Emit(names[i]), version))
  }

  /** `rows` carry the keys of `slots` for errand `id`. */
  ghost predicate Keyed(rows: seq<OutboxRow>, id: string, slots: seq<Slot>) {
    && |rows| == |slots|
    && (forall i :: 0 <= i < |rows| ==> rows[i].key == KeyOf(id, slots[i]))
    && (forall i :: 0 <= i < |rows| ==> (slots[i].op.Credit() <==> rows[i].kind.Credit()))
    && (forall i, j :: 0 <= i < j < |slots| ==> slots[i] != slots[j])
    && (forall i :: 0 <= i < |slots| ==> slots[i].op != VerifyReminder && slots[i].op != PickupReminder)
  }

  /** What an event puts into the outbox is keyed by its slots, and holds one command at most. */
  lemma OutboxKeyed(e: Errand, ev: Event, a: Actor, input: EventInput, now: Time)
    requires Enabled(e, ev, a, input, now)
    ensures var e' := Effect(e, ev, a, input, now);
      var x := EmissionOf(e, e', CreditOrderOf(e, ev, input, now));
      var slots := SlotsOf(x, AnnouncementsOf(e, ev, input, now), e'.version);
      Keyed(OutboxOf(e, ev, a, input, now), e.id, slots) && OneCommand(OutboxOf(e, ev, a, input, now), slots, x)
  {
    hide Enabled, Effect, EmissionOf, CreditOrderOf, AnnouncementsOf, ChangesReward, Announcement, ReasonOf, Keyed,
         OneCommand, SlotsOf;
    var e' := Effect(e, ev, a, input, now);
    var o := CreditOrderOf(e, ev, input, now);
    AnnouncementsDiffer(e, ev, input, now);
    RowsKeyed(e, e', EmissionOf(e, e', o), AnnouncementsOf(e, ev, input, now), o, ev, a, ReasonOf(ev, input), now);
  }

  lemma RowsKeyed(e: Errand, e': Errand, x: Saga.Emission, names: seq<EventName>, o: CreditOrder, ev: Event, a: Actor,
                  reason: string, now: Time)
    requires x == EmissionOf(e, e', o)
    requires forall i, j :: 0 <= i < j < |names| ==> names[i] != names[j]
    ensures var rows, slots := RowsOf(x) + Announcements(names, e, e', ev, a, reason, now),
        SlotsOf(x, names, e'.version);
      Keyed(rows, e.id, slots) && OneCommand(rows, slots, x)
  {
    hide KeyOf, Announcement, EmissionOf;
    var rows := RowsOf(x) + Announcements(names, e, e', ev, a, reason, now);
    var slots, n := SlotsOf(x, names, e'.version), if x.Quiet? then 0 else 1;
    EmissionKeyed(e, e', o);
    assert |rows| == |slots| == n + |names|;
    forall i | n <= i < |slots|
      ensures slots[i] == Slot(Emit(names[i - n]), e'.version)
      ensures rows[i] == Announcement(names[i - n], e, e', ev, a, reason, now)
    {
    }
    forall name { AnnouncementKeyed(name, e, e', ev, a, reason, now); }
    hide SlotsOf, Announcements;
  }

  lemma EmissionKeyed(e: Errand, e': Errand, o: CreditOrder)
    ensures var x := EmissionOf(e, e', o);
      x.Emits? ==> x.slot.op.Credit() && x.row.kind.Credit() && x.row.key == KeyOf(e.id, x.slot)
  {
    hide KeyOf;
  }

  lemma AnnouncementKeyed(name: EventName, e: Errand, e': Errand, ev: Event, a: Actor, reason: string, now: Time)
    ensures var row := Announcement(name, e, e', ev, a, reason, now);
      row.key == KeyOf(e.id, Slot(Emit(name), e'.version)) && !row.kind.Credit()
  {
    hide KeyOf;
  }

  /** The only credit command among the rows is the emission's. */
  ghost predicate OneCommand(rows: seq<OutboxRow>, slots: seq<Slot>, x: Saga.Emission)
    requires |rows| == |slots|
  {
    && (forall i :: 0 <= i < |rows| && slots[i].op.Credit() ==> x.Emits? && slots[i] == x.slot && rows[i] == x.row)
    && (x.Emits? ==> |rows| > 0 && slots[0] == x.slot && x.slot.op.Credit())
  }

  lemma DistinctKeys(rows: seq<OutboxRow>, id: string, slots: seq<Slot>)
    requires IsUuid(id) && Keyed(rows, id, slots)
    ensures forall i, j :: 0 <= i < j < |rows| ==> rows[i].key != rows[j].key
  {
    hide KeyOf;
    UuidColonFree(id);
    forall i, j | 0 <= i < j < |rows|
      ensures rows[i].key != rows[j].key
    {
      if rows[i].key == rows[j].key {
        KeyInjective(id, slots[i], id, slots[j]);
      }
    }
  }

  /** A transition's rows show up in its own errand's saga as the emission ... */
  lemma OwnRowsView(outbox: map<string, OutboxRecord>, id: string, rows: seq<OutboxRow>, slots: seq<Slot>,
                    x: Saga.Emission,
                    version: nat, at: Time)
    requires IsUuid(id) && Keyed(rows, id, slots) && OneCommand(rows, slots, x)
    requires forall i :: 0 <= i < |rows| ==> rows[i].key !in outbox
    ensures RowsView(AddRows(outbox, rows, version, at), id)
         == if x.Quiet? then RowsView(outbox, id) else RowsView(outbox, id)[x.slot := x.row]
  {
    hide KeyOf;
    UuidColonFree(id);
    DistinctKeys(rows, id, slots);
    hide IsUuid;
    AddRowsGives(outbox, rows, version, at);
    hide AddRows;
    var after := AddRows(outbox, rows, version, at);
    forall y: Slot, i | 0 <= i < |rows| && KeyOf(id, y) == rows[i].key
      ensures y == slots[i]
    {
      KeyInjective(id, y, id, slots[i]);
    }
    assert x.Emits? ==> rows[0] == x.row && rows[0].key == KeyOf(id, x.slot);
  }

  /** ... and in no other's. */
  lemma OtherRowsView(outbox: map<string, OutboxRecord>, id: string, rows: seq<OutboxRow>, slots: seq<Slot>, o: string,
                      version: nat, at: Time)
    requires IsUuid(id) && IsUuid(o) && o != id && Keyed(rows, id, slots)
    ensures RowsView(AddRows(outbox, rows, version, at), o) == RowsView(outbox, o)
  {
    hide KeyOf;
    UuidColonFree(id);
    UuidColonFree(o);
    DistinctKeys(rows, id, slots);
    hide IsUuid;
    AddRowsGives(outbox, rows, version, at);
    hide AddRows;
    forall y: Slot, i | 0 <= i < |rows|
      ensures KeyOf(o, y) != rows[i].key
    {
      if KeyOf(o, y) == rows[i].key {
        KeyInjective(o, y, id, slots[i]);
      }
    }
  }

  /** No slot of the rows is in use, so the unique-key constraint does not fire. */
  lemma RowsAreFree(db: Db, id: string, rows: seq<OutboxRow>, slots: seq<Slot>)
    requires IdsInv(db) && KeyInv(db) && NoticeInv(db) && IsUuid(id) && Keyed(rows, id, slots)
    requires id in db.errands ==> forall i :: 0 <= i < |slots| ==> !Used(db.errands[id], slots[i])
    ensures KeysFree(db, rows)
  {
    hide KeyOf, Used, WellFormed;
    DistinctKeys(rows, id, slots);
    forall i | 0 <= i < |rows|
      ensures rows[i].key !in db.outbox && rows[i].key !in db.notices
    {
      KeyIsFree(db, id, slots[i]);
    }
  }

  lemma KeyIsFree(db: Db, id: string, x: Slot)
    requires IdsInv(db) && KeyInv(db) && NoticeInv(db) && IsUuid(id)
    requires id in db.errands ==> !Used(db.errands[id], x)
    requires x.op != VerifyReminder && x.op != PickupReminder
    ensures KeyOf(id, x) !in db.outbox && KeyOf(id, x) !in db.notices
  {
    hide KeyOf, RejectionKey, WellFormed, Used;
    UuidColonFree(id);
    if KeyOf(id, x) in db.outbox {
      var id', x': Slot :| OwnedBy(db, KeyOf(id, x), id', x');
      UuidColonFree(id');
      KeyInjective(id, x, id', x');
    }
    if KeyOf(id, x) in db.notices {
      NoticeIsNoRow(id, x);
    }
    hide IsUuid, IsNotice;
  }

  lemma NoticeIsNoRow(id: string, x: Slot)
    requires IsUuid(id) && x.op != VerifyReminder && x.op != PickupReminder
    ensures !IsNotice(KeyOf(id, x))
  {
    hide KeyOf, RejectionKey;
    UuidColonFree(id);
    forall id', a, q | IsUuid(id')
      ensures KeyOf(id, x) != RejectionKey(id', a, q)
    {
      UuidColonFree(id');
      RejectionKeyDisjoint(id', a, q, id, x);
    }
    forall id', x': Slot | IsUuid(id') && (x'.op == VerifyReminder || x'.op == PickupReminder)
      ensures KeyOf(id, x) != KeyOf(id', x')
    {
      UuidColonFree(id');
      if KeyOf(id, x) == KeyOf(id', x') {
        KeyInjective(id, x, id', x');
      }
    }
    hide IsUuid;
  }

  // ---------------------------------------------------------------- slots an event uses

  lemma UsedStays(e: Errand, ev: Event, a: Actor, input: EventInput, now: Time, x: Slot)
    requires WellFormed(e) && Enabled(e, ev, a, input, now) && Used(e, x)
    ensures Used(Effect(e, ev, a, input, now), x)
  {
    hide KeyOf, IsBlank;
  }

  lemma EmissionIsNew(e: Errand, ev: Event, a: Actor, input: EventInput, now: Time)
    requires WellFormed(e) && Enabled(e, ev, a, input, now)
    ensures var e' := Effect(e, ev, a, input, now);
            var x := EmissionOf(e, e', CreditOrderOf(e, ev, input, now));
            x.Emits? ==> !Used(e, x.slot) && Used(e', x.slot)
  {
    hide KeyOf, IsBlank;
  }

  lemma AnnouncementsAreNew(e: Errand, ev: Event, a: Actor, input: EventInput, now: Time, name: EventName)
    requires WellFormed(e) && Enabled(e, ev, a, input, now)
    requires name == EditRequested <==> ev == Edit && ChangesReward(e, input)
    ensures var e' := Effect(e, ev, a, input, now);
            !Used(e, Slot(Emit(name), e'.version)) && Used(e', Slot(Emit(name), e'.version))
  {
    hide KeyOf, IsBlank;
  }

  /** Every row of an event is new, and owned by the errand afterwards. */
  lemma SlotsAreNew(e: Errand, ev: Event, a: Actor, input: EventInput, now: Time)
    requires WellFormed(e) && Enabled(e, ev, a, input, now)
    ensures var e' := Effect(e, ev, a, input, now);
            var slots :=
              SlotsOf(EmissionOf(e, e', CreditOrderOf(e, ev, input, now)), AnnouncementsOf(e, ev, input, now),
                      e'.version);
            forall i :: 0 <= i < |slots| ==> !Used(e, slots[i]) && Used(e', slots[i])
  {
    hide KeyOf, IsBlank, Used, Effect, EmissionOf, CreditOrderOf, WellFormed, Enabled, ChangesReward, AnnouncementsOf;
    var names := AnnouncementsOf(e, ev, input, now);
    AnnouncementsDiffer(e, ev, input, now);
    EmissionIsNew(e, ev, a, input, now);
    forall i | 0 <= i < |names|
      ensures var v := Effect(e, ev, a, input, now).version;
              !Used(e, Slot(Emit(names[i]), v)) && Used(Effect(e, ev, a, input, now), Slot(Emit(names[i]), v))
    {
      AnnouncementsAreNew(e, ev, a, input, now, names[i]);
    }
  }
}
