/**
 What a stored row is to a reader: the pure audience rule of
 src/presentation.ts (bearingOf), with the rows and reader facts it weighs.
 */
module Audience {
  import opened Options

  /** A message slot: its namespace (None is the residents' own) and the branch it is on, when it has its own. */
  datatype Slot = Slot(namespace: Option<string>, branch: Option<string>)

  /** `metadata.audience` with `metadata.ownRowOf`. */
  datatype Stamp = Stamp(audience: set<string>, ownRowOf: Option<string>)

  datatype Metadata = Metadata(stamp: Option<Stamp>, held: bool, suppressed: bool, injectionOf: Option<string>)

  /**
   Where a row is stored, as its reader's context sees it: the reader's own store, another slot, or none it can name.
   */
  datatype RowSlot = OwnStore | In(slot: Slot) | Unknown

  /** One stored row of a reader's merged record. A body is a run of rows (its shards) with one body number. */
  datatype Row = Row(id: nat, sequence: nat, body: nat, slot: RowSlot, participant: string, metadata: Metadata)

  /**
   An observe edge as bearingOf reads it: the slot it reads, that slot's owners, the agent it names, and whether it
   shows held traffic.
   */
  datatype Edge = Edge(slot: Slot, owners: set<string>, agent: Option<string>, includeHeld: bool)

  datatype ReaderFacts = ReaderFacts(
    name: string, ownSlot: Option<Slot>, observed: seq<Edge>, hidesHeld: bool, derivedAt: Option<nat>)

  datatype Bearing = Own | Arrival | Elsewhere

  predicate AnotherAgentsInjection(m: Metadata, name: string) {
    m.injectionOf.Some? && m.injectionOf.value != name
  }

  /** What an edge shows of the slot it reads (observedRowFor). */
  predicate ObservedRowFor(edge: Edge, row: Row, observer: string) {
    && !AnotherAgentsInjection(row.metadata, observer)
    && row.participant != observer
    && !row.metadata.suppressed
    && if row.metadata.held then edge.includeHeld
       else match row.metadata.stamp
         case None => true
         case Some(Stamp(_, Some(owner))) => owner in edge.owners
         case Some(Stamp(audience, None)) => exists name | name in audience :: name == observer || name in edge.owners
  }

  predicate ObservesInOwnSlot(reader: ReaderFacts, owner: string) {
    exists i | 0 <= i < |reader.observed| ::
      reader.observed[i].agent == Some(owner) && Some(reader.observed[i].slot) == reader.ownSlot
  }

  /** What one row is to one reader. */
  function BearingOf(row: Row, reader: ReaderFacts): Bearing {
    var m := row.metadata;
    if m.suppressed || row.slot.Unknown? then Elsewhere
    else if row.slot.In? && Some(row.slot.slot) != reader.ownSlot then
      if exists i | 0 <= i < |reader.observed| ::
        reader.observed[i].slot == row.slot.slot && ObservedRowFor(reader.observed[i], row, reader.name)
      then Arrival else Elsewhere
    else match m.stamp
      case Some(Stamp(_, Some(owner))) =>
        if owner == reader.name then Own
        else if ObservesInOwnSlot(reader, owner) && !AnotherAgentsInjection(m, reader.name) then Arrival else Elsewhere
      case Some(Stamp(audience, None)) =>
        if reader.name !in audience || AnotherAgentsInjection(m, reader.name) || (reader.hidesHeld && m.held)
        then Elsewhere else Arrival
      case None =>
        if || (reader.derivedAt.Some? && row.sequence <= reader.derivedAt.value)
           || (reader.hidesHeld && m.held)
           || AnotherAgentsInjection(m, reader.name)
        then Elsewhere else Arrival
  }

  /** Whether something about a row in the reader's own slot keeps it from a reader whose own row it isn't. */
  predicate Withheld(row: Row, reader: ReaderFacts) {
    AnotherAgentsInjection(row.metadata, reader.name) || (reader.hidesHeld && row.metadata.held)
  }

  /**
   Which rows are the reader's own, and which arrive for it. Its own are those stamped so in its own slot. In that slot
   a row for a named audience arrives for those it names, and one for anyone for those it wasn't derived before; in
   another slot a row arrives by an edge that shows it.
   */
  lemma BearingExactly(row: Row, reader: ReaderFacts)
    ensures
      var m, here := row.metadata, InOwnSlot(row, reader);
      && (BearingOf(row, reader) == Own <==>
        here && !m.suppressed && m.stamp.Some? && m.stamp.value.ownRowOf == Some(reader.name))
      && (m.suppressed ==> BearingOf(row, reader) == Elsewhere)
      && (here && !m.suppressed && m.stamp.Some? && m.stamp.value.ownRowOf.None? ==>
        (BearingOf(row, reader) == Arrival <==> reader.name in m.stamp.value.audience && !Withheld(row, reader)))
      && (here && !m.suppressed && m.stamp.None? ==>
        (BearingOf(row, reader) == Arrival <==>
          (reader.derivedAt.None? || reader.derivedAt.value < row.sequence) && !Withheld(row, reader)))
      && (!here && !m.suppressed ==>
        (BearingOf(row, reader) == Arrival <==> exists i | 0 <= i < |reader.observed| ::
          row.slot == In(reader.observed[i].slot) && ObservedRowFor(reader.observed[i], row, reader.name)))
  {
    if !InOwnSlot(row, reader) {
      forall i | 0 <= i < |reader.observed| && row.slot == In(reader.observed[i].slot)
        ensures reader.observed[i].slot == row.slot.slot
      {
      }
      if BearingOf(row, reader) == Arrival {
        var i :| 0 <= i < |reader.observed| && reader.observed[i].slot == row.slot.slot
          && ObservedRowFor(reader.observed[i], row, reader.name);
        assert row.slot == In(reader.observed[i].slot);
      }
    }
  }

  /**
   What an edge shows of another slot: with held traffic, all of that; and otherwise rows for anyone, those of its
   owners, and those for them or for the reader. Never the reader's own words back, nor another agent's injection.
   */
  lemma EdgeShowsExactly(edge: Edge, row: Row, observer: string)
    ensures
      var m, bars := row.metadata,
        AnotherAgentsInjection(row.metadata, observer) || row.participant == observer || row.metadata.suppressed;
      && (bars ==> !ObservedRowFor(edge, row, observer))
      && (!bars && m.held ==> (ObservedRowFor(edge, row, observer) <==> edge.includeHeld))
      && (!bars && !m.held && m.stamp.None? ==> ObservedRowFor(edge, row, observer))
      && (!bars && !m.held && m.stamp.Some? ==>
        (ObservedRowFor(edge, row, observer) <==>
          if m.stamp.value.ownRowOf.Some? then m.stamp.value.ownRowOf.value in edge.owners
          else !(m.stamp.value.audience !! edge.owners + {observer})))
  {
    if row.metadata.stamp.Some? && row.metadata.stamp.value.ownRowOf.None? {
      var both := row.metadata.stamp.value.audience * (edge.owners + {observer});
      forall name | name in row.metadata.stamp.value.audience ensures
        name in both <==> name == observer || name in edge.owners
      {
      }
    }
  }

  predicate InOwnSlot(row: Row, reader: ReaderFacts) {
    row.slot.OwnStore? || (row.slot.In? && Some(row.slot.slot) == reader.ownSlot)
  }

  /**
   Another agent's own row is never a reader's own, and reaches the reader only through an observe edge: in the
   reader's own slot one that names that agent, in another slot one on it that the agent owns, or, for a row held
   from the residents, one that shows held traffic.
   */
  lemma OwnRowsReachOthersOnlyThroughEdges(row: Row, reader: ReaderFacts, owner: string)
    requires row.metadata.stamp.Some? && row.metadata.stamp.value.ownRowOf == Some(owner) && owner != reader.name
    ensures BearingOf(row, reader) != Own
    ensures BearingOf(row, reader) == Arrival && InOwnSlot(row, reader) ==> ObservesInOwnSlot(reader, owner)
    ensures BearingOf(row, reader) == Arrival && !InOwnSlot(row, reader) ==>
      exists i | 0 <= i < |reader.observed| ::
        && In(reader.observed[i].slot) == row.slot
        && (if row.metadata.held then reader.observed[i].includeHeld else owner in reader.observed[i].owners)
  {
    if BearingOf(row, reader) == Arrival && !InOwnSlot(row, reader) {
      var i :| 0 <= i < |reader.observed| && reader.observed[i].slot == row.slot.slot
        && ObservedRowFor(reader.observed[i], row, reader.name);
      assert In(reader.observed[i].slot) == row.slot;
    }
  }
}
