// src/helpers/history.ts and the history part of src/Swup.ts and src/modules/navigate.ts:
// the browser's session history together with `currentHistoryIndex`.
module Histories {
  import opened Wrappers
  import opened Urls

  datatype Direction = Forwards | Backwards

  /** One history record: the address shown for it, the index in its state, and whether swup wrote that state. */
  datatype Entry = Entry(address: Location, index: Option<int>, ours: bool) {
    /** `state?.index ?? otherwise` */
    function IndexOr(otherwise: int): int {
      if index.Some? then index.value else otherwise
    }
  }

  /** The stack of records, the cursor into it, and swup's idea of where the cursor is. */
  datatype Session = Session(entries: seq<Entry>, cursor: nat, index: int) {
    predicate WellFormed() {
      cursor < |entries|
    }

    /** The address bar. */
    function Address(): Location
      requires WellFormed()
    {
      entries[cursor].address
    }
  }

  /** `index++` followed by `createHistoryRecord`: a push drops the records ahead of the cursor. */
  function Push(s: Session, to: Location): (r: Session)
    requires s.WellFormed()
    ensures r.WellFormed() && r.Address() == to
  {
    Session(s.entries[..s.cursor + 1] + [Entry(to, Some(s.index + 1), true)], s.cursor + 1, s.index + 1)
  }

  /** `updateHistoryRecord`: keeps the stored index of the record, changes its address and signs it. */
  function Update(s: Session, to: Location): (r: Session)
    requires s.WellFormed()
    ensures r.WellFormed() && r.Address() == to && r.index == s.index
  {
    s.(entries := s.entries[s.cursor := s.entries[s.cursor].(address := to, ours := true)])
  }

  /** The browser moves by `delta`; swup has not looked at the event yet. */
  function Moved(s: Session, delta: int): (r: Session)
    requires s.WellFormed() && 0 <= s.cursor + delta < |s.entries|
    ensures r.WellFormed()
  {
    s.(cursor := s.cursor + delta)
  }

  /** The direction `handlePopState` computes from the index stored in the event's state. */
  function DirectionOf(s: Session): Option<Direction>
    requires s.WellFormed()
  {
    var index := s.entries[s.cursor].IndexOr(0);
    if index != 0 && index != s.index then
      Some(if index - s.index > 0 then Forwards else Backwards)
    else None
  }

  /** The part of `handlePopState` that follows the stored index. */
  function Followed(s: Session): (r: Session)
    requires s.WellFormed()
    ensures r.WellFormed() && r.Address() == s.Address()
  {
    var index := s.entries[s.cursor].IndexOr(0);
    if index != 0 && index != s.index then s.(index := index) else s
  }

  /**
   * A new instance is constructed on the current record: it takes the index stored there, or else 1,
   * and writes it back unless the record is swup's own.
   */
  function Rebooted(s: Session): (r: Session)
    requires s.WellFormed()
    ensures r.WellFormed() && r.Address() == s.Address()
  {
    var entry := s.entries[s.cursor];
    var index := entry.IndexOr(1);
    var signed := if entry.ours then entry else Entry(entry.address, Some(index), true);
    Session(s.entries[s.cursor := signed], s.cursor, index)
  }

  /** Indices count up along the stack and the current record's index is swup's index. */
  ghost predicate InStep(s: Session) {
    && s.WellFormed()
    && s.entries[0].IndexOr(0) >= 1
    && (forall k | 0 <= k < |s.entries| :: InPlace(s.entries[k], s.entries[0].IndexOr(0) + k))
    && InPlace(s.entries[s.cursor], s.index)
  }

  predicate InPlace(entry: Entry, index: int) {
    entry.ours && entry.index == Some(index)
  }

  lemma PushInStep(s: Session, to: Location)
    requires InStep(s)
    ensures InStep(Push(s, to))
  {}

  lemma UpdateInStep(s: Session, to: Location)
    requires InStep(s)
    ensures InStep(Update(s, to))
  {}

  /** A traversal by `delta` is seen as exactly `delta` indices, and following it stays in step. */
  lemma TraversalInStep(s: Session, delta: int)
    requires InStep(s) && 0 <= s.cursor + delta < |s.entries|
    ensures InStep(Followed(Moved(s, delta)))
    ensures Followed(Moved(s, delta)).index - s.index == delta
    ensures DirectionOf(Moved(s, delta))
         == (if delta == 0 then None else Some(if delta > 0 then Forwards else Backwards))
  {}

  /** When `handlePopState` returns early, the index stays in step only if nothing moved. */
  lemma SkippedTraversalInStep(s: Session, delta: int)
    requires InStep(s) && 0 <= s.cursor + delta < |s.entries|
    ensures InStep(Moved(s, delta)) <==> delta == 0
  {}

  // ---- What happens to the records ----

  /** A push keeps every record up to the current one as it is, drops the others and adds its own. */
  lemma PushKeepsRecords(s: Session, to: Location)
    requires s.WellFormed()
    ensures var r := Push(s, to);
      && |r.entries| == s.cursor + 2 && r.cursor == s.cursor + 1
      && (forall k | 0 <= k <= s.cursor :: r.entries[k] == s.entries[k])
      && r.entries[s.cursor + 1] == Entry(to, Some(s.index + 1), true) && r.index == s.index + 1
  {}

  /** So back from a pushed page is the page that it was pushed from. */
  lemma PushThenBack(s: Session, to: Location)
    requires s.WellFormed()
    ensures var r := Push(s, to); 0 <= r.cursor - 1 < |r.entries| && Moved(r, -1).Address() == s.Address()
  {
    PushKeepsRecords(s, to);
  }

  /** An update keeps every other record as it is, and the number stored in its own. */
  lemma UpdateKeepsRecords(s: Session, to: Location)
    requires s.WellFormed()
    ensures var r := Update(s, to);
      && |r.entries| == |s.entries| && r.cursor == s.cursor && r.index == s.index
      && (forall k | 0 <= k < |s.entries| && k != s.cursor :: r.entries[k] == s.entries[k])
      && r.entries[s.cursor] == Entry(to, s.entries[s.cursor].index, true)
  {}

  /** A record without an index gives no direction and does not move swup's index. */
  lemma UnnumberedRecordHasNoDirection(s: Session)
    requires s.WellFormed()
    requires s.entries[s.cursor].index.None? || s.entries[s.cursor].index == Some(0)
    ensures DirectionOf(s).None? && Followed(s) == s
  {}

  /** The first document of a session gets the index 1, and it is stored with the record. */
  lemma BootedIsFirst(address: Location)
    ensures Booted(address) == Session([Entry(address, Some(1), true)], 0, 1)
  {}

  // ---- Runs of the history alone, reloads included ----

  datatype Change =
    | Pushed(to: Location)      // a visit that adds a record
    | Updated(to: Location)     // a visit that replaces, an anchor, a redirect
    | Travelled(delta: int)     // back, forward, `history.go`
    | Reloaded                  // the document is loaded again

  function Changed(s: Session, c: Change): (r: Session)
    requires s.WellFormed()
    ensures r.WellFormed()
  {
    match c
    case Pushed(to) => Push(s, to)
    case Updated(to) => Update(s, to)
    case Travelled(delta) => if 0 <= s.cursor + delta < |s.entries| then Followed(Moved(s, delta)) else s
    case Reloaded => Rebooted(s)
  }

  function AfterChanges(s: Session, cs: seq<Change>): (r: Session)
    requires s.WellFormed()
    ensures r.WellFormed()
    decreases |cs|
  {
    if cs == [] then s else AfterChanges(Changed(s, cs[0]), cs[1..])
  }

  /** The first document: one record without any state, to which the constructor gives the index 1. */
  function Booted(address: Location): (r: Session)
    ensures InStep(r) && r.Address() == address
  {
    Rebooted(Session([Entry(address, None, false)], 0, 0))
  }

  lemma {:induction false} ChangesInStep(s: Session, cs: seq<Change>)
    requires InStep(s)
    ensures InStep(AfterChanges(s, cs))
    decreases |cs|
  {
    if cs != [] {
      match cs[0] {
        case Pushed(to) => PushInStep(s, to);
        case Updated(to) => UpdateInStep(s, to);
        case Travelled(delta) =>
          if 0 <= s.cursor + delta < |s.entries| {
            TraversalInStep(s, delta);
          }
        case Reloaded =>
      }
      ChangesInStep(Changed(s, cs[0]), cs[1..]);
    }
  }

  /** The change neither drops the record with number `k` nor writes its address. */
  predicate Spares(s: Session, c: Change, k: nat) {
    match c
    case Pushed(_) => k <= s.cursor
    case Updated(_) => k != s.cursor
    case Travelled(_) => true
    case Reloaded => true
  }

  predicate SparesAll(s: Session, cs: seq<Change>, k: nat)
    requires s.WellFormed()
    decreases |cs|
  {
    cs == [] || (Spares(s, cs[0], k) && SparesAll(Changed(s, cs[0]), cs[1..], k))
  }

  /** A record that is neither dropped nor replaced keeps its address, whatever else happens. */
  lemma {:induction false} SparedRecordsStay(s: Session, cs: seq<Change>, k: nat)
    requires s.WellFormed() && k < |s.entries| && SparesAll(s, cs, k)
    ensures var r := AfterChanges(s, cs); k < |r.entries| && r.entries[k].address == s.entries[k].address
    decreases |cs|
  {
    if cs != [] {
      var t := Changed(s, cs[0]);
      assert k < |t.entries| && t.entries[k].address == s.entries[k].address;
      SparedRecordsStay(t, cs[1..], k);
    }
  }

  /** A new instance on an old record finds the very index that the old instance had. */
  lemma ReloadRestoresIndex(address: Location, cs: seq<Change>)
    ensures var s := AfterChanges(Booted(address), cs); Rebooted(s) == s
  {
    ChangesInStep(Booted(address), cs);
  }

  // ---- The browser side ----

  class BrowserHistory {
    var entries: seq<Entry>
    var cursor: nat

    ghost predicate Valid()
      reads this
    {
      cursor < |entries|
    }

    constructor (session: Session)
      requires session.WellFormed()
      ensures Valid() && entries == session.entries && cursor == session.cursor
    {
      entries := session.entries;
      cursor := session.cursor;
    }

    /** `window.location` */
    function Address(): Location
      requires Valid()
      reads this
    {
      entries[cursor].address
    }

    /** `history.pushState` with the given index in its state. */
    method CreateHistoryRecord(to: Location, index: int)
      requires Valid()
      modifies this
      ensures Valid() && Address() == to
      ensures Session(entries, cursor, index) == Push(Session(old(entries), old(cursor), index - 1), to)
      ensures cursor == old(cursor) + 1 && |entries| == cursor + 1
      ensures forall k | 0 <= k <= old(cursor) :: entries[k] == old(entries)[k]
      ensures entries[cursor] == Entry(to, Some(index), true)
    {
      entries := entries[..cursor + 1] + [Entry(to, Some(index), true)];
      cursor := cursor + 1;
    }

    /** `history.replaceState` with the old state spread into the new one. */
    method UpdateHistoryRecord(to: Location)
      requires Valid()
      modifies this
      ensures Valid() && Address() == to
      ensures forall index :: Session(entries, cursor, index) == Update(Session(old(entries), old(cursor), index), to)
      ensures cursor == old(cursor) && |entries| == |old(entries)|
      ensures forall k | 0 <= k < |entries| && k != cursor :: entries[k] == old(entries)[k]
      ensures entries[cursor] == Entry(to, old(entries)[cursor].index, true)
    {
      entries := entries[cursor := Entry(to, entries[cursor].index, true)];
    }

    /** `updateHistoryRecord(null, { index })`: the address stays, the index is stored. */
    method StoreIndex(index: int)
      requires Valid()
      modifies this
      ensures Valid() && cursor == old(cursor) && Address() == old(Address())
      ensures entries == old(entries)[old(cursor) := Entry(old(Address()), Some(index), true)]
    {
      entries := entries[cursor := Entry(entries[cursor].address, Some(index), true)];
    }

    /** The user moves through the history. */
    method Go(delta: int)
      requires Valid() && 0 <= cursor + delta < |entries|
      modifies this
      ensures Valid() && entries == old(entries) && cursor == old(cursor) + delta
    {
      cursor := cursor + delta;
    }
  }
}
