/** The creations store of `src/utils/storage.js`: one browser-storage slot under the key
    `pixscribe_creations` holding the list of saved creations, most recent first. */
module Creations {
  import opened Base
  import opened JsStrings

  /** A saved creation, as the JSON object it is stored as: field name to value
      (`id`, `timestamp`, `imageUrl`, `prompt`, or whatever the caller put in it). */
  type Record = map<string, string>

  /** What the storage slot yields when it is read:
      Absent      the key is missing (or holds the empty string, which is falsy),
      Unreadable  reading the key or parsing its text throws,
      Holds       the text parses to this list of records. */
  datatype Slot = Absent | Unreadable | Holds(records: seq<Record>)

  /** The `id` of a record, if it has one. */
  function IdOf(c: Record): Option<string> {
    if "id" in c then Some(c["id"]) else None
  }

  /** No two records of the list carry the same id. */
  ghost predicate DistinctIds(list: seq<Record>) {
    forall i, j :: 0 <= i < j < |list| && IdOf(list[i]).Some? ==> IdOf(list[i]) != IdOf(list[j])
  }

  /** No record of the list carries the id `id`. */
  ghost predicate IdUnused(list: seq<Record>, id: string) {
    forall c :: c in list ==> IdOf(c) != Some(id)
  }

  /** The record `saveCreation` builds: an id from the clock reading `now`
      (milliseconds, as `Date.now().toString()`), the ISO time `iso`, and then the
      caller's fields spread over both. */
  function NewRecord(now: nat, iso: string, fields: Record): (r: Record)
    ensures r.Keys == fields.Keys + {"id", "timestamp"}
    ensures forall k :: k in fields ==> r[k] == fields[k]
    ensures "id" !in fields ==> IdOf(r) == Some(DecimalString(now))
    ensures "timestamp" !in fields ==> r["timestamp"] == iso
  {
    map["id" := DecimalString(now), "timestamp" := iso] + fields
  }

  /** `list.filter(c => c.id !== id)`: every record whose id is `id` dropped, the rest
      kept in their order. */
  function Without(list: seq<Record>, id: string): (r: seq<Record>)
    ensures |r| <= |list|
    ensures forall c :: c in r <==> c in list && IdOf(c) != Some(id)
  {
    if list == [] then []
    else if IdOf(list[0]) == Some(id) then Without(list[1..], id)
    else [list[0]] + Without(list[1..], id)
  }

  /** The number of records of the list that carry the id `id`. */
  function CountId(list: seq<Record>, id: string): nat {
    if list == [] then 0 else (if IdOf(list[0]) == Some(id) then 1 else 0) + CountId(list[1..], id)
  }

  /** Filtering distributes over concatenation, so the records that survive keep
      their relative order. */
  lemma {:induction false} WithoutAppend(xs: seq<Record>, ys: seq<Record>, id: string)
    ensures Without(xs + ys, id) == Without(xs, id) + Without(ys, id)
  {
    if xs == [] {
      assert xs + ys == ys;
    } else {
      assert (xs + ys)[0] == xs[0] && (xs + ys)[1..] == xs[1..] + ys;
      WithoutAppend(xs[1..], ys, id);
    }
  }

  /** Deleting removes exactly as many records as carry the id. */
  lemma {:induction false} WithoutLength(list: seq<Record>, id: string)
    ensures |Without(list, id)| == |list| - CountId(list, id)
  {
    if list != [] {
      WithoutLength(list[1..], id);
    }
  }

  /** Deleting an id no record carries leaves the list as it is. */
  lemma {:induction false} WithoutAbsent(list: seq<Record>, id: string)
    requires IdUnused(list, id)
    ensures Without(list, id) == list
  {
    if list != [] {
      assert list[0] in list;
      assert forall c :: c in list[1..] ==> c in list;
      WithoutAbsent(list[1..], id);
    }
  }

  /** When ids are distinct, an id that is present is carried by exactly one record,
      so deleting it shortens the list by exactly one. */
  lemma {:induction false} WithoutPresentDistinct(list: seq<Record>, id: string)
    requires DistinctIds(list)
    requires !IdUnused(list, id)
    ensures |Without(list, id)| == |list| - 1
  {
    CountIdDistinct(list, id);
    WithoutLength(list, id);
  }

  lemma {:induction false} CountIdDistinct(list: seq<Record>, id: string)
    requires DistinctIds(list)
    requires !IdUnused(list, id)
    ensures CountId(list, id) == 1
  {
    assert list != [];
    var tail := list[1..];
    assert DistinctIds(tail) by {
      forall i, j | 0 <= i < j < |tail| && IdOf(tail[i]).Some?
        ensures IdOf(tail[i]) != IdOf(tail[j])
      {
        assert tail[i] == list[i + 1] && tail[j] == list[j + 1];
      }
    }
    if IdOf(list[0]) == Some(id) {
      forall c | c in tail ensures IdOf(c) != Some(id) {
        var j :| 0 <= j < |tail| && tail[j] == c;
        assert list[j + 1] == c;
      }
      CountIdAbsent(tail, id);
    } else {
      assert !IdUnused(tail, id) by {
        var c :| c in list && IdOf(c) == Some(id);
        assert c != list[0];
        var j :| 0 <= j < |list| && list[j] == c;
        assert tail[j - 1] == c;
      }
      CountIdDistinct(tail, id);
    }
  }

  lemma {:induction false} CountIdAbsent(list: seq<Record>, id: string)
    requires IdUnused(list, id)
    ensures CountId(list, id) == 0
  {
    if list != [] {
      assert list[0] in list;
      assert forall c :: c in list[1..] ==> c in list;
      CountIdAbsent(list[1..], id);
    }
  }

  /** Deleting keeps the ids distinct. */
  lemma {:induction false} WithoutKeepsDistinct(list: seq<Record>, id: string)
    requires DistinctIds(list)
    ensures DistinctIds(Without(list, id))
  {
    if list != [] {
      var tail := list[1..];
      assert DistinctIds(tail) by {
        forall i, j | 0 <= i < j < |tail| && IdOf(tail[i]).Some?
          ensures IdOf(tail[i]) != IdOf(tail[j])
        {
          assert tail[i] == list[i + 1] && tail[j] == list[j + 1];
        }
      }
      WithoutKeepsDistinct(tail, id);
      if IdOf(list[0]) != Some(id) && IdOf(list[0]).Some? {
        forall c | c in Without(tail, id) ensures IdOf(c) != IdOf(list[0]) {
          var j :| 0 <= j < |tail| && tail[j] == c;
          assert list[j + 1] == c;
        }
        PrependKeepsDistinct(list[0], Without(tail, id));
      }
    }
  }

  /** Putting a record whose id is new in front of a list with distinct ids keeps them distinct. */
  lemma PrependKeepsDistinct(c: Record, list: seq<Record>)
    requires DistinctIds(list)
    requires IdOf(c).Some? ==> IdUnused(list, IdOf(c).value)
    ensures DistinctIds([c] + list)
  {
    var r := [c] + list;
    forall i, j | 0 <= i < j < |r| && IdOf(r[i]).Some? ensures IdOf(r[i]) != IdOf(r[j]) {
      if i == 0 {
        assert r[j] in list;
      } else {
        assert r[i] == list[i - 1] && r[j] == list[j - 1];
      }
    }
  }

  /** With a clock reading that no stored record uses as its id, and fields that do not
      supply an id of their own, a save keeps the ids distinct. */
  lemma SaveKeepsDistinct(list: seq<Record>, now: nat, iso: string, fields: Record)
    requires DistinctIds(list)
    requires "id" !in fields
    requires IdUnused(list, DecimalString(now))
    ensures DistinctIds([NewRecord(now, iso, fields)] + list)
  {
    PrependKeepsDistinct(NewRecord(now, iso, fields), list);
  }

  /** Every record of the list carries an id handed out at a clock reading earlier than `now`. */
  ghost predicate IdsIssuedBefore(list: seq<Record>, now: nat) {
    forall c :: c in list ==> exists t: nat :: t < now && IdOf(c) == Some(DecimalString(t))
  }

  /** A clock reading later than every one already used yields an id no record carries. */
  lemma LaterClockIdUnused(list: seq<Record>, now: nat)
    requires IdsIssuedBefore(list, now)
    ensures IdUnused(list, DecimalString(now))
  {
    forall c | c in list ensures IdOf(c) != Some(DecimalString(now)) {
      var t: nat :| t < now && IdOf(c) == Some(DecimalString(t));
      DecimalStringInjective(t, now);
    }
  }

  /** Saves at strictly increasing clock readings keep every id issued before the next
      reading, so within a session the ids stay distinct. */
  lemma SaveKeepsIdsIssuedBefore(list: seq<Record>, now: nat, later: nat, iso: string, fields: Record)
    requires IdsIssuedBefore(list, now)
    requires now < later
    requires "id" !in fields
    ensures IdsIssuedBefore([NewRecord(now, iso, fields)] + list, later)
  {
    var r := [NewRecord(now, iso, fields)] + list;
    forall c | c in r ensures exists t: nat :: t < later && IdOf(c) == Some(DecimalString(t)) {
      if c == r[0] {
        assert IdOf(c) == Some(DecimalString(now));
      } else {
        assert c in list;
        var t: nat :| t < now && IdOf(c) == Some(DecimalString(t));
      }
    }
  }

  /** Deleting the id a save has just handed out gives back the list as it was before
      the save, when that id was not used yet. */
  lemma DeleteUndoesSave(list: seq<Record>, now: nat, iso: string, fields: Record)
    requires "id" !in fields
    requires IdUnused(list, DecimalString(now))
    ensures Without([NewRecord(now, iso, fields)] + list, DecimalString(now)) == list
  {
    var r := [NewRecord(now, iso, fields)] + list;
    assert r[1..] == list;
    WithoutAbsent(list, DecimalString(now));
  }

  /** The browser-storage slot of the store, and the four operations of storage.js over it. */
  class CreationsStore {
    var slot: Slot

    constructor (initial: Slot)
      ensures slot == initial
    {
      slot := initial;
    }

    /** The list `getCreations` yields for the current slot. */
    function Creations(): seq<Record>
      reads this
    {
      if slot.Holds? then slot.records else []
    }

    /** `getCreations`: the stored list, or the empty list when nothing is stored or
        reading fails; it never throws. */
    method GetCreations() returns (r: seq<Record>)
      ensures slot.Holds? ==> r == slot.records
      ensures !slot.Holds? ==> r == []
      ensures r == Creations()
    {
      match slot
      case Holds(records) => r := records;
      case Absent => r := [];
      case Unreadable => r := [];
    }

    /** `localStorage.setItem(STORAGE_KEY, JSON.stringify(records))`; `writeSucceeds`
        says whether it returned or threw (for instance, the quota was exceeded). */
    method SetItem(records: seq<Record>, writeSucceeds: bool) returns (ok: bool)
      modifies this
      ensures ok == writeSucceeds
      ensures slot == if ok then Holds(records) else old(slot)
    {
      if writeSucceeds {
        slot := Holds(records);
      }
      ok := writeSucceeds;
    }

    /** `saveCreation(fields)` at clock reading `now` and ISO time `iso`: the new record in
        front of the stored list, written back; true on success, and on a failed write
        false with the slot as it was. */
    method SaveCreation(fields: Record, now: nat, iso: string, writeSucceeds: bool) returns (ok: bool)
      modifies this
      ensures ok == writeSucceeds
      ensures ok ==> slot == Holds([NewRecord(now, iso, fields)] + old(Creations()))
      ensures ok ==> |Creations()| == |old(Creations())| + 1 && Creations()[1..] == old(Creations())
      ensures !ok ==> slot == old(slot)
    {
      var creations := GetCreations();
      var newCreation := NewRecord(now, iso, fields);
      creations := [newCreation] + creations;
      ok := SetItem(creations, writeSucceeds);
    }

    /** `deleteCreation(id)`: the stored list filtered to the records whose id is not
        `id`, written back; true on success, even when no record had that id. */
    method DeleteCreation(id: string, writeSucceeds: bool) returns (ok: bool)
      modifies this
      ensures ok == writeSucceeds
      ensures ok ==> slot == Holds(Without(old(Creations()), id))
      ensures ok && IdUnused(old(Creations()), id) ==> Creations() == old(Creations())
      ensures !ok ==> slot == old(slot)
    {
      var creations := GetCreations();
      var filtered := Without(creations, id);
      WithoutAbsentWhenUnused(creations, id);
      ok := SetItem(filtered, writeSucceeds);
    }

    /** `clearAllCreations()`: the key removed, so every later read yields the empty list;
        `removeSucceeds` says whether `removeItem` returned or threw. */
    method ClearAllCreations(removeSucceeds: bool) returns (ok: bool)
      modifies this
      ensures ok == removeSucceeds
      ensures ok ==> slot == Absent && Creations() == []
      ensures !ok ==> slot == old(slot)
    {
      if removeSucceeds {
        slot := Absent;
      }
      ok := removeSucceeds;
    }
  }

  lemma WithoutAbsentWhenUnused(list: seq<Record>, id: string)
    ensures IdUnused(list, id) ==> Without(list, id) == list
  {
    if IdUnused(list, id) {
      WithoutAbsent(list, id);
    }
  }
}
