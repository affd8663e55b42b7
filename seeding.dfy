/** Seeding of the tier table after migrations (api/apps.py): the four
    tiers are fetched or created one after the other. */
module Seeding {
  import opened Wrappers
  import opened Models
  import opened Lookup

  /** Some stored row has the level. */
  ghost predicate HasLevel(rows: seq<CaregiverLevel>, l: int) {
    exists i :: 0 <= i < |rows| && rows[i].level == l
  }

  /** The table after `CaregiverLevel.objects.get_or_create(level=l)`: it is
      unchanged when a row has the level, and gains a row with the default
      wait time at the end otherwise. */
  ghost function GetOrCreateRows(rows: seq<CaregiverLevel>, l: int): seq<CaregiverLevel> {
    if HasLevel(rows, l) then rows else rows + [NewCaregiverLevel(l)]
  }

  /** The table after one run of `populate_caregiver_levels` for the sender
      called `senderName`. */
  ghost function AfterPopulate(senderName: string, rows: seq<CaregiverLevel>): seq<CaregiverLevel> {
    if senderName == "api" then Seeded(rows) else rows
  }

  /** Levels 0, 1, 2 and 3 fetched or created in turn. */
  ghost function Seeded(rows: seq<CaregiverLevel>): seq<CaregiverLevel> {
    GetOrCreateRows(GetOrCreateRows(GetOrCreateRows(GetOrCreateRows(rows, 0), 1), 2), 3)
  }

  /** One `get_or_create`: the level is present afterwards, the stored rows
      are kept as they were, an added row has the default wait time, and
      levels stay unique. */
  lemma GetOrCreateFacts(rows: seq<CaregiverLevel>, l: int)
    ensures HasLevel(GetOrCreateRows(rows, l), l)
    ensures forall m :: HasLevel(rows, m) ==> HasLevel(GetOrCreateRows(rows, l), m)
    ensures forall m :: HasLevel(GetOrCreateRows(rows, l), m) ==> HasLevel(rows, m) || m == l
    ensures GetOrCreateRows(rows, l)[..|rows|] == rows
    ensures forall i :: |rows| <= i < |GetOrCreateRows(rows, l)| ==> GetOrCreateRows(rows, l)[i] == NewCaregiverLevel(l)
    ensures UniqueLevels(rows) ==> UniqueLevels(GetOrCreateRows(rows, l))
  {
    var r := GetOrCreateRows(rows, l);
    if !HasLevel(rows, l) {
      assert r[|rows|].level == l;
      forall m | HasLevel(rows, m) ensures HasLevel(r, m) {
        var i :| 0 <= i < |rows| && rows[i].level == m;
        assert r[i] == rows[i];
      }
      forall m | HasLevel(r, m) ensures HasLevel(rows, m) || m == l {
        var i :| 0 <= i < |r| && r[i].level == m;
        if i < |rows| { assert rows[i] == r[i]; }
      }
    }
  }

  /** The create path of `get_or_create` is the insert the unique level
      constraint accepts, and it is taken exactly when that insert would be
      accepted, so fetching or creating a level never raises an integrity error. */
  lemma GetOrCreateIsAcceptedInsert(rows: seq<CaregiverLevel>, l: int)
    ensures InsertUnique(rows, NewCaregiverLevel(l), LevelKey).Success? <==> !HasLevel(rows, l)
    ensures !HasLevel(rows, l) ==> InsertUnique(rows, NewCaregiverLevel(l), LevelKey) == Success(GetOrCreateRows(rows, l))
  {
    var row := NewCaregiverLevel(l);
    assert LevelKey(row) == l;
    assert forall i :: 0 <= i < |rows| ==> LevelKey(rows[i]) == rows[i].level;
  }

  /** After seeding, every tier has a row. */
  lemma SeededHasAllLevels(rows: seq<CaregiverLevel>)
    ensures forall l :: 0 <= l <= 3 ==> HasLevel(Seeded(rows), l)
  {
    var r0 := GetOrCreateRows(rows, 0);
    var r1 := GetOrCreateRows(r0, 1);
    var r2 := GetOrCreateRows(r1, 2);
    GetOrCreateFacts(rows, 0);
    GetOrCreateFacts(r0, 1);
    GetOrCreateFacts(r1, 2);
    GetOrCreateFacts(r2, 3);
  }

  /** `more` keeps `rows` in place and adds only rows with the default wait
      time and a level among the choices. */
  ghost predicate Extends(rows: seq<CaregiverLevel>, more: seq<CaregiverLevel>) {
    && |rows| <= |more| && more[..|rows|] == rows
    && forall i :: |rows| <= i < |more| ==> more[i].waitTime == DefaultWaitTime && 0 <= more[i].level <= 3
  }

  lemma ExtendsTrans(a: seq<CaregiverLevel>, b: seq<CaregiverLevel>, c: seq<CaregiverLevel>)
    requires Extends(a, b) && Extends(b, c)
    ensures Extends(a, c)
  {
    forall i | |a| <= i < |c| ensures c[i].waitTime == DefaultWaitTime && 0 <= c[i].level <= 3 {
      if i < |b| { assert c[i] == b[i]; }
    }
    assert c[..|a|] == b[..|a|];
  }

  /** One `get_or_create` of a level among the choices extends the table. */
  lemma GetOrCreateExtends(rows: seq<CaregiverLevel>, l: int)
    requires 0 <= l <= 3
    ensures Extends(rows, GetOrCreateRows(rows, l))
  {
    GetOrCreateFacts(rows, l);
  }

  /** Seeding keeps the rows already stored, unchanged and in place, and
      what it adds has the default wait time and a level among the choices. */
  lemma SeededKeepsRows(rows: seq<CaregiverLevel>)
    ensures |rows| <= |Seeded(rows)| && Seeded(rows)[..|rows|] == rows
    ensures forall i :: |rows| <= i < |Seeded(rows)| ==>
      Seeded(rows)[i].waitTime == DefaultWaitTime && 0 <= Seeded(rows)[i].level <= 3
  {
    var r0 := GetOrCreateRows(rows, 0);
    var r1 := GetOrCreateRows(r0, 1);
    var r2 := GetOrCreateRows(r1, 2);
    GetOrCreateExtends(rows, 0);
    GetOrCreateExtends(r0, 1);
    GetOrCreateExtends(r1, 2);
    GetOrCreateExtends(r2, 3);
    ExtendsTrans(rows, r0, r1);
    ExtendsTrans(rows, r1, r2);
    ExtendsTrans(rows, r2, Seeded(rows));
  }

  /** Seeding keeps levels unique. */
  lemma SeededUnique(rows: seq<CaregiverLevel>)
    requires UniqueLevels(rows)
    ensures UniqueLevels(Seeded(rows))
  {
    var r0 := GetOrCreateRows(rows, 0);
    var r1 := GetOrCreateRows(r0, 1);
    var r2 := GetOrCreateRows(r1, 2);
    GetOrCreateFacts(rows, 0);
    GetOrCreateFacts(r0, 1);
    GetOrCreateFacts(r1, 2);
    GetOrCreateFacts(r2, 3);
  }

  /** Seeding twice gives the same table as seeding once. */
  lemma SeededIdempotent(rows: seq<CaregiverLevel>)
    ensures Seeded(Seeded(rows)) == Seeded(rows)
  {
    var s := Seeded(rows);
    SeededHasAllLevels(rows);
    assert GetOrCreateRows(s, 0) == s;
    assert GetOrCreateRows(s, 1) == s;
    assert GetOrCreateRows(s, 2) == s;
    assert GetOrCreateRows(s, 3) == s;
  }

  /** The signal handler does nothing for another application's migrations. */
  lemma OtherSenderUnchanged(senderName: string, rows: seq<CaregiverLevel>)
    requires senderName != "api"
    ensures AfterPopulate(senderName, rows) == rows
  {
  }

  /** The tier table in the database. Its rows never share a level. */
  class LevelTable {
    var rows: seq<CaregiverLevel>

    ghost predicate Valid()
      reads this
    {
      UniqueLevels(rows)
    }

    constructor (rows: seq<CaregiverLevel>)
      requires UniqueLevels(rows)
      ensures Valid() && this.rows == rows
    {
      this.rows := rows;
    }

    /** `CaregiverLevel.objects.get_or_create(level=l)`: the row with the level
        and whether it had to be created. */
    method GetOrCreate(l: int) returns (obj: CaregiverLevel, created: bool)
      requires Valid()
      modifies this
      ensures Valid()
      ensures rows == GetOrCreateRows(old(rows), l)
      ensures obj in rows && obj.level == l
      ensures created <==> !HasLevel(old(rows), l)
      ensures created ==> obj == NewCaregiverLevel(l)
      ensures !created ==> obj in old(rows)
    {
      var found := GetLevel(rows, l);
      GetLevelUnique(rows, l);
      GetOrCreateFacts(rows, l);
      if found.Success? {
        obj, created := found.value, false;
      } else {
        obj := NewCaregiverLevel(l);
        rows := rows + [obj];
        created := true;
      }
    }

    /** `populate_caregiver_levels(sender)`: four `get_or_create` calls when
        the sender is the `api` application, nothing otherwise. */
    method PopulateCaregiverLevels(senderName: string)
      requires Valid()
      modifies this
      ensures Valid()
      ensures rows == AfterPopulate(senderName, old(rows))
    {
      if senderName == "api" {
        var _, _ := GetOrCreate(0);
        var _, _ := GetOrCreate(1);
        var _, _ := GetOrCreate(2);
        var _, _ := GetOrCreate(3);
      }
    }
  }
}
