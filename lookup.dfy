/** The database queries the tier handlers issue: the caregivers of a tier for
    the alert home's resident, the resident's own tier-zero assignment, and
    the tier row that holds a wait time. */
module Lookup {
  import opened Wrappers
  import opened Collections
  import opened Models

  /** `elderly=request.home.elderly`. A home without resident compares the
      key against NULL, which no assignment matches. */
  predicate ForResidentOf(c: Caregiver, a: SensorAlert) {
    a.home.elderly.Some? && c.elderly.id == a.home.elderly.value.id
  }

  /** `elderly=request.home.elderly, level__level=tier`. */
  predicate AtTier(c: Caregiver, a: SensorAlert, tier: int) {
    ForResidentOf(c, a) && c.level.level == tier
  }

  /** `Caregiver.objects.filter(elderly=request.home.elderly, level__level=tier)`:
      exactly the stored assignments of that tier for the alert's resident. */
  function TierAssignments(db: seq<Caregiver>, a: SensorAlert, tier: int): (r: seq<Caregiver>)
    ensures forall c :: c in r <==> c in db && AtTier(c, a, tier)
    ensures UniqueAssignments(db) ==> Distinct(r)
  {
    var p := (c: Caregiver) => AtTier(c, a, tier);
    FilterSpec(db, p);
    UniqueRowsFilterDistinct(db, p);
    Filter(db, p)
  }

  /** Rows with pairwise different (elderly, caregiver) pairs are pairwise
      different, and so is any selection of them: no assignment is returned twice. */
  lemma UniqueRowsFilterDistinct(db: seq<Caregiver>, p: Caregiver -> bool)
    ensures UniqueAssignments(db) ==> Distinct(Filter(db, p))
  {
    if UniqueAssignments(db) {
      assert forall i, j :: 0 <= i < j < |db| ==> AssignmentKey(db[i]) != AssignmentKey(db[j]);
      FilterDistinct(db, p);
    }
  }

  /** No matching row gives an empty result, not an error. */
  lemma TierAssignmentsEmpty(db: seq<Caregiver>, a: SensorAlert, tier: int)
    ensures TierAssignments(db, a, tier) == [] <==> forall i :: 0 <= i < |db| ==> !AtTier(db[i], a, tier)
  {
    FilterEmpty(db, (c: Caregiver) => AtTier(c, a, tier));
  }

  /** A home without a resident has no caregivers at any tier. */
  lemma NoResidentNoCaregivers(db: seq<Caregiver>, a: SensorAlert, tier: int)
    requires a.home.elderly.None?
    ensures TierAssignments(db, a, tier) == []
  {
    TierAssignmentsEmpty(db, a, tier);
  }

  /** Two tiers never select the same assignment for one alert. */
  lemma TiersAreDisjoint(db: seq<Caregiver>, a: SensorAlert, t1: int, t2: int)
    requires t1 != t2
    ensures forall c :: c in TierAssignments(db, a, t1) ==> c !in TierAssignments(db, a, t2)
  {
  }

  /** With the (elderly, caregiver) pair unique, one person is never selected
      at two different tiers for the same alert. */
  lemma OneTierPerCaregiver(db: seq<Caregiver>, a: SensorAlert, t1: int, t2: int, c1: Caregiver, c2: Caregiver)
    requires UniqueAssignments(db)
    requires c1 in TierAssignments(db, a, t1) && c2 in TierAssignments(db, a, t2)
    requires c1.caregiver.id == c2.caregiver.id
    ensures t1 == t2 && c1 == c2
  {
    var i :| 0 <= i < |db| && db[i] == c1;
    var j :| 0 <= j < |db| && db[j] == c2;
    assert AssignmentKey(db[i]) == AssignmentKey(db[j]);
    assert forall a, b :: 0 <= a < b < |db| ==> AssignmentKey(db[a]) != AssignmentKey(db[b]);
  }

  /** The tier-zero condition: the resident is their own caregiver at level 0. */
  predicate IsPrimary(c: Caregiver, a: SensorAlert) {
    ForResidentOf(c, a) && c.caregiver.id == a.home.elderly.value.id && c.level.level == 0
  }

  /** `Caregiver.objects.filter(elderly=e, caregiver=e, level__level=0)` with
      `e` the alert home's resident. */
  function PrimaryAssignments(db: seq<Caregiver>, a: SensorAlert): (r: seq<Caregiver>)
    ensures forall c :: c in r <==> c in db && IsPrimary(c, a)
  {
    var p := (c: Caregiver) => IsPrimary(c, a);
    FilterSpec(db, p);
    Filter(db, p)
  }

  /** The tier-zero lookup as an optional result: the resident's own
      assignment, or `None` when there is none. */
  function PrimaryCaregiver(db: seq<Caregiver>, a: SensorAlert): (r: Option<Caregiver>)
    ensures r.Some? ==> r.value in db && IsPrimary(r.value, a)
    ensures r.None? <==> forall i :: 0 <= i < |db| ==> !IsPrimary(db[i], a)
  {
    var m := PrimaryAssignments(db, a);
    FilterEmpty(db, (c: Caregiver) => IsPrimary(c, a));
    if m == [] then None
    else
      assert m[0] in m;
      Some(m[0])
  }

  /** Because (elderly, caregiver) is unique, the tier-zero query matches at
      most one row, so the optional result loses nothing. */
  lemma PrimaryIsUnique(db: seq<Caregiver>, a: SensorAlert)
    requires UniqueAssignments(db)
    ensures |PrimaryAssignments(db, a)| <= 1
    ensures PrimaryCaregiver(db, a).Some? ==> PrimaryAssignments(db, a) == [PrimaryCaregiver(db, a).value]
  {
    var p := (c: Caregiver) => IsPrimary(c, a);
    if a.home.elderly.Some? {
      var e := a.home.elderly.value.id;
      AtMostOneWithKey(db, AssignmentKey, p, (e, e));
    } else {
      FilterEmpty(db, p);
    }
  }

  /** What `Model.objects.get` raises. */
  datatype LookupError = DoesNotExist | MultipleObjectsReturned

  /** `CaregiverLevel.objects.get(level=l)`. */
  function GetLevel(rows: seq<CaregiverLevel>, l: int): (r: Result<CaregiverLevel, LookupError>)
    ensures r.Success? ==> r.value in rows && r.value.level == l
    ensures r == Failure(DoesNotExist) <==> forall i :: 0 <= i < |rows| ==> rows[i].level != l
    ensures r == Failure(MultipleObjectsReturned) <==> |Filter(rows, (c: CaregiverLevel) => c.level == l)| > 1
  {
    var p := (c: CaregiverLevel) => c.level == l;
    var m := Filter(rows, p);
    FilterSpec(rows, p);
    FilterEmpty(rows, p);
    if m == [] then Failure(DoesNotExist)
    else if |m| > 1 then Failure(MultipleObjectsReturned)
    else
      assert m[0] in m;
      Success(m[0])
  }

  /** With unique levels, `get` finds the row or reports that none exists; it
      never finds two. */
  lemma GetLevelUnique(rows: seq<CaregiverLevel>, l: int)
    requires UniqueLevels(rows)
    ensures GetLevel(rows, l) != Failure(MultipleObjectsReturned)
    ensures GetLevel(rows, l).Success? <==> exists i :: 0 <= i < |rows| && rows[i].level == l
  {
    AtMostOneWithKey(rows, LevelKey, (c: CaregiverLevel) => c.level == l, l);
  }
}
