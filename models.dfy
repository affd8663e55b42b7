/** The records stored by the alerting application (api/models.py): people,
    caregiver tiers, caregiver assignments, homes, sensor alerts and the
    notifications sent for them, with the defaults and uniqueness
    constraints the schema declares and the text their `__str__` produces.
    A table is a sequence of rows; a foreign key holds the referenced row. */
module Models {
  import opened Wrappers
  import opened Collections
  import opened Decimal

  datatype Person = Person(id: nat, firstName: string, lastName: string, email: string)

  /** `str(person)`: "first last (email)". The opening, the e-mail part
      and the length together fix every character. */
  function PersonStr(p: Person): (r: string)
    ensures StartsWith(r, p.firstName + " " + p.lastName)
    ensures EndsWith(r, " (" + p.email + ")")
    ensures |r| == |p.firstName| + 1 + |p.lastName| + 2 + |p.email| + 1
  {
    var front := p.firstName + " " + p.lastName;
    var r := front + (" (" + p.email + ")");
    Halves(front, " (" + p.email + ")");
    r
  }

  /** The choices of `CaregiverLevel.level`: the four escalation tiers. */
  const LevelChoices: seq<(int, string)> :=
    [(0, "Level 0"), (1, "Level 1"), (2, "Level 2"), (3, "Level 3")]

  /** Default of `CaregiverLevel.wait_time`. */
  const DefaultWaitTime: int := 600

  /** A tier row. The level is meant to be one of `LevelChoices`; the database
      only enforces that no two rows share a level. */
  datatype CaregiverLevel = CaregiverLevel(level: int, waitTime: int)

  /** `CaregiverLevel(level=l)`: a row created without an explicit wait time. */
  function NewCaregiverLevel(level: int): (r: CaregiverLevel)
    ensures r.level == level && r.waitTime == DefaultWaitTime
  {
    CaregiverLevel(level, DefaultWaitTime)
  }

  /** `dict(choices)[key]`: `None` stands for the `KeyError` raised on a
      level outside the choices. A later pair wins, as in `dict`. */
  function ChoiceLabel(choices: seq<(int, string)>, key: int): (r: Option<string>)
    ensures r.None? <==> forall k :: 0 <= k < |choices| ==> choices[k].0 != key
    ensures r.Some? ==> exists k :: 0 <= k < |choices| && choices[k] == (key, r.value)
  {
    if choices == [] then None
    else match ChoiceLabel(choices[1..], key)
      case Some(later) => Some(later)
      case None => if choices[0].0 == key then Some(choices[0].1) else None
  }

  /** The label of the last pair with the key is found. */
  lemma {:induction false} ChoiceLabelFound(choices: seq<(int, string)>, key: int, i: nat)
    requires i < |choices| && choices[i].0 == key
    requires forall k :: i < k < |choices| ==> choices[k].0 != key
    ensures ChoiceLabel(choices, key) == Some(choices[i].1)
  {
    if i == 0 {
      ChoiceLabelMissing(choices[1..], key);
    } else {
      ChoiceLabelFound(choices[1..], key, i - 1);
    }
  }

  /** Looking up a key that no pair has raises. */
  lemma {:induction false} ChoiceLabelMissing(choices: seq<(int, string)>, key: int)
    requires forall k :: 0 <= k < |choices| ==> choices[k].0 != key
    ensures ChoiceLabel(choices, key) == None
  {
    if choices != [] {
      ChoiceLabelMissing(choices[1..], key);
    }
  }

  /** `str(level_row)`: "Level n" for a level among the choices, and a
      `KeyError` (here `None`) for any other stored level. */
  function CaregiverLevelStr(c: CaregiverLevel): (r: Option<string>)
    ensures r.Some? <==> 0 <= c.level <= 3
    ensures r.Some? ==> r.value == "Level " + NatToDecimal(c.level)
  {
    var l := c.level;
    if 0 <= l <= 3 then
      ChoiceLabelFound(LevelChoices, l, l);
      assert LevelChoices[l].1 == "Level " + NatToDecimal(l);
      ChoiceLabel(LevelChoices, l)
    else
      ChoiceLabelMissing(LevelChoices, l);
      ChoiceLabel(LevelChoices, l)
  }

  /** One caregiver assignment: `caregiver` looks after `elderly` at tier `level`. */
  datatype Caregiver = Caregiver(id: nat, elderly: Person, caregiver: Person, level: CaregiverLevel)

  /** `str(assignment)`: "Caregiver: <caregiver> - Elderly: <elderly> -
      Level: Level n"; it raises, like the level's `__str__`, when the level
      has no label. The three parts and the length fix every character. */
  function CaregiverStr(c: Caregiver): (r: Option<string>)
    ensures r.Some? <==> 0 <= c.level.level <= 3
    ensures r.Some? ==> StartsWith(r.value, "Caregiver: " + PersonStr(c.caregiver) + " - Elderly: ")
    ensures r.Some? ==> OccursAt(r.value, PersonStr(c.elderly), |"Caregiver: " + PersonStr(c.caregiver) + " - Elderly: "|)
    ensures r.Some? ==> EndsWith(r.value, " - Level: " + ("Level " + NatToDecimal(c.level.level)))
    ensures r.Some? ==> |r.value| == 11 + |PersonStr(c.caregiver)| + 12 + |PersonStr(c.elderly)|
                                     + 10 + 6 + |NatToDecimal(c.level.level)|
  {
    match CaregiverLevelStr(c.level)
    case None => None
    case Some(levelText) =>
      var front := "Caregiver: " + PersonStr(c.caregiver) + " - Elderly: ";
      var r := front + PersonStr(c.elderly) + (" - Level: " + levelText);
      ConcatParts(front, PersonStr(c.elderly), " - Level: " + levelText);
      Some(r)
  }

  /** A monitored home; its elderly resident is optional (the key is set to
      null when the person is deleted). */
  datatype Home = Home(home: string, elderly: Option<Person>)

  /** How `str` spells a home's resident: Python prints a missing one as "None". */
  function ResidentStr(elderly: Option<Person>): string {
    match elderly
    case None => "None"
    case Some(p) => PersonStr(p)
  }

  /** `str(home)`: "Home: <home> - Elderly: <resident>". The opening, the
      resident's text and the length fix every character. */
  function HomeStr(h: Home): (r: string)
    ensures StartsWith(r, "Home: " + h.home + " - Elderly: ")
    ensures h.elderly.None? ==> EndsWith(r, "None")
    ensures h.elderly.Some? ==> EndsWith(r, PersonStr(h.elderly.value))
    ensures |r| == 6 + |h.home| + 12 + |ResidentStr(h.elderly)|
  {
    var front := "Home: " + h.home + " - Elderly: ";
    Halves(front, ResidentStr(h.elderly));
    front + ResidentStr(h.elderly)
  }

  /** A hazardous-condition alert. The reading's time and value are kept as
      the text they format to. */
  datatype SensorAlert = SensorAlert(
    id: nat, subject: string, start: string, location: string,
    state: string, measurable: string, home: Home, isResolved: bool)

  /** `str(alert)` is the text of its home. */
  function SensorAlertStr(a: SensorAlert): (r: string)
    ensures StartsWith(r, "Home: " + a.home.home + " - Elderly: ")
    ensures a.home.elderly.None? ==> EndsWith(r, "None")
    ensures a.home.elderly.Some? ==> EndsWith(r, PersonStr(a.home.elderly.value))
    ensures |r| == 6 + |a.home.home| + 12 + |ResidentStr(a.home.elderly)|
  {
    HomeStr(a.home)
  }

  /** `SensorAlert.objects.create(...)` without `is_resolved`: unresolved. */
  function NewSensorAlert(id: nat, subject: string, start: string, location: string,
                          state: string, measurable: string, home: Home): (r: SensorAlert)
    ensures !r.isResolved && r.home == home && r.id == id
  {
    SensorAlert(id, subject, start, location, state, measurable, home, false)
  }

  /** The record that correlates one sent message with its confirmation. */
  datatype Notification = Notification(
    caregiver: Caregiver, sensorAlert: SensorAlert, token: string, hasAccepted: bool)

  /** A notification created without `has_accepted`: not yet accepted. */
  function NewNotification(c: Caregiver, a: SensorAlert, token: string): (n: Notification)
    ensures !n.hasAccepted && n.caregiver == c && n.sensorAlert == a && n.token == token
  {
    Notification(c, a, token, false)
  }

  // ---------------------------------------------------------------------
  // Uniqueness constraints

  /** No two rows of the table agree on `key`. */
  ghost predicate UniqueOn<T, K>(rows: seq<T>, key: T -> K) {
    forall i, j :: 0 <= i < j < |rows| ==> key(rows[i]) != key(rows[j])
  }

  /** An error raised by the database when an insert would break a constraint. */
  datatype IntegrityError = UniqueViolation

  /** Inserting a row into a table with a unique key: refused when a stored
      row already has that key, appended otherwise. */
  function InsertUnique<T, K(==)>(rows: seq<T>, row: T, key: T -> K): (r: Result<seq<T>, IntegrityError>)
    ensures r.Failure? <==> exists i :: 0 <= i < |rows| && key(rows[i]) == key(row)
    ensures r.Success? ==> r.value == rows + [row]
    ensures r.Success? && UniqueOn(rows, key) ==> UniqueOn(r.value, key)
  {
    if exists i :: 0 <= i < |rows| && key(rows[i]) == key(row) then Failure(UniqueViolation)
    else Success(rows + [row])
  }

  /** The keys of the four constrained tables. */
  function PersonNameKey(p: Person): (string, string) { (p.firstName, p.lastName) }
  function LevelKey(c: CaregiverLevel): int { c.level }
  function AssignmentKey(c: Caregiver): (nat, nat) { (c.elderly.id, c.caregiver.id) }
  function TokenKey(n: Notification): string { n.token }

  /** The constraints of a consistent database. */
  ghost predicate UniqueLevels(rows: seq<CaregiverLevel>) { UniqueOn(rows, LevelKey) }
  ghost predicate UniqueAssignments(rows: seq<Caregiver>) { UniqueOn(rows, AssignmentKey) }
  ghost predicate UniqueTokens(rows: seq<Notification>) { UniqueOn(rows, TokenKey) }
  ghost predicate UniquePersonNames(rows: seq<Person>) { UniqueOn(rows, PersonNameKey) }

  /** Under a unique key, a query whose condition fixes the key selects at most one row. */
  lemma {:induction false} AtMostOneWithKey<T, K>(rows: seq<T>, key: T -> K, p: T -> bool, k: K)
    requires UniqueOn(rows, key)
    requires forall x :: p(x) ==> key(x) == k
    ensures |Filter(rows, p)| <= 1
  {
    if rows != [] {
      var tail := rows[1..];
      assert UniqueOn(tail, key) by {
        forall i, j | 0 <= i < j < |tail| ensures key(tail[i]) != key(tail[j]) {
          assert tail[i] == rows[i + 1] && tail[j] == rows[j + 1];
        }
      }
      AtMostOneWithKey(tail, key, p, k);
      if p(rows[0]) {
        forall i | 0 <= i < |tail| ensures !p(tail[i]) {
          assert tail[i] == rows[i + 1];
          assert key(rows[0]) != key(rows[i + 1]);
        }
        FilterEmpty(tail, p);
      }
    }
  }
}
