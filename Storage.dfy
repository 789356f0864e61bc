/**
 * backend/storage.py: the robot registry kept as a JSON list of records,
 * loaded once and rewritten after every change.
 */
module Storage {
  import opened Wrappers
  import opened Models

  /** One stored robot as it sits in the JSON file; `lastSeen` is the stored text. */
  datatype Record = Record(
    id: string,
    name: string,
    model: string,
    role: string,
    comPort: string,
    hasCalibration: bool,
    calibration: Option<Calibration>,
    lastSeen: Option<string>)

  /** What the data file held when the store was opened. */
  datatype FileState =
    | Missing                              // no file
    | Corrupt                              // the file exists but does not parse
    | Parsed(robots: Option<seq<Record>>)  // a JSON object, with or without a "robots" list

  /** `_load` followed by `get("robots", [])`: the records the store starts from. */
  function Load(file: FileState): (robots: seq<Record>)
    ensures file.Missing? || file.Corrupt? ==> robots == []
    ensures file.Parsed? && file.robots.Some? ==> robots == file.robots.value
  {
    match file
    case Parsed(Some(rs)) => rs
    case _ => []
  }

  /**
   * `_parse_datetime`: no value or an empty one is None, and so is text that
   * `datetime.fromisoformat` (the predicate `isIso`) rejects.
   */
  function ParseDatetime(value: Option<string>, isIso: string -> bool): (r: Option<string>)
    ensures r.Some? <==> value.Some? && value.value != "" && isIso(value.value)
    ensures r.Some? ==> r == value
  {
    if value.None? || value.value == "" then None
    else if isIso(value.value) then value
    else None
  }

  /** `_to_robot`: the API view of a record, "offline" until the port monitor says otherwise. */
  function ToRobot(rec: Record, isIso: string -> bool): (r: Robot)
    ensures r.id == rec.id && r.name == rec.name && r.model == rec.model && r.role == rec.role
    ensures r.comPort == rec.comPort && r.status == DefaultStatus
    ensures r.hasCalibration == rec.hasCalibration && r.calibration == rec.calibration
    ensures r.lastSeen == ParseDatetime(rec.lastSeen, isIso)
  {
    Robot(rec.id, rec.name, rec.model, rec.role, rec.comPort, DefaultStatus,
          rec.hasCalibration, rec.calibration, ParseDatetime(rec.lastSeen, isIso))
  }

  /** The record `add` creates: the payload's fields, no calibration and never seen. */
  function NewRecord(payload: RobotCreate, id: string): (rec: Record)
    ensures rec.id == id && rec.name == payload.name && rec.model == payload.model
    ensures rec.role == payload.role && rec.comPort == payload.comPort
    ensures !rec.hasCalibration && rec.calibration.None? && rec.lastSeen.None?
  {
    Record(id, payload.name, payload.model, payload.role, payload.comPort, false, None, None)
  }

  /** The position of the first record with `id`, if any. */
  function FirstIndex(robots: seq<Record>, id: string): (r: Option<nat>)
    ensures r.Some? ==> r.value < |robots| && robots[r.value].id == id
    ensures forall j :: 0 <= j < |robots| && (r.None? || j < r.value) ==> robots[j].id != id
  {
    if robots == [] then None
    else if robots[0].id == id then Some(0)
    else match FirstIndex(robots[1..], id)
      case None => None
      case Some(i) => Some(i + 1)
  }

  /** The records whose id differs from `id`, in stored order. */
  function Without(robots: seq<Record>, id: string): (r: seq<Record>)
    ensures |r| <= |robots|
    ensures forall x :: x in r ==> x in robots && x.id != id
    ensures forall x :: x in robots && x.id != id ==> x in r
    ensures |r| == |robots| <==> FirstIndex(robots, id).None?
  {
    if robots == [] then []
    else
      var rest := Without(robots[1..], id);
      assert forall x :: x in robots[1..] ==> x in robots;
      assert forall x :: x in robots && x != robots[0] ==> x in robots[1..];
      if robots[0].id == id then rest else [robots[0]] + rest
  }

  /** Without a match, nothing is filtered out. */
  lemma {:induction false} WithoutNoMatch(robots: seq<Record>, id: string)
    requires FirstIndex(robots, id).None?
    ensures Without(robots, id) == robots
  {
    if robots != [] {
      WithoutNoMatch(robots[1..], id);
      assert [robots[0]] + robots[1..] == robots;
    }
  }

  /**
   * Filtering keeps the relative order of the kept records: filtering a
   * concatenation is the concatenation of the filtered parts.
   */
  lemma {:induction false} WithoutKeepsOrder(a: seq<Record>, b: seq<Record>, id: string)
    ensures Without(a + b, id) == Without(a, id) + Without(b, id)
  {
    if a == [] {
      assert a + b == b;
    } else {
      var ab := a + b;
      assert ab[0] == a[0];
      assert ab[1..] == a[1..] + b;
      WithoutKeepsOrder(a[1..], b, id);
    }
  }

  /** A single record is kept exactly when its id differs. */
  lemma WithoutSingle(x: Record, id: string)
    ensures Without([x], id) == if x.id == id then [] else [x]
  {
    assert [x][1..] == [];
  }

  /** The record after `set_calibration`: calibrated with `cal`; its other fields are kept. */
  function Calibrated(rec: Record, cal: Calibration): (r: Record)
    ensures r.hasCalibration && r.calibration == Some(cal)
    ensures r.(hasCalibration := rec.hasCalibration, calibration := rec.calibration) == rec
  {
    rec.(hasCalibration := true, calibration := Some(cal))
  }

  /** The record after `clear_calibration`: no calibration; its other fields are kept. */
  function Uncalibrated(rec: Record): (r: Record)
    ensures !r.hasCalibration && r.calibration.None?
    ensures r.(hasCalibration := rec.hasCalibration, calibration := rec.calibration) == rec
  {
    rec.(hasCalibration := false, calibration := None)
  }

  /**
   * Clearing undoes setting: a record calibrated and then cleared is the
   * record as a plain clear leaves it, and a record that never had a
   * calibration comes back unchanged.
   */
  lemma ClearUndoesSet(rec: Record, cal: Calibration)
    ensures Uncalibrated(Calibrated(rec, cal)) == Uncalibrated(rec)
    ensures !rec.hasCalibration && rec.calibration.None? ==> Uncalibrated(Calibrated(rec, cal)) == rec
  {
  }

  /** RobotStore: the loaded records and what was last written to the data file. */
  class RobotStore {
    var robots: seq<Record>
    /** The records as last written by `_save`; None until the first write. */
    var persisted: Option<seq<Record>>
    /** `datetime.fromisoformat` succeeding on a text. */
    const isIso: string -> bool

    /** `__init__`: load the file (a missing or corrupt one gives no robots); nothing is written. */
    constructor (file: FileState, isIso: string -> bool)
      ensures robots == Load(file) && persisted.None? && this.isIso == isIso
    {
      robots := Load(file);
      persisted := None;
      this.isIso := isIso;
    }

    /** `list`: every record as a Robot, in stored order. */
    function List(): (r: seq<Robot>)
      reads this
      ensures |r| == |robots|
      ensures forall i :: 0 <= i < |r| ==> r[i] == ToRobot(robots[i], isIso)
    {
      seq(|robots|, i requires 0 <= i < |robots| reads this => ToRobot(robots[i], isIso))
    }

    /** The loop the lookups share: the position of the first record with `id`. */
    method FindFirst(id: string) returns (r: Option<nat>)
      ensures r == FirstIndex(robots, id)
    {
      var i := 0;
      while i < |robots|
        invariant 0 <= i <= |robots|
        invariant forall j :: 0 <= j < i ==> robots[j].id != id
      {
        if robots[i].id == id {
          return Some(i);
        }
        i := i + 1;
      }
      return None;
    }

    /** `get`: the first record with `id`, or None. */
    method Get(id: string) returns (r: Option<Robot>)
      ensures r.Some? <==> FirstIndex(robots, id).Some?
      ensures r.Some? ==> r.value == ToRobot(robots[FirstIndex(robots, id).value], isIso) && r.value.id == id
    {
      var i := FindFirst(id);
      if i.None? {
        return None;
      }
      return Some(ToRobot(robots[i.value], isIso));
    }

    /** `add`: one new record with the fresh id `newId` at the end; the file is rewritten. */
    method Add(payload: RobotCreate, newId: string) returns (r: Robot)
      modifies this`robots, this`persisted
      ensures robots == old(robots) + [NewRecord(payload, newId)]
      ensures persisted == Some(robots)
      ensures r == ToRobot(NewRecord(payload, newId), isIso)
    {
      var rec := NewRecord(payload, newId);
      robots := robots + [rec];
      persisted := Some(robots);
      r := ToRobot(rec, isIso);
    }

    /**
     * `delete`: drops every record with `id`. It reports whether any was
     * dropped, and only then rewrites the file.
     */
    method Delete(id: string) returns (deleted: bool)
      modifies this`robots, this`persisted
      ensures deleted <==> FirstIndex(old(robots), id).Some?
      ensures robots == Without(old(robots), id)
      ensures deleted ==> persisted == Some(robots)
      ensures !deleted ==> robots == old(robots) && persisted == old(persisted)
    {
      var kept := Without(robots, id);
      deleted := |kept| != |robots|;
      if deleted {
        robots := kept;
        persisted := Some(robots);
      } else {
        WithoutNoMatch(robots, id);
      }
    }

    /**
     * `set_calibration`: calibrates the first record with `id` only and
     * returns it; an unknown id returns None and writes nothing.
     */
    method SetCalibration(id: string, cal: Calibration) returns (r: Option<Robot>)
      modifies this`robots, this`persisted
      ensures FirstIndex(old(robots), id).None? ==> r.None? && robots == old(robots) && persisted == old(persisted)
      ensures FirstIndex(old(robots), id).Some? ==>
                var i := FirstIndex(old(robots), id).value;
                robots == old(robots)[i := Calibrated(old(robots)[i], cal)]
                && persisted == Some(robots) && r == Some(ToRobot(robots[i], isIso))
    {
      var i := FindFirst(id);
      if i.None? {
        return None;
      }
      robots := robots[i.value := Calibrated(robots[i.value], cal)];
      persisted := Some(robots);
      return Some(ToRobot(robots[i.value], isIso));
    }

    /**
     * `clear_calibration`: removes the calibration of the first record with
     * `id` only and returns it; an unknown id returns None and writes nothing.
     */
    method ClearCalibration(id: string) returns (r: Option<Robot>)
      modifies this`robots, this`persisted
      ensures FirstIndex(old(robots), id).None? ==> r.None? && robots == old(robots) && persisted == old(persisted)
      ensures FirstIndex(old(robots), id).Some? ==>
                var i := FirstIndex(old(robots), id).value;
                robots == old(robots)[i := Uncalibrated(old(robots)[i])]
                && persisted == Some(robots) && r == Some(ToRobot(robots[i], isIso))
    {
      var i := FindFirst(id);
      if i.None? {
        return None;
      }
      robots := robots[i.value := Uncalibrated(robots[i.value])];
      persisted := Some(robots);
      return Some(ToRobot(robots[i.value], isIso));
    }

    /**
     * `mark_seen`: sets `last_seen` of the first record with `id` to the ISO
     * text `at`; an unknown id changes and writes nothing.
     */
    method MarkSeen(id: string, at: string)
      modifies this`robots, this`persisted
      ensures FirstIndex(old(robots), id).None? ==> robots == old(robots) && persisted == old(persisted)
      ensures FirstIndex(old(robots), id).Some? ==>
                var i := FirstIndex(old(robots), id).value;
                robots == old(robots)[i := old(robots)[i].(lastSeen := Some(at))] && persisted == Some(robots)
    {
      var i := FindFirst(id);
      if i.None? {
        return;
      }
      robots := robots[i.value := robots[i.value].(lastSeen := Some(at))];
      persisted := Some(robots);
    }
  }
}
