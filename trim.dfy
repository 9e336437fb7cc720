/**
 * The trim engine of trim.go (`Trim` and its six DELETE statements) and of
 * its copy cmd/gtfs/commands/trim.go (`trim`): keep only the agency whose
 * name matches a fragment, then delete in a fixed order every row that no
 * longer hangs off what is left.
 *
 * The database is a `Store` holding one sequence per table, the set of
 * tables that exist and the set of kinds whose DELETE statement fails.
 */
module TrimEngine {
  import opened Wrappers
  import opened Text
  import opened Entities

  // ---------------------------------------------------------------------
  // Keys and the one filter every DELETE statement is an instance of
  // ---------------------------------------------------------------------

  /** The values a column takes over a table: `SELECT DISTINCT key FROM rows`. */
  function KeysOf<T>(rows: seq<T>, key: T -> string): set<string> {
    if rows == [] then {} else {key(rows[0])} + KeysOf(rows[1..], key)
  }

  lemma {:induction false} KeysOfSpec<T>(rows: seq<T>, key: T -> string)
    ensures forall i :: 0 <= i < |rows| ==> key(rows[i]) in KeysOf(rows, key)
    ensures forall k :: k in KeysOf(rows, key) ==> exists i :: 0 <= i < |rows| && key(rows[i]) == k
  {
    if rows != [] {
      KeysOfSpec(rows[1..], key);
      forall k | k in KeysOf(rows, key)
        ensures exists i :: 0 <= i < |rows| && key(rows[i]) == k
      {
        if k != key(rows[0]) {
          var i :| 0 <= i < |rows[1..]| && key(rows[1..][i]) == k;
          assert key(rows[i + 1]) == k;
        }
      }
    }
  }

  /**
   * `DELETE FROM rows WHERE key NOT IN (keys)`: the rows whose key is among
   * `keys`, in their order.
   */
  function KeepKeys<T>(rows: seq<T>, key: T -> string, keys: set<string>): seq<T> {
    if rows == [] then []
    else (if key(rows[0]) in keys then [rows[0]] else []) + KeepKeys(rows[1..], key, keys)
  }

  /** The number of rows that DELETE removes: those whose key is not among `keys`. */
  function Dropped<T>(rows: seq<T>, key: T -> string, keys: set<string>): nat {
    if rows == [] then 0
    else (if key(rows[0]) in keys then 0 else 1) + Dropped(rows[1..], key, keys)
  }

  /**
   * What a DELETE keeps: a row stays exactly when its key is among `keys`,
   * nothing is added or duplicated, and the rows kept plus the rows removed
   * are all the rows.
   */
  lemma {:induction false} KeepKeysSpec<T>(rows: seq<T>, key: T -> string, keys: set<string>)
    ensures var kept := KeepKeys(rows, key, keys);
      && (forall i :: 0 <= i < |kept| ==> key(kept[i]) in keys)
      && (forall i :: 0 <= i < |rows| && key(rows[i]) in keys ==> rows[i] in multiset(kept))
      && multiset(kept) <= multiset(rows)
      && |kept| + Dropped(rows, key, keys) == |rows|
  {
    if rows != [] {
      KeepKeysSpec(rows[1..], key, keys);
      var head := if key(rows[0]) in keys then [rows[0]] else [];
      var kept := KeepKeys(rows, key, keys);
      var rest := KeepKeys(rows[1..], key, keys);
      assert kept == head + rest;
      assert rows == [rows[0]] + rows[1..];
      assert multiset(kept) == multiset(head) + multiset(rest);
      assert multiset(rows) == multiset([rows[0]]) + multiset(rows[1..]);
      forall i | 0 <= i < |kept|
        ensures key(kept[i]) in keys
      {
        if i >= |head| {
          assert kept[i] == rest[i - |head|];
        }
      }
      forall i | 0 <= i < |rows| && key(rows[i]) in keys
        ensures rows[i] in multiset(kept)
      {
        if i > 0 {
          assert rows[i] == rows[1..][i - 1];
        }
      }
    }
  }

  // ---------------------------------------------------------------------
  // The tables and the columns the statements read
  // ---------------------------------------------------------------------

  /** The contents of the eight tables. */
  datatype Tables = Tables(
    agencies: seq<Agency>, routes: seq<Route>, trips: seq<Trip>, stopTimes: seq<StopTime>,
    stops: seq<Stop>, shapes: seq<Shape>, calendars: seq<Calendar>, calendarDates: seq<CalendarDate>)

  function AgencyId(a: Agency): string { a.id }
  function RouteId(r: Route): string { r.id }
  function RouteAgency(r: Route): string { r.agencyId }
  function TripId(t: Trip): string { t.id }
  function TripRoute(t: Trip): string { t.routeId }
  function TripShape(t: Trip): string { t.shapeId }
  function StopTimeTrip(s: StopTime): string { s.tripId }
  function StopTimeStop(s: StopTime): string { s.stopId }
  function StopId(s: Stop): string { s.id }
  function ShapeId(s: Shape): string { s.shapeId }

  /** `SELECT COUNT(*)` on the table of a kind. */
  function RowCount(kind: ItemType, t: Tables): nat {
    if kind == Agencies then |t.agencies|
    else if kind == Routes then |t.routes|
    else if kind == Trips then |t.trips|
    else if kind == StopTimes then |t.stopTimes|
    else if kind == Stops then |t.stops|
    else if kind == Shapes then |t.shapes|
    else if kind == Calendars then |t.calendars|
    else if kind == CalendarDates then |t.calendarDates|
    else 0
  }

  /**
   * The DELETE statement of a kind, run on `t` for the agency `agencyId`:
   * agencies other than it; routes of no remaining agency; trips of no
   * remaining route; stop times of no remaining trip; stops no remaining
   * stop time visits; shape points of no remaining trip's shape.
   */
  function Step(kind: ItemType, t: Tables, agencyId: string): Tables {
    if kind == Agencies then t.(agencies := KeepKeys(t.agencies, AgencyId, {agencyId}))
    else if kind == Routes then t.(routes := KeepKeys(t.routes, RouteAgency, KeysOf(t.agencies, AgencyId)))
    else if kind == Trips then t.(trips := KeepKeys(t.trips, TripRoute, KeysOf(t.routes, RouteId)))
    else if kind == StopTimes then t.(stopTimes := KeepKeys(t.stopTimes, StopTimeTrip, KeysOf(t.trips, TripId)))
    else if kind == Stops then t.(stops := KeepKeys(t.stops, StopId, KeysOf(t.stopTimes, StopTimeStop)))
    else if kind == Shapes then t.(shapes := KeepKeys(t.shapes, ShapeId, KeysOf(t.trips, TripShape)))
    else t
  }

  /** `RowsAffected` of the DELETE statement of a kind: the rows it removes. */
  function Affected(kind: ItemType, t: Tables, agencyId: string): nat {
    if kind == Agencies then Dropped(t.agencies, AgencyId, {agencyId})
    else if kind == Routes then Dropped(t.routes, RouteAgency, KeysOf(t.agencies, AgencyId))
    else if kind == Trips then Dropped(t.trips, TripRoute, KeysOf(t.routes, RouteId))
    else if kind == StopTimes then Dropped(t.stopTimes, StopTimeTrip, KeysOf(t.trips, TripId))
    else if kind == Stops then Dropped(t.stops, StopId, KeysOf(t.stopTimes, StopTimeStop))
    else if kind == Shapes then Dropped(t.shapes, ShapeId, KeysOf(t.trips, TripShape))
    else 0
  }

  /** Each statement removes exactly the rows it counts and touches no other table. */
  lemma StepCounts(kind: ItemType, t: Tables, agencyId: string)
    ensures RowCount(kind, Step(kind, t, agencyId)) + Affected(kind, t, agencyId) == RowCount(kind, t)
    ensures forall other: ItemType :: other != kind ==> RowCount(other, Step(kind, t, agencyId)) == RowCount(other, t)
  {
    if kind == Agencies {
      KeepKeysSpec(t.agencies, AgencyId, {agencyId});
    } else if kind == Routes {
      KeepKeysSpec(t.routes, RouteAgency, KeysOf(t.agencies, AgencyId));
    } else if kind == Trips {
      KeepKeysSpec(t.trips, TripRoute, KeysOf(t.routes, RouteId));
    } else if kind == StopTimes {
      KeepKeysSpec(t.stopTimes, StopTimeTrip, KeysOf(t.trips, TripId));
    } else if kind == Stops {
      KeepKeysSpec(t.stops, StopId, KeysOf(t.stopTimes, StopTimeStop));
    } else if kind == Shapes {
      KeepKeysSpec(t.shapes, ShapeId, KeysOf(t.trips, TripShape));
    }
  }

  // ---------------------------------------------------------------------
  // The trim as a whole
  // ---------------------------------------------------------------------

  /** The statements in the order they run; the calendar tables have none. */
  const TrimOrder: seq<ItemType> := [Agencies, Routes, Trips, StopTimes, Stops, Shapes]

  /** The tables that must exist before anything is deleted, in the order they are checked. */
  const RequiredTables: seq<string> :=
    ["agencies", "routes", "trips", "stop_times", "stops", "shapes", "calendars", "calendar_dates"]

  /** The tables after the first `n` statements have run. */
  function StepsDone(t: Tables, n: nat, agencyId: string): Tables
    requires n <= |TrimOrder|
  {
    if n == 0 then t else Step(TrimOrder[n - 1], StepsDone(t, n - 1, agencyId), agencyId)
  }

  /** `TrimItemsResult` without its duration. */
  datatype TrimItemsResult = TrimItemsResult(itemType: ItemType, affected: nat, remaining: nat)

  /** The result map after the first `n` statements: per kind, rows removed and rows left. */
  function ResultsAfter(t: Tables, n: nat, agencyId: string): map<ItemType, TrimItemsResult>
    requires n <= |TrimOrder|
  {
    if n == 0 then map[]
    else
      var kind := TrimOrder[n - 1];
      var before := StepsDone(t, n - 1, agencyId);
      ResultsAfter(t, n - 1, agencyId)[kind := TrimItemsResult(kind, Affected(kind, before, agencyId),
                                                               RowCount(kind, Step(kind, before, agencyId)))]
  }

  /** The position in `TrimOrder`, from `from` on, of the first statement that fails, or its length. */
  function FirstFailing(failing: set<ItemType>, from: nat): (f: nat)
    requires from <= |TrimOrder|
    ensures from <= f <= |TrimOrder|
    ensures forall j :: from <= j < f ==> TrimOrder[j] !in failing
    ensures f < |TrimOrder| ==> TrimOrder[f] in failing
    decreases |TrimOrder| - from
  {
    if from == |TrimOrder| || TrimOrder[from] in failing then from else FirstFailing(failing, from + 1)
  }

  /** The first required table that does not exist. */
  function FirstMissing(required: seq<string>, present: set<string>): (m: Option<string>)
    ensures m.None? <==> forall j :: 0 <= j < |required| ==> required[j] in present
    ensures m.Some? ==> exists j :: 0 <= j < |required| && required[j] == m.value && m.value !in present
                         && forall j' :: 0 <= j' < j ==> required[j'] in present
  {
    if required == [] then None
    else if required[0] !in present then Some(required[0])
    else
      var m := FirstMissing(required[1..], present);
      if m.Some? then
        var j :| 0 <= j < |required[1..]| && required[1..][j] == m.value && m.value !in present
                 && forall j' :: 0 <= j' < j ==> required[1..][j'] in present;
        assert required[j + 1] == m.value;
        m
      else m
  }

  /**
   * `First` on `name LIKE '%like%'`: among the agencies whose name contains
   * the fragment, one with the least id, the order the primary key gives.
   */
  function FirstLike(agencies: seq<Agency>, like: string): Option<Agency> {
    if agencies == [] then None
    else
      var rest := FirstLike(agencies[1..], like);
      if !Contains(agencies[0].name, like) then rest
      else if rest.None? || LexLessEq(agencies[0].id, rest.value.id) then Some(agencies[0])
      else rest
  }

  /**
   * The lookup finds an agency exactly when some name contains the fragment;
   * the one it finds is such an agency and no matching agency has a smaller id.
   */
  lemma {:induction false} FirstLikeSpec(agencies: seq<Agency>, like: string)
    ensures var r := FirstLike(agencies, like);
      && (r.Some? <==> exists i :: 0 <= i < |agencies| && Contains(agencies[i].name, like))
      && (r.Some? ==> r.value in agencies && Contains(r.value.name, like))
      && (r.Some? ==> forall i :: 0 <= i < |agencies| && Contains(agencies[i].name, like)
                                  ==> LexLessEq(r.value.id, agencies[i].id))
  {
    if agencies != [] {
      var tail := agencies[1..];
      FirstLikeSpec(tail, like);
      var rest := FirstLike(tail, like);
      var r := FirstLike(agencies, like);
      forall i | 0 <= i < |agencies| && Contains(agencies[i].name, like)
        ensures r.Some? && LexLessEq(r.value.id, agencies[i].id)
      {
        if i == 0 {
          if r != Some(agencies[0]) {
            LexTotal(agencies[0].id, rest.value.id);
          } else {
            LexTotal(agencies[0].id, agencies[0].id);
          }
        } else {
          assert agencies[i] == tail[i - 1];
          if r == Some(agencies[0]) && rest.Some? {
            LexTransitive(agencies[0].id, rest.value.id, agencies[i].id);
          }
        }
      }
      if rest.Some? && r == rest {
        var i :| 0 <= i < |tail| && Contains(tail[i].name, like);
        assert agencies[i + 1] == tail[i];
      }
    }
  }

  datatype TrimError =
    | MissingTable(table: string)
    | AgencyNotFound(like: string)
    | StepFailed(kind: ItemType)

  /** What `Trim` leaves in the tables and what it returns. */
  datatype TrimRun = TrimRun(tables: Tables, result: Result<map<ItemType, TrimItemsResult>, TrimError>)

  /**
   * `Trim(db, like)`: a missing table or no matching agency return an error
   * before anything is deleted; otherwise the statements run in order, and
   * the first that fails returns its error with the earlier deletions kept.
   */
  function TrimOutcome(t: Tables, present: set<string>, failing: set<ItemType>, like: string): TrimRun {
    var missing := FirstMissing(RequiredTables, present);
    if missing.Some? then TrimRun(t, Failure(MissingTable(missing.value)))
    else
      var agency := FirstLike(t.agencies, like);
      if agency.None? then TrimRun(t, Failure(AgencyNotFound(like)))
      else
        var f := FirstFailing(failing, 0);
        if f < |TrimOrder| then TrimRun(StepsDone(t, f, agency.value.id), Failure(StepFailed(TrimOrder[f])))
        else TrimRun(StepsDone(t, |TrimOrder|, agency.value.id), Success(ResultsAfter(t, |TrimOrder|, agency.value.id)))
  }

  // ---------------------------------------------------------------------
  // What a trim leaves behind
  // ---------------------------------------------------------------------

  /** The six statements one after the other, written out as one cascade. */
  function Trimmed(t: Tables, agencyId: string): Tables {
    var agencies := KeepKeys(t.agencies, AgencyId, {agencyId});
    var routes := KeepKeys(t.routes, RouteAgency, KeysOf(agencies, AgencyId));
    var trips := KeepKeys(t.trips, TripRoute, KeysOf(routes, RouteId));
    var stopTimes := KeepKeys(t.stopTimes, StopTimeTrip, KeysOf(trips, TripId));
    var stops := KeepKeys(t.stops, StopId, KeysOf(stopTimes, StopTimeStop));
    var shapes := KeepKeys(t.shapes, ShapeId, KeysOf(trips, TripShape));
    t.(agencies := agencies, routes := routes, trips := trips, stopTimes := stopTimes, stops := stops, shapes := shapes)
  }

  /** Running all six statements in order is the cascade. */
  lemma StepsDoneAll(t: Tables, agencyId: string)
    ensures StepsDone(t, |TrimOrder|, agencyId) == Trimmed(t, agencyId)
  {
    assert TrimOrder[0] == Agencies && TrimOrder[1] == Routes && TrimOrder[2] == Trips;
    assert TrimOrder[3] == StopTimes && TrimOrder[4] == Stops && TrimOrder[5] == Shapes;
    assert StepsDone(t, 0, agencyId) == t;
    var t1 := StepsDone(t, 1, agencyId);
    assert t1 == Step(Agencies, t, agencyId);
    var t2 := StepsDone(t, 2, agencyId);
    assert t2 == Step(Routes, t1, agencyId);
    var t3 := StepsDone(t, 3, agencyId);
    assert t3 == Step(Trips, t2, agencyId);
    var t4 := StepsDone(t, 4, agencyId);
    assert t4 == Step(StopTimes, t3, agencyId);
    var t5 := StepsDone(t, 5, agencyId);
    assert t5 == Step(Stops, t4, agencyId);
    assert StepsDone(t, 6, agencyId) == Step(Shapes, t5, agencyId);
  }

  /**
   * No row left dangles: every agency has the given id, each route's agency,
   * each trip's route and each stop time's trip remain, each stop is visited
   * by a remaining stop time and each shape point belongs to a remaining
   * trip's shape.
   */
  predicate ReferencesClosed(out: Tables, agencyId: string) {
    && (forall i :: 0 <= i < |out.agencies| ==> out.agencies[i].id == agencyId)
    && (forall i :: 0 <= i < |out.routes| ==> out.routes[i].agencyId in KeysOf(out.agencies, AgencyId))
    && (forall i :: 0 <= i < |out.trips| ==> out.trips[i].routeId in KeysOf(out.routes, RouteId))
    && (forall i :: 0 <= i < |out.stopTimes| ==> out.stopTimes[i].tripId in KeysOf(out.trips, TripId))
    && (forall i :: 0 <= i < |out.stops| ==> out.stops[i].id in KeysOf(out.stopTimes, StopTimeStop))
    && (forall i :: 0 <= i < |out.shapes| ==> out.shapes[i].shapeId in KeysOf(out.trips, TripShape))
  }

  /**
   * Nothing of `t` that hangs off what is left in `out` is missing from it:
   * the agencies with the given id, every route of a remaining agency, every
   * trip of a remaining route, every stop time of a remaining trip, every
   * stop a remaining stop time visits and every point of a remaining trip's
   * shape.
   */
  predicate KeepsReachable(t: Tables, out: Tables, agencyId: string) {
    && (forall i :: 0 <= i < |t.agencies| && t.agencies[i].id == agencyId ==> t.agencies[i] in out.agencies)
    && (forall i :: 0 <= i < |t.routes| && t.routes[i].agencyId in KeysOf(out.agencies, AgencyId)
                    ==> t.routes[i] in out.routes)
    && (forall i :: 0 <= i < |t.trips| && t.trips[i].routeId in KeysOf(out.routes, RouteId)
                    ==> t.trips[i] in out.trips)
    && (forall i :: 0 <= i < |t.stopTimes| && t.stopTimes[i].tripId in KeysOf(out.trips, TripId)
                    ==> t.stopTimes[i] in out.stopTimes)
    && (forall i :: 0 <= i < |t.stops| && t.stops[i].id in KeysOf(out.stopTimes, StopTimeStop)
                    ==> t.stops[i] in out.stops)
    && (forall i :: 0 <= i < |t.shapes| && t.shapes[i].shapeId in KeysOf(out.trips, TripShape)
                    ==> t.shapes[i] in out.shapes)
  }

  /**
   * The cascade keeps exactly what hangs off the agency: nothing left
   * dangles, nothing reachable is deleted, and the calendar tables are as
   * they were.
   */
  lemma TrimmedClosed(t: Tables, agencyId: string)
    ensures var out := Trimmed(t, agencyId);
      && ReferencesClosed(out, agencyId)
      && KeepsReachable(t, out, agencyId)
      && out.calendars == t.calendars && out.calendarDates == t.calendarDates
  {
    var out := Trimmed(t, agencyId);
    assert ReferencesClosed(out, agencyId) by {
      KeptKeys(t.agencies, AgencyId, {agencyId});
      KeptKeys(t.routes, RouteAgency, KeysOf(out.agencies, AgencyId));
      KeptKeys(t.trips, TripRoute, KeysOf(out.routes, RouteId));
      KeptKeys(t.stopTimes, StopTimeTrip, KeysOf(out.trips, TripId));
      KeptKeys(t.stops, StopId, KeysOf(out.stopTimes, StopTimeStop));
      KeptKeys(t.shapes, ShapeId, KeysOf(out.trips, TripShape));
    }
    assert KeepsReachable(t, out, agencyId) by {
      KeptRows(t.agencies, AgencyId, {agencyId});
      KeptRows(t.routes, RouteAgency, KeysOf(out.agencies, AgencyId));
      KeptRows(t.trips, TripRoute, KeysOf(out.routes, RouteId));
      KeptRows(t.stopTimes, StopTimeTrip, KeysOf(out.trips, TripId));
      KeptRows(t.stops, StopId, KeysOf(out.stopTimes, StopTimeStop));
      KeptRows(t.shapes, ShapeId, KeysOf(out.trips, TripShape));
    }
  }

  /** The first half of `KeepKeysSpec` on its own: every kept row has its key in the set. */
  lemma KeptKeys<T>(rows: seq<T>, key: T -> string, keys: set<string>)
    ensures forall i :: 0 <= i < |KeepKeys(rows, key, keys)| ==> key(KeepKeys(rows, key, keys)[i]) in keys
  {
    KeepKeysSpec(rows, key, keys);
  }

  /** The second half of `KeepKeysSpec` on its own: every row whose key is in the set is kept. */
  lemma KeptRows<T>(rows: seq<T>, key: T -> string, keys: set<string>)
    ensures forall i :: 0 <= i < |rows| && key(rows[i]) in keys ==> rows[i] in KeepKeys(rows, key, keys)
  {
    KeepKeysSpec(rows, key, keys);
  }

  /** A statement only deletes: every table is a sub-multiset of what it was. */
  predicate Shrunk(before: Tables, after: Tables) {
    && multiset(after.agencies) <= multiset(before.agencies)
    && multiset(after.routes) <= multiset(before.routes)
    && multiset(after.trips) <= multiset(before.trips)
    && multiset(after.stopTimes) <= multiset(before.stopTimes)
    && multiset(after.stops) <= multiset(before.stops)
    && multiset(after.shapes) <= multiset(before.shapes)
    && after.calendars == before.calendars
    && after.calendarDates == before.calendarDates
  }

  lemma StepShrinks(kind: ItemType, t: Tables, agencyId: string)
    ensures Shrunk(t, Step(kind, t, agencyId))
  {
    if kind == Agencies {
      KeepKeysSpec(t.agencies, AgencyId, {agencyId});
    } else if kind == Routes {
      KeepKeysSpec(t.routes, RouteAgency, KeysOf(t.agencies, AgencyId));
    } else if kind == Trips {
      KeepKeysSpec(t.trips, TripRoute, KeysOf(t.routes, RouteId));
    } else if kind == StopTimes {
      KeepKeysSpec(t.stopTimes, StopTimeTrip, KeysOf(t.trips, TripId));
    } else if kind == Stops {
      KeepKeysSpec(t.stops, StopId, KeysOf(t.stopTimes, StopTimeStop));
    } else if kind == Shapes {
      KeepKeysSpec(t.shapes, ShapeId, KeysOf(t.trips, TripShape));
    }
  }

  /** However many statements have run, the tables have only lost rows and the calendars are untouched. */
  lemma {:induction false} StepsDoneShrinks(t: Tables, n: nat, agencyId: string)
    requires n <= |TrimOrder|
    ensures Shrunk(t, StepsDone(t, n, agencyId))
  {
    if n > 0 {
      StepsDoneShrinks(t, n - 1, agencyId);
      StepShrinks(TrimOrder[n - 1], StepsDone(t, n - 1, agencyId), agencyId);
    }
  }

  /** The six statements are for six different kinds. */
  lemma TrimOrderDistinct()
    ensures forall i, j :: 0 <= i < j < |TrimOrder| ==> TrimOrder[i] != TrimOrder[j]
  {
  }

  /** The table of a kind no statement in positions [m, n) is for keeps its size from m to n. */
  lemma {:induction false} RowCountKept(t: Tables, m: nat, n: nat, agencyId: string, kind: ItemType)
    requires m <= n <= |TrimOrder|
    requires forall j :: m <= j < n ==> TrimOrder[j] != kind
    ensures RowCount(kind, StepsDone(t, n, agencyId)) == RowCount(kind, StepsDone(t, m, agencyId))
    decreases n
  {
    if m < n {
      RowCountKept(t, m, n - 1, agencyId, kind);
      StepCounts(TrimOrder[n - 1], StepsDone(t, n - 1, agencyId), agencyId);
    }
  }

  /**
   * The result map after n statements has one entry per statement run, and
   * the entry of the j-th says what that statement removed from the table
   * as the earlier statements left it and how many rows it left.
   */
  lemma {:induction false} ResultsAfterSpec(t: Tables, n: nat, agencyId: string)
    requires n <= |TrimOrder|
    ensures var r := ResultsAfter(t, n, agencyId);
      && (forall k :: k in r <==> exists j :: 0 <= j < n && TrimOrder[j] == k)
      && (forall j :: 0 <= j < n ==>
            var before := StepsDone(t, j, agencyId);
            r[TrimOrder[j]] == TrimItemsResult(TrimOrder[j], Affected(TrimOrder[j], before, agencyId),
                                               RowCount(TrimOrder[j], StepsDone(t, j + 1, agencyId))))
  {
    if n > 0 {
      ResultsAfterSpec(t, n - 1, agencyId);
      TrimOrderDistinct();
    }
  }

  /**
   * On success the result map holds exactly the six trimmed kinds; for each,
   * the rows removed plus the rows remaining are the rows the table had,
   * and the rows remaining are what the table holds at the end.
   */
  lemma TrimCounts(t: Tables, present: set<string>, failing: set<ItemType>, like: string)
    requires TrimOutcome(t, present, failing, like).result.Success?
    ensures var run := TrimOutcome(t, present, failing, like);
      var r := run.result.value;
      && (forall k :: k in r <==> k in TrimOrder)
      && (forall k :: k in r ==> && r[k].itemType == k
                                 && r[k].affected + r[k].remaining == RowCount(k, t)
                                 && r[k].remaining == RowCount(k, run.tables))
  {
    var id := FirstLike(t.agencies, like).value.id;
    var n := |TrimOrder|;
    var r := ResultsAfter(t, n, id);
    ResultsAfterSpec(t, n, id);
    TrimOrderDistinct();
    forall k | k in r
      ensures && r[k].itemType == k
              && r[k].affected + r[k].remaining == RowCount(k, t)
              && r[k].remaining == RowCount(k, StepsDone(t, n, id))
    {
      var j :| 0 <= j < n && TrimOrder[j] == k;
      RowCountKept(t, 0, j, id, k);
      RowCountKept(t, j + 1, n, id, k);
      StepCounts(k, StepsDone(t, j, id), id);
    }
    forall k | k in TrimOrder
      ensures k in r
    {
      var j :| 0 <= j < n && TrimOrder[j] == k;
    }
  }

  /**
   * On success, the agency kept is one whose name contains the fragment,
   * with the least id among those, every other agency is gone, the
   * references between the remaining rows are closed, and every row that
   * hangs off what is left is still there.
   */
  lemma TrimSucceeds(t: Tables, present: set<string>, failing: set<ItemType>, like: string)
    requires TrimOutcome(t, present, failing, like).result.Success?
    ensures var out := TrimOutcome(t, present, failing, like).tables;
      var agency := FirstLike(t.agencies, like);
      && agency.Some? && agency.value in t.agencies && Contains(agency.value.name, like)
      && (forall i :: 0 <= i < |t.agencies| && Contains(t.agencies[i].name, like)
                      ==> LexLessEq(agency.value.id, t.agencies[i].id))
      && ReferencesClosed(out, agency.value.id)
      && KeepsReachable(t, out, agency.value.id)
      && agency.value in out.agencies
      && Shrunk(t, out)
  {
    var id := FirstLike(t.agencies, like).value.id;
    FirstLikeSpec(t.agencies, like);
    StepsDoneAll(t, id);
    TrimmedClosed(t, id);
    StepsDoneShrinks(t, |TrimOrder|, id);
  }

  /**
   * A trim that fails at a statement reports the first statement that fails,
   * keeps the deletions of the statements before it, and only ever deletes.
   */
  lemma TrimFailsAtStep(t: Tables, present: set<string>, failing: set<ItemType>, like: string, kind: ItemType)
    requires TrimOutcome(t, present, failing, like).result == Failure(StepFailed(kind))
    ensures var out := TrimOutcome(t, present, failing, like).tables;
      var f := FirstFailing(failing, 0);
      && f < |TrimOrder| && TrimOrder[f] == kind && kind in failing
      && (forall j :: 0 <= j < f ==> TrimOrder[j] !in failing)
      && out == StepsDone(t, f, FirstLike(t.agencies, like).value.id)
      && Shrunk(t, out)
  {
    StepsDoneShrinks(t, FirstFailing(failing, 0), FirstLike(t.agencies, like).value.id);
  }

  /** A missing table or an unmatched name is reported before anything is deleted. */
  lemma TrimFailsEarly(t: Tables, present: set<string>, failing: set<ItemType>, like: string)
    ensures var run := TrimOutcome(t, present, failing, like);
      && (run.result.Failure? && !run.result.error.StepFailed? ==> run.tables == t)
      && (run.result == Failure(AgencyNotFound(like)) <==>
            (FirstMissing(RequiredTables, present).None?
             && forall i :: 0 <= i < |t.agencies| ==> !Contains(t.agencies[i].name, like)))
  {
    FirstLikeSpec(t.agencies, like);
  }

  // ---------------------------------------------------------------------
  // The database the statements run against
  // ---------------------------------------------------------------------

  /**
   * The SQL database: the rows of each table, the tables that exist, and the
   * kinds whose DELETE statement the database refuses.
   */
  class Store {
    var agencies: seq<Agency>
    var routes: seq<Route>
    var trips: seq<Trip>
    var stopTimes: seq<StopTime>
    var stops: seq<Stop>
    var shapes: seq<Shape>
    var calendars: seq<Calendar>
    var calendarDates: seq<CalendarDate>
    const present: set<string>
    const failing: set<ItemType>

    constructor (t: Tables, present: set<string>, failing: set<ItemType>)
      ensures Snapshot() == t && this.present == present && this.failing == failing
    {
      agencies, routes, trips, stopTimes := t.agencies, t.routes, t.trips, t.stopTimes;
      stops, shapes, calendars, calendarDates := t.stops, t.shapes, t.calendars, t.calendarDates;
      this.present := present;
      this.failing := failing;
    }

    function Snapshot(): Tables
      reads this
    {
      Tables(agencies, routes, trips, stopTimes, stops, shapes, calendars, calendarDates)
    }

    /** The required-table check: the first required table `HasTable` denies, if any. */
    method FindMissingTable() returns (missing: Option<string>)
      ensures missing == FirstMissing(RequiredTables, present)
    {
      var i := 0;
      while i < |RequiredTables|
        invariant i <= |RequiredTables|
        invariant forall j :: 0 <= j < i ==> RequiredTables[j] in present
      {
        if RequiredTables[i] !in present {
          return Some(RequiredTables[i]);
        }
        i := i + 1;
      }
      return None;
    }

    /**
     * `db.Exec` of the DELETE statement of a kind: it either fails, changing
     * nothing, or removes the rows the statement selects and reports how many.
     */
    method Exec(kind: ItemType, agencyId: string) returns (ok: bool, affected: nat)
      modifies this
      ensures ok <==> kind !in failing
      ensures Snapshot() == (if ok then Step(kind, old(Snapshot()), agencyId) else old(Snapshot()))
      ensures ok ==> affected == Affected(kind, old(Snapshot()), agencyId)
    {
      if kind in failing {
        return false, 0;
      }
      ok := true;
      StepCounts(kind, Snapshot(), agencyId);
      if kind == Agencies {
        var kept := KeepKeys(agencies, AgencyId, {agencyId});
        affected := |agencies| - |kept|;
        agencies := kept;
      } else if kind == Routes {
        var kept := KeepKeys(routes, RouteAgency, KeysOf(agencies, AgencyId));
        affected := |routes| - |kept|;
        routes := kept;
      } else if kind == Trips {
        var kept := KeepKeys(trips, TripRoute, KeysOf(routes, RouteId));
        affected := |trips| - |kept|;
        trips := kept;
      } else if kind == StopTimes {
        var kept := KeepKeys(stopTimes, StopTimeTrip, KeysOf(trips, TripId));
        affected := |stopTimes| - |kept|;
        stopTimes := kept;
      } else if kind == Stops {
        var kept := KeepKeys(stops, StopId, KeysOf(stopTimes, StopTimeStop));
        affected := |stops| - |kept|;
        stops := kept;
      } else if kind == Shapes {
        var kept := KeepKeys(shapes, ShapeId, KeysOf(trips, TripShape));
        affected := |shapes| - |kept|;
        shapes := kept;
      } else {
        affected := 0;
      }
    }

    /** One pass of the statement loop: run statement i and record its counts under its kind. */
    method RunStatement(i: nat, agencyId: string, ghost t0: Tables, results: map<ItemType, TrimItemsResult>)
      returns (ok: bool, next: map<ItemType, TrimItemsResult>)
      requires i < |TrimOrder|
      requires Snapshot() == StepsDone(t0, i, agencyId) && results == ResultsAfter(t0, i, agencyId)
      modifies this
      ensures ok <==> TrimOrder[i] !in failing
      ensures ok ==> Snapshot() == StepsDone(t0, i + 1, agencyId) && next == ResultsAfter(t0, i + 1, agencyId)
      ensures !ok ==> Snapshot() == old(Snapshot())
    {
      var kind := TrimOrder[i];
      var affected;
      ok, affected := Exec(kind, agencyId);
      next := results;
      if ok {
        next := results[kind := TrimItemsResult(kind, affected, RowCount(kind, Snapshot()))];
      }
    }

    /**
     * `Trim(db, like)`: check the tables, resolve the agency, then run the
     * six statements in order, recording per kind the rows removed and the
     * rows left; the first failing statement ends the trim with its error.
     */
    method Trim(like: string) returns (r: Result<map<ItemType, TrimItemsResult>, TrimError>)
      modifies this
      ensures TrimRun(Snapshot(), r) == TrimOutcome(old(Snapshot()), present, failing, like)
    {
      var missing := FindMissingTable();
      if missing.Some? {
        return Failure(MissingTable(missing.value));
      }
      var agency := FirstLike(agencies, like);
      if agency.None? {
        return Failure(AgencyNotFound(like));
      }
      var agencyId := agency.value.id;
      ghost var t0 := Snapshot();
      var results: map<ItemType, TrimItemsResult> := map[];
      var i := 0;
      while i < |TrimOrder|
        invariant i <= |TrimOrder|
        invariant Snapshot() == StepsDone(t0, i, agencyId)
        invariant results == ResultsAfter(t0, i, agencyId)
        invariant FirstFailing(failing, i) == FirstFailing(failing, 0)
      {
        var ok;
        ok, results := RunStatement(i, agencyId, t0, results);
        if !ok {
          assert FirstFailing(failing, 0) == i;
          return Failure(StepFailed(TrimOrder[i]));
        }
        i := i + 1;
      }
      assert FirstFailing(failing, 0) == |TrimOrder|;
      r := Success(results);
    }
  }
}
