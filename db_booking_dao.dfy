/**
 * The bookings table and the queries of the data-access interface
 * `BookingDAO` (package `db`), as an in-memory table. The users table is
 * a read-only directory from username to name and apartment; it serves the
 * joins and the foreign key on `owner`.
 */
module Db {
  import opened Wrappers
  import opened Api
  import opened Grouping
  import opened Counting

  /** One stored row: the columns of `bookings`. Name and apartment are not stored. */
  datatype Row = Row(
    id: int,
    startTime: Timestamp,
    endTime: Timestamp,
    owner: string,
    numberOfWashingMachineUses: int,
    numberOfTumbleDryUses: int)

  /** What the users table supplies for a username. */
  datatype User = User(name: string, apartment: string)

  type Directory = map<string, User>

  /**
   * The database's reading of timestamps: the month label
   * (`to_char(start_time, 'Mon')`, as a month number) and the calendar year.
   */
  datatype Calendar = Calendar(monthOf: Timestamp -> int, yearOf: Timestamp -> int)

  /** The range of a `SMALLINT` column. */
  predicate InSmallint(x: int)
  {
    -32768 <= x <= 32767
  }

  /** The containment test of listings and usage reports: `start_time >= s AND e >= end_time`. */
  predicate Contained(row: Row, startTime: Timestamp, endTime: Timestamp)
  {
    row.startTime >= startTime && endTime >= row.endTime
  }

  /** The overlap test: `start_time < e AND end_time > s`. */
  predicate Overlaps(row: Row, startTime: Timestamp, endTime: Timestamp)
  {
    row.startTime < endTime && row.endTime > startTime
  }

  /** The `WHERE id = :id AND owner = :username` guard of update and delete. */
  predicate OwnedMatch(row: Row, username: string, id: int)
  {
    row.id == id && row.owner == username
  }

  /** No two rows share an id (`PRIMARY KEY(id)`). */
  predicate UniqueIds(rows: seq<Row>)
  {
    forall i, j :: 0 <= i < j < |rows| ==> rows[i].id != rows[j].id
  }

  /** Without its first row a table keeps unique ids, none equal to the first row's. */
  lemma TailIds(rows: seq<Row>)
    requires rows != []
    ensures UniqueIds(rows) ==> UniqueIds(rows[1..]) && forall row :: row in rows[1..] ==> row.id != rows[0].id
  {
    if UniqueIds(rows) {
      forall row | row in rows[1..] ensures row.id != rows[0].id {
        var m :| 0 <= m < |rows[1..]| && rows[1..][m] == row;
        assert rows[m + 1] == row;
      }
    }
  }

  /** A row joined with its owner's name and apartment. */
  function Joined(row: Row, users: Directory): BookingDTO
    requires row.owner in users
  {
    CreateBookingWithId(row.id, row.startTime, row.endTime, row.owner,
                        users[row.owner].apartment, users[row.owner].name,
                        row.numberOfWashingMachineUses, row.numberOfTumbleDryUses)
  }

  /** What `viewer` may see of a booking: everything if it is theirs, else the anonymised copy. */
  function ViewedBy(b: BookingDTO, viewer: string): (v: BookingDTO)
    ensures SameListing(v, b)
    ensures v == b <==> b.owner == viewer || NoUsage(b)
    ensures b.owner != viewer ==> NoUsage(v)
  {
    if b.owner == viewer then b else CreateAnonymizedBooking(b)
  }

  // ---------------------------------------------------------------- listings

  /**
   * `getBookingsInInterval`: the rows contained in [startTime, endTime],
   * joined with their owners, with the usage counters of every row not owned
   * by `username` forced to zero (the `CASE ... ELSE 0` branch of the union).
   */
  function BookingsInInterval(rows: seq<Row>, users: Directory,
                              startTime: Timestamp, endTime: Timestamp, username: string): (r: seq<BookingDTO>)
    ensures |r| <= |rows|
    ensures forall b :: b in r <==>
      exists row :: row in rows && Contained(row, startTime, endTime) && row.owner in users &&
                    b == ViewedBy(Joined(row, users), username)
    ensures UniqueIds(rows) ==> forall i, j :: 0 <= i < j < |r| ==> r[i].id != r[j].id
  {
    if rows == [] then []
    else
      var head := if Contained(rows[0], startTime, endTime) && rows[0].owner in users
                  then [ViewedBy(Joined(rows[0], users), username)] else [];
      var rest := BookingsInInterval(rows[1..], users, startTime, endTime, username);
      assert forall row :: row in rows <==> row == rows[0] || row in rows[1..];
      TailIds(rows);
      assert forall j :: 0 <= j < |rest| ==> exists row :: row in rows[1..] && rest[j].id == row.id by {
        forall j | 0 <= j < |rest| ensures exists row :: row in rows[1..] && rest[j].id == row.id {
          assert rest[j] in rest;
        }
      }
      head + rest
  }

  /**
   * `getBookingsOverlappingInterval`: the rows that strictly overlap
   * (startTime, endTime), joined with their owners, counters not redacted.
   */
  function BookingsOverlappingInterval(rows: seq<Row>, users: Directory,
                                       startTime: Timestamp, endTime: Timestamp): (r: seq<BookingDTO>)
    ensures |r| <= |rows|
    ensures forall b :: b in r <==>
      exists row :: row in rows && Overlaps(row, startTime, endTime) && row.owner in users &&
                    b == Joined(row, users)
    ensures UniqueIds(rows) ==> forall i, j :: 0 <= i < j < |r| ==> r[i].id != r[j].id
  {
    if rows == [] then []
    else
      var head := if Overlaps(rows[0], startTime, endTime) && rows[0].owner in users
                  then [Joined(rows[0], users)] else [];
      var rest := BookingsOverlappingInterval(rows[1..], users, startTime, endTime);
      assert forall row :: row in rows <==> row == rows[0] || row in rows[1..];
      TailIds(rows);
      assert forall j :: 0 <= j < |rest| ==> exists row :: row in rows[1..] && rest[j].id == row.id by {
        forall j | 0 <= j < |rest| ensures exists row :: row in rows[1..] && rest[j].id == row.id {
          assert rest[j] in rest;
        }
      }
      head + rest
  }

  /** A contained row is listed in full for its owner and anonymised for everyone else. */
  lemma InIntervalVisibility(rows: seq<Row>, users: Directory,
                             startTime: Timestamp, endTime: Timestamp, username: string, k: int)
    requires 0 <= k < |rows| && rows[k].owner in users && Contained(rows[k], startTime, endTime)
    ensures rows[k].owner == username ==>
      Joined(rows[k], users) in BookingsInInterval(rows, users, startTime, endTime, username)
    ensures rows[k].owner != username ==>
      CreateAnonymizedBooking(Joined(rows[k], users)) in BookingsInInterval(rows, users, startTime, endTime, username)
  {
    assert rows[k] in rows;
  }

  /** A viewer who is not a user (such as "") sees no usage on any listed booking. */
  lemma UnknownViewerSeesNoUsage(rows: seq<Row>, users: Directory,
                                 startTime: Timestamp, endTime: Timestamp, username: string)
    requires username !in users
    ensures forall b :: b in BookingsInInterval(rows, users, startTime, endTime, username) ==> NoUsage(b)
  {
  }

  // ----------------------------------------------------------------- lookups

  /**
   * A single-row query: the first joined row satisfying `matches`, or `None`
   * for the source's `null`.
   */
  function FirstMatch(rows: seq<Row>, users: Directory, matches: Row -> bool): (r: Option<BookingDTO>)
    ensures r.None? <==> forall row :: row in rows && row.owner in users ==> !matches(row)
    ensures r.Some? ==> exists i :: 0 <= i < |rows| && matches(rows[i]) && rows[i].owner in users &&
                                    r.value == Joined(rows[i], users) &&
                                    forall j :: 0 <= j < i ==> !(matches(rows[j]) && rows[j].owner in users)
  {
    if rows == [] then None
    else if matches(rows[0]) && rows[0].owner in users then Some(Joined(rows[0], users))
    else
      var r := FirstMatch(rows[1..], users, matches);
      assert forall row :: row in rows <==> row == rows[0] || row in rows[1..];
      assert forall i :: 1 <= i < |rows| ==> rows[i] == rows[1..][i - 1];
      r
  }

  /** `getBookingFromId`: the booking with this id, only if `username` owns it. */
  function BookingFromId(rows: seq<Row>, users: Directory, username: string, id: int): (r: Option<BookingDTO>)
    ensures r.None? <==> forall row :: row in rows && row.owner in users ==> !OwnedMatch(row, username, id)
    ensures r.Some? ==> r.value.id == id && r.value.owner == username &&
                        exists row :: row in rows && row.owner in users && r.value == Joined(row, users)
  {
    FirstMatch(rows, users, (row: Row) => OwnedMatch(row, username, id))
  }

  /** `getBookingFromOwnerAndDates`: a booking of `owner` with exactly these start and end times. */
  function BookingFromOwnerAndDates(rows: seq<Row>, users: Directory, owner: string,
                                    startTime: Timestamp, endTime: Timestamp): (r: Option<BookingDTO>)
    ensures r.None? <==> forall row :: row in rows && row.owner in users ==>
                           !(row.owner == owner && row.startTime == startTime && row.endTime == endTime)
    ensures r.Some? ==> r.value.owner == owner && r.value.startTime == startTime && r.value.endTime == endTime &&
                        exists row :: row in rows && row.owner in users && r.value == Joined(row, users)
  {
    FirstMatch(rows, users, (row: Row) => row.startTime == startTime && row.endTime == endTime && row.owner == owner)
  }

  /** With unique ids, the lookup by id finds the owner's row whenever it exists. */
  lemma BookingFromIdFinds(rows: seq<Row>, users: Directory, username: string, k: int)
    requires UniqueIds(rows) && 0 <= k < |rows|
    requires rows[k].owner == username && username in users
    ensures BookingFromId(rows, users, username, rows[k].id) == Some(Joined(rows[k], users))
  {
    var id := rows[k].id;
    var matches := (row: Row) => OwnedMatch(row, username, id);
    var r := FirstMatch(rows, users, matches);
    assert rows[k] in rows;
    var i :| 0 <= i < |rows| && matches(rows[i]) && rows[i].owner in users && r.value == Joined(rows[i], users);
    assert i == k;
  }

  // ------------------------------------------------------------ usage reports

  /** The self-service grouping key: month and year of the start time. */
  datatype Period = Period(month: int, year: int)

  /** The admin grouping key: month, year and owner. */
  datatype OwnerPeriod = OwnerPeriod(month: int, year: int, owner: string)

  /** One record of `getUsageInInterval` (a `UsageDTO`). */
  datatype Usage = Usage(month: int, year: int, sumOfWashingMachineUses: int, sumOfTumbleDryUses: int)

  /** One record of `getUsageInIntervalAdmin` (a `UsageAdminExportDTO`). */
  datatype UsageAdminExport = UsageAdminExport(
    name: string, apartment: string, month: int, year: int,
    sumOfWashingMachineUses: int, sumOfTumbleDryUses: int)

  function PeriodOf(cal: Calendar, t: Timestamp): Period
  {
    Period(cal.monthOf(t), cal.yearOf(t))
  }

  /** A row's entry in the self-service grouping: its start period and both counters. */
  function UsageEntryOf(cal: Calendar, row: Row): Entry<Period>
  {
    Entry(PeriodOf(cal, row.startTime), row.numberOfWashingMachineUses, row.numberOfTumbleDryUses)
  }

  /** A row's entry in the admin grouping: start period and owner, and both counters. */
  function AdminEntryOf(cal: Calendar, row: Row): Entry<OwnerPeriod>
  {
    Entry(OwnerPeriod(cal.monthOf(row.startTime), cal.yearOf(row.startTime), row.owner),
          row.numberOfWashingMachineUses, row.numberOfTumbleDryUses)
  }

  /** The rows selected by the self-service report, as grouping entries keyed by start period. */
  function UsageEntries(rows: seq<Row>, cal: Calendar, username: string,
                        startTime: Timestamp, endTime: Timestamp): (es: seq<Entry<Period>>)
    ensures |es| <= |rows|
    ensures forall x :: x in es <==>
      exists row :: row in rows && row.owner == username && Contained(row, startTime, endTime) &&
                    x == UsageEntryOf(cal, row)
  {
    if rows == [] then []
    else
      var row := rows[0];
      var head := if row.owner == username && Contained(row, startTime, endTime)
                  then [UsageEntryOf(cal, row)]
                  else [];
      var rest := UsageEntries(rows[1..], cal, username, startTime, endTime);
      assert forall r :: r in rows <==> r == rows[0] || r in rows[1..];
      head + rest
  }

  /** The rows selected by the admin report, keyed by start period and owner. */
  function AdminEntries(rows: seq<Row>, cal: Calendar,
                        startTime: Timestamp, endTime: Timestamp): (es: seq<Entry<OwnerPeriod>>)
    ensures |es| <= |rows|
    ensures forall x :: x in es <==>
      exists row :: row in rows && Contained(row, startTime, endTime) &&
                    x == AdminEntryOf(cal, row)
  {
    if rows == [] then []
    else
      var row := rows[0];
      var head := if Contained(row, startTime, endTime)
                  then [AdminEntryOf(cal, row)]
                  else [];
      var rest := AdminEntries(rows[1..], cal, startTime, endTime);
      assert forall r :: r in rows <==> r == rows[0] || r in rows[1..];
      head + rest
  }

  /**
   * The self-service selection keeps every selected row as an entry of its
   * own: an entry occurs as many times as there are selected rows giving it.
   */
  lemma {:induction false} UsageEntriesCount(rows: seq<Row>, cal: Calendar, username: string,
                                             startTime: Timestamp, endTime: Timestamp, x: Entry<Period>)
    ensures multiset(UsageEntries(rows, cal, username, startTime, endTime))[x] ==
            |Indices(rows, (row: Row) => row.owner == username && Contained(row, startTime, endTime) &&
                                         UsageEntryOf(cal, row) == x)|
  {
    var selects := (row: Row) => row.owner == username && Contained(row, startTime, endTime) &&
                                 UsageEntryOf(cal, row) == x;
    if rows == [] {
      assert Indices(rows, selects) == {};
    } else {
      UsageEntriesCount(rows[1..], cal, username, startTime, endTime, x);
      IndicesCons(rows, selects);
    }
  }

  /** The admin selection likewise keeps one entry per selected row. */
  lemma {:induction false} AdminEntriesCount(rows: seq<Row>, cal: Calendar,
                                             startTime: Timestamp, endTime: Timestamp, x: Entry<OwnerPeriod>)
    ensures multiset(AdminEntries(rows, cal, startTime, endTime))[x] ==
            |Indices(rows, (row: Row) => Contained(row, startTime, endTime) && AdminEntryOf(cal, row) == x)|
  {
    var selects := (row: Row) => Contained(row, startTime, endTime) && AdminEntryOf(cal, row) == x;
    if rows == [] {
      assert Indices(rows, selects) == {};
    } else {
      AdminEntriesCount(rows[1..], cal, startTime, endTime, x);
      IndicesCons(rows, selects);
    }
  }

  function ToUsages(gs: seq<Entry<Period>>): (us: seq<Usage>)
    ensures |us| == |gs|
    ensures forall i :: 0 <= i < |gs| ==>
      us[i] == Usage(gs[i].key.month, gs[i].key.year, gs[i].washer, gs[i].dryer)
  {
    if gs == [] then [] else [Usage(gs[0].key.month, gs[0].key.year, gs[0].washer, gs[0].dryer)] + ToUsages(gs[1..])
  }

  /**
   * `getUsageInInterval`: one record per (month, year) of start time among
   * `username`'s rows contained in the window, summing their counters.
   */
  function UsageInInterval(rows: seq<Row>, cal: Calendar, username: string,
                           startTime: Timestamp, endTime: Timestamp): (r: seq<Usage>)
    ensures r == [] <==> UsageEntries(rows, cal, username, startTime, endTime) == []
    ensures forall i, j :: 0 <= i < j < |r| ==> Period(r[i].month, r[i].year) != Period(r[j].month, r[j].year)
    ensures forall p :: p in KeysOf(UsageEntries(rows, cal, username, startTime, endTime)) <==>
      exists i :: 0 <= i < |r| && Period(r[i].month, r[i].year) == p
    ensures forall i :: 0 <= i < |r| ==>
      r[i].sumOfWashingMachineUses == WasherOf(UsageEntries(rows, cal, username, startTime, endTime), Period(r[i].month, r[i].year)) &&
      r[i].sumOfTumbleDryUses == DryerOf(UsageEntries(rows, cal, username, startTime, endTime), Period(r[i].month, r[i].year))
  {
    var es := UsageEntries(rows, cal, username, startTime, endTime);
    var gs := GroupBy(es);
    GroupByRecords(es);
    var us := ToUsages(gs);
    assert forall i :: 0 <= i < |us| ==> Period(us[i].month, us[i].year) == gs[i].key;
    us
  }

  /** The washing-machine sums of a report, added up. */
  function UsagesWasher(us: seq<Usage>): int
  {
    if us == [] then 0 else us[0].sumOfWashingMachineUses + UsagesWasher(us[1..])
  }

  /** The dryer sums of a report, added up. */
  function UsagesDryer(us: seq<Usage>): int
  {
    if us == [] then 0 else us[0].sumOfTumbleDryUses + UsagesDryer(us[1..])
  }

  lemma {:induction false} ToUsagesTotals(gs: seq<Entry<Period>>)
    ensures UsagesWasher(ToUsages(gs)) == TotalWasher(gs)
    ensures UsagesDryer(ToUsages(gs)) == TotalDryer(gs)
  {
    if gs != [] {
      ToUsagesTotals(gs[1..]);
      assert ToUsages(gs)[1..] == ToUsages(gs[1..]);
    }
  }

  /** Summing the report's records gives the sums over all selected rows. */
  lemma UsageInIntervalConservesTotals(rows: seq<Row>, cal: Calendar, username: string,
                                       startTime: Timestamp, endTime: Timestamp)
    ensures UsagesWasher(UsageInInterval(rows, cal, username, startTime, endTime)) ==
            TotalWasher(UsageEntries(rows, cal, username, startTime, endTime))
    ensures UsagesDryer(UsageInInterval(rows, cal, username, startTime, endTime)) ==
            TotalDryer(UsageEntries(rows, cal, username, startTime, endTime))
  {
    var es := UsageEntries(rows, cal, username, startTime, endTime);
    GroupByConservesTotals(es);
    ToUsagesTotals(GroupBy(es));
  }

  /** An admin group joined with its owner's name and apartment. */
  function Export(g: Entry<OwnerPeriod>, users: Directory): UsageAdminExport
    requires g.key.owner in users
  {
    UsageAdminExport(users[g.key.owner].name, users[g.key.owner].apartment,
                     g.key.month, g.key.year, g.washer, g.dryer)
  }

  /** The join of the admin groups with the users table: groups whose owner is unknown drop out. */
  function ExportGroups(gs: seq<Entry<OwnerPeriod>>, users: Directory): (r: seq<UsageAdminExport>)
    ensures |r| <= |gs|
    ensures forall x :: x in r <==> exists i :: 0 <= i < |gs| && gs[i].key.owner in users && x == Export(gs[i], users)
  {
    if gs == [] then []
    else
      var head := if gs[0].key.owner in users then [Export(gs[0], users)] else [];
      var rest := ExportGroups(gs[1..], users);
      assert forall i :: 1 <= i < |gs| ==> gs[i] == gs[1..][i - 1];
      head + rest
  }

  /**
   * `getUsageInIntervalAdmin`: one record per (month, year, owner) among the
   * rows contained in the window, summing their counters, with the owner
   * replaced by their name and apartment.
   */
  function UsageInIntervalAdmin(rows: seq<Row>, users: Directory, cal: Calendar,
                                startTime: Timestamp, endTime: Timestamp): (r: seq<UsageAdminExport>)
    ensures forall x :: x in r <==>
      exists k :: k in KeysOf(AdminEntries(rows, cal, startTime, endTime)) && k.owner in users &&
        x == UsageAdminExport(users[k.owner].name, users[k.owner].apartment, k.month, k.year,
                              WasherOf(AdminEntries(rows, cal, startTime, endTime), k),
                              DryerOf(AdminEntries(rows, cal, startTime, endTime), k))
    ensures AdminEntries(rows, cal, startTime, endTime) == [] ==> r == []
  {
    var es := AdminEntries(rows, cal, startTime, endTime);
    var gs := GroupBy(es);
    GroupByRecords(es);
    assert forall i :: 0 <= i < |gs| && gs[i].key.owner in users ==>
      Export(gs[i], users) == UsageAdminExport(users[gs[i].key.owner].name, users[gs[i].key.owner].apartment,
                                               gs[i].key.month, gs[i].key.year, WasherOf(es, gs[i].key), DryerOf(es, gs[i].key));
    ExportGroups(gs, users)
  }

  /** The join keeps one record per group whose owner is a user. */
  lemma {:induction false} ExportGroupsCount(gs: seq<Entry<OwnerPeriod>>, users: Directory, x: UsageAdminExport)
    ensures multiset(ExportGroups(gs, users))[x] ==
            |Indices(gs, (g: Entry<OwnerPeriod>) => g.key.owner in users && Export(g, users) == x)|
  {
    var selects := (g: Entry<OwnerPeriod>) => g.key.owner in users && Export(g, users) == x;
    if gs == [] {
      assert Indices(gs, selects) == {};
    } else {
      ExportGroupsCount(gs[1..], users, x);
      IndicesCons(gs, selects);
    }
  }

  /** The admin record of a (month, year, owner) key: the owner's name and apartment, and the key's sums. */
  function AdminRecord(es: seq<Entry<OwnerPeriod>>, users: Directory, k: OwnerPeriod): UsageAdminExport
    requires k.owner in users
  {
    UsageAdminExport(users[k.owner].name, users[k.owner].apartment, k.month, k.year, WasherOf(es, k), DryerOf(es, k))
  }

  /** The keys among `ks` whose owner is a user and whose admin record is `x`. */
  function RecordKeys(es: seq<Entry<OwnerPeriod>>, ks: set<OwnerPeriod>, users: Directory, x: UsageAdminExport): set<OwnerPeriod>
  {
    set k | k in ks && k.owner in users && AdminRecord(es, users, k) == x
  }

  lemma RecordKeysOfCons(es: seq<Entry<OwnerPeriod>>, k: OwnerPeriod, ks: set<OwnerPeriod>, users: Directory,
                         x: UsageAdminExport)
    requires k !in ks
    ensures |RecordKeys(es, {k} + ks, users, x)| ==
            (if k.owner in users && AdminRecord(es, users, k) == x then 1 else 0) + |RecordKeys(es, ks, users, x)|
  {
    var head: set<OwnerPeriod> := if k.owner in users && AdminRecord(es, users, k) == x then {k} else {};
    assert RecordKeys(es, {k} + ks, users, x) == head + RecordKeys(es, ks, users, x);
  }

  /** Groups with distinct keys, each holding the sums of `es` for its key, export one record per key. */
  lemma {:induction false} GroupsExportCount(es: seq<Entry<OwnerPeriod>>, gs: seq<Entry<OwnerPeriod>>, users: Directory,
                                             x: UsageAdminExport)
    requires DistinctKeys(gs)
    requires forall i :: 0 <= i < |gs| ==> gs[i].washer == WasherOf(es, gs[i].key) && gs[i].dryer == DryerOf(es, gs[i].key)
    ensures multiset(ExportGroups(gs, users))[x] == |RecordKeys(es, KeysOf(gs), users, x)|
  {
    if gs == [] {
      assert RecordKeys(es, KeysOf(gs), users, x) == {};
    } else {
      var g := gs[0];
      DistinctTail(gs);
      assert forall i :: 0 <= i < |gs[1..]| ==> gs[1..][i] == gs[i + 1];
      GroupsExportCount(es, gs[1..], users, x);
      SumsOfCons(g, gs[1..], g.key);
      assert gs == [g] + gs[1..];
      RecordKeysOfCons(es, g.key, KeysOf(gs[1..]), users, x);
    }
  }

  /**
   * The admin report holds exactly one record per (month, year, owner) that
   * occurs among the selected rows and whose owner is a user: a record occurs
   * as many times as there are such keys giving it.
   */
  lemma UsageInIntervalAdminCount(rows: seq<Row>, users: Directory, cal: Calendar,
                                  startTime: Timestamp, endTime: Timestamp, x: UsageAdminExport)
    ensures multiset(UsageInIntervalAdmin(rows, users, cal, startTime, endTime))[x] ==
            |RecordKeys(AdminEntries(rows, cal, startTime, endTime), KeysOf(AdminEntries(rows, cal, startTime, endTime)), users, x)|
  {
    var es := AdminEntries(rows, cal, startTime, endTime);
    GroupByRecords(es);
    GroupsExportCount(es, GroupBy(es), users, x);
    assert KeysOf(GroupBy(es)) == KeysOf(es);
  }

  // ------------------------------------------- containment versus overlap

  /** A booking of positive length contained in the window is also reported as overlapping it. */
  lemma ListedPositiveLengthOverlaps(rows: seq<Row>, users: Directory,
                                     startTime: Timestamp, endTime: Timestamp, k: int)
    requires 0 <= k < |rows| && rows[k].owner in users
    requires Contained(rows[k], startTime, endTime) && rows[k].startTime < rows[k].endTime
    ensures Joined(rows[k], users) in BookingsOverlappingInterval(rows, users, startTime, endTime)
  {
    assert rows[k] in rows;
  }

  /** With unique ids, a row that does not overlap the window never shows up in the overlap listing. */
  lemma NotOverlappingNotReported(rows: seq<Row>, users: Directory,
                                  startTime: Timestamp, endTime: Timestamp, k: int)
    requires UniqueIds(rows) && 0 <= k < |rows|
    requires !Overlaps(rows[k], startTime, endTime)
    ensures forall b :: b in BookingsOverlappingInterval(rows, users, startTime, endTime) ==> b.id != rows[k].id
  {
    forall b | b in BookingsOverlappingInterval(rows, users, startTime, endTime) ensures b.id != rows[k].id {
      var row :| row in rows && Overlaps(row, startTime, endTime) && row.owner in users && b == Joined(row, users);
      var j :| 0 <= j < |rows| && rows[j] == row;
      assert j != k;
    }
  }

  /**
   * The asymmetry between the two listings: a zero-length booking at the
   * window's start, or one that ends exactly where the window starts, is
   * not overlapping; the first of them is still listed by containment.
   */
  lemma TouchingIsNotOverlap(rows: seq<Row>, users: Directory, username: string,
                             startTime: Timestamp, endTime: Timestamp, k: int)
    requires UniqueIds(rows) && 0 <= k < |rows| && rows[k].owner in users
    requires rows[k].endTime == startTime
    ensures forall b :: b in BookingsOverlappingInterval(rows, users, startTime, endTime) ==> b.id != rows[k].id
    ensures rows[k].startTime == startTime <= endTime ==>
      ViewedBy(Joined(rows[k], users), username) in BookingsInInterval(rows, users, startTime, endTime, username)
  {
    NotOverlappingNotReported(rows, users, startTime, endTime, k);
    assert rows[k] in rows;
  }

  // ------------------------------------------------------- update and delete

  /** How many rows the guard `id = :id AND owner = :username` selects. */
  function CountMatching(rows: seq<Row>, username: string, id: int): (n: nat)
    ensures n <= |rows|
    ensures n == 0 <==> forall i :: 0 <= i < |rows| ==> !OwnedMatch(rows[i], username, id)
  {
    if rows == [] then 0
    else
      var last := rows[|rows| - 1];
      var rest := CountMatching(rows[..|rows| - 1], username, id);
      assert forall i :: 0 <= i < |rows| - 1 ==> rows[..|rows| - 1][i] == rows[i];
      rest + (if OwnedMatch(last, username, id) then 1 else 0)
  }

  /** With unique ids the guard selects at most one row, so update and delete return 0 or 1. */
  lemma {:induction false} AtMostOneMatch(rows: seq<Row>, username: string, id: int)
    requires UniqueIds(rows)
    ensures CountMatching(rows, username, id) <= 1
  {
    if rows != [] {
      var prefix := rows[..|rows| - 1];
      assert UniqueIds(prefix);
      AtMostOneMatch(prefix, username, id);
      if OwnedMatch(rows[|rows| - 1], username, id) {
        assert forall i :: 0 <= i < |prefix| ==> prefix[i] == rows[i];
        assert CountMatching(prefix, username, id) == 0;
      }
    }
  }

  /** The row with its interval and counters overwritten. */
  function Rescheduled(row: Row, startTime: Timestamp, endTime: Timestamp,
                       numberOfWashingMachineUses: int, numberOfTumbleDryUses: int): Row
  {
    row.(startTime := startTime, endTime := endTime,
         numberOfWashingMachineUses := numberOfWashingMachineUses,
         numberOfTumbleDryUses := numberOfTumbleDryUses)
  }

  /** The table after `UPDATE ... WHERE id = :id AND owner = :username`. */
  function RowsUpdated(rows: seq<Row>, username: string, id: int, startTime: Timestamp, endTime: Timestamp,
                       numberOfWashingMachineUses: int, numberOfTumbleDryUses: int): (r: seq<Row>)
    ensures |r| == |rows|
    ensures forall i :: 0 <= i < |rows| ==>
      r[i] == if OwnedMatch(rows[i], username, id)
              then Rescheduled(rows[i], startTime, endTime, numberOfWashingMachineUses, numberOfTumbleDryUses)
              else rows[i]
  {
    if rows == [] then []
    else
      var last := rows[|rows| - 1];
      var rest := RowsUpdated(rows[..|rows| - 1], username, id, startTime, endTime,
                              numberOfWashingMachineUses, numberOfTumbleDryUses);
      rest + [if OwnedMatch(last, username, id)
              then Rescheduled(last, startTime, endTime, numberOfWashingMachineUses, numberOfTumbleDryUses)
              else last]
  }

  /** The table after `DELETE ... WHERE id = :id AND owner = :username`. */
  function RowsExcept(rows: seq<Row>, username: string, id: int): (r: seq<Row>)
    ensures |r| + CountMatching(rows, username, id) == |rows|
    ensures CountMatching(rows, username, id) == 0 ==> r == rows
  {
    if rows == [] then []
    else
      var last := rows[|rows| - 1];
      var rest := RowsExcept(rows[..|rows| - 1], username, id);
      assert rows == rows[..|rows| - 1] + [last];
      rest + (if OwnedMatch(last, username, id) then [] else [last])
  }

  /** A delete keeps exactly the rows the guard does not select. */
  lemma {:induction false} RowsExceptMembers(rows: seq<Row>, username: string, id: int)
    ensures forall row :: row in RowsExcept(rows, username, id) <==> row in rows && !OwnedMatch(row, username, id)
  {
    if rows != [] {
      var prefix := rows[..|rows| - 1];
      var last := rows[|rows| - 1];
      RowsExceptMembers(prefix, username, id);
      assert rows == prefix + [last];
      assert forall row :: row in rows <==> row in prefix || row == last;
    }
  }

  /** Extending a scanned prefix by one row: the loop step of update and delete. */
  lemma PrefixStep(rows: seq<Row>, i: int, username: string, id: int)
    requires 0 <= i < |rows|
    ensures CountMatching(rows[..i + 1], username, id) ==
            CountMatching(rows[..i], username, id) + (if OwnedMatch(rows[i], username, id) then 1 else 0)
    ensures RowsExcept(rows[..i + 1], username, id) ==
            RowsExcept(rows[..i], username, id) + (if OwnedMatch(rows[i], username, id) then [] else [rows[i]])
  {
    assert rows[..i + 1][..i] == rows[..i];
  }

  /** The same step for the update's result. */
  lemma UpdatePrefixStep(rows: seq<Row>, i: int, username: string, id: int, startTime: Timestamp, endTime: Timestamp,
                         numberOfWashingMachineUses: int, numberOfTumbleDryUses: int)
    requires 0 <= i < |rows|
    ensures RowsUpdated(rows[..i + 1], username, id, startTime, endTime, numberOfWashingMachineUses, numberOfTumbleDryUses) ==
            RowsUpdated(rows[..i], username, id, startTime, endTime, numberOfWashingMachineUses, numberOfTumbleDryUses) +
            [if OwnedMatch(rows[i], username, id)
             then Rescheduled(rows[i], startTime, endTime, numberOfWashingMachineUses, numberOfTumbleDryUses)
             else rows[i]]
  {
    assert rows[..i + 1][..i] == rows[..i];
  }

  /** Deleting keeps the remaining ids unique. */
  lemma {:induction false} RowsExceptUnique(rows: seq<Row>, username: string, id: int)
    requires UniqueIds(rows)
    ensures UniqueIds(RowsExcept(rows, username, id))
  {
    if rows != [] {
      var prefix := rows[..|rows| - 1];
      var last := rows[|rows| - 1];
      assert UniqueIds(prefix);
      RowsExceptUnique(prefix, username, id);
      RowsExceptMembers(prefix, username, id);
      var rest := RowsExcept(prefix, username, id);
      if !OwnedMatch(last, username, id) {
        forall i | 0 <= i < |rest| ensures rest[i].id != last.id {
          assert rest[i] in rest;
          var j :| 0 <= j < |prefix| && prefix[j] == rest[i];
          assert rows[j] == prefix[j];
        }
        var r := rest + [last];
        forall i, j | 0 <= i < j < |r| ensures r[i].id != r[j].id {
          if j < |rest| {
            assert r[i] == rest[i] && r[j] == rest[j];
          } else {
            assert r[i] == rest[i] && r[j] == last;
          }
        }
      }
    }
  }

  /** After a delete, the owner can no longer look the booking up. */
  lemma DeletedIsGone(rows: seq<Row>, users: Directory, username: string, id: int)
    ensures BookingFromId(RowsExcept(rows, username, id), users, username, id) == None
  {
    RowsExceptMembers(rows, username, id);
    var r := RowsExcept(rows, username, id);
    assert forall i :: 0 <= i < |r| ==> r[i] in r;
  }

  /** After an update, the owner's lookup by id returns the rescheduled booking. */
  lemma UpdatedIsFound(rows: seq<Row>, users: Directory, username: string, k: int,
                       startTime: Timestamp, endTime: Timestamp,
                       numberOfWashingMachineUses: int, numberOfTumbleDryUses: int)
    requires UniqueIds(rows) && 0 <= k < |rows|
    requires rows[k].owner == username && username in users
    ensures BookingFromId(RowsUpdated(rows, username, rows[k].id, startTime, endTime,
                                      numberOfWashingMachineUses, numberOfTumbleDryUses),
                          users, username, rows[k].id) ==
            Some(Joined(Rescheduled(rows[k], startTime, endTime, numberOfWashingMachineUses, numberOfTumbleDryUses), users))
  {
    var updated := RowsUpdated(rows, username, rows[k].id, startTime, endTime,
                               numberOfWashingMachineUses, numberOfTumbleDryUses);
    assert forall i :: 0 <= i < |rows| ==> updated[i].id == rows[i].id;
    BookingFromIdFinds(updated, users, username, k);
  }

  // ------------------------------------------------------------- the table

  /**
   * The table's integrity: primary key, every id drawn from the sequence
   * below `serial`, the foreign key on `owner`, and `SMALLINT` counters.
   */
  predicate WellFormed(rows: seq<Row>, serial: int, users: Directory)
  {
    serial >= 1 && UniqueIds(rows) &&
    forall i :: 0 <= i < |rows| ==>
      1 <= rows[i].id < serial && rows[i].owner in users &&
      InSmallint(rows[i].numberOfWashingMachineUses) && InSmallint(rows[i].numberOfTumbleDryUses)
  }

  /** Deleting keeps the table well formed. */
  lemma RowsExceptWellFormed(rows: seq<Row>, serial: int, users: Directory, username: string, id: int)
    requires WellFormed(rows, serial, users)
    ensures WellFormed(RowsExcept(rows, username, id), serial, users)
  {
    RowsExceptUnique(rows, username, id);
    RowsExceptMembers(rows, username, id);
    var r := RowsExcept(rows, username, id);
    forall j | 0 <= j < |r|
      ensures 1 <= r[j].id < serial && r[j].owner in users &&
              InSmallint(r[j].numberOfWashingMachineUses) && InSmallint(r[j].numberOfTumbleDryUses)
    {
      assert r[j] in r;
      var k :| 0 <= k < |rows| && rows[k] == r[j];
    }
  }

  /** Updating with `SMALLINT` counters keeps the table well formed. */
  lemma RowsUpdatedWellFormed(rows: seq<Row>, serial: int, users: Directory, username: string, id: int,
                              startTime: Timestamp, endTime: Timestamp,
                              numberOfWashingMachineUses: int, numberOfTumbleDryUses: int)
    requires WellFormed(rows, serial, users)
    requires InSmallint(numberOfWashingMachineUses) && InSmallint(numberOfTumbleDryUses)
    ensures WellFormed(RowsUpdated(rows, username, id, startTime, endTime,
                                   numberOfWashingMachineUses, numberOfTumbleDryUses), serial, users)
  {
    var r := RowsUpdated(rows, username, id, startTime, endTime, numberOfWashingMachineUses, numberOfTumbleDryUses);
    assert forall j :: 0 <= j < |r| ==> r[j].id == rows[j].id && r[j].owner == rows[j].owner;
  }

  /**
   * The database's pass over the table for an `UPDATE`: every row the guard
   * selects is rescheduled, the others are kept, and the selected rows are counted.
   */
  method ScanUpdate(all: seq<Row>, username: string, id: int, startTime: Timestamp, endTime: Timestamp,
                    numberOfWashingMachineUses: int, numberOfTumbleDryUses: int)
    returns (updated: seq<Row>, n: nat)
    ensures updated == RowsUpdated(all, username, id, startTime, endTime,
                                   numberOfWashingMachineUses, numberOfTumbleDryUses)
    ensures n == CountMatching(all, username, id)
  {
    updated := [];
    n := 0;
    var i := 0;
    while i < |all|
      invariant 0 <= i <= |all|
      invariant updated == RowsUpdated(all[..i], username, id, startTime, endTime,
                                       numberOfWashingMachineUses, numberOfTumbleDryUses)
      invariant n == CountMatching(all[..i], username, id)
    {
      PrefixStep(all, i, username, id);
      UpdatePrefixStep(all, i, username, id, startTime, endTime, numberOfWashingMachineUses, numberOfTumbleDryUses);
      var row := all[i];
      if OwnedMatch(row, username, id) {
        row := Rescheduled(row, startTime, endTime, numberOfWashingMachineUses, numberOfTumbleDryUses);
        n := n + 1;
      }
      updated := updated + [row];
      i := i + 1;
    }
    assert all[..i] == all;
  }

  /**
   * The database's pass over the table for a `DELETE`: the rows the guard
   * does not select are kept in order, the selected ones are counted.
   */
  method ScanDelete(all: seq<Row>, username: string, id: int) returns (kept: seq<Row>, n: nat)
    ensures kept == RowsExcept(all, username, id)
    ensures n == CountMatching(all, username, id)
  {
    kept := [];
    n := 0;
    var i := 0;
    while i < |all|
      invariant 0 <= i <= |all|
      invariant kept == RowsExcept(all[..i], username, id)
      invariant n == CountMatching(all[..i], username, id)
    {
      PrefixStep(all, i, username, id);
      if OwnedMatch(all[i], username, id) {
        n := n + 1;
      } else {
        kept := kept + [all[i]];
      }
      i := i + 1;
    }
    assert all[..i] == all;
  }

  /** What an update leaves behind: a well-formed table, at most one row changed. */
  lemma UpdateOutcome(rows: seq<Row>, serial: int, users: Directory, username: string, id: int,
                      startTime: Timestamp, endTime: Timestamp,
                      numberOfWashingMachineUses: int, numberOfTumbleDryUses: int)
    requires WellFormed(rows, serial, users)
    requires InSmallint(numberOfWashingMachineUses) && InSmallint(numberOfTumbleDryUses)
    ensures WellFormed(RowsUpdated(rows, username, id, startTime, endTime,
                                   numberOfWashingMachineUses, numberOfTumbleDryUses), serial, users)
    ensures CountMatching(rows, username, id) <= 1
    ensures CountMatching(rows, username, id) == 0 ==>
              RowsUpdated(rows, username, id, startTime, endTime,
                          numberOfWashingMachineUses, numberOfTumbleDryUses) == rows
  {
    AtMostOneMatch(rows, username, id);
    RowsUpdatedWellFormed(rows, serial, users, username, id, startTime, endTime,
                          numberOfWashingMachineUses, numberOfTumbleDryUses);
    var r := RowsUpdated(rows, username, id, startTime, endTime, numberOfWashingMachineUses, numberOfTumbleDryUses);
    if CountMatching(rows, username, id) == 0 {
      assert forall j :: 0 <= j < |rows| ==> r[j] == rows[j];
    }
  }

  /** What a delete leaves behind: a well-formed table, at most one row removed. */
  lemma DeleteOutcome(rows: seq<Row>, serial: int, users: Directory, username: string, id: int)
    requires WellFormed(rows, serial, users)
    ensures WellFormed(RowsExcept(rows, username, id), serial, users)
    ensures CountMatching(rows, username, id) <= 1
    ensures CountMatching(rows, username, id) == 0 <==> RowsExcept(rows, username, id) == rows
  {
    AtMostOneMatch(rows, username, id);
    RowsExceptWellFormed(rows, serial, users, username, id);
  }

  /**
   * The bookings table: its rows, the next value of the `SERIAL` id
   * sequence, and the users directory the foreign key refers to.
   */
  class BookingTable {
    var rows: seq<Row>
    var serial: int
    const users: Directory

    ghost predicate Valid()
      reads this
    {
      WellFormed(rows, serial, users)
    }

    /** `createBookingTable`: the empty table; the sequence starts at 1. */
    constructor (users: Directory)
      ensures Valid() && this.users == users && rows == [] && serial == 1
    {
      this.users := users;
      rows := [];
      serial := 1;
    }

    /**
     * `insertBooking`: stores start, end, owner and both counters under the
     * next sequence value; the DTO's id, name and apartment are ignored, and
     * there is no overlap or start-before-end check. An owner unknown to the
     * users table violates the foreign key: the insert fails and nothing is
     * stored, but the sequence value is used up all the same.
     */
    method InsertBooking(b: BookingDTO) returns (ok: bool)
      requires Valid()
      requires InSmallint(b.numberOfWashingMachineUses) && InSmallint(b.numberOfTumbleDryUses)
      modifies this
      ensures Valid() && serial == old(serial) + 1
      ensures ok <==> b.owner in users
      ensures forall i :: 0 <= i < |old(rows)| ==> old(rows)[i].id != old(serial)
      ensures rows == if ok
                      then old(rows) + [Row(old(serial), b.startTime, b.endTime, b.owner,
                                            b.numberOfWashingMachineUses, b.numberOfTumbleDryUses)]
                      else old(rows)
    {
      var id := serial;
      serial := serial + 1;
      ok := b.owner in users;
      if ok {
        rows := rows + [Row(id, b.startTime, b.endTime, b.owner,
                            b.numberOfWashingMachineUses, b.numberOfTumbleDryUses)];
      }
    }

    /**
     * `updateBooking`: overwrites start, end and both counters of the rows
     * whose id and owner match; returns how many rows it changed.
     */
    method UpdateBooking(username: string, id: int, startTime: Timestamp, endTime: Timestamp,
                         numberOfWashingMachineUses: int, numberOfTumbleDryUses: int) returns (n: int)
      requires Valid()
      requires InSmallint(numberOfWashingMachineUses) && InSmallint(numberOfTumbleDryUses)
      modifies this
      ensures Valid() && serial == old(serial)
      ensures rows == RowsUpdated(old(rows), username, id, startTime, endTime,
                                  numberOfWashingMachineUses, numberOfTumbleDryUses)
      ensures n == CountMatching(old(rows), username, id) && 0 <= n <= 1
      ensures n == 0 ==> rows == old(rows)
    {
      var updated;
      updated, n := ScanUpdate(rows, username, id, startTime, endTime,
                               numberOfWashingMachineUses, numberOfTumbleDryUses);
      UpdateOutcome(rows, serial, users, username, id, startTime, endTime,
                    numberOfWashingMachineUses, numberOfTumbleDryUses);
      rows := updated;
    }

    /** `deleteBooking`: removes the rows whose id and owner match; returns how many it removed. */
    method DeleteBooking(username: string, id: int) returns (n: int)
      requires Valid()
      modifies this
      ensures Valid() && serial == old(serial)
      ensures rows == RowsExcept(old(rows), username, id)
      ensures n == CountMatching(old(rows), username, id) && 0 <= n <= 1
      ensures n == 0 <==> rows == old(rows)
    {
      var kept;
      kept, n := ScanDelete(rows, username, id);
      DeleteOutcome(rows, serial, users, username, id);
      rows := kept;
    }

    /** `truncateTable`: removes every row; the id sequence is not restarted. */
    method TruncateTable()
      requires Valid()
      modifies this
      ensures Valid() && rows == [] && serial == old(serial)
    {
      rows := [];
    }
  }
}
