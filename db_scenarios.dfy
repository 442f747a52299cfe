/**
 * Clients of the table that replay the data-access tests (BookingDAOTest)
 * on the model. Times are minutes of one day (10:00 is 600); the test's
 * `new BookingDTO(-1, start, end, owner, w, d)` is `CreateBookingWithoutId`.
 */
module DbScenarios {
  import opened Wrappers
  import opened Api
  import opened Grouping
  import opened Db

  /** The two residents every test starts with. */
  function TestUsers(): Directory
  {
    map["user" := User("bogus", "1"), "user2" := User("bogus", "2")]
  }

  /** Inserting a booking makes it findable by owner and dates (start equal to end is accepted). */
  method FindAfterInsert() returns (found: Option<BookingDTO>)
    ensures found.Some? && found.value.owner == "user"
  {
    var t := new BookingTable(TestUsers());
    var ok := t.InsertBooking(CreateBookingWithoutId(600, 600, "user", 1, 1));
    found := BookingFromOwnerAndDates(t.rows, t.users, "user", 600, 600);
  }

  /** Listing [9:00, 14:00] over [10,11], [12,13], [15,16] yields the first two, all redacted for viewer "". */
  method ListInInterval() returns (bookings: seq<BookingDTO>)
    ensures |bookings| == 2
    ensures forall b :: b in bookings ==> (b.startTime == 600 && b.endTime == 660) || (b.startTime == 720 && b.endTime == 780)
    ensures forall b :: b in bookings ==> NoUsage(b)
  {
    var t := new BookingTable(TestUsers());
    var ok := t.InsertBooking(CreateBookingWithoutId(600, 660, "user", 0, 1));
    ok := t.InsertBooking(CreateBookingWithoutId(720, 780, "user2", 0, 1));
    ok := t.InsertBooking(CreateBookingWithoutId(900, 960, "user", 123, 321));
    var rows := t.rows;
    assert rows == [Row(1, 600, 660, "user", 0, 1), Row(2, 720, 780, "user2", 0, 1), Row(3, 900, 960, "user", 123, 321)];
    assert BookingsInInterval(rows[2..], t.users, 540, 840, "") == [];
    assert |BookingsInInterval(rows[1..], t.users, 540, 840, "")| == 1;
    bookings := BookingsInInterval(rows, t.users, 540, 840, "");
  }

  /** Updating rewrites the same row: same id and owner, new dates and counters. */
  method UpdateOwnBooking() returns (affected: int, before: Option<BookingDTO>, after: Option<BookingDTO>)
    ensures affected == 1
    ensures before.Some? && after.Some? && after.value.id == before.value.id
    ensures after.value.owner == "user"
    ensures after.value.numberOfWashingMachineUses == 321 && after.value.numberOfTumbleDryUses == 123
  {
    var t := new BookingTable(TestUsers());
    var ok := t.InsertBooking(CreateBookingWithoutId(600, 600, "user", 1, 0));
    before := BookingFromOwnerAndDates(t.rows, t.users, "user", 600, 600);
    affected := t.UpdateBooking("user", before.value.id, 0, 601, 321, 123);
    after := BookingFromOwnerAndDates(t.rows, t.users, "user", 0, 601);
  }

  /** Another resident can neither update nor delete the booking: both report zero rows. */
  method OnlyOwnerMayChange() returns (updated: int, deleted: int)
    ensures updated == 0 && deleted == 0
  {
    var t := new BookingTable(TestUsers());
    var ok := t.InsertBooking(CreateBookingWithoutId(600, 600, "user2", 1, 1));
    var inserted := BookingFromOwnerAndDates(t.rows, t.users, "user2", 600, 600);
    updated := t.UpdateBooking("user", inserted.value.id, 601, 601, 1, 2);
    deleted := t.DeleteBooking("user", inserted.value.id);
  }

  /** The owner deletes their booking: one row. */
  method DeleteOwnBooking() returns (deleted: int)
    ensures deleted == 1
  {
    var t := new BookingTable(TestUsers());
    var ok := t.InsertBooking(CreateBookingWithoutId(600, 600, "user", 1, 1));
    var inserted := BookingFromOwnerAndDates(t.rows, t.users, "user", 600, 600);
    deleted := t.DeleteBooking("user", inserted.value.id);
  }

  /** Searching (10:10, 12:10) over [10,11], [12,13], [15,18] finds the first two. */
  method ListOverlapping() returns (bookings: seq<BookingDTO>)
    ensures |bookings| == 2
  {
    var t := new BookingTable(TestUsers());
    var ok := t.InsertBooking(CreateBookingWithoutId(600, 660, "user", 1, 2));
    ok := t.InsertBooking(CreateBookingWithoutId(720, 780, "user2", 2, 2));
    ok := t.InsertBooking(CreateBookingWithoutId(900, 1080, "user", 3, 2));
    var rows := t.rows;
    assert rows == [Row(1, 600, 660, "user", 1, 2), Row(2, 720, 780, "user2", 2, 2), Row(3, 900, 1080, "user", 3, 2)];
    assert BookingsOverlappingInterval(rows[2..], t.users, 610, 730) == [];
    assert |BookingsOverlappingInterval(rows[1..], t.users, 610, 730)| == 1;
    bookings := BookingsOverlappingInterval(rows, t.users, 610, 730);
  }

  /** The lookup by id answers only the owner. */
  method LookupById() returns (asOther: Option<BookingDTO>, asOwner: Option<BookingDTO>)
    ensures asOther == None
    ensures asOwner.Some? && asOwner.value.owner == "user"
  {
    var t := new BookingTable(TestUsers());
    var ok := t.InsertBooking(CreateBookingWithoutId(600, 600, "user", 1, 1));
    var inserted := BookingFromOwnerAndDates(t.rows, t.users, "user", 600, 600);
    asOther := BookingFromId(t.rows, t.users, "user2", inserted.value.id);
    asOwner := BookingFromId(t.rows, t.users, "user", inserted.value.id);
  }

  /**
   * Two DTOs that both carry id 123 are stored under fresh ids; the viewer
   * sees their own counters and zeros on the other resident's booking.
   */
  method OnlyOwnUsageVisible() returns (bookings: seq<BookingDTO>)
    ensures |bookings| == 2 && bookings[0].id != bookings[1].id
    ensures bookings[0].owner == "user" && bookings[0].numberOfWashingMachineUses == 123 &&
            bookings[0].numberOfTumbleDryUses == 321
    ensures bookings[1].owner == "user2" && NoUsage(bookings[1])
  {
    var t := new BookingTable(TestUsers());
    var ok := t.InsertBooking(CreateBookingWithId(123, 600, 600, "user", "", "", 123, 321));
    ok := t.InsertBooking(CreateBookingWithId(123, 600, 600, "user2", "", "", 1337, 7331));
    var rows := t.rows;
    assert rows == [Row(1, 600, 600, "user", 123, 321), Row(2, 600, 600, "user2", 1337, 7331)];
    assert BookingsInInterval(rows[1..], t.users, 540, 660, "user") ==
           [CreateAnonymizedBooking(Joined(rows[1], t.users))];
    bookings := BookingsInInterval(rows, t.users, 540, 660, "user");
  }

  /** The four rows of the usage test, as stored. */
  function UsageTestRows(): seq<Row>
  {
    [Row(1, 630, 630, "user", 10, 10), Row(2, 690, 690, "user", 8, 15),
     Row(3, 690, 690, "user2", 123, 321), Row(4, 930, 930, "user", 30, 30)]
  }

  /** The self-service report of "user" on those rows in [10:00, 12:00]. */
  lemma UsageReportOfUsageTest(cal: Calendar)
    requires cal == Calendar(_ => 10, _ => 2017)
    ensures UsageInInterval(UsageTestRows(), cal, "user", 600, 720) == [Usage(10, 2017, 18, 25)]
  {
    var rows := UsageTestRows();
    var p := Period(10, 2017);
    var es := [Entry(p, 10, 10), Entry(p, 8, 15)];
    assert UsageEntries(rows[3..], cal, "user", 600, 720) == [];
    assert UsageEntries(rows[2..], cal, "user", 600, 720) == [];
    assert UsageEntries(rows[1..], cal, "user", 600, 720) == es[1..];
    assert UsageEntries(rows, cal, "user", 600, 720) == es;
    assert GroupBy(es[1..]) == [Entry(p, 8, 15)];
    assert Add([Entry(p, 8, 15)], es[0]) == [Entry(p, 18, 25)];
    assert ToUsages([Entry(p, 18, 25)]) == [Usage(10, 2017, 18, 25)];
  }

  /**
   * Usage of "user" in [10:00, 12:00]: the bookings (10, 10) at 10:30 and
   * (8, 15) at 11:30 count, the other user's and the 15:30 one do not.
   */
  method UsageOfOneResident() returns (usage: seq<Usage>)
    ensures usage == [Usage(10, 2017, 18, 25)]
  {
    var t := new BookingTable(TestUsers());
    var ok := t.InsertBooking(CreateBookingWithId(123, 630, 630, "user", "", "", 10, 10));
    ok := t.InsertBooking(CreateBookingWithId(123, 690, 690, "user", "", "", 8, 15));
    ok := t.InsertBooking(CreateBookingWithId(123, 690, 690, "user2", "", "", 123, 321));
    ok := t.InsertBooking(CreateBookingWithId(123, 930, 930, "user", "", "", 30, 30));
    var cal := Calendar(_ => 10, _ => 2017);
    assert t.rows == UsageTestRows();
    UsageReportOfUsageTest(cal);
    usage := UsageInInterval(t.rows, cal, "user", 600, 720);
  }

  /** The admin entries of the usage test's rows in [10:00, 12:00]: the 15:30 booking drops out. */
  lemma AdminEntriesOfUsageTest(cal: Calendar)
    requires cal == Calendar(_ => 10, _ => 2017)
    ensures AdminEntries(UsageTestRows(), cal, 600, 720) ==
            [Entry(OwnerPeriod(10, 2017, "user"), 10, 10), Entry(OwnerPeriod(10, 2017, "user"), 8, 15),
             Entry(OwnerPeriod(10, 2017, "user2"), 123, 321)]
  {
    var rows := UsageTestRows();
    var k1, k2 := OwnerPeriod(10, 2017, "user"), OwnerPeriod(10, 2017, "user2");
    var es := [Entry(k1, 10, 10), Entry(k1, 8, 15), Entry(k2, 123, 321)];
    assert AdminEntries(rows[3..], cal, 600, 720) == [];
    assert AdminEntries(rows[2..], cal, 600, 720) == es[2..];
    assert AdminEntries(rows[1..], cal, 600, 720) == es[1..];
  }

  /** The admin grouping of those entries: one group per resident, "user"'s two bookings summed. */
  lemma AdminGroupsOfUsageTest(cal: Calendar)
    requires cal == Calendar(_ => 10, _ => 2017)
    ensures GroupBy(AdminEntries(UsageTestRows(), cal, 600, 720)) ==
            [Entry(OwnerPeriod(10, 2017, "user2"), 123, 321), Entry(OwnerPeriod(10, 2017, "user"), 18, 25)]
  {
    AdminEntriesOfUsageTest(cal);
    var k1, k2 := OwnerPeriod(10, 2017, "user"), OwnerPeriod(10, 2017, "user2");
    var es := [Entry(k1, 10, 10), Entry(k1, 8, 15), Entry(k2, 123, 321)];
    assert GroupBy(es[2..]) == [Entry(k2, 123, 321)];
    assert GroupBy(es[1..]) == [Entry(k2, 123, 321), Entry(k1, 8, 15)];
    assert Add([Entry(k1, 8, 15)], es[0]) == [Entry(k1, 18, 25)];
    assert Add([Entry(k2, 123, 321), Entry(k1, 8, 15)], es[0]) == [Entry(k2, 123, 321), Entry(k1, 18, 25)];
  }

  /** The join of those groups with the test users. */
  lemma AdminExportOfUsageTest()
    ensures ExportGroups([Entry(OwnerPeriod(10, 2017, "user2"), 123, 321), Entry(OwnerPeriod(10, 2017, "user"), 18, 25)],
                         TestUsers()) ==
            [UsageAdminExport("bogus", "2", 10, 2017, 123, 321), UsageAdminExport("bogus", "1", 10, 2017, 18, 25)]
  {
    var gs := [Entry(OwnerPeriod(10, 2017, "user2"), 123, 321), Entry(OwnerPeriod(10, 2017, "user"), 18, 25)];
    var users := TestUsers();
    assert ExportGroups(gs[2..], users) == [];
    assert ExportGroups(gs[1..], users) == [UsageAdminExport("bogus", "1", 10, 2017, 18, 25)];
  }

  /** The admin report itself on those rows. */
  lemma AdminReportOfUsageTest(cal: Calendar)
    requires cal == Calendar(_ => 10, _ => 2017)
    ensures UsageInIntervalAdmin(UsageTestRows(), TestUsers(), cal, 600, 720) ==
            [UsageAdminExport("bogus", "2", 10, 2017, 123, 321), UsageAdminExport("bogus", "1", 10, 2017, 18, 25)]
  {
    AdminGroupsOfUsageTest(cal);
    AdminExportOfUsageTest();
  }

  /**
   * The admin report on the usage test's data: one record per resident and
   * month, with the resident's name and apartment.
   */
  method UsageOfAllResidents() returns (usage: seq<UsageAdminExport>)
    ensures usage == [UsageAdminExport("bogus", "2", 10, 2017, 123, 321), UsageAdminExport("bogus", "1", 10, 2017, 18, 25)]
  {
    var t := new BookingTable(TestUsers());
    var ok := t.InsertBooking(CreateBookingWithId(123, 630, 630, "user", "", "", 10, 10));
    ok := t.InsertBooking(CreateBookingWithId(123, 690, 690, "user", "", "", 8, 15));
    ok := t.InsertBooking(CreateBookingWithId(123, 690, 690, "user2", "", "", 123, 321));
    ok := t.InsertBooking(CreateBookingWithId(123, 930, 930, "user", "", "", 30, 30));
    var cal := Calendar(_ => 10, _ => 2017);
    assert t.rows == UsageTestRows();
    AdminReportOfUsageTest(cal);
    usage := UsageInIntervalAdmin(t.rows, t.users, cal, 600, 720);
  }
}
