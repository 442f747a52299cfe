# Booking table of the washing-machine reservation backend

This project models the data-access core of the reservation backend of a
shared washing machine and tumble dryer. The core is the `bookings` table
behind the `BookingDAO` interface and the immutable `BookingDTO` value that
its queries return. The DAO is written as SQL text. Here it is an in-memory
table:

- a sequence of rows (`id`, `start_time`, `end_time`, `owner`, and the two
  usage counters);
- the next value of the table's `SERIAL` id sequence;
- a read-only users directory from username to name and apartment. It
  serves the `JOIN users` of the queries and the foreign key on `owner`.

Modules:

- `Api` (`api_booking_dto.dfy`): `BookingDTO` as a datatype. The private
  constructor assigns the counters in the opposite order to its parameters.
  The factories `createBookingWithoutId`, `createBookingWithId` and
  `createAnonymizedBooking` are functions. The getters are the datatype's
  destructors.
- `Grouping` (`grouping.dfy`): the `GROUP BY ... SUM(...)` of both usage
  reports, stated once for any key. It is proved against a reference
  definition: for each key, the sum over the entries with that key.
- `Db` (`db_booking_dao.dfy`): the queries as functions over the rows and
  the directory, the row-level effect of `UPDATE` and `DELETE` as functions,
  and the `BookingTable` class. The class holds the state-changing
  operations (`insertBooking`, `updateBooking`, `deleteBooking`,
  `truncateTable`) as methods. Its `Valid()` invariant is: unique ids, all
  below the sequence value; owners present in the directory; counters in
  `SMALLINT` range.
- `DbScenarios` (`db_scenarios.dfy`): client methods that replay the DAO's
  JUnit tests on the model.

Timestamps are integers. The database's month label of a timestamp
(`to_char(start_time, 'Mon')`), taken as a month number, and its calendar
year are given functions. They are held in a `Calendar` value that the usage
reports take as a parameter. There is no calendar or time-zone arithmetic.

Where the code and its surrounding documents differ, the model follows the
code:

- The code checks nothing before inserting or updating: no overlap with
  existing bookings and no `start < end`. The table accepts zero-length and
  inverted intervals, and so the model does too.
- Listings and usage reports select by inclusive containment
  (`start_time >= s AND e >= end_time`). Only `getBookingsOverlappingInterval`
  uses strict overlap. The usage reports also require the end time to be no
  later than the window's end, not only the start time to lie in the window.
- The comment on `getBookingsInInterval` says other residents' bookings show
  only times and owner. The query also returns their id, name and apartment,
  and only the counters are zeroed. The model follows the query.
- The test file predates the sources. It calls a six-argument `BookingDTO`
  constructor (id, start, end, owner and the two counters), which the
  sources no longer have. A call passing id -1 is `CreateBookingWithoutId`.
  A call passing id 123 is `CreateBookingWithId(123, ..., "", "", ...)`,
  with empty apartment and name; the insert ignores all three. Its `Usage` result is one record
  of the `List<UsageDTO>`. That record carries no owner, because the query
  selects none.

## Model

| member | source | states |
|---|---|---|
| `Api.CreateBookingWithoutId` | WashingmachineBackend/src/main/java/api/BookingDTO.java:28-30 | id is -1, apartment and real name are empty, and every other field holds its argument |
| `Api.CreateBookingWithId` | WashingmachineBackend/src/main/java/api/BookingDTO.java:17-34 | every getter returns its constructor argument, including both counters, whose fields are assigned in the opposite order to the parameters |
| `Api.CreateAnonymizedBooking` | WashingmachineBackend/src/main/java/api/BookingDTO.java:36-39 | keeps id, start, end, owner, apartment and real name, and zeroes both counters; the result equals its argument exactly when the argument's counters are already zero |
| `Api.AnonymizedIdempotent` | WashingmachineBackend/src/main/java/api/BookingDTO.java:36-39 | anonymising twice gives the same value as anonymising once |
| `Api.AnonymizedForgetsOnlyUsage` | WashingmachineBackend/src/main/java/api/BookingDTO.java:36-39 | two bookings anonymise to the same value exactly when they agree on everything except the counters |
| `Db.ViewedBy` | WashingmachineBackend/src/main/java/db/BookingDAO.java:62-70 | a viewer sees their own booking unchanged and anyone else's with both counters zero; every other field is kept |
| `Db.BookingsInInterval` | WashingmachineBackend/src/main/java/db/BookingDAO.java:59-72 | a booking is listed exactly when it comes from a row contained in [start, end] whose owner is a user, joined with the owner's name and apartment and redacted for the viewer; with unique ids no two listed bookings share an id, so each such row is listed once |
| `Db.InIntervalVisibility` | WashingmachineBackend/src/main/java/db/BookingDAO.java:62-70 | a contained row appears with its real counters when the viewer owns it, and otherwise appears anonymised |
| `Db.UnknownViewerSeesNoUsage` | WashingmachineBackend/src/main/java/db/BookingDAO.java:62-70 | a viewer who is not a user, such as "", sees zero counters on every listed booking |
| `Db.BookingsOverlappingInterval` | WashingmachineBackend/src/main/java/db/BookingDAO.java:74-77 | a booking is listed exactly when it comes from a row with start < e and end > s whose owner is a user, joined and not redacted; with unique ids no two listed bookings share an id, so each such row is listed once |
| `Db.ListedPositiveLengthOverlaps` | WashingmachineBackend/src/main/java/db/BookingDAO.java:59-77 | a booking of positive length that is contained in the window also appears in the overlap listing |
| `Db.NotOverlappingNotReported` | WashingmachineBackend/src/main/java/db/BookingDAO.java:74-77 | with unique ids, no booking in the overlap listing carries the id of a row that does not overlap the window |
| `Db.TouchingIsNotOverlap` | WashingmachineBackend/src/main/java/db/BookingDAO.java:59-77 | a row ending exactly at the window's start is not in the overlap listing; when it also starts there, it is still in the containment listing |
| `Db.FirstMatch` | WashingmachineBackend/src/main/java/db/BookingDAO.java:82-91 | a single-row query yields nothing exactly when no row of a user matches; otherwise it yields the first matching row, joined |
| `Db.BookingFromId` | WashingmachineBackend/src/main/java/db/BookingDAO.java:88-91 | yields a booking only if a row has this id and this owner; the booking then has that id and owner |
| `Db.BookingFromIdFinds` | WashingmachineBackend/src/main/java/db/BookingDAO.java:88-91 | with unique ids, the owner's lookup of an existing row returns exactly that row, joined |
| `Db.BookingFromOwnerAndDates` | WashingmachineBackend/src/main/java/db/BookingDAO.java:82-86 | yields a booking exactly when a row matches owner, start and end, and the booking carries those values |
| `Db.UsageEntries` | WashingmachineBackend/src/main/java/db/BookingDAO.java:104-113 | selects exactly the user's rows contained in the window, keyed by the (month, year) of the start time; how often each entry occurs is `UsageEntriesCount` |
| `Db.UsageEntriesCount` | WashingmachineBackend/src/main/java/db/BookingDAO.java:104-113 | every selected row contributes an entry of its own: an entry occurs as many times as there are selected rows giving it, so equal rows are not merged before summing |
| `Db.UsageInInterval` | WashingmachineBackend/src/main/java/db/BookingDAO.java:103-114 | one record per (month, year) that occurs among the selected rows, no period twice, each holding the sums of exactly that period's counters; empty exactly when nothing is selected |
| `Db.UsageInIntervalConservesTotals` | WashingmachineBackend/src/main/java/db/BookingDAO.java:104-113 | the records' sums add up to the total counters of all selected rows |
| `Db.AdminEntries` | WashingmachineBackend/src/main/java/db/BookingDAO.java:126-135 | selects exactly the rows contained in the window, keyed by (month, year, owner) |
| `Db.AdminEntriesCount` | WashingmachineBackend/src/main/java/db/BookingDAO.java:126-135 | every selected row contributes an entry of its own: an entry occurs as many times as there are selected rows giving it |
| `Db.ExportGroups` | WashingmachineBackend/src/main/java/db/BookingDAO.java:123-136 | a group yields a record exactly when its owner is a user, and the record carries that user's name and apartment |
| `Db.ExportGroupsCount` | WashingmachineBackend/src/main/java/db/BookingDAO.java:123-136 | the join yields one record per group whose owner is a user: a record occurs as many times as there are such groups giving it |
| `Db.GroupsExportCount` | WashingmachineBackend/src/main/java/db/BookingDAO.java:116-137 | groups with distinct keys, each holding the entries' sums for its key, export one record per key whose owner is a user |
| `Db.UsageInIntervalAdmin` | WashingmachineBackend/src/main/java/db/BookingDAO.java:116-137 | a record is reported exactly when some (month, year, owner) occurs among the selected rows and the owner is a user, carrying that owner's name and apartment and the sums for that key |
| `Db.UsageInIntervalAdminCount` | WashingmachineBackend/src/main/java/db/BookingDAO.java:116-137 | the admin report holds exactly one record per (month, year, owner) among the selected rows whose owner is a user: a record occurs as many times as there are such keys giving it, even when two owners share name, apartment and sums |
| `Db.CountMatching` | WashingmachineBackend/src/main/java/db/BookingDAO.java:79-80 | the number of affected rows is zero exactly when no row has both this id and this owner, so a non-owner gets the same answer as a missing id |
| `Db.AtMostOneMatch` | WashingmachineBackend/src/main/java/db/BookingDAO.java:22-28 | because ids are a primary key, update and delete affect at most one row |
| `Db.RowsUpdated` | WashingmachineBackend/src/main/java/db/BookingDAO.java:93-101 | the matching rows get the new start, end and counters and keep their id and owner; every other row is unchanged |
| `Db.RowsExcept` | WashingmachineBackend/src/main/java/db/BookingDAO.java:79-80 | one row fewer per match, and all rows kept when nothing matches |
| `Db.RowsExceptMembers` | WashingmachineBackend/src/main/java/db/BookingDAO.java:79-80 | the rows kept are exactly those not matching both id and owner |
| `Db.RowsExceptUnique` | WashingmachineBackend/src/main/java/db/BookingDAO.java:79-80 | deleting keeps the ids unique |
| `Db.DeletedIsGone` | WashingmachineBackend/src/main/java/db/BookingDAO.java:79-91 | after deleting, the owner's lookup of that id finds nothing |
| `Db.UpdatedIsFound` | WashingmachineBackend/src/main/java/db/BookingDAO.java:88-101 | after updating, the owner's lookup of that id returns the rescheduled row |
| `Db.ScanUpdate` | WashingmachineBackend/src/main/java/db/BookingDAO.java:93-101 | one pass over the table yields exactly `RowsUpdated` and the number of rows the guard selects |
| `Db.ScanDelete` | WashingmachineBackend/src/main/java/db/BookingDAO.java:79-80 | one pass over the table yields exactly `RowsExcept` and the number of rows the guard selects |
| `Db.UpdateOutcome` | WashingmachineBackend/src/main/java/db/BookingDAO.java:93-101 | an update with `SMALLINT` counters keeps the table well formed, changes at most one row, and changes nothing when no row matches |
| `Db.DeleteOutcome` | WashingmachineBackend/src/main/java/db/BookingDAO.java:79-80 | a delete keeps the table well formed, removes at most one row, and leaves the table as it was exactly when no row matches |
| `Db.BookingTable.constructor` | WashingmachineBackend/src/main/java/db/BookingDAO.java:21-30 | the table starts empty, with the id sequence at 1 |
| `Db.BookingTable.InsertBooking` | WashingmachineBackend/src/main/java/db/BookingDAO.java:47-49 | appends one row under the next sequence value, which no row has yet, and ignores the DTO's id, name and apartment; it makes no overlap or interval check; an owner who is not a user makes it fail and leave the rows unchanged |
| `Db.BookingTable.UpdateBooking` | WashingmachineBackend/src/main/java/db/BookingDAO.java:93-101 | the rows become `RowsUpdated` of the old rows; returns the number of matches, which is 0 or 1; with 0 the table is unchanged |
| `Db.BookingTable.DeleteBooking` | WashingmachineBackend/src/main/java/db/BookingDAO.java:79-80 | the rows become `RowsExcept` of the old rows; returns the number removed, 0 or 1, and the table is unchanged exactly when that number is 0 |
| `Db.BookingTable.TruncateTable` | WashingmachineBackend/src/main/java/db/BookingDAO.java:139-140 | removes all rows and keeps the id sequence where it was |
| `Grouping.GroupBy` | WashingmachineBackend/src/main/java/db/BookingDAO.java:107-113 | one group per key that occurs, no key twice, and the sums for every key equal to the input's; empty exactly when its input is empty |
| `Grouping.GroupByRecords` | WashingmachineBackend/src/main/java/db/BookingDAO.java:107-113 | every group holds exactly the sums of the input entries with its key |
| `Grouping.GroupByConservesTotals` | WashingmachineBackend/src/main/java/db/BookingDAO.java:107-113 | grouping preserves the total of each counter |
| `DbScenarios.FindAfterInsert` | WashingmachineBackend/src/test/java/BookingDAOTest.java:44-52 | a freshly inserted zero-length booking is found by owner and dates |
| `DbScenarios.ListInInterval` | WashingmachineBackend/src/test/java/BookingDAOTest.java:54-91 | searching [9:00, 14:00] over [10,11], [12,13] and [15,16] lists exactly the first two, with zero counters for viewer "" |
| `DbScenarios.UpdateOwnBooking` | WashingmachineBackend/src/test/java/BookingDAOTest.java:93-111 | an update by the owner affects one row, keeps its id and owner, and stores the new dates and counters 321/123 |
| `DbScenarios.OnlyOwnerMayChange` | WashingmachineBackend/src/test/java/BookingDAOTest.java:113-125 | another user's update and delete both affect zero rows |
| `DbScenarios.DeleteOwnBooking` | WashingmachineBackend/src/test/java/BookingDAOTest.java:127-136 | the owner's delete affects one row |
| `DbScenarios.ListOverlapping` | WashingmachineBackend/src/test/java/BookingDAOTest.java:138-169 | searching (10:10, 12:10) over [10,11], [12,13] and [15,18] finds two bookings |
| `DbScenarios.LookupById` | WashingmachineBackend/src/test/java/BookingDAOTest.java:171-183 | the lookup by id yields nothing for another user and the booking for its owner |
| `DbScenarios.OnlyOwnUsageVisible` | WashingmachineBackend/src/test/java/BookingDAOTest.java:185-219 | two DTOs that both carry id 123 get distinct ids; the viewer sees their own counters 123/321 and zeros on the other user's booking |
| `DbScenarios.UsageOfOneResident` | WashingmachineBackend/src/test/java/BookingDAOTest.java:221-252 | the user's usage in [10:00, 12:00] is a single record with sums 18/25 |
| `DbScenarios.UsageOfAllResidents` | WashingmachineBackend/src/main/java/db/BookingDAO.java:116-137 | on the same data the admin report holds one record per user, 18/25 and 123/321, with their names and apartments |

## Left out

- DDL: `createBookingTable` is the constructor, an empty table. The
  `bookings_rev` table is never read or written. The trigger statement at
  BookingDAO.java:43-45 is malformed: `booking_rev_trigger` and `AFTER` run
  together, and it has no action. It therefore has no behaviour to model.
- JDBI binding, the row mappers and the Jackson annotations. These are
  library plumbing.
- The users table and its DAO. They are a given directory, fixed for the
  table's lifetime.
- `Db.BookingTable.InsertBooking`: the `SMALLINT` range of the counters is a
  precondition, as is the same range for `UpdateBooking`. The database's
  out-of-range error is not modelled.
- `Db.BookingTable.InsertBooking`: a foreign-key failure is returned as
  `ok == false`. The source signals it with an exception.
- The `SERIAL` sequence's 32-bit upper bound. The model's sequence value is
  unbounded.
- Result order. Each listing yields rows in table order, while SQL gives no
  order. `UNION` de-duplication is also left out; it has no effect because
  ids are unique.
- `Db.FirstMatch`: it returns the first match in table order. The source
  returns whichever row the database produces first. This matters only for
  `getBookingFromOwnerAndDates` when one owner has several bookings with the
  same dates.
- Calendar, time zone and the locale of `to_char`. Month and year of a
  timestamp are the given functions of a `Calendar`.
- Conflict rejection and start/end validation on create and update. Neither
  appears in the code.
- Session tokens, configuration and the web frontend. They hold no logic of
  the table.
- Database concurrency and isolation. `UPDATE` and `DELETE` are modelled as
  one sequential pass over the rows (`ScanUpdate`, `ScanDelete`).
- Nulls. Java `Date` and `String` values are never null in the model.
