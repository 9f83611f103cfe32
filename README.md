# Billboard playback scheduler — Dafny model

This project models the scheduling core of a digital-signage back end. Advertisers book
windows of content (a video or an image, with an optional url) on a billboard. These are
the documents of the `schedules` collection. A materializer then turns the bookings that
have started into back-to-back 15-minute playback records for the next 24 hours. It
replaces the whole `schedules_automated` collection with that batch. A separate query
lists the bookings whose start falls between one hour ago and 24 hours from now.

Files and modules:

- `schemas.dfy` (module `Schemas`) holds the `ScheduleBase` field set and the stored
  `Document` (its ObjectId `_id` plus the fields). It also holds the returned `Schedule`
  (the fields plus the string `id`), the string form of an ObjectId, and the three
  durations.
- `automated_scheduler.dfy` (module `AutomatedScheduler`) holds the tick expansion. The
  specification functions are `TicksFrom`, `ScheduleTicks`, `Expand`, the closed-form
  `TickCount` and `TotalTicks`. The nested-loop method `GetSchedulesForNext24Hours` is
  proved equal to `Expand`. The class `Database` holds the two collections, and its
  `TruncateAndReinsertSchedules` rebuilds the materialized one.
- `schedule_crud.dfy` (module `ScheduleCrud`) holds the window predicate, the matching
  documents in store order, `skip`/`limit`, and the method `GetSchedules24`, which renames
  `_id` to `id`.

Time and clocks:

- Datetimes are integer seconds: 15 minutes is 900, one hour is 3600, 24 hours is 86400.
- The clock is a parameter. `get_schedules_for_next_24_hours` reads `utcnow()` once per
  booked schedule, inside its loop. So the model takes one reading per schedule:
  `clock[i]` is the current time at which schedule `i` is examined. The reading taken
  before the loop is used only for logging and is not modelled.
- `get_schedules_24` reads the clock once. The model takes that reading as `currentTime`.

Points where the code's own comments, or a natural reading of it, differ from what it does:

- The code emits records 15 minutes wide. The comments in the loop speak of hourly
  records lasting one hour.
- Only the start of a record is compared with the booking's end. So the last record can
  end after the booking does. A booking from 5 minutes ago to 40 minutes ahead gets three
  records, and the third ends 45 minutes ahead (`LastTickOverrunsEnd`). What does hold is
  that every record ends less than 15 minutes after `min(end, now + 24h)`, and never
  after `now + 24h`, because 24 hours is a whole number of 15-minute steps.
- `create_schedule` (app/schedule_crud.py:11-15) inserts every booking verbatim, so there
  is no conflict resolution to model.
- `get_schedules_24` applies no sort, so results come in store order. The model keeps
  store order.

## Model

| member | source | states |
|---|---|---|
| `AutomatedScheduler.GetSchedulesForNext24Hours` | app/automated_scheduler.py:8-39 | the nested loops build exactly the batch `Expand(schedules, clock)`; its length is the sum of the per-schedule closed-form counts |
| `AutomatedScheduler.TicksFromLength` | app/automated_scheduler.py:27-38 | from a cursor position the inner loop emits `ceil((stop - cursor) / 15min)` records, where `stop = min(end_time, current_time + 24h)`; it emits none once the cursor has reached `stop` |
| `AutomatedScheduler.TicksFromAt` | app/automated_scheduler.py:27-38 | the k-th record emitted from a cursor is the tick at `cursor + k * 15min`, and that start lies before `min(end_time, current_time + 24h)` |
| `AutomatedScheduler.ScheduleTicksCount` | app/automated_scheduler.py:25-38 | a schedule yields `ceil((min(end, now+24h) - now) / 15min)` records when `start <= now < end`, and at most 96; it yields none exactly when it starts after the current time or has already ended |
| `AutomatedScheduler.ScheduleTicksShape` | app/automated_scheduler.py:18-38 | each record is exactly 15 minutes wide; the k-th starts at `now + k*15min`, so the first starts at the current time and each starts where the previous one ends (strictly increasing); each copies billboard_id, type and url; each start is before end_time and before now+24h; each end is less than 15 minutes past `min(end, now+24h)` and never after now+24h |
| `AutomatedScheduler.LastTickOverrunsEnd` | app/automated_scheduler.py:28-35 | a booking from now-5min to now+40min gets exactly three records, and the last ends at now+45min, after the booking's end |
| `AutomatedScheduler.ExpandConcat` | app/automated_scheduler.py:15-39 | the batch for a concatenation of schedule lists is the concatenation of their batches: records come out grouped per schedule, in store order |
| `AutomatedScheduler.ExpandLength` | app/automated_scheduler.py:15-39 | the batch length is the sum of the per-schedule counts, hence at most 96 per schedule |
| `AutomatedScheduler.ExpandProvenance` | app/automated_scheduler.py:16-37 | every record of the batch comes from one schedule that had started at its clock reading: same billboard_id, type and url, 15 minutes wide, starting no earlier than that reading and before the schedule's end and horizon |
| `AutomatedScheduler.NothingRunningGivesEmptyBatch` | app/automated_scheduler.py:15-39 | if every schedule either starts after its clock reading or has ended by it, the batch is empty |
| `AutomatedScheduler.Database.DeleteManyAutomated` | app/automated_scheduler.py:44 | `delete_many({})` leaves the materialized collection empty |
| `AutomatedScheduler.Database.InsertManyAutomated` | app/automated_scheduler.py:45-46 | `insert_many` appends a non-empty batch to the materialized collection |
| `AutomatedScheduler.Database.TruncateAndReinsertSchedules` | app/automated_scheduler.py:42-49 | afterwards the materialized collection is exactly the generated batch: prior contents are gone, nothing is merged, and an empty batch leaves it empty; the booked `schedules` are unchanged |
| `AutomatedScheduler.RebuildTwice` | app/automated_scheduler.py:42-46 | two rebuilds with the same schedules and clock readings leave the same contents as one rebuild (idempotence) |
| `Schemas.Hex` | app/schedule_crud.py:70 | the hexadecimal form has two lower-case hex digits per byte |
| `Schemas.ObjectIdString` | app/schedule_crud.py:70 | `str(ObjectId)` is 24 lower-case hexadecimal characters |
| `Schemas.HexInjective` | app/schedule_crud.py:70 | equal hexadecimal forms of equal-length byte strings come from equal byte strings |
| `Schemas.ObjectIdStringInjective` | app/schedule_crud.py:70 | two ObjectIds have the same string id exactly when they are equal |
| `ScheduleCrud.Matching` | app/schedule_crud.py:55-64 | a document is matched iff it is in the store and `now - 1h < start_time <= now + 24h`; end_time plays no part |
| `ScheduleCrud.MatchingConcat` | app/schedule_crud.py:59-68 | matching distributes over concatenation of the store, so matches keep store order |
| `ScheduleCrud.WindowBounds` | app/schedule_crud.py:55-64 | a start exactly one hour ago is excluded (strict lower bound); a start exactly 24 hours ahead is included (inclusive upper bound); changing end_time never changes the verdict |
| `ScheduleCrud.Skip` | app/schedule_crud.py:68 | `skip(n)` drops the first n results, or all of them if there are fewer |
| `ScheduleCrud.Limit` | app/schedule_crud.py:68 | `limit(n)` keeps the first n results; a limit of 0 keeps all |
| `ScheduleCrud.CursorAt` | app/schedule_crud.py:59-68 | the n-th query result is the (skip+n)-th match; there are `min(limit, matches - skip)` results (all remaining when limit is 0) |
| `ScheduleCrud.Rename` | app/schedule_crud.py:70-71 | the returned `id` is 24 lower-case hexadecimal characters and the stored fields are kept unchanged |
| `ScheduleCrud.RenameIdInjective` | app/schedule_crud.py:70-71 | two renamed records share an `id` exactly when their documents had the same `_id`, so renaming keeps documents apart |
| `ScheduleCrud.GetSchedules24` | app/schedule_crud.py:50-76 | the loop returns each query result renamed, in cursor order; each result is a stored document in the window with `id = str(_id)` and no `_id`; there are at most `limit` results when limit is positive |

## Left out

- Booking creation and the other CRUD functions of `app/schedule_crud.py`, and all of
  `app/billboard_crud.py`, are left out. They pass requests straight to MongoDB and
  contain no decision logic. That includes `create_schedule`, which does no billboard,
  range, past-date or overlap check.
- The periodic driver is left out. No timer appears in the modelled files.
- The HTTP endpoints and the hard-coded login in `main.py` are left out.
- Database bootstrapping in `app/database.py` and the ORM declarations in
  `app/models.py` are left out.
- Async execution and concurrency are left out. In the source, `delete_many` and
  `insert_many` are not awaited. Readers can see the collection empty in between. Under
  Motor, un-awaited calls are scheduled with no ordering guaranteed between them, so the
  insert could land before the delete and be wiped. This reading of Motor is not
  executed. The model treats the rebuild as sequential and atomic, in the order the
  code is written. The "replaced, not merged" property of
  `AutomatedScheduler.Database.TruncateAndReinsertSchedules` holds only under that
  sequential reading.
- Logging with `print` is left out.
- The clock reading used only for logging (automated_scheduler.py:10-12) is left out.
- Time is whole seconds; sub-second parts of datetimes are not modelled.
- The `_id` values that MongoDB assigns to inserted materialized records are not
  modelled. The model keeps the tick fields only.
- Documents that lack one of the schedule fields are not modelled. The source would
  raise `KeyError` on them.
- `ScheduleCrud.GetSchedules24` takes `skip` and `limit` as naturals. Negative values,
  which the MongoDB driver rejects or treats specially, are not modelled.
- Store order is modelled as the sequence order of the collection. MongoDB's natural
  order itself is not modelled.
