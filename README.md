# Walk-in queue: a verified model

This project models the core of a walk-in queue manager for public
administration service centres. Each location has service desks; a desk keeps
a queue of tickets. An admin adds a customer to a desk's queue and the ticket
gets a number such as "7005". Staff then call the ticket, which puts it in
service, and complete or cancel it. Every user belongs to a location and sees
only that location, unless the user is a superuser. The model covers the
ticket lifecycle, the numbering rule, the per-desk and per-location queries
(waiting line, current ticket, completed list, counters, average service
time), the access rules and the login decision.

Files and modules:

- `common.dfy` (`Common`): `Option` and `Result`.
- `clock.dfy` (`Clock`): instants are whole seconds in local time. A day is
  `t / 86400`. Whole minutes truncate toward zero, as Python's `int()` does.
- `directory.dfy` (`Directory`): locations, users and desks as values. It
  holds the access policy (`can_access_location`, `is_admin_role`,
  `get_accessible_locations`), the inline location check the views repeat,
  the dashboard's desk list and desk lookup.
- `tickets.dfy` (`Tickets`): a ticket row as a value (`TicketRecord`) and as an
  object (`Ticket`, whose four methods overwrite fields in place exactly as
  `call`, `start_serving`, `complete` and `cancel` do, with no status check).
  It also holds the two time metrics and lemmas about runs of requests: what
  never changes, when a ticket can still be waiting, and a chronology
  invariant under a clock that never runs backwards. A guarded state machine
  is stated beside the unguarded one as a refinement, and lemmas show where
  the two agree and where they differ.
- `numbering.dfy` (`Numbering`): `desk_number.replace("Bàn ", "")` followed by
  `f"{today_count + 1:03d}"`, with a parser that reads the sequence back.
- `queue_views.dfy` (`QueueViews`): the filters of today's tickets by desk or
  location, a stable insertion sort for the two orderings used, the desk
  counters, the desk page and the dashboard.
- `login.dfy` (`Login`): the ordered checks of the login view.
- `store.dfy` (`Store`): the ticket table as a class, and the four views that
  write to it (`add_to_queue`, `call_queue`, `complete_queue`,
  `cancel_queue`), each stated as "refused and nothing changed" or "exactly
  this row changed".

The clock, today's date and the result of password authentication are
parameters. Where the code departs from the intended lifecycle, the model
follows the code:

- The four mutators check no status. `complete` works on a waiting ticket.
  `call_queue` reopens a completed or cancelled ticket, and the old
  `completed_at` survives (`Tickets.CallReopensFinished`). The guarded
  lifecycle is the separate refinement `Tickets.GuardedApply`.
- `cancel` works from any status.
- The number's prefix is the desk number with every "Bàn " removed. Other
  non-numeric labels are kept.
- Roles are the free-text `role` column ("user" or "admin") plus the
  superuser bit.

## Model

| member | source | states |
|---|---|---|
| `Clock.DayOf` | walkin/models.py:151-156 | the day of an instant is the day number whose 86400-second span contains it |
| `Clock.WholeMinutes` | walkin/models.py:300-302 | whole minutes of a duration, truncated toward zero: for d >= 0, 60m <= d < 60m + 60; for d < 0 the mirror image |
| `Directory.LocationCheckDenies` | walkin/views.py:209-210 | the views' inline check refuses exactly when `can_access_location` is false |
| `Directory.ActiveLocations` | walkin/models.py:103-104 | filtering locations on `active` (and optionally on one id) keeps exactly the matching ones |
| `Directory.AccessibleLocations` | walkin/models.py:100-104 | a location is returned iff it is in the table, active, and accessible to the user (all for a superuser, the own one otherwise, none without a location) |
| `Directory.DesksAt` | walkin/views.py:98 | filtering desks on a location keeps exactly that location's desks |
| `Directory.VisibleDesks` | walkin/views.py:95-98 | the dashboard lists a desk iff the user may access its location |
| `Directory.FindDesk` | walkin/views.py:206 | a found desk is in the table with the asked id; not found means no desk has that id |
| `Tickets.WaitingTimeSpec` | walkin/models.py:298-306 | waiting time is the whole minutes from arrival to start, or to now while still waiting, and 0 for a ticket that left the line without being started |
| `Tickets.ServiceTimeSpec` | walkin/models.py:308-313 | service time is 0 unless start and completion are both recorded, else the whole minutes between them |
| `Tickets.MetricExamples` | walkin/models.py:298-313 | arrival 0, start at 12 min gives 12; still waiting at 5 min gives 5; start 0, completion 20 min gives 20; no completion gives 0 |
| `Tickets.ActionsKeepEntry` | walkin/models.py:275-296 | no run of call/start/complete/cancel changes the customer, number, desk, location, priority or arrival time |
| `Tickets.WaitingOnlyWhileOnlyCalled` | walkin/models.py:275-296 | after a run of requests a ticket is waiting iff it was waiting and every request was a call |
| `Tickets.LeftWaitingForGood` | walkin/models.py:275-296 | no request brings a ticket back to waiting |
| `Tickets.CallQueueEffect` | walkin/views.py:249-250 | call then start_serving leaves the ticket in progress, called and started at now, handled by the actor, completion time unchanged, from any status |
| `Tickets.CallReopensFinished` | walkin/models.py:280-285 | start_serving puts a completed or cancelled ticket back in progress and keeps its old completion time |
| `Tickets.ApplyKeepsChronology` | walkin/models.py:275-296 | one request made no earlier than the clock keeps every recorded instant between arrival and now, keeps start and server on an in-progress ticket, and keeps start before completion on a completed ticket |
| `Tickets.ApplyAllKeepsChronology` | walkin/models.py:275-296 | a run of requests in clock order keeps the ticket chronological |
| `Tickets.MetricsNonNegative` | walkin/models.py:298-313 | on a chronological ticket the waiting time is never negative; a completed ticket's service time is never negative and is the floored minutes from start to completion |
| `Tickets.ServedTicketMetrics` | walkin/models.py:275-313 | a waiting ticket called at s and completed at c is completed, waited (s - arrival)/60 minutes and was served (c - s)/60 minutes |
| `Tickets.GuardedApply` | walkin/models.py:280-296 | the guarded mutator accepts a request iff the lifecycle permits it from the current status, and then acts as the source's mutator |
| `Tickets.GuardedRunMovesForward` | walkin/models.py:280-296 | under the guard the status never moves back, and a completed or cancelled ticket never changes again |
| `Tickets.GuardedAgreesOnLegalRuns` | walkin/models.py:280-296 | on runs where every request is permitted, the guarded and unguarded machines give the same ticket |
| `Tickets.Ticket.constructor` | walkin/models.py:179-265 | a new ticket object holds exactly the given row |
| `Tickets.Ticket.Call` | walkin/models.py:275-278 | sets `called_at` to now; every other field is unchanged |
| `Tickets.Ticket.StartServing` | walkin/models.py:280-285 | sets status in progress, `started_at` to now and `handled_by` to the user, whatever the status was; every other field is unchanged |
| `Tickets.Ticket.Complete` | walkin/models.py:287-291 | sets status completed and `completed_at` to now, whatever the status was; start and server unchanged |
| `Tickets.Ticket.Cancel` | walkin/models.py:293-296 | sets status cancelled; no timestamp changes, so an earlier completion time survives |
| `Numbering.RemoveLabel` | walkin/views.py:218 | removing the label never lengthens the desk number and introduces no new character |
| `Numbering.RemoveLabelAfterText` | walkin/views.py:218 | a label that follows label-free text is removed and that text kept ("A Bàn 7" becomes "A 7"); with the lemma above this fixes the result for every input |
| `Numbering.RemoveLabelWithoutLabel` | walkin/views.py:218 | a desk number containing no "Bàn " is kept as it is |
| `Numbering.RemoveLeadingLabel` | walkin/views.py:218 | a leading "Bàn " is dropped |
| `Numbering.Decimal` | walkin/views.py:218 | the decimal form of n is a non-empty digit string, one digit exactly when n < 10, with no leading zero for n > 0 |
| `Numbering.Pad3` | walkin/views.py:218 | `:03d` gives digits only, three of them or the number's own length if longer, and pads only up to three |
| `Numbering.Pad3RoundTrip` | walkin/views.py:218 | the padded sequence number reads back as the number |
| `Numbering.QueueNumber` | walkin/views.py:213-218 | the queue number is the stripped desk number followed by at least three digits that read back as today's count + 1, zero-padded only up to three digits |
| `Numbering.QueueNumberInjective` | walkin/views.py:213-218 | for one desk number, different day counts give different queue numbers |
| `Numbering.QueueNumberExample` | walkin/views.py:218 | desk "Bàn 7" with 4 tickets already today gives "7005" |
| `QueueViews.SelectSpec` | walkin/models.py:151-169 | a query returns each ticket of the table that matches scope, day and status, as often as it occurs, and nothing else |
| `QueueViews.StatusPartition` | walkin/models.py:151-169 | today's tickets of a scope are exactly the waiting, in-progress, completed and cancelled ones together |
| `QueueViews.PrecedesTotalOrder` | walkin/models.py:268 | both orderings (priority then arrival; latest completion first) are total and transitive |
| `QueueViews.Insert` | walkin/views.py:164 | inserting into an ordered list keeps it ordered and adds exactly that ticket |
| `QueueViews.SortBy` | walkin/views.py:164 | `order_by` returns an ordered permutation of its input |
| `QueueViews.DeskCountersConsistent` | walkin/models.py:151-169 | a desk's waiting count plus serving count is at most its today total |
| `QueueViews.CurrentServing` | walkin/models.py:171-176 | the current ticket, when present, is an in-progress ticket of the desk created today that comes first in the table's default order; absent iff the serving count is 0 |
| `QueueViews.WaitingLine` | walkin/views.py:161-164 | the waiting line is a permutation of today's waiting tickets of the desk, ordered priority first, then by arrival |
| `QueueViews.WaitingLineOrder` | walkin/views.py:161-164 | the line holds exactly the desk's waiting tickets of today, as many as the waiting count; no priority ticket follows a non-priority one; each tier is in arrival order |
| `QueueViews.WaitingLineExample` | walkin/views.py:161-164 | T1 (no priority, t=1), T2 (priority, t=2), T3 (priority, t=3) line up as T2, T3, T1 |
| `QueueViews.CompletedByRecency` | walkin/views.py:167-170 | today's completed tickets of the desk, as a permutation ordered by completion time, latest first |
| `QueueViews.CompletedToday` | walkin/views.py:191 | the page shows the first min(10, n) of that list |
| `QueueViews.CompletedTodayMostRecent` | walkin/views.py:167-191 | at most 10 tickets are shown, all completed today at the desk, and any completed ticket left off finished no later than each shown one |
| `QueueViews.FloorMean` | walkin/views.py:181-184 | the average is the floor of sum / count (m * n <= sum < m * n + n), and 0 for no tickets |
| `QueueViews.FloorMeanWithin` | walkin/views.py:181-184 | the average of values in [lo, hi] lies in [lo, hi] |
| `QueueViews.FloorMeanExample` | walkin/views.py:181-184 | [10, 20, 15] averages to 15; no tickets gives 0 |
| `QueueViews.ServiceTimes` | walkin/views.py:183 | the list of service times of the completed tickets, one per ticket |
| `QueueViews.AverageServiceTime` | walkin/views.py:176-184 | the desk's average service time is the floored mean over today's completed tickets, 0 when there are none |
| `QueueViews.AverageServiceTimeNonNegative` | walkin/views.py:176-184 | when every ticket is chronological the average service time is not negative |
| `QueueViews.DeskDetailView` | walkin/views.py:143-198 | unknown desk is not found; a desk of another location is forbidden to a non-superuser; otherwise the page shows the desk, its current ticket, its waiting line, its ten latest completed tickets, today's total, the average service time and the waiting count, each as the desk's query for today defines it, so waiting plus current ticket is at most today's total |
| `QueueViews.DashboardView` | walkin/views.py:84-140 | accessible locations and visible desks follow the access policy; counts are 0 without a location; otherwise each count is the number of today's tickets at the user's location (of that status, or all for the total), and total = waiting + in progress + completed + cancelled |
| `Login.Decide` | walkin/views.py:44-68 | login succeeds iff authentication gave a user who may log in (active; superuser or located; location active); no user means invalid credentials; an inactive account is refused as disabled before any location check |
| `Login.InactiveLocationRefused` | walkin/views.py:53-56 | an active user, superuser or not, whose location is inactive is refused for that reason |
| `Login.SuperuserWithoutLocation` | walkin/views.py:48-51 | an active superuser with no location logs in |
| `Store.IntakeStartsWaiting` | walkin/views.py:221-230 | a new ticket is waiting at its desk and the desk's location, priority iff the form said "on", with no call, start, completion or server, and is chronological |
| `Store.IntakeCountsUp` | walkin/views.py:213-230 | adding a ticket raises the desk's count for its day by one and puts it in the waiting line |
| `Store.LaterIntakeDiffers` | walkin/views.py:213-218 | under one-at-a-time creation, a later ticket of the same desk and day never repeats an earlier number |
| `Store.Gate` | walkin/views.py:238-247 | a ticket view proceeds iff the actor is an admin, the ticket exists and the actor may access its location; not admin and not found are reported in that order |
| `Store.QueueStore.AddToQueue` | walkin/views.py:201-230 | refused (non-admin, unknown desk, other location, in that order) with the table unchanged, or exactly one new ticket appended, numbered from the desk's tickets of today |
| `Store.QueueStore.CallQueue` | walkin/views.py:238-253 | refused per `Gate` with the table unchanged, or only the ticket's row changes, to called and started at now by the actor |
| `Store.QueueStore.CompleteQueue` | walkin/views.py:256-270 | refused per `Gate` with the table unchanged, or only the ticket's row changes, to completed at now |
| `Store.QueueStore.CancelQueue` | walkin/views.py:273-287 | refused per `Gate` with the table unchanged, or only the ticket's row changes, to cancelled |

## Left out

- Web plumbing: rendering, redirects, flash messages, JSON responses and the
  `next` redirect. The decorators `login_required`, `csrf_protect` and
  `never_cache` are left out too. A refusal is a `Rejection` value; the source
  answers some refusals with JSON and others with a redirect.
- The GET branch of `add_to_queue`: it only redirects and creates nothing. The
  login view's GET branch and its redirect of an already logged-in user are
  left out for the same reason.
- Password checking inside `authenticate`, a library call. Its result is the
  input of `Login.Decide`. With Django's default backend an inactive account
  is already refused by `authenticate`, so the "disabled" branch may never be
  reached in practice.
- Persistence: `save()`, querysets, `get_object_or_404`, and the cascading
  and nulling deletes. Tickets live in an in-memory table, where the ticket
  with id n is the n-th one created. No deletion is modelled.
- `create_desk`, `delete_desk`, `desk_management_view`, `logout_view` and
  `profile_view`: plain create/delete/list pages.
- `urls.py` and `admin.py`: configuration only.
- Display helpers (`__str__`, `get_active_status`, `is_user_role`).
- Minutes come from integer seconds. The source divides a float
  `total_seconds()`, with microseconds. Time zones are folded into the local
  seconds count.
- `call_queue` reads the clock twice. The model uses one `now` for both
  `called_at` and `started_at`.
- `add_to_queue` reads `date.today()` for the count separately from the
  creation time. The model takes both as parameters, and the counting lemmas
  assume they agree.
- The race between two concurrent ticket creations on the row count. The
  model creates tickets one at a time.
- The dashboard's location and desk lists: the source sorts locations by
  name and desks by desk number. The model keeps table order and states
  membership only.
- Ties in the database orderings: the model keeps table order. For
  `-completed_at`, rows without a completion time go last, as SQLite does.
  Completed tickets always have one.
- Missing `customer_name` or `service_type` form fields make the database
  refuse the row. The model takes both as always present.
