# Orders and movies, modelled in Dafny

This project models the two components of a NestJS teaching repository that hold its logic:

- the `Order` domain entity (`src/order/domain/order.ts`): an order with an id, a parent
  id, an amount, a status (REQUEST, APPROVAL, CANCEL, COMPLETED), an order time, an accept
  time and a description; its factories (`of`, `create`, `createBadCase`), `validateAccept`,
  `cancel` (a new cancellation order linked to the original), the Sunday discount
  `discountWith(now)`, the in-place `update`, `updateAmount`, `accept`, `complete` and
  `status` setter, `copy`, and the status predicates;
- `MoviesService` (`src/movies/movies.service.ts`): an in-memory list of movie records with
  `getAll`, `create` (numbered length + 1), `getOne` (first match or not-found), `deleteOne`
  (drop every match) and `update` (look up, delete, append the patched record).

Files:

- `wrappers.dfy` — `Option`, `Result` and `Outcome`, standing for `undefined` fields and
  thrown errors.
- `local_date_time.dfy` — module `LocalDateTimes`: a local date-time is an integer count of
  seconds from 1970-01-01T00:00:00 (proleptic Gregorian, no zone); `DateTimeOf` is
  `LocalDateTime.of` on the dates it accepts (a day of the month under the Gregorian
  leap-year rule, in a year from -999999 to 999999), `DayOfWeek` is `dayOfWeek().value()` (1 = Monday … 7 = Sunday).
- `order.dfy` — module `Orders`. The operations that build a new order, and the status
  predicates, are functions on the value `OrderData`. The operations that change an order
  in place are methods of the class `Order`, whose fields are the source's private fields;
  each method's postcondition gives the whole new state, `View()`, as a transition function
  (`Discounted`, `Merged`, `Accepted`, `Completed`) of the old one. The properties are
  lemmas about those functions.
- `movies.dfy` — module `Movies`. `FirstWithId`/`Find` are `Array.prototype.find` by id,
  `WithoutId` is the `filter`, `Merge` is the object spread of `update`; the class
  `MoviesService` holds the list as a `seq<Movie>` field, and its methods are specified by
  those functions.

Time and identifiers are parameters: every date-time is passed in (`now`, `orderTime`,
`cancelTime`), and every order id that the source draws from `Math.random` is a `newId`
parameter.

What the code does, and the model with it:

- `Order.create` validates nothing; of the factories, only `createBadCase` checks the
  amount and the description (`src/order/domain/order.ts:38-44`); `validateAccept`
  checks the same two things on an existing order. `create` takes its amount from a
  `Money`, which is non-negative here.
- `accept`, `complete` and the `status` setter work from any status; the code refuses no
  transition, and neither do the methods here.
- An order without an order time (one built by `of`) can be cancelled: in JavaScript
  `undefined >= cancelTime` is false, so the guard does not throw.
- `MoviesService` numbers a new movie with the list's length + 1, so after a delete a new
  movie can get an id that is already in use (`CreateAfterDeleteReusesId`).
- `update` spreads the client's data over the stored record, so an id in that data moves
  the record to another id (`UpdateLookups`).

## Model

| member | source | states |
|---|---|---|
| `LocalDateTimes.DaysInMonth` | src/test/order/order.spec.ts:15 | a month has 28 to 31 days, and 29 exactly for February of a leap year |
| `LocalDateTimes.DateTimeOf` | src/test/order/order.spec.ts:15 | defined only on existing dates in years -999999 to 999999; the date-time lies on the day `EpochDay` numbers, at the second of day the hour, minute and second give |
| `LocalDateTimes.NextDate` | src/test/order/order.spec.ts:15 | the day after an existing date is an existing date |
| `LocalDateTimes.EpochDayOrigin` | src/test/order/order.spec.ts:15 | day 0 is 1970-01-01 |
| `LocalDateTimes.EpochDayNextDate` | src/test/order/order.spec.ts:15 | the next calendar date has the next day number, across month and year ends and leap days |
| `LocalDateTimes.MarchFollowsFebruary` | src/test/order/order.spec.ts:15 | March 1 is numbered one day after the last day of February, 28 or 29 by the leap-year rule |
| `LocalDateTimes.MarchToMarch` | src/test/order/order.spec.ts:15 | a year counted from March 1 to March 1 has 366 days when it ends in a leap February and 365 otherwise |
| `LocalDateTimes.YearBounds` | src/test/order/order.spec.ts:15 | years -999999 to 999999 are accepted, the years just beyond them are not |
| `LocalDateTimes.LeapDays` | src/test/order/order.spec.ts:15 | 2022 and 1900 have no February 29, 2024 and 2000 do, and 2022-02-30 is no date |
| `LocalDateTimes.DayOfWeek` | src/order/domain/order.ts:175 | the day of the week of a date-time is a number from 1 (Monday) to 7 (Sunday) |
| `LocalDateTimes.DayOfWeekNextDay` | src/order/domain/order.ts:175 | one day later is the next day of the week, Sunday followed by Monday |
| `LocalDateTimes.DayOfWeekOfDate` | src/order/domain/order.ts:175 | whether a date-time is a Sunday depends on its date only, not on its time of day |
| `LocalDateTimes.DiscountTestDateIsSunday` | src/order/domain/order.spec.ts:8 | 2022-08-14T10:15:00, the discount test's date, is a Sunday, and 2022-08-15 a Monday |
| `Orders.Of` | src/order/domain/order.ts:26-31 | `of` gives an order that is its own parent, with the given amount and status and no order time, accept time or description |
| `Orders.Create` | src/order/domain/order.ts:54-66 | `create` gives a REQUEST order that is its own parent, with the money's (non-negative) amount, the description and the order time, and no accept time |
| `Orders.CreateBadCase` | src/order/domain/order.ts:33-52 | `createBadCase` fails exactly when the amount is negative or the description empty, with the amount error taking precedence; otherwise it gives a REQUEST order that is its own parent with the given amount, description and order time |
| `Orders.ValidateAccept` | src/order/domain/order.ts:81-89 | `validateAccept` passes exactly when the amount is not negative and the description is present and non-empty, reporting the amount error first |
| `Orders.Cancel` | src/order/domain/order.ts:120-131 | `cancel` fails exactly when the order time is set and not before the cancel time; otherwise it gives a new CANCEL order with the negated amount, the cancel time as order time, the same description and the original's id as parent id |
| `Orders.Copy` | src/order/domain/order.ts:190-201 | `copy` keeps id, parent id, amount, status, order time and description, and drops the accept time |
| `Orders.IsCompleted` | src/order/domain/order.ts:257-259 | `isCompleted` holds exactly when the status is COMPLETED |
| `Orders.IsCanceled` | src/order/domain/order.ts:261-263 | `isCanceled` holds exactly when the status is CANCEL |
| `Orders.EqualsBilling` | src/order/domain/order.ts:213-215 | `equalsBilling(s)` holds exactly when `s` is the string value of the order's status |
| `Orders.IsNotCompleted` | src/order/domain/order.ts:253-255 | `isNotCompleted` holds exactly when the status is not COMPLETED |
| `Orders.Discounted` | src/order/domain/order.ts:174-178 | the discount changes no field but the amount; on a Sunday the amount becomes 9/10 of what it was, on any other day nothing changes |
| `Orders.Merged` | src/order/domain/order.ts:180-184 | `update(other)` takes order time, description and amount from `other` and keeps id, parent id, status and accept time |
| `Orders.Accepted` | src/order/domain/order.ts:203-206 | `accept(now)` sets status APPROVAL and accept time `now` and changes nothing else |
| `Orders.Completed` | src/order/domain/order.ts:208-211 | `complete(now)` sets status COMPLETED and accept time `now` and changes nothing else |
| `Orders.Order.FromData` | src/order/domain/order.ts:17-20 | a new order object holds exactly the state a factory, `cancel` or `copy` built |
| `Orders.Order.DiscountWith` | src/order/domain/order.ts:174-178 | the object's new state is the discounted old state |
| `Orders.Order.Update` | src/order/domain/order.ts:180-184 | the object's new state is its old state merged with the other order's, also when the other order is the same object |
| `Orders.Order.UpdateAmount` | src/order/domain/order.ts:186-188 | the amount becomes the given one and no other field changes |
| `Orders.Order.SetStatus` | src/order/domain/order.ts:225-227 | the status becomes the given one and no other field changes |
| `Orders.Order.Accept` | src/order/domain/order.ts:203-206 | the object's new state is the accepted old state |
| `Orders.Order.Complete` | src/order/domain/order.ts:208-211 | the object's new state is the completed old state |
| `Orders.CreateBadCaseAgreesWithCreate` | src/order/domain/order.ts:33-66 | on a non-negative whole amount and a non-empty description, `createBadCase` succeeds with the same order `create` builds from that money |
| `Orders.CreatedOrdersPassValidation` | src/order/domain/order.ts:38-44 | every order `createBadCase` builds passes `validateAccept`, and so does every order `create` builds with a non-empty description |
| `Orders.CancellationIsCanceled` | src/order/domain/order.ts:120-131 | a cancellation order is canceled and not completed, and fails `validateAccept` when the original amount was positive |
| `Orders.CancelTwiceRestoresAmount` | src/order/domain/order.ts:120-131 | cancelling a cancellation at a later time succeeds and gives back the original amount and description, with the first cancellation as parent |
| `Orders.CancelNotAfterOrderFails` | src/order/domain/order.ts:121-123 | cancelling at or before the order time fails with the time-order error |
| `Orders.CancelScenario` | src/test/order/order.spec.ts:7-20 | an order of 1000 placed 2021-10-30T10:00 and cancelled 2024-10-31T00:00 gives a CANCEL order of -1000 with the same description |
| `Orders.DiscountScenario` | src/order/domain/order.spec.ts:6-11 | an order of 10000 discounted on 2022-08-14T10:15 has amount 9000 |
| `Orders.DiscountTwice` | src/order/domain/order.ts:174-178 | the discount is not idempotent: on two Sundays the amount becomes 81% of the original; on a non-negative amount one discount stays between zero and the old amount |
| `Orders.AcceptIdempotent` | src/order/domain/order.ts:203-211 | accepting twice at the same time equals accepting once; completing after accepting equals completing alone, and leaves the order completed and not canceled |
| `Orders.MergeProperties` | src/order/domain/order.ts:180-184 | updating an order from its own state changes nothing; updating twice from the same order equals updating once |
| `Orders.CopyKeepsStatus` | src/order/domain/order.ts:190-201 | a copy answers `isCompleted`, `isCanceled` and `equalsBilling` as the original does, and a copy of a copy is the copy |
| `Orders.EqualsBillingIdentifiesStatus` | src/order/domain/order.ts:213-215 | `equalsBilling` with the string of a status holds exactly when the order has that status |
| `Orders.DiscountOnSundayTest` | src/order/domain/order.spec.ts:6-11 | an order object of 10000 built by `of` and discounted on 2022-08-14T10:15 has amount 9000 |
| `Movies.WithId` | src/movies/movies.service.ts:13-16 | a created record has the given id and the client's title, year and genres |
| `Movies.Merge` | src/movies/movies.service.ts:35 | each field the patch holds, the id included, overrides the stored one; each absent field keeps the stored value |
| `Movies.FirstWithId` | src/movies/movies.service.ts:20 | `find` stops at the first record with the id; there is none exactly when no record has the id |
| `Movies.Find` | src/movies/movies.service.ts:20 | `find` gives the record at the first position holding the id, or nothing exactly when no record has it |
| `Movies.WithoutId` | src/movies/movies.service.ts:28 | the filter removes every record with the id, keeps every record without it, and changes nothing when the id is absent |
| `Movies.WithoutIdCounts` | src/movies/movies.service.ts:28 | the filter keeps each record without the id exactly as often as it occurred and no record with it |
| `Movies.MoviesService.constructor` | src/movies/movies.service.ts:6 | a new service has no movies |
| `Movies.MoviesService.GetAll` | src/movies/movies.service.ts:8-10 | `getAll` gives the current list and changes nothing |
| `Movies.MoviesService.Create` | src/movies/movies.service.ts:12-17 | `create` appends exactly one record, numbered the old length + 1, and keeps the earlier records |
| `Movies.MoviesService.GetOne` | src/movies/movies.service.ts:19-25 | `getOne` throws not-found exactly when no record has the id; otherwise it gives the first record with it |
| `Movies.MoviesService.DeleteOne` | src/movies/movies.service.ts:27-30 | `deleteOne` leaves the list filtered of the id |
| `Movies.MoviesService.Update` | src/movies/movies.service.ts:32-36 | `update` throws not-found with the list unchanged when the id is absent; otherwise the list becomes the filtered list with the first record of that id, patched, appended |
| `Movies.WithoutIdAppend` | src/movies/movies.service.ts:28 | the filter keeps order: filtering a concatenation is the concatenation of the filtered parts |
| `Movies.DeleteThenGetOneFails` | src/movies/movies.service.ts:27-30 | after `deleteOne(id)`, `getOne(id)` fails, and deleting the same id again changes nothing |
| `Movies.DeleteKeepsOtherLookups` | src/movies/movies.service.ts:27-30 | `deleteOne(id)` does not change what `getOne` gives for any other id |
| `Movies.FindCons` | src/movies/movies.service.ts:20 | `find` on a list with a head gives the head if it matches and otherwise searches the rest |
| `Movies.FindAfterAppend` | src/movies/movies.service.ts:12-17 | appending a record leaves what `getOne` finds for ids already present; an absent id is found at the new record exactly when it has that id |
| `Movies.UpdateLookups` | src/movies/movies.service.ts:32-36 | after a successful `update(id, patch)`: if the patched record keeps the id, `getOne(id)` gives it; if the patch moves it to a new id, `getOne(id)` fails and the new id finds an older record with that id if any, else the patched one; every other id finds what it found before |
| `Movies.UpdateWithoutIdKeepsId` | src/movies/movies.service.ts:32-36 | after `update(id, patch)` with a patch holding no id, `getOne(id)` gives the patched record |
| `Movies.CreateNumbersInOrder` | src/movies/movies.service.ts:12-17 | while nothing is deleted, records are numbered 1, 2, 3, … in order and each new record is what `getOne` finds for its id |
| `Movies.CreateThenGetOneTest` | src/movies/movies.service.spec.ts:28-39 | on a new service, one `create` is found by `getOne(1)` with id 1 and the client's fields |
| `Movies.GetOneMissingTest` | src/movies/movies.service.spec.ts:41-47 | on a new service, `getOne(23)` throws not-found |
| `Movies.CreateAfterDeleteReusesId` | src/movies/movies.service.ts:14 | create two movies, delete movie 1, create a third: two records now have id 2, and `getOne(2)` finds the older one |

## Left out

- Random id generation (`Math.random() * (99999 - 1) + 1`): every new order id is a parameter; that ids are drawn from [1, 99999), are fractional (there is no `Math.floor`, while the model's ids are integers) and may collide is not modelled.
- Reading the clock: `LocalDateTime.now()` as a default argument of `create` and `createBadCase`, and the clock-reading `discount()`, are left out; callers pass the time.
- Orders.Discounted: the amount is a `real` and 90% is exact; the floating-point rounding of `amount * 0.9` is not modelled.
- `cancelBadCase` and `cancelOrder`: asynchronous copies of `cancel`'s guard and construction whose result is thrown away (their save is commented out); only `cancel` is modelled.
- LocalDateTimes.DateTimeOf: date-times have a resolution of one second; `LocalDateTime`'s nanoseconds are not modelled, so two times within the same second compare equal in `cancel`'s guard.
- Orders.Cancel: `this._orderDateTime >= cancelTime` (`src/order/domain/order.ts:121`) is modelled as comparing instants. JavaScript compares two js-joda objects after converting them to primitives; if `LocalDateTime` defines no `valueOf`, those are ISO strings, whose order differs from time order for years outside 0000–9999, which lie inside the model's year range. That conversion is not modelled.
- The getters: they are the fields of `Orders.Order`, read directly, with no member of their own.
- Orders.EqualsBilling: `src/order/domain/order.status.ts` is not part of this model; the status values are assumed to be the strings "REQUEST", "APPROVAL", "CANCEL" and "COMPLETED".
- `src/money/domain/money.ts` is not part of this model: `Money` is a value whose amount is a natural number; its constructor's validation is not modelled.
- Orders.Order.FromData: the bare `new Order()`, whose fields other than id and parent id are `undefined`, is not an operation of its own; an object is always built from the state a factory, `cancel` or `copy` computed.
- `src/movies/domain/movie.ts` and the DTOs are not part of this model: a movie is taken to have an id, a title, a year and a list of genres, and the create data to have no id (an id in it would override the numbering).
- Movies.MoviesService.GetAll: the source returns the service's own array, so a caller could change the stored list through it; the model returns the list as a value.
- `+id`, the conversion of a route parameter to a number, is not modelled: ids are integers throughout.
- `src/order/order.service.ts`: asynchronous orchestration over a repository that is not part of this model, plus logging; `validatePositive` repeats `createBadCase`'s amount check; `validateInteger` rejects a non-integer amount, which `createBadCase` (and `Orders.CreateBadCase`, whose amount is a `real`) accepts.
- The controllers (`src/order/order.controller.ts`, `src/movies/movies.controller.ts`): HTTP routing and dependency injection only.
