/** The `Order` domain entity: an order with an amount, a lifecycle status and its times.
    Time is always a parameter, never read from a clock, so every operation is
    deterministic. Identifiers that the source draws at random are parameters too.

    The operations that build a new order (`of`, `create`, `createBadCase`, `cancel`,
    `copy`) and the status predicates are functions on the value `OrderData`; the
    operations that change an order in place are methods of the class `Order`, each
    specified by a transition function on `OrderData`. */
module Orders {
  import opened Wrappers
  import opened LocalDateTimes

  type OrderId = int

  /** The order statuses, under the names the source's enum gives them. */
  datatype OrderStatus = REQUEST | APPROVAL | CANCEL | COMPLETED

  /** An amount of money; it is never negative. */
  datatype Money = Money(amount: nat)

  /** The state of one order. A field the source leaves `undefined` is `None`. */
  datatype OrderData = OrderData(
    id: OrderId,
    parentId: OrderId,
    amount: real,
    status: OrderStatus,
    orderDateTime: Option<Time>,
    acceptDateTime: Option<Time>,
    description: Option<string>)

  /** The errors the order operations throw. */
  datatype OrderError =
    | NegativeAmount(amount: real)   // an order amount may not be negative
    | MissingDescription             // an order needs a description
    | CancelNotAfterOrder            // the cancel time must come after the order time

  /** The string value of each status. */
  function StatusName(s: OrderStatus): string
  {
    match s
    case REQUEST => "REQUEST"
    case APPROVAL => "APPROVAL"
    case CANCEL => "CANCEL"
    case COMPLETED => "COMPLETED"
  }

  /** JavaScript's `!description`: the description is missing or empty. */
  predicate Falsy(description: Option<string>)
  {
    description.None? || description.value == ""
  }

  // ---------------------------------------------------------------------------
  // Factories

  /** `Order.of(amount, status)`: a new order that is its own parent, with only an
      amount and a status; no order time, accept time or description. */
  function Of(newId: OrderId, amount: real, status: OrderStatus): (r: OrderData)
    ensures r.id == newId && r.parentId == r.id
    ensures r.amount == amount && r.status == status
    ensures r.orderDateTime.None? && r.acceptDateTime.None? && r.description.None?
  {
    OrderData(newId, newId, amount, status, None, None, None)
  }

  /** `Order.create(money, description, orderTime)`: a new requested order, its own parent,
      for the money's amount; it checks nothing. */
  function Create(newId: OrderId, money: Money, description: string, orderTime: Time): (r: OrderData)
    ensures r.id == newId && r.parentId == r.id
    ensures r.status == REQUEST && r.amount == money.amount as real && r.amount >= 0.0
    ensures r.orderDateTime == Some(orderTime) && r.description == Some(description)
    ensures r.acceptDateTime.None?
  {
    OrderData(newId, newId, money.amount as real, REQUEST, Some(orderTime), None, Some(description))
  }

  /** `Order.createBadCase(amount, description, orderTime)`: like `create`, but it checks the
      amount first and then the description, and fails on the first that is wrong. */
  function CreateBadCase(newId: OrderId, amount: real, description: string, orderTime: Time)
    : (r: Result<OrderData, OrderError>)
    ensures r.Failure? <==> amount < 0.0 || description == ""
    ensures amount < 0.0 ==> r == Failure(NegativeAmount(amount))
    ensures amount >= 0.0 && description == "" ==> r == Failure(MissingDescription)
    ensures r.Success? ==>
      && r.value.id == newId && r.value.parentId == newId
      && r.value.status == REQUEST && r.value.amount == amount
      && r.value.orderDateTime == Some(orderTime) && r.value.description == Some(description)
      && r.value.acceptDateTime.None?
  {
    if amount < 0.0 then Failure(NegativeAmount(amount))
    else if description == "" then Failure(MissingDescription)
    else Success(OrderData(newId, newId, amount, REQUEST, Some(orderTime), None, Some(description)))
  }

  /** `validateAccept()`: the amount must not be negative and the description must be
      present and non-empty, checked in that order. */
  function ValidateAccept(o: OrderData): (r: Outcome<OrderError>)
    ensures r.Pass? <==> o.amount >= 0.0 && !Falsy(o.description)
    ensures o.amount < 0.0 ==> r == Fail(NegativeAmount(o.amount))
    ensures o.amount >= 0.0 && Falsy(o.description) ==> r == Fail(MissingDescription)
  {
    if o.amount < 0.0 then Fail(NegativeAmount(o.amount))
    else if Falsy(o.description) then Fail(MissingDescription)
    else Pass
  }

  // ---------------------------------------------------------------------------
  // Orders built from an existing order

  /** `cancel(cancelTime)`: a new cancellation order linked to `o` through its parent id,
      with the amount negated, status CANCEL and the cancel time as its order time. It fails
      exactly when `o` has an order time that is not before the cancel time (an order
      without an order time compares false and is cancelled). `o` itself is a value and
      does not change. */
  function Cancel(o: OrderData, newId: OrderId, cancelTime: Time): (r: Result<OrderData, OrderError>)
    ensures r.Failure? <==> o.orderDateTime.Some? && o.orderDateTime.value >= cancelTime
    ensures r.Failure? ==> r.error == CancelNotAfterOrder
    ensures r.Success? ==>
      && r.value.id == newId && r.value.parentId == o.id
      && r.value.amount == -o.amount && r.value.status == CANCEL
      && r.value.orderDateTime == Some(cancelTime) && r.value.description == o.description
      && r.value.acceptDateTime.None?
  {
    if o.orderDateTime.Some? && o.orderDateTime.value >= cancelTime then
      Failure(CancelNotAfterOrder)
    else
      Success(OrderData(newId, o.id, -o.amount, CANCEL, Some(cancelTime), None, o.description))
  }

  /** `copy()`: a new order with the same identity, amount, status, times and description,
      except that the accept time is not carried over. */
  function Copy(o: OrderData): (r: OrderData)
    ensures r.id == o.id && r.parentId == o.parentId
    ensures r.amount == o.amount && r.status == o.status
    ensures r.orderDateTime == o.orderDateTime && r.description == o.description
    ensures r.acceptDateTime.None?
  {
    o.(acceptDateTime := None)
  }

  // ---------------------------------------------------------------------------
  // Status predicates

  /** `isCompleted()`: the status is COMPLETED. */
  predicate IsCompleted(o: OrderData)
    ensures IsCompleted(o) <==> o.status == COMPLETED
  {
    o.status == COMPLETED
  }

  /** `isNotCompleted()`: the negation of `isCompleted()`. */
  predicate IsNotCompleted(o: OrderData)
    ensures IsNotCompleted(o) <==> o.status != COMPLETED
  {
    !IsCompleted(o)
  }

  /** `isCanceled()`: the status is CANCEL. */
  predicate IsCanceled(o: OrderData)
    ensures IsCanceled(o) <==> o.status == CANCEL
  {
    o.status == CANCEL
  }

  /** `equalsBilling(billingStatus)`: the status's string value is the given string. */
  predicate EqualsBilling(o: OrderData, billingStatus: string)
    ensures EqualsBilling(o, billingStatus) <==> billingStatus == StatusName(o.status)
  {
    StatusName(o.status) == billingStatus
  }

  // ---------------------------------------------------------------------------
  // In-place transitions, as functions from the old state to the new one

  /** The state after `discountWith(now)`: on a Sunday the amount is 90% of what it was,
      on any other day nothing changes; no field but the amount ever changes. */
  function Discounted(o: OrderData, now: Time): (r: OrderData)
    ensures r.(amount := o.amount) == o
    ensures IsSunday(now) ==> r.amount * 10.0 == o.amount * 9.0
    ensures !IsSunday(now) ==> r == o
  {
    if IsSunday(now) then o.(amount := o.amount * 0.9) else o
  }

  /** The state after `update(other)`: order time, description and amount come from
      `other`; id, parent id, status and accept time stay. */
  function Merged(o: OrderData, other: OrderData): (r: OrderData)
    ensures r.id == o.id && r.parentId == o.parentId
    ensures r.status == o.status && r.acceptDateTime == o.acceptDateTime
    ensures r.orderDateTime == other.orderDateTime && r.description == other.description
    ensures r.amount == other.amount
  {
    o.(orderDateTime := other.orderDateTime, description := other.description, amount := other.amount)
  }

  /** The state after `accept(now)`: approved at `now`, nothing else changed. */
  function Accepted(o: OrderData, now: Time): (r: OrderData)
    ensures r.status == APPROVAL && r.acceptDateTime == Some(now)
    ensures r.(status := o.status, acceptDateTime := o.acceptDateTime) == o
  {
    o.(status := APPROVAL, acceptDateTime := Some(now))
  }

  /** The state after `complete(now)`: completed at `now`, nothing else changed. */
  function Completed(o: OrderData, now: Time): (r: OrderData)
    ensures r.status == COMPLETED && r.acceptDateTime == Some(now)
    ensures r.(status := o.status, acceptDateTime := o.acceptDateTime) == o
  {
    o.(status := COMPLETED, acceptDateTime := Some(now))
  }

  // ---------------------------------------------------------------------------
  // The order as a mutable object

  /** An order object. Its fields are the source's private fields, read directly where the
      source has a getter. */
  class Order {
    var id: OrderId
    var parentId: OrderId
    var amount: real
    var status: OrderStatus
    var orderDateTime: Option<Time>
    var acceptDateTime: Option<Time>
    var description: Option<string>

    /** The object's current state as a value. */
    function View(): OrderData
      reads this
    {
      OrderData(id, parentId, amount, status, orderDateTime, acceptDateTime, description)
    }

    /** A new object holding the order a factory, `cancel` or `copy` built. */
    constructor FromData(d: OrderData)
      ensures View() == d
    {
      id, parentId, amount, status := d.id, d.parentId, d.amount, d.status;
      orderDateTime, acceptDateTime, description := d.orderDateTime, d.acceptDateTime, d.description;
    }

    /** `discountWith(now)`. */
    method DiscountWith(now: Time)
      modifies this
      ensures View() == Discounted(old(View()), now)
    {
      if IsSunday(now) {
        amount := amount * 0.9;
      }
    }

    /** `update(other)`; `other` may be this very order. */
    method Update(other: Order)
      modifies this
      ensures View() == Merged(old(View()), old(other.View()))
    {
      var time, text, value := other.orderDateTime, other.description, other.amount;
      orderDateTime := time;
      description := text;
      amount := value;
    }

    /** `updateAmount(amount)`: the amount becomes the given one, nothing else changes. */
    method UpdateAmount(newAmount: real)
      modifies this
      ensures View() == old(View()).(amount := newAmount)
    {
      amount := newAmount;
    }

    /** The `status` setter: the status becomes the given one, nothing else changes. */
    method SetStatus(value: OrderStatus)
      modifies this
      ensures View() == old(View()).(status := value)
    {
      status := value;
    }

    /** `accept(now)`. */
    method Accept(now: Time)
      modifies this
      ensures View() == Accepted(old(View()), now)
    {
      status := APPROVAL;
      acceptDateTime := Some(now);
    }

    /** `complete(now)`. */
    method Complete(now: Time)
      modifies this
      ensures View() == Completed(old(View()), now)
    {
      status := COMPLETED;
      acceptDateTime := Some(now);
    }
  }

  // ---------------------------------------------------------------------------
  // Properties

  /** On valid input the checking factory and the `Money` factory build the same order. */
  lemma CreateBadCaseAgreesWithCreate(newId: OrderId, amount: nat, description: string, orderTime: Time)
    requires description != ""
    ensures CreateBadCase(newId, amount as real, description, orderTime)
         == Success(Create(newId, Money(amount), description, orderTime))
  {
  }

  /** An order built by `createBadCase` passes `validateAccept`, and so does one built by
      `create` with a non-empty description: both check the same two rules. */
  lemma CreatedOrdersPassValidation(newId: OrderId, money: Money, amount: real, description: string, orderTime: Time)
    ensures description != "" ==> ValidateAccept(Create(newId, money, description, orderTime)) == Pass
    ensures CreateBadCase(newId, amount, description, orderTime).Success? ==>
              ValidateAccept(CreateBadCase(newId, amount, description, orderTime).value) == Pass
  {
  }

  /** A cancellation order is canceled and not completed, and never passes
      `validateAccept` when the original amount was positive. */
  lemma CancellationIsCanceled(o: OrderData, newId: OrderId, cancelTime: Time)
    requires Cancel(o, newId, cancelTime).Success?
    ensures IsCanceled(Cancel(o, newId, cancelTime).value)
    ensures IsNotCompleted(Cancel(o, newId, cancelTime).value)
    ensures o.amount > 0.0 ==> ValidateAccept(Cancel(o, newId, cancelTime).value).Fail?
  {
  }

  /** Cancelling a cancellation (later still) gives back the original amount and
      description, and links to the first cancellation. */
  lemma CancelTwiceRestoresAmount(o: OrderData, id1: OrderId, t1: Time, id2: OrderId, t2: Time)
    requires Cancel(o, id1, t1).Success?
    requires t1 < t2
    ensures Cancel(Cancel(o, id1, t1).value, id2, t2).Success?
    ensures Cancel(Cancel(o, id1, t1).value, id2, t2).value.amount == o.amount
    ensures Cancel(Cancel(o, id1, t1).value, id2, t2).value.description == o.description
    ensures Cancel(Cancel(o, id1, t1).value, id2, t2).value.parentId == id1
  {
  }

  /** The cancel test: an order of 1000 placed 2021-10-30T10:00 and cancelled
      2024-10-31T00:00 gives a CANCEL order of -1000 with the same description. */
  lemma CancelScenario(newId: OrderId, cancelId: OrderId, description: string)
    ensures var o := Create(newId, Money(1000), description, DateTimeOf(2021, 10, 30, 10, 0, 0));
            var c := Cancel(o, cancelId, DateTimeOf(2024, 10, 31, 0, 0, 0));
            c.Success? && c.value.status == CANCEL && c.value.amount == -1000.0
            && c.value.description == Some(description)
  {
  }

  /** Cancelling at or before the order time fails, whatever the rest of the order. */
  lemma CancelNotAfterOrderFails(o: OrderData, newId: OrderId, cancelTime: Time)
    requires o.orderDateTime == Some(cancelTime) || (o.orderDateTime.Some? && cancelTime < o.orderDateTime.value)
    ensures Cancel(o, newId, cancelTime) == Failure(CancelNotAfterOrder)
  {
  }

  /** The discount test: an order of 10000 discounted on Sunday 2022-08-14T10:15 is 9000. */
  lemma DiscountScenario(newId: OrderId)
    ensures Discounted(Of(newId, 10000.0, APPROVAL), DateTimeOf(2022, 8, 14, 10, 15, 0)).amount == 9000.0
  {
  }

  /** The discount is not idempotent: on two Sundays it applies twice (81%). A discount on
      a non-negative amount keeps it between zero and the old amount. */
  lemma DiscountTwice(o: OrderData, sunday1: Time, sunday2: Time)
    requires IsSunday(sunday1) && IsSunday(sunday2)
    ensures Discounted(Discounted(o, sunday1), sunday2).amount * 100.0 == o.amount * 81.0
    ensures o.amount >= 0.0 ==> 0.0 <= Discounted(o, sunday1).amount <= o.amount
  {
  }

  /** `accept(now)` twice with the same `now` leaves the state of one call, and `complete`
      after `accept` leaves no trace of the acceptance but what `complete` sets. */
  lemma AcceptIdempotent(o: OrderData, now: Time, later: Time)
    ensures Accepted(Accepted(o, now), now) == Accepted(o, now)
    ensures Completed(Accepted(o, now), later) == Completed(o, later)
    ensures IsCompleted(Completed(o, later)) && !IsCanceled(Completed(o, later))
  {
  }

  /** `update` with an order's own state changes nothing, and updating twice from the same
      order is the same as once. */
  lemma MergeProperties(o: OrderData, other: OrderData)
    ensures Merged(o, o) == o
    ensures Merged(Merged(o, other), other) == Merged(o, other)
  {
  }

  /** A copy answers every status predicate as the original, and copying a copy changes
      nothing more. */
  lemma CopyKeepsStatus(o: OrderData, billingStatus: string)
    ensures IsCompleted(Copy(o)) == IsCompleted(o)
    ensures IsCanceled(Copy(o)) == IsCanceled(o)
    ensures EqualsBilling(Copy(o), billingStatus) == EqualsBilling(o, billingStatus)
    ensures Copy(Copy(o)) == Copy(o)
  {
  }

  /** `equalsBilling` tells the statuses apart: it holds for the string of a status exactly
      when the order has that status. */
  lemma EqualsBillingIdentifiesStatus(o: OrderData, s: OrderStatus)
    ensures EqualsBilling(o, StatusName(s)) <==> o.status == s
  {
  }

  /** The discount test's steps, on an order object. */
  method DiscountOnSundayTest(newId: OrderId) returns (amountAfter: real)
    ensures amountAfter == 9000.0
  {
    var sut := new Order.FromData(Of(newId, 10000.0, APPROVAL));
    sut.DiscountWith(DateTimeOf(2022, 8, 14, 10, 15, 0));
    DiscountScenario(newId);
    amountAfter := sut.amount;
  }
}
