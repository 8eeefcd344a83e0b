/**
 * Order tracking: the fixed progression of the six non-cancelled statuses,
 * the position of an order's status in it, the done / current / pending
 * classification of each step of the timeline, and the paid marks beside the
 * deposit and the balance.
 */
module OrderTracking {
  import opened Optional
  import opened Types

  /** The progression an order moves through; cancellation is not part of it. */
  function StatusSteps(): (steps: seq<OrderStatus>)
    ensures |steps| == 6 && Cancelled !in steps
    ensures forall i, j :: 0 <= i < j < |steps| ==> steps[i] != steps[j]
  {
    [QuoteGenerated, DepositPaid, InProduction, Manufactured, ReadyForDelivery, Delivered]
  }

  /** Position of the first occurrence of a status, or -1 when it does not occur. */
  function IndexOf(steps: seq<OrderStatus>, status: OrderStatus): (k: int)
    ensures -1 <= k < |steps|
    ensures k == -1 <==> status !in steps
    ensures 0 <= k ==> steps[k] == status && forall j :: 0 <= j < k ==> steps[j] != status
  {
    if steps == [] then -1
    else if steps[0] == status then 0
    else
      var k := IndexOf(steps[1..], status);
      if k == -1 then -1 else k + 1
  }

  /** Where an order's status sits in the progression: -1 exactly for a cancelled order. */
  function CurrentStepIndex(status: OrderStatus): (k: int)
    ensures -1 <= k < 6
    ensures k == -1 <==> status == Cancelled
    ensures 0 <= k ==> StatusSteps()[k] == status
  {
    if status == Cancelled then -1
    else
      LiveStatusIsAStep(status);
      IndexOf(StatusSteps(), status)
  }

  /** Every status but cancellation is one of the steps. */
  lemma LiveStatusIsAStep(status: OrderStatus)
    requires status != Cancelled
    ensures status in StatusSteps()
  {
    var steps := StatusSteps();
    match status
    case QuoteGenerated => assert steps[0] == status;
    case DepositPaid => assert steps[1] == status;
    case InProduction => assert steps[2] == status;
    case Manufactured => assert steps[3] == status;
    case ReadyForDelivery => assert steps[4] == status;
    case Delivered => assert steps[5] == status;
  }

  /** Distinct statuses of the progression sit at distinct positions. */
  lemma StepIndexInjective(a: OrderStatus, b: OrderStatus)
    requires a != Cancelled && b != Cancelled
    ensures CurrentStepIndex(a) == CurrentStepIndex(b) <==> a == b
  {
  }

  // ---------------------------------------------------------------------------
  // The timeline
  // ---------------------------------------------------------------------------

  /** A step shows a check when passed, a clock when current, and its 1-based number otherwise. */
  datatype StepMark = Done | Current | Pending(number: int)

  /**
   * One step of the timeline: its status, its mark, whether its circle is
   * highlighted, and, for every step but the last, whether the connector to
   * the next step is highlighted.
   */
  datatype StepView = StepView(status: OrderStatus, mark: StepMark, highlighted: bool, connector: Option<bool>)

  function MarkOf(index: int, current: int): StepMark
  {
    if index < current then Done
    else if index == current then Current
    else Pending(index + 1)
  }

  /** Step `index` of the timeline when step `current` is the order's own. */
  function ViewOf(index: int, current: int): (v: StepView)
    requires 0 <= index < 6
    ensures v.status == StatusSteps()[index]
    ensures v.mark == Done <==> index < current
    ensures v.mark == Current <==> index == current
    ensures v.mark.Pending? <==> current < index
    ensures v.highlighted <==> !v.mark.Pending?
    ensures v.connector.None? <==> index == 5
    ensures v.connector.Some? ==> (v.connector.value <==> v.mark == Done)
  {
    StepView(
      StatusSteps()[index],
      MarkOf(index, current),
      index <= current,
      if index < 5 then Some(index < current) else None)
  }

  /** The timeline of an order; a cancelled order shows none. */
  function Timeline(status: OrderStatus): (views: Option<seq<StepView>>)
    ensures views.None? <==> status == Cancelled
    ensures views.Some? ==> |views.value| == 6
  {
    if status == Cancelled then None
    else
      var current := CurrentStepIndex(status);
      Some(seq(6, i requires 0 <= i < 6 => ViewOf(i, current)))
  }

  /**
   * In the timeline of a live order exactly one step is current, and it is the
   * order's own status; the steps before it are done, the ones after it are
   * pending and show their position counted from 1; a circle is highlighted
   * exactly when its step is not pending, and a connector exactly when the
   * step before it is done.
   */
  lemma TimelineClassifiesSteps(status: OrderStatus)
    requires status != Cancelled
    ensures var views := Timeline(status).value;
      var current := CurrentStepIndex(status);
      && 0 <= current < 6
      && views[current].status == status
      && (forall i :: 0 <= i < 6 ==> (views[i].mark == Current <==> i == current))
      && (forall i :: 0 <= i < 6 ==> (views[i].mark == Done <==> i < current))
      && (forall i :: 0 <= i < 6 ==> (views[i].mark.Pending? <==> current < i))
      && (forall i :: 0 <= i < 6 && views[i].mark.Pending? ==> views[i].mark.number == i + 1)
      && (forall i :: 0 <= i < 6 ==> (views[i].highlighted <==> !views[i].mark.Pending?))
      && (forall i :: 0 <= i < 5 ==> views[i].connector == Some(views[i].mark == Done))
      && views[5].connector == None
  {
    var views := Timeline(status).value;
    var current := CurrentStepIndex(status);
    assert forall i :: 0 <= i < 6 ==> views[i] == ViewOf(i, current);
  }

  /** Further along in the progression, every step that was done stays done. */
  lemma ProgressKeepsDoneSteps(a: OrderStatus, b: OrderStatus, i: int)
    requires a != Cancelled && b != Cancelled
    requires CurrentStepIndex(a) <= CurrentStepIndex(b)
    requires 0 <= i < 6 && Timeline(a).value[i].mark == Done
    ensures Timeline(b).value[i].mark == Done
  {
    assert Timeline(a).value[i] == ViewOf(i, CurrentStepIndex(a));
    assert Timeline(b).value[i] == ViewOf(i, CurrentStepIndex(b));
  }

  /** A delivered order shows five done steps and the last one current; a new quote shows only its first step current. */
  lemma TimelineEnds()
    ensures forall i :: 0 <= i < 5 ==> Timeline(Delivered).value[i].mark == Done
    ensures Timeline(Delivered).value[5].mark == Current
    ensures Timeline(QuoteGenerated).value[0].mark == Current
    ensures forall i :: 1 <= i < 6 ==> Timeline(QuoteGenerated).value[i].mark == Pending(i + 1)
  {
    assert CurrentStepIndex(Delivered) == 5 by {
      assert StatusSteps()[5] == Delivered;
    }
    assert CurrentStepIndex(QuoteGenerated) == 0;
  }

  // ---------------------------------------------------------------------------
  // Payment summary
  // ---------------------------------------------------------------------------

  /** The mark beside the deposit: a check when paid, "(Pendiente)" otherwise. */
  function DepositMark(order: Order): (mark: string)
    ensures mark == " ✓" <==> order.depositPaid
    ensures mark == " (Pendiente)" <==> !order.depositPaid
  {
    if order.depositPaid then " ✓" else " (Pendiente)"
  }

  /** The mark beside the balance: a check when paid, nothing otherwise. */
  function BalanceMark(order: Order): (mark: string)
    ensures mark == " ✓" <==> order.balancePaid
    ensures mark == "" <==> !order.balancePaid
  {
    if order.balancePaid then " ✓" else ""
  }
}
