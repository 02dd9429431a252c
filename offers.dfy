/** The negotiation dialog for one received offer (components/OfferView.tsx): the price
    arithmetic it shows, the two counter strategies, and the review / counter / success
    states its buttons and timers move through. */
module Offers {
  import opened Entities

  // ---------------------------------------------------------------------------
  // Price arithmetic (prices are whole naira)
  // ---------------------------------------------------------------------------

  /** `priceDiff`: how far the buyer is below the asking price. */
  function PriceDiff(o: Offer): (r: int)
    ensures o.offeredPrice + r == o.originalPrice
    ensures r >= 0 <==> o.offeredPrice <= o.originalPrice
  {
    o.originalPrice - o.offeredPrice
  }

  /** `splitDifference`, `Math.round((originalPrice + offeredPrice) / 2)`. On a whole sum
      the half is exact, and `Math.round` takes halves up, to `(sum + 1) div 2`. */
  function SplitDifference(o: Offer): (r: int)
    ensures 2 * r - 1 <= o.originalPrice + o.offeredPrice < 2 * r + 1
  {
    (o.originalPrice + o.offeredPrice + 1) / 2
  }

  /** `Math.round(x)` is the one integer within [x - 1/2, x + 1/2): with x the midpoint,
      the rounding condition of `SplitDifference` pins its value down. */
  lemma SplitDifferenceUnique(o: Offer, r: int)
    requires 2 * r - 1 <= o.originalPrice + o.offeredPrice < 2 * r + 1
    ensures r == SplitDifference(o)
  {
  }

  /** "Fair Middle ... splits the gap": an offer at or below the asking price gets a
      counter between the two prices, cutting the gap into halves that differ by at most
      one naira (the buyer's half being the larger). */
  lemma SplitDifferenceBetween(o: Offer)
    requires o.offeredPrice <= o.originalPrice
    ensures o.offeredPrice <= SplitDifference(o) <= o.originalPrice
    ensures 0 <= (SplitDifference(o) - o.offeredPrice) - (o.originalPrice - SplitDifference(o)) <= 1
    ensures (SplitDifference(o) - o.offeredPrice) + (o.originalPrice - SplitDifference(o)) == PriceDiff(o)
  {
  }

  // ---------------------------------------------------------------------------
  // Counter strategies
  // ---------------------------------------------------------------------------

  datatype Strategy = FairMiddle | KeepPrice

  /** The price a counter button proposes. */
  function CounterPrice(o: Offer, s: Strategy): (r: int)
    ensures s == KeepPrice ==> r == o.originalPrice
    ensures s == FairMiddle ==> 2 * r - 1 <= o.originalPrice + o.offeredPrice < 2 * r + 1
  {
    match s
    case FairMiddle => SplitDifference(o)
    case KeepPrice => o.originalPrice
  }

  /** Neither counter asks for less than the buyer offered, nor more than the asking price,
      when the offer is below it. */
  lemma CounterWithinRange(o: Offer, s: Strategy)
    requires o.offeredPrice <= o.originalPrice
    ensures o.offeredPrice <= CounterPrice(o, s) <= o.originalPrice
  {
    SplitDifferenceBetween(o);
  }

  // ---------------------------------------------------------------------------
  // The dialog
  // ---------------------------------------------------------------------------

  datatype View = Review | CounterView

  /** A `setTimeout` callback that has been scheduled and has not yet run. */
  datatype Timer =
    | AcceptDelay              // 1200 ms after Accept: show the success screen
    | SuccessDelay             // 1500 ms after that: hand the offer to `onAccept`
    | CounterDelay(price: int) // 1000 ms after a counter: toast the price and close

  /** The timers still to run once the `k`-th has run. */
  function RemoveAt(s: seq<Timer>, k: nat): (r: seq<Timer>)
    requires k < |s|
    ensures multiset(r) == multiset(s) - multiset{s[k]}
    ensures |r| == |s| - 1
  {
    assert s == s[..k] + [s[k]] + s[k + 1..];
    s[..k] + s[k + 1..]
  }

  /** The dialog's bookkeeping: at most one Accept takes effect, and each one ends in
      exactly one `onAccept`, either already made or still scheduled. Once Accept has
      taken effect the button stays disabled: first by `isProcessing`, then because the
      success screen replaces the dialog. */
  ghost predicate Consistent(accepted: nat, acceptCalls: nat, pending: seq<Timer>, isProcessing: bool, showSuccess: bool) {
    accepted <= 1
    && acceptCalls + multiset(pending)[AcceptDelay] + multiset(pending)[SuccessDelay] == accepted
    && (accepted == 0 ==> !showSuccess)
    && (multiset(pending)[AcceptDelay] > 0 ==> isProcessing && !showSuccess)
    && (accepted == 1 ==> isProcessing || showSuccess)
  }

  /** The first timer of an Accept hands over to the second and shows the success screen. */
  lemma AcceptDelayKeeps(accepted: nat, acceptCalls: nat, pending: seq<Timer>, isProcessing: bool, showSuccess: bool, k: nat)
    requires Consistent(accepted, acceptCalls, pending, isProcessing, showSuccess)
    requires k < |pending| && pending[k] == AcceptDelay
    ensures Consistent(accepted, acceptCalls, RemoveAt(pending, k) + [SuccessDelay], false, true)
  {
    assert multiset(RemoveAt(pending, k) + [SuccessDelay]) == multiset(RemoveAt(pending, k)) + multiset{SuccessDelay};
  }

  /** The second timer of an Accept is the `onAccept` call it was counted for. */
  lemma SuccessDelayKeeps(accepted: nat, acceptCalls: nat, pending: seq<Timer>, isProcessing: bool, showSuccess: bool, k: nat)
    requires Consistent(accepted, acceptCalls, pending, isProcessing, showSuccess)
    requires k < |pending| && pending[k] == SuccessDelay
    ensures Consistent(accepted, acceptCalls + 1, RemoveAt(pending, k), isProcessing, showSuccess)
    ensures acceptCalls + 1 <= 1
  {
  }

  /** A counter's timer touches no Accept bookkeeping. */
  lemma CounterDelayKeeps(accepted: nat, acceptCalls: nat, pending: seq<Timer>, isProcessing: bool, showSuccess: bool, k: nat)
    requires Consistent(accepted, acceptCalls, pending, isProcessing, showSuccess)
    requires k < |pending| && pending[k].CounterDelay?
    ensures Consistent(accepted, acceptCalls, RemoveAt(pending, k), isProcessing, showSuccess)
  {
  }

  /** The dialog's state fields (`view`, `isProcessing`, `showSuccess`), the timers it has
      scheduled, and, as ghost bookkeeping, how many Accept clicks took effect and how
      many times `onAccept` was called. Closing the dialog (the backdrop, the X, Decline)
      is the parent's business and cancels nothing: timers still pending keep running. */
  class OfferDialog {
    const offer: Offer
    var view: View
    var isProcessing: bool
    var showSuccess: bool
    var pending: seq<Timer>
    ghost var accepted: nat
    ghost var acceptCalls: nat

    ghost predicate Valid()
      reads this
    {
      Consistent(accepted, acceptCalls, pending, isProcessing, showSuccess)
    }

    constructor(offer: Offer)
      ensures this.offer == offer
      ensures view == Review && !isProcessing && !showSuccess && pending == []
      ensures accepted == 0 && acceptCalls == 0
      ensures Valid()
    {
      this.offer := offer;
      view := Review;
      isProcessing := false;
      showSuccess := false;
      pending := [];
      accepted := 0;
      acceptCalls := 0;
    }

    /** The Accept button is on screen and enabled. */
    predicate CanAccept()
      reads this
    {
      !showSuccess && view == Review && !isProcessing
    }

    /** `handleAccept`; a click on the disabled or hidden button does nothing. */
    method ClickAccept()
      requires Valid()
      modifies this
      ensures Valid()
      ensures old(CanAccept()) ==>
        isProcessing && pending == old(pending) + [AcceptDelay] && accepted == old(accepted) + 1
      ensures !old(CanAccept()) ==> pending == old(pending) && isProcessing == old(isProcessing)
      ensures view == old(view) && showSuccess == old(showSuccess) && acceptCalls == old(acceptCalls)
    {
      if CanAccept() {
        isProcessing := true;
        pending := pending + [AcceptDelay];
        accepted := accepted + 1;
      }
    }

    /** The Counter Offer button, and Cancel in the counter view. Neither is disabled
        while a timer is pending. */
    method ShowView(v: View)
      requires Valid()
      modifies this`view
      ensures Valid()
      ensures view == if old(showSuccess) then old(view) else v
    {
      if !showSuccess {
        view := v;
      }
    }

    /** `handleSendCounter` with the chosen strategy's price. The counter buttons are not
        disabled by `isProcessing`, so each click schedules one more toast-and-close. */
    method ClickCounter(s: Strategy)
      requires Valid()
      modifies this
      ensures Valid()
      ensures !old(showSuccess) && old(view) == CounterView ==>
        isProcessing && pending == old(pending) + [CounterDelay(CounterPrice(offer, s))]
      ensures old(showSuccess) || old(view) != CounterView ==>
        pending == old(pending) && isProcessing == old(isProcessing)
      ensures view == old(view) && showSuccess == old(showSuccess)
      ensures accepted == old(accepted) && acceptCalls == old(acceptCalls)
    {
      if !showSuccess && view == CounterView {
        isProcessing := true;
        pending := pending + [CounterDelay(CounterPrice(offer, s))];
      }
    }

    /** The backdrop, the X and Decline call the parent's `onClose`; the success screen
        offers none of them. Nothing of the dialog changes, and no timer is cancelled. */
    method Close() returns (callsOnClose: bool)
      ensures callsOnClose == !showSuccess
    {
      callsOnClose := !showSuccess;
    }

    /** The pending timers run in an order the clock decides; each method below is the
        one at position `k` running. The first timer of an Accept shows the success
        screen and schedules the hand-over. */
    method FireAcceptDelay(k: nat)
      requires Valid()
      requires k < |pending| && pending[k] == AcceptDelay
      modifies this
      ensures Valid()
      ensures showSuccess && !isProcessing && pending == RemoveAt(old(pending), k) + [SuccessDelay]
      ensures view == old(view) && accepted == old(accepted) && acceptCalls == old(acceptCalls)
    {
      AcceptDelayKeeps(accepted, acceptCalls, pending, isProcessing, showSuccess, k);
      isProcessing := false;
      showSuccess := true;
      pending := RemoveAt(pending, k) + [SuccessDelay];
    }

    /** The second timer of an Accept calls `onAccept` with the dialog's own offer,
        unmodified; it is the first and only such call. */
    method FireSuccessDelay(k: nat) returns (handedOver: Offer)
      requires Valid()
      requires k < |pending| && pending[k] == SuccessDelay
      modifies this
      ensures Valid()
      ensures handedOver == offer && pending == RemoveAt(old(pending), k)
      ensures acceptCalls == old(acceptCalls) + 1 == 1
      ensures view == old(view) && accepted == old(accepted)
      ensures showSuccess == old(showSuccess) && isProcessing == old(isProcessing)
    {
      SuccessDelayKeeps(accepted, acceptCalls, pending, isProcessing, showSuccess, k);
      pending := RemoveAt(pending, k);
      acceptCalls := acceptCalls + 1;
      handedOver := offer;
    }

    /** A counter's timer toasts its price and calls `onClose`; it never calls
        `onAccept`. */
    method FireCounterDelay(k: nat) returns (price: int, callsOnClose: bool)
      requires Valid()
      requires k < |pending| && pending[k].CounterDelay?
      modifies this
      ensures Valid()
      ensures price == old(pending[k]).price && pending == RemoveAt(old(pending), k)
      ensures callsOnClose
      ensures acceptCalls == old(acceptCalls)
      ensures view == old(view) && accepted == old(accepted)
      ensures showSuccess == old(showSuccess) && isProcessing == old(isProcessing)
    {
      CounterDelayKeeps(accepted, acceptCalls, pending, isProcessing, showSuccess, k);
      price := pending[k].price;
      pending := RemoveAt(pending, k);
      callsOnClose := true;
    }
  }

  /** Accept followed at once by Decline still accepts: closing cancels no timer, so
      once both timers have run the offer has reached `onAccept`. */
  method AcceptThenDecline(o: Offer) returns (closed: bool, handedOver: Offer)
    ensures closed && handedOver == o
  {
    var d := new OfferDialog(o);
    d.ClickAccept();
    closed := d.Close();
    d.FireAcceptDelay(0);
    handedOver := d.FireSuccessDelay(0);
  }
}
