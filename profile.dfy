/** The seller's profile (components/ProfileView.tsx): the listings and sold tabs, the
    offers received, the payout account field, and the boost checkout. */
module Profile {
  import opened Seqs
  import opened Text
  import opened Entities

  // ---------------------------------------------------------------------------
  // Listing tabs
  // ---------------------------------------------------------------------------

  function WithStatus(st: ListingStatus): Listing -> bool { (l: Listing) => l.status == st }

  /** `activeListings`. */
  function ActiveListings(ls: seq<Listing>): seq<Listing> { Filter(ls, WithStatus(Available)) }

  /** `soldListings`. */
  function SoldListings(ls: seq<Listing>): seq<Listing> { Filter(ls, WithStatus(Sold)) }

  /** The listings tab shows exactly the available listings and the sold tab exactly the
      sold ones, each in the order given; no listing is on both, and a committed listing
      is on neither. */
  lemma ListingTabsSpec(ls: seq<Listing>)
    ensures IsSubsequence(ActiveListings(ls), ls) && IsSubsequence(SoldListings(ls), ls)
    ensures forall l :: l in ActiveListings(ls) <==> l in ls && l.status == Available
    ensures forall l :: l in SoldListings(ls) <==> l in ls && l.status == Sold
    ensures forall l :: l in ActiveListings(ls) ==> l !in SoldListings(ls)
    ensures forall l :: l in ls && l.status == Committed ==> l !in ActiveListings(ls) && l !in SoldListings(ls)
  {
    FilterIsSubsequence(ls, WithStatus(Available));
    FilterIsSubsequence(ls, WithStatus(Sold));
    forall l | l in ls
      ensures l in ActiveListings(ls) <==> l.status == Available
      ensures l in SoldListings(ls) <==> l.status == Sold
    {
      var i :| 0 <= i < |ls| && ls[i] == l;
      assert WithStatus(Available)(l) == (l.status == Available);
      assert WithStatus(Sold)(l) == (l.status == Sold);
    }
    forall l | l in ActiveListings(ls)
      ensures l in ls && l.status == Available
    {
      var i :| 0 <= i < |ActiveListings(ls)| && ActiveListings(ls)[i] == l;
      assert WithStatus(Available)(l);
    }
    forall l | l in SoldListings(ls)
      ensures l in ls && l.status == Sold
    {
      var i :| 0 <= i < |SoldListings(ls)| && SoldListings(ls)[i] == l;
      assert WithStatus(Sold)(l);
    }
  }

  /** Together with the committed listings the two tabs account for every listing once. */
  lemma ListingTabsCount(ls: seq<Listing>)
    ensures multiset(ActiveListings(ls)) + multiset(SoldListings(ls))
      + multiset(Filter(ls, WithStatus(Committed))) == multiset(ls)
  {
    forall i | 0 <= i < |ls|
      ensures WithStatus(Available)(ls[i]) || WithStatus(Sold)(ls[i]) || WithStatus(Committed)(ls[i])
    {
      assert ls[i].status == Available || ls[i].status == Sold || ls[i].status == Committed;
    }
    FilterPartition3(ls, WithStatus(Available), WithStatus(Sold), WithStatus(Committed));
  }

  // ---------------------------------------------------------------------------
  // Received offers
  // ---------------------------------------------------------------------------

  function NotFrom(name: string): Offer -> bool { (o: Offer) => o.buyerName != name }

  /** `receivedOffers`: the offers whose buyer is not the signed-in user (by default
      'Obokobong'). */
  function ReceivedOffers(offers: seq<Offer>, user: Option<User>): seq<Offer> {
    Filter(offers, NotFrom(UserName(user)))
  }

  /** The received offers are the others' offers, all of them, in the order given. */
  lemma ReceivedOffersSpec(offers: seq<Offer>, user: Option<User>)
    ensures IsSubsequence(ReceivedOffers(offers, user), offers)
    ensures forall o :: o in ReceivedOffers(offers, user) <==> o in offers && o.buyerName != UserName(user)
  {
    var p := NotFrom(UserName(user));
    FilterIsSubsequence(offers, p);
    forall o | o in offers
      ensures o in ReceivedOffers(offers, user) <==> o.buyerName != UserName(user)
    {
      var i :| 0 <= i < |offers| && offers[i] == o;
      assert p(o) == (o.buyerName != UserName(user));
    }
    forall o | o in ReceivedOffers(offers, user)
      ensures o in offers && o.buyerName != UserName(user)
    {
      var i :| 0 <= i < |ReceivedOffers(offers, user)| && ReceivedOffers(offers, user)[i] == o;
      assert p(o);
    }
  }

  // ---------------------------------------------------------------------------
  // Payout account number
  // ---------------------------------------------------------------------------

  /** `value.replace(/[^0-9]/g, '')`: the digits typed, in order. */
  function SanitizeAccount(s: string): string { Filter(s, IsDigit) }

  /** The field holds only digits, keeps every digit typed and in order, leaves an
      all-digit entry as it is, and sanitising again changes nothing. */
  lemma SanitizeAccountSpec(s: string)
    ensures forall i :: 0 <= i < |SanitizeAccount(s)| ==> IsDigit(SanitizeAccount(s)[i])
    ensures IsSubsequence(SanitizeAccount(s), s)
    ensures forall i :: 0 <= i < |s| && IsDigit(s[i]) ==> s[i] in SanitizeAccount(s)
    ensures (forall i :: 0 <= i < |s| ==> IsDigit(s[i])) ==> SanitizeAccount(s) == s
    ensures SanitizeAccount(SanitizeAccount(s)) == SanitizeAccount(s)
  {
    FilterIsSubsequence(s, IsDigit);
    FilterIdempotent(s, IsDigit);
    if forall i :: 0 <= i < |s| ==> IsDigit(s[i]) {
      FilterAll(s, IsDigit);
    }
  }

  // ---------------------------------------------------------------------------
  // Boost checkout
  // ---------------------------------------------------------------------------

  datatype Step = Selection | Processing | Success

  /** `showBoostCheckout`, `boostPaymentStep`, and the ids of the payments scheduled to
      settle (each a pending 2000 ms timer). */
  datatype Checkout = Checkout(selected: Option<Listing>, step: Step, settling: seq<string>)

  const Closed: Checkout := Checkout(None, Selection, [])

  /** The Boost Now button is on screen: a listing is selected and the step is 'selection'. */
  predicate PayOffered(c: Checkout) {
    c.selected.Some? && c.step == Selection
  }

  /** A listing's Boost button, as written: it selects the listing (the button is
      disabled on a boosted listing) and leaves the step where it was. */
  function OpenAsWritten(c: Checkout, item: Listing): (r: Checkout)
    ensures !item.isBoosted ==> r.selected == Some(item) && r.step == c.step && r.settling == c.settling
    ensures !item.isBoosted ==> (PayOffered(r) <==> c.step == Selection)
    ensures item.isBoosted ==> r == c
  {
    if item.isBoosted then c else c.(selected := Some(item))
  }

  /** The Boost button with the step put back to 'selection'. */
  function Open(c: Checkout, item: Listing): (r: Checkout)
    ensures !item.isBoosted ==> PayOffered(r) && r.selected == Some(item) && r.settling == c.settling
    ensures item.isBoosted ==> r == c
  {
    if item.isBoosted then c else c.(selected := Some(item), step := Selection)
  }

  /** The backdrop, Dismiss and Done close the checkout; the step is left as it is. */
  function Dismiss(c: Checkout): Checkout {
    c.(selected := None)
  }

  /** `processBoostPayment`: nothing without a selected listing; otherwise 'processing',
      with a payment for the selected listing's id scheduled. */
  function Pay(c: Checkout): Checkout {
    if c.selected.None? then c
    else c.(step := Processing, settling := c.settling + [c.selected.value.id])
  }

  /** The `k`-th scheduled payment settles: the step becomes 'success' and its listing id
      goes to `onBoostListing`. */
  function Settle(c: Checkout, k: nat): (Checkout, string)
    requires k < |c.settling|
  {
    (c.(step := Success, settling := c.settling[..k] + c.settling[k + 1..]), c.settling[k])
  }

  /** Paying boosts exactly the listing selected when Boost Now was pressed, even if the
      checkout is dismissed or another listing is opened before the payment settles. */
  lemma PaySettlesSelected(c: Checkout)
    requires c.selected.Some?
    ensures Pay(c).step == Processing
    ensures |Pay(c).settling| == |c.settling| + 1
    ensures Settle(Pay(c), |c.settling|).1 == c.selected.value.id
    ensures Settle(Pay(c), |c.settling|).0.step == Success
    ensures Settle(Pay(c), |c.settling|).0.settling == c.settling
  {
    assert Pay(c).settling[..|c.settling|] == c.settling;
  }

  /** Pressing Boost Now with nothing selected changes nothing. */
  lemma PayWithoutSelection(c: Checkout)
    requires c.selected.None?
    ensures Pay(c) == c
  {
  }

  /** As written, within one mounting of the profile screen, once a payment has settled
      nothing brings the step back to 'selection': opening, dismissing, paying and
      settling all keep it past it. */
  lemma StepNeverResets(c: Checkout, item: Listing, k: nat)
    requires c.step != Selection
    ensures OpenAsWritten(c, item).step != Selection
    ensures Dismiss(c).step != Selection
    ensures Pay(c).step != Selection
    ensures k < |c.settling| ==> Settle(c, k).0.step != Selection
  {
  }

  /** As written, after one boost has gone through, opening the checkout for another
      listing shows the success screen at once: Boost Now is not offered, so that
      listing cannot be paid for. */
  lemma SecondBoostAsWritten(a: Listing, b: Listing)
    requires !a.isBoosted && !b.isBoosted
    ensures Settle(Pay(OpenAsWritten(Closed, a)), 0).1 == a.id
    ensures !PayOffered(OpenAsWritten(Dismiss(Settle(Pay(OpenAsWritten(Closed, a)), 0).0), b))
    ensures OpenAsWritten(Dismiss(Settle(Pay(OpenAsWritten(Closed, a)), 0).0), b).step == Success
  {
  }

  /** With the step reset, the second listing gets its own payment, for its own id. */
  lemma SecondBoost(a: Listing, b: Listing)
    requires !a.isBoosted && !b.isBoosted
    ensures Settle(Pay(Open(Closed, a)), 0).1 == a.id
    ensures PayOffered(Open(Dismiss(Settle(Pay(Open(Closed, a)), 0).0), b))
    ensures Settle(Pay(Open(Dismiss(Settle(Pay(Open(Closed, a)), 0).0), b)), 0).1 == b.id
  {
  }

  /** The checkout's state fields, moved by its buttons and its payment timer. Opening
      is the button as written, `OpenAsWritten`, which leaves the step where it was. */
  class BoostCheckout {
    var selected: Option<Listing>
    var step: Step
    var settling: seq<string>

    function State(): Checkout
      reads this
    {
      Checkout(selected, step, settling)
    }

    constructor()
      ensures State() == Closed
    {
      selected := None;
      step := Selection;
      settling := [];
    }

    method OpenFor(item: Listing)
      modifies this
      ensures State() == OpenAsWritten(old(State()), item)
    {
      if !item.isBoosted {
        selected := Some(item);
      }
    }

    method Close()
      modifies this
      ensures State() == Dismiss(old(State()))
    {
      selected := None;
    }

    method ProcessPayment()
      modifies this
      ensures State() == Pay(old(State()))
    {
      if selected.None? {
        return;
      }
      step := Processing;
      settling := settling + [selected.value.id];
    }

    /** The `k`-th pending payment timer runs; `boosted` is the id passed on. */
    method PaymentSettled(k: nat) returns (boosted: string)
      requires k < |settling|
      modifies this
      ensures (State(), boosted) == Settle(old(State()), k)
    {
      boosted := settling[k];
      step := Success;
      settling := settling[..k] + settling[k + 1..];
    }
  }
}
