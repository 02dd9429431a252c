/** The dashboard's state and the handlers that replace it (components/Dashboard.tsx).

    Each handler hands React a new array computed from the previous one; those
    computations are the functions below, each with the lemma that says what it does.
    The class `Store` holds the `useState` fields and applies them. */
module Dashboard {
  import opened Seqs
  import opened Text
  import opened Entities
  import opened Storage
  import opened Feed
  import opened SeedData

  const SupportChatId: string := "chat_support"

  // ---------------------------------------------------------------------------
  // Opening a product
  // ---------------------------------------------------------------------------

  /** `l.id === id ? { ...l, viewCount: (l.viewCount || 0) + 1 } : l` for every listing. */
  function IncrementViews(ls: seq<Listing>, id: string): (r: seq<Listing>)
    ensures |r| == |ls|
  {
    seq(|ls|, i requires 0 <= i < |ls| => if ls[i].id == id then ls[i].(viewCount := Some(Views(ls[i]) + 1)) else ls[i])
  }

  /** The views of all listings together. */
  function TotalViews(ls: seq<Listing>): int {
    if ls == [] then 0 else Views(ls[0]) + TotalViews(ls[1..])
  }

  /** The listings that carry the id. */
  function WithKey(ls: seq<Listing>, id: string): seq<Listing> {
    Filter(ls, HasId(id))
  }

  function HasId(id: string): Listing -> bool {
    (l: Listing) => l.id == id
  }

  /** Opening a listing adds one view to each listing with its id (a missing count
      counts as 0) and changes nothing else; in total exactly that many views are added. */
  lemma {:induction false} IncrementViewsSpec(ls: seq<Listing>, id: string)
    ensures forall i :: 0 <= i < |ls| ==>
      if ls[i].id == id then Views(IncrementViews(ls, id)[i]) == Views(ls[i]) + 1
        && IncrementViews(ls, id)[i].(viewCount := ls[i].viewCount) == ls[i]
      else IncrementViews(ls, id)[i] == ls[i]
    ensures TotalViews(IncrementViews(ls, id)) == TotalViews(ls) + |WithKey(ls, id)|
  {
    if ls != [] {
      IncrementViewsSpec(ls[1..], id);
      assert IncrementViews(ls, id)[1..] == IncrementViews(ls[1..], id);
      assert HasId(id)(ls[0]) == (ls[0].id == id);
    }
  }

  /** `setViewHistory`: refresh the timestamp of the listing's record (the price it
      was first viewed at is kept), or record a first view at the listing's price. */
  function UpsertHistory(h: seq<ViewRecord>, listing: Listing, now: int): seq<ViewRecord> {
    if FindByKey(h, RecordListingId, listing.id).Some? then
      seq(|h|, i requires 0 <= i < |h| => if h[i].listingId == listing.id then h[i].(timestamp := now) else h[i])
    else
      [ViewRecord(listing.id, listing.price, now)] + h
  }

  /** The history keeps one record per listing: the opened listing's record carries the
      new time, a first view is prepended, and every other record stays where it was. */
  lemma UpsertHistorySpec(h: seq<ViewRecord>, listing: Listing, now: int)
    requires UniqueKeys(h, RecordListingId)
    ensures UniqueKeys(UpsertHistory(h, listing, now), RecordListingId)
    ensures var r := UpsertHistory(h, listing, now);
      exists k :: 0 <= k < |r| && r[k].listingId == listing.id && r[k].timestamp == now
    ensures (exists i :: 0 <= i < |h| && h[i].listingId == listing.id) ==>
      var r := UpsertHistory(h, listing, now);
      |r| == |h| && forall i :: 0 <= i < |h| ==>
        if h[i].listingId == listing.id then r[i] == h[i].(timestamp := now) else r[i] == h[i]
    ensures (forall i :: 0 <= i < |h| ==> h[i].listingId != listing.id) ==>
      UpsertHistory(h, listing, now) == [ViewRecord(listing.id, listing.price, now)] + h
  {
    var r := UpsertHistory(h, listing, now);
    if FindByKey(h, RecordListingId, listing.id).Some? {
      var k := IndexOfKey(h, RecordListingId, listing.id);
      assert r[k].listingId == listing.id && r[k].timestamp == now;
      assert forall i :: 0 <= i < |h| ==> r[i].listingId == h[i].listingId;
    } else {
      assert r[0].listingId == listing.id;
      forall i, j | 0 <= i < j < |r|
        ensures r[i].listingId != r[j].listingId
      {
        if i > 0 {
          assert r[i] == h[i - 1] && r[j] == h[j - 1];
        } else {
          assert r[j] == h[j - 1];
        }
      }
    }
  }

  // ---------------------------------------------------------------------------
  // Saved listings
  // ---------------------------------------------------------------------------

  /** `toggleSave`: remove every copy of a saved id, or append an unsaved one. */
  function ToggleSave(saved: seq<string>, id: string): seq<string> {
    if id in saved then WithoutKey(saved, Self, id) else saved + [id]
  }

  /** Toggling flips whether the id is saved and keeps every other id as it was. */
  lemma ToggleSaveFlips(saved: seq<string>, id: string)
    ensures (id in ToggleSave(saved, id)) <==> id !in saved
    ensures forall x :: x != id ==> (x in ToggleSave(saved, id) <==> x in saved)
  {
    var r := ToggleSave(saved, id);
    if id in saved {
      forall x | x != id && x in saved
        ensures x in r
      {
        var i :| 0 <= i < |saved| && saved[i] == x;
      }
    }
  }

  /** Toggling twice restores the saved set; an id that was not saved leaves the list
      exactly as it was. */
  lemma ToggleSaveTwice(saved: seq<string>, id: string)
    ensures forall x :: x in ToggleSave(ToggleSave(saved, id), id) <==> x in saved
    ensures id !in saved ==> ToggleSave(ToggleSave(saved, id), id) == saved
  {
    ToggleSaveFlips(saved, id);
    ToggleSaveFlips(ToggleSave(saved, id), id);
    if id !in saved {
      assert id in saved + [id];
      FilterAppend(saved, [id], KeyIsNot(Self, id));
      assert forall i :: 0 <= i < |saved| ==> KeyIsNot(Self, id)(saved[i]);
      FilterAll(saved, KeyIsNot(Self, id));
      assert Filter([id], KeyIsNot(Self, id)) == [];
    }
  }

  // ---------------------------------------------------------------------------
  // Starting a chat
  // ---------------------------------------------------------------------------

  function ProductTitle(p: Option<Product>): Option<string> {
    if p.Some? then Some(p.value.title) else None
  }

  /** A conversation is identified by the contact and the product's title
      (`c.contactName === contactName && c.product?.title === product?.title`). */
  function ConversationKey(c: Chat): (string, Option<string>) {
    (c.contactName, ProductTitle(c.product))
  }

  function NewConversation(contactName: string, avatar: string, product: Option<Product>, now: nat): Chat {
    Chat("chat_" + NatToString(now), contactName, avatar, "Active now", "Starting conversation...", "Just now",
         false, None, product, [])
  }

  /** The chats after a handler, and the chat it makes active. */
  datatype Opened = Opened(chats: seq<Chat>, activeChatId: string)

  /** `startChat`: resume the first chat with this contact about this product, or
      prepend a new empty one. */
  function StartChat(chats: seq<Chat>, contactName: string, avatar: string, product: Option<Product>, now: nat): Opened {
    var existing := FindByKey(chats, ConversationKey, (contactName, ProductTitle(product)));
    if existing.Some? then Opened(chats, existing.value.id)
    else
      var c := NewConversation(contactName, avatar, product, now);
      Opened([c] + chats, c.id)
  }

  /** Find-or-create: the first existing conversation with this contact about this product
      is made active and nothing is added;
      otherwise exactly one empty conversation about the product is prepended and made active. */
  lemma StartChatSpec(chats: seq<Chat>, contactName: string, avatar: string, product: Option<Product>, now: nat)
    ensures var r := StartChat(chats, contactName, avatar, product, now);
      (exists i :: 0 <= i < |chats| && chats[i].contactName == contactName && ProductTitle(chats[i].product) == ProductTitle(product))
      ==> (r.chats == chats
           && exists k :: 0 <= k < |chats| && ConversationKey(chats[k]) == (contactName, ProductTitle(product))
                && (forall j :: 0 <= j < k ==> ConversationKey(chats[j]) != (contactName, ProductTitle(product)))
                && r.activeChatId == chats[k].id)
    ensures var r := StartChat(chats, contactName, avatar, product, now);
      (forall i :: 0 <= i < |chats| ==> ConversationKey(chats[i]) != (contactName, ProductTitle(product)))
      ==> (|r.chats| == |chats| + 1 && r.chats[1..] == chats
           && r.chats[0].id == r.activeChatId == "chat_" + NatToString(now)
           && r.chats[0].messages == [] && r.chats[0].contactName == contactName && r.chats[0].product == product)
  {
    var key := (contactName, ProductTitle(product));
    if exists i :: 0 <= i < |chats| && chats[i].contactName == contactName && ProductTitle(chats[i].product) == ProductTitle(product) {
      var i :| 0 <= i < |chats| && chats[i].contactName == contactName && ProductTitle(chats[i].product) == ProductTitle(product);
      assert ConversationKey(chats[i]) == key;
      var k := IndexOfKey(chats, ConversationKey, key);
      assert ConversationKey(chats[k]) == key;
    }
  }

  /** Starting the same conversation again (at any later time, with any avatar) only
      resumes it. */
  lemma StartChatTwice(chats: seq<Chat>, contactName: string, avatar: string, avatar2: string,
                       product: Option<Product>, now: nat, later: nat)
    ensures var first := StartChat(chats, contactName, avatar, product, now);
      StartChat(first.chats, contactName, avatar2, product, later) == first
  {
    var key := (contactName, ProductTitle(product));
    var first := StartChat(chats, contactName, avatar, product, now);
    if FindByKey(chats, ConversationKey, key).None? {
      assert ConversationKey(first.chats[0]) == key;
      assert IndexOfKey(first.chats, ConversationKey, key) == 0;
    }
  }

  // ---------------------------------------------------------------------------
  // Accepting an offer
  // ---------------------------------------------------------------------------

  /** `o.id === offer.id ? { ...o, status: 'accepted' } : o` for every offer. */
  function AcceptInOffers(offers: seq<Offer>, id: string): (r: seq<Offer>)
    ensures |r| == |offers|
  {
    seq(|offers|, i requires 0 <= i < |offers| => if offers[i].id == id then offers[i].(status := Accepted) else offers[i])
  }

  /** `l.id === offer.listingId ? { ...l, status: 'committed' } : l` for every listing. */
  function CommitListing(ls: seq<Listing>, listingId: string): (r: seq<Listing>)
    ensures |r| == |ls|
  {
    seq(|ls|, i requires 0 <= i < |ls| => if ls[i].id == listingId then ls[i].(status := Committed) else ls[i])
  }

  /** The chat opened with the buyer: contact and product from the offer, and two
      opening messages addressed to the buyer's first name. */
  function NegotiationChat(offer: Offer, now: nat): Chat {
    Chat("chat_negotiation_" + offer.id, offer.buyerName, offer.buyerAvatar, "Negotiating",
         AcceptedPreview(offer.offeredPrice), "Just now", false, None,
         Some(Product(offer.listingTitle, offer.offeredPrice, offer.listingImage)),
         OpeningMessages(FirstWord(offer.buyerName), now))
  }

  /** The chat list's preview of the negotiation chat (`₦` and en-US digit grouping). */
  function AcceptedPreview(price: int): (r: string)
    ensures |r| > 0 && r[0] == 'O'
  {
    "Offer of ₦" + LocaleInt(price) + " accepted!"
  }

  const NoteAfterName: string := "'s offer! Chat now to arrange a meetup location."
  const GreetingAfterName: string := ", I've accepted your offer. When can you meet at the student union for inspection?"

  /** A note shown as from the buyer, then the seller's greeting. */
  function OpeningMessages(first: string, now: nat): (r: seq<Message>)
    ensures |r| == 2 && r[0].senderId == "them" && r[1].senderId == "me"
    ensures |r[1].text| > 0 && r[1].text[0] == 'H'
  {
    [Message("sys_" + NatToString(now), "You accepted " + first + NoteAfterName, "now", "them", None),
     Message("m_" + NatToString(now), "Hi " + first + GreetingAfterName, "now", "me", None)]
  }

  /** Accepting marks every offer with the id accepted and every listing with the
      offer's listing id committed, whatever its status was (a sold listing too), and
      touches no other record; doing it again changes nothing more. */
  lemma AcceptSpec(offers: seq<Offer>, ls: seq<Listing>, offer: Offer)
    ensures forall i :: 0 <= i < |offers| ==>
      if offers[i].id == offer.id then AcceptInOffers(offers, offer.id)[i] == offers[i].(status := Accepted)
      else AcceptInOffers(offers, offer.id)[i] == offers[i]
    ensures forall i :: 0 <= i < |ls| ==>
      if ls[i].id == offer.listingId then CommitListing(ls, offer.listingId)[i] == ls[i].(status := Committed)
      else CommitListing(ls, offer.listingId)[i] == ls[i]
    ensures AcceptInOffers(AcceptInOffers(offers, offer.id), offer.id) == AcceptInOffers(offers, offer.id)
    ensures CommitListing(CommitListing(ls, offer.listingId), offer.listingId) == CommitListing(ls, offer.listingId)
  {
  }

  /** The negotiation chat: its id names the offer, it holds exactly the two opening
      messages, and its preview (`lastMessage`) is not the text of its last message. */
  lemma NegotiationChatSpec(offer: Offer, now: nat)
    ensures var c := NegotiationChat(offer, now);
      && c.id == "chat_negotiation_" + offer.id
      && |c.messages| == 2
      && c.messages[0].senderId == "them" && c.messages[1].senderId == "me"
      && c.product == Some(Product(offer.listingTitle, offer.offeredPrice, offer.listingImage))
      && c.lastMessage != c.messages[1].text
      && !TailCached(c)
  {
  }

  /** Nothing stops an offer being accepted twice: the chats then begin with two
      negotiation chats that share one id. */
  lemma AcceptTwiceDuplicatesChat(chats: seq<Chat>, offer: Offer, now: nat, later: nat)
    ensures var r := [NegotiationChat(offer, later)] + ([NegotiationChat(offer, now)] + chats);
      |r| == |chats| + 2 && r[0].id == r[1].id
  {
  }

  // ---------------------------------------------------------------------------
  // Listing operations (profile and edit form)
  // ---------------------------------------------------------------------------

  /** `l.id === id ? { ...l, status: 'sold' } : l`. */
  function MarkSold(ls: seq<Listing>, id: string): (r: seq<Listing>)
    ensures |r| == |ls|
  {
    seq(|ls|, i requires 0 <= i < |ls| => if ls[i].id == id then ls[i].(status := Sold) else ls[i])
  }

  /** `l.id === id ? { ...l, isBoosted: true } : l`. */
  function Boost(ls: seq<Listing>, id: string): (r: seq<Listing>)
    ensures |r| == |ls|
  {
    seq(|ls|, i requires 0 <= i < |ls| => if ls[i].id == id then ls[i].(isBoosted := true) else ls[i])
  }

  /** Marking sold works from any status and boosting sets the flag; each changes only
      listings with the id, only in that field, and applying either again changes nothing. */
  lemma MarkSoldBoostSpec(ls: seq<Listing>, id: string)
    ensures forall i :: 0 <= i < |ls| ==>
      if ls[i].id == id then MarkSold(ls, id)[i].status == Sold && MarkSold(ls, id)[i].(status := ls[i].status) == ls[i]
      else MarkSold(ls, id)[i] == ls[i]
    ensures forall i :: 0 <= i < |ls| ==>
      if ls[i].id == id then Boost(ls, id)[i].isBoosted && Boost(ls, id)[i].(isBoosted := ls[i].isBoosted) == ls[i]
      else Boost(ls, id)[i] == ls[i]
    ensures MarkSold(MarkSold(ls, id), id) == MarkSold(ls, id)
    ensures Boost(Boost(ls, id), id) == Boost(ls, id)
  {
  }

  /** The edit form's submit: `old.id === l.id ? l : old`. */
  function ReplaceListing(ls: seq<Listing>, l: Listing): (r: seq<Listing>)
    ensures |r| == |ls|
  {
    seq(|ls|, i requires 0 <= i < |ls| => if ls[i].id == l.id then l else ls[i])
  }

  /** Every listing with the edited id becomes the edited listing; the ids, and so the
      positions of all listings, stay as they were. */
  lemma ReplaceListingSpec(ls: seq<Listing>, l: Listing)
    ensures forall i :: 0 <= i < |ls| ==> ReplaceListing(ls, l)[i].id == ls[i].id
    ensures forall i :: 0 <= i < |ls| ==> ReplaceListing(ls, l)[i] == (if ls[i].id == l.id then l else ls[i])
    ensures l in ReplaceListing(ls, l) <==> l in ls || exists i :: 0 <= i < |ls| && ls[i].id == l.id
  {
    var r := ReplaceListing(ls, l);
    if l in ls {
      var i :| 0 <= i < |ls| && ls[i] == l;
      assert r[i] == l;
    }
    if exists i :: 0 <= i < |ls| && ls[i].id == l.id {
      var i :| 0 <= i < |ls| && ls[i].id == l.id;
      assert r[i] == l;
    }
    if l in r {
      var i :| 0 <= i < |r| && r[i] == l;
      assert ls[i].id == l.id || ls[i] == l;
    }
  }

  /** The add form's listing: the form's fields with a fresh id, available, sold by the
      current user, with no views and no offers. */
  function NewListing(form: Listing, user: Option<User>, now: nat): Listing {
    form.(id := NatToString(now), status := Available, seller := UserName(user), viewCount := Some(0), offerCount := 0)
  }

  lemma AddProductSpec(ls: seq<Listing>, form: Listing, user: Option<User>, now: nat)
    ensures var r := [NewListing(form, user, now)] + ls;
      && r[1..] == ls
      && r[0].status == Available && Views(r[0]) == 0 && r[0].offerCount == 0
      && r[0].seller == UserName(user) && r[0].seller != ""
      && r[0].id == NatToString(now) && |r[0].id| >= 1 && (forall i :: 0 <= i < |r[0].id| ==> IsDigit(r[0].id[i]))
      && r[0].(id := form.id, status := form.status, seller := form.seller, viewCount := form.viewCount, offerCount := form.offerCount) == form
  {
  }

  /** The profile's listings: those whose seller is the current user (`Obokobong` when
      signed out or unnamed). */
  function MyListings(ls: seq<Listing>, user: Option<User>): seq<Listing> {
    Filter(ls, SoldBy(UserName(user)))
  }

  function SoldBy(name: string): Listing -> bool {
    (l: Listing) => l.seller == name
  }

  lemma MyListingsSpec(ls: seq<Listing>, user: Option<User>)
    ensures IsSubsequence(MyListings(ls, user), ls)
    ensures forall i :: 0 <= i < |MyListings(ls, user)| ==> MyListings(ls, user)[i].seller == UserName(user)
    ensures forall i :: 0 <= i < |ls| && ls[i].seller == UserName(user) ==> ls[i] in MyListings(ls, user)
  {
    FilterIsSubsequence(ls, SoldBy(UserName(user)));
    var r := MyListings(ls, user);
    forall i | 0 <= i < |r| ensures r[i].seller == UserName(user) {
      assert SoldBy(UserName(user))(r[i]);
    }
    forall i | 0 <= i < |ls| && ls[i].seller == UserName(user) ensures ls[i] in r {
      assert SoldBy(UserName(user))(ls[i]);
    }
  }

  // ---------------------------------------------------------------------------
  // Sending a message
  // ---------------------------------------------------------------------------

  function SentMessage(text: string, now: nat): Message {
    Message(NatToString(now), text, "now", "me", None)
  }

  /** The chat view's send: append to every chat with the id and set its `lastMessage`;
      `lastMessageTime` is not touched. */
  function SendMessage(chats: seq<Chat>, chatId: string, text: string, now: nat): (r: seq<Chat>)
    ensures |r| == |chats|
  {
    seq(|chats|, i requires 0 <= i < |chats| =>
      if chats[i].id == chatId
      then chats[i].(messages := chats[i].messages + [SentMessage(text, now)], lastMessage := text)
      else chats[i])
  }

  /** Each chat with the id gains exactly one message, the sent one, and shows its text;
      its preview time is left behind, so a preview that agreed with its last message
      stops agreeing unless that time was already `now`. */
  lemma SendMessageSpec(chats: seq<Chat>, chatId: string, text: string, now: nat)
    ensures forall i :: 0 <= i < |chats| && chats[i].id == chatId ==>
      var c := SendMessage(chats, chatId, text, now)[i];
      && |c.messages| == |chats[i].messages| + 1
      && c.messages[..|chats[i].messages|] == chats[i].messages
      && c.messages[|c.messages| - 1] == SentMessage(text, now)
      && c.lastMessage == text && c.lastMessageTime == chats[i].lastMessageTime
      && (TailCached(c) <==> chats[i].lastMessageTime == "now")
    ensures forall i :: 0 <= i < |chats| && chats[i].id != chatId ==> SendMessage(chats, chatId, text, now)[i] == chats[i]
  {
  }

  // ---------------------------------------------------------------------------
  // Notifications
  // ---------------------------------------------------------------------------

  /** `handleMarkRead`: every notification with the id is marked read. */
  function MarkRead(ns: seq<Notification>, id: string): (r: seq<Notification>)
    ensures |r| == |ns|
  {
    seq(|ns|, i requires 0 <= i < |ns| => if ns[i].id == id then ns[i].(isRead := true) else ns[i])
  }

  /** Marking read touches only the flag of notifications with the id, and never adds
      to the unread count. */
  lemma {:induction false} MarkReadSpec(ns: seq<Notification>, id: string)
    ensures forall i :: 0 <= i < |ns| ==>
      if ns[i].id == id then MarkRead(ns, id)[i] == ns[i].(isRead := true) else MarkRead(ns, id)[i] == ns[i]
    ensures UnreadCount(MarkRead(ns, id)) <= UnreadCount(ns)
  {
    if ns != [] {
      MarkReadSpec(ns[1..], id);
      assert MarkRead(ns, id)[1..] == MarkRead(ns[1..], id);
    }
  }

  // ---------------------------------------------------------------------------
  // Notification actions and broadcasts
  // ---------------------------------------------------------------------------

  /** What `handleNotificationAction` does with a payload. */
  datatype Dispatch =
    | OpenListing(listing: Listing)  // `handleOpenProduct(listing)`
    | ListingGone                    // the 'Not Found' toast
    | ShowTab(tab: string)
    | Unhandled                      // the `console.warn` default

  function NotificationAction(payload: Action, listings: seq<Listing>): Dispatch {
    match payload
    case ViewListing(id) =>
      var found := FindByKey(listings, ListingId, id);
      if found.Some? then OpenListing(found.value) else ListingGone
    case ViewOffer(_) => ShowTab("Profile")
    case NavigateTab(tab) => ShowTab(tab)
    case OtherAction(_) => Unhandled
  }

  /** A listing is opened exactly when one with the payload's id exists, and it is the
      first such listing; offers lead to the profile. */
  lemma NotificationActionSpec(payload: Action, listings: seq<Listing>)
    ensures NotificationAction(payload, listings).OpenListing? <==>
      payload.ViewListing? && exists i :: 0 <= i < |listings| && listings[i].id == payload.id
    ensures NotificationAction(payload, listings).OpenListing? ==>
      NotificationAction(payload, listings).listing == listings[IndexOfKey(listings, ListingId, payload.id)]
      && NotificationAction(payload, listings).listing.id == payload.id
    ensures payload.ViewOffer? ==> NotificationAction(payload, listings) == ShowTab("Profile")
  {
    if payload.ViewListing? && exists i :: 0 <= i < |listings| && listings[i].id == payload.id {
      var i :| 0 <= i < |listings| && listings[i].id == payload.id;
      assert ListingId(listings[i]) == payload.id;
    }
  }

  /** `user?.name || 'Student'`: a broadcast's author. */
  function AuthorName(user: Option<User>): (r: string)
    ensures r != ""
    ensures user.Some? && user.value.name != "" ==> r == user.value.name
    ensures !(user.Some? && user.value.name != "") ==> r == "Student"
  {
    if user.Some? && user.value.name != "" then user.value.name else "Student"
  }

  const BroadcastAvatar: string := "https://images.unsplash.com/photo-1535713875002-d1d0cf377fde?w=150"

  /** `handleNewBroadcast`'s record; `minPrice`/`maxPrice` are the parsed budgets, with
      `None` for text `parseFloat` cannot read. */
  function NewBroadcast(user: Option<User>, need: string, details: string, minPrice: Option<int>, maxPrice: Option<int>,
                        radius: string, boostEnabled: bool, now: nat): Broadcast {
    Broadcast("b_" + NatToString(now), AuthorName(user), BroadcastAvatar, need, details,
              Or(minPrice, 0), Or(maxPrice, 0), radius, "Just now", boostEnabled, "General")
  }

  // ---------------------------------------------------------------------------
  // The initial state
  // ---------------------------------------------------------------------------

  /** The `listings` initializer runs first: on a first visit it writes the sample
      listings, notifications and support chat to storage. */
  function Seeded(t: Table): Table {
    if FirstTimeIn(t) then
      t[ListingsKey := ListingsValue(SeedListings)][NotificationsKey := NotificationsValue(SeedNotifications)]
       [ChatsKey := ChatsValue([SeedSupportChat])]
    else t
  }

  /** So a first visit reads back the seeds (the chats initializer's `|| [SEED_SUPPORT_CHAT]`
      never applies, an empty list being truthy), an existing store is left as it was,
      and the next load is not a first visit. */
  lemma SeededSpec(t: Table)
    ensures FirstTimeIn(t) ==>
      ListingsIn(Seeded(t)) == SeedListings && NotificationsIn(Seeded(t)) == SeedNotifications
      && ChatsIn(Seeded(t)) == [SeedSupportChat]
      && OffersIn(Seeded(t)) == OffersIn(t) && SavedIn(Seeded(t)) == SavedIn(t)
      && BroadcastsIn(Seeded(t)) == BroadcastsIn(t) && UserIn(Seeded(t)) == UserIn(t)
    ensures !FirstTimeIn(t) ==> Seeded(t) == t
    ensures !FirstTimeIn(Seeded(t))
  {
  }

  /** The `listings` initializer. */
  method InitialListings(storage: StorageService) returns (listings: seq<Listing>)
    modifies storage
    ensures storage.table == Seeded(old(storage.table))
    ensures listings == storage.GetListings()
  {
    if storage.IsFirstTimeUser() {
      storage.SaveListings(SeedListings);
      storage.SaveNotifications(SeedNotifications);
      storage.SaveChats([SeedSupportChat]);
      listings := SeedListings;
    } else {
      listings := storage.GetListings();
    }
  }

  // ---------------------------------------------------------------------------
  // The store
  // ---------------------------------------------------------------------------

  /** The avatar a chat opened from a product sheet gets. */
  const SellerAvatar: string := "https://images.unsplash.com/photo-1507003211169-0a1dd7228f2d?w=150"

  class Store {
    const user: Option<User>
    var activeTab: string
    var listings: seq<Listing>
    var chats: seq<Chat>
    var notifications: seq<Notification>
    var allOffers: seq<Offer>
    var savedItems: seq<string>
    var broadcasts: seq<Broadcast>
    var viewHistory: seq<ViewRecord>
    var activeChatId: Option<string>
    var selectedListing: Option<Listing>
    var editingListing: Option<Listing>
    var searchQuery: string
    var selectedCategory: string
    var sortBy: string

    /** The view history holds at most one record per listing. */
    ghost predicate Valid()
      reads this
    {
      UniqueKeys(viewHistory, RecordListingId)
    }

    /** The initial state, read back from storage after a first visit has seeded it. */
    constructor(user: Option<User>, storage: StorageService)
      modifies storage
      ensures Valid()
      ensures this.user == user
      ensures storage.table == Seeded(old(storage.table))
      ensures listings == storage.GetListings() && chats == storage.GetChats()
      ensures notifications == storage.GetNotifications()
      ensures allOffers == storage.GetOffers() && savedItems == storage.GetSavedListings()
      ensures broadcasts == (if storage.GetBroadcasts() == [] then SeedBroadcasts else storage.GetBroadcasts())
      ensures viewHistory == [] && activeTab == "Home" && activeChatId == None
      ensures selectedListing == None && editingListing == None
      ensures searchQuery == "" && selectedCategory == AllCategories && sortBy == "Newest"
    {
      var initial := InitialListings(storage);
      this.user := user;
      activeTab := "Home";
      listings := initial;
      chats := storage.GetChats();
      notifications := storage.GetNotifications();
      allOffers := storage.GetOffers();
      savedItems := storage.GetSavedListings();
      var stored := storage.GetBroadcasts();
      broadcasts := if stored == [] then SeedBroadcasts else stored;
      viewHistory := [];
      activeChatId := None;
      selectedListing := None;
      editingListing := None;
      searchQuery := "";
      selectedCategory := AllCategories;
      sortBy := "Newest";
    }

    /** `filteredListings` of the current state. */
    function FeedListings(): seq<Listing>
      reads this
    {
      FilteredListings(listings, selectedCategory, searchQuery, sortBy)
    }

    /** `navItems`' badge: the number of unread notifications. */
    function UnreadBadge(): nat
      reads this
    {
      UnreadCount(notifications)
    }

    /** `recentlyViewedItems`. Its `viewHistory.sort(...)` sorts the state array itself,
        so the history is left in most-recent-first order. */
    method RecentlyViewedItems() returns (r: seq<Listing>)
      requires Valid()
      modifies this`viewHistory
      ensures Valid()
      ensures viewHistory == SortBy(old(viewHistory), LaterFirst())
      ensures r == RecentlyViewed(old(viewHistory), listings)
    {
      SortByKeepsUniqueKeys(viewHistory, LaterFirst(), RecordListingId);
      viewHistory := SortBy(viewHistory, LaterFirst());
      r := Take(Resolve(viewHistory, listings), 8);
    }

    /** `handleOpenProduct`; `now` is `Date.now()`. */
    method OpenProduct(listing: Listing, now: int)
      requires Valid()
      modifies this`listings, this`selectedListing, this`viewHistory
      ensures Valid()
      ensures listings == IncrementViews(old(listings), listing.id)
      ensures selectedListing == Some(listing)
      ensures viewHistory == UpsertHistory(old(viewHistory), listing, now)
    {
      UpsertHistorySpec(viewHistory, listing, now);
      listings := IncrementViews(listings, listing.id);
      selectedListing := Some(listing);
      viewHistory := UpsertHistory(viewHistory, listing, now);
    }

    method ToggleSaved(id: string)
      modifies this`savedItems
      ensures savedItems == ToggleSave(old(savedItems), id)
      ensures (id in savedItems) <==> id !in old(savedItems)
    {
      ToggleSaveFlips(savedItems, id);
      savedItems := ToggleSave(savedItems, id);
    }

    /** `startChat`, then the Messages tab. */
    method StartChatWith(contactName: string, avatar: string, product: Option<Product>, now: nat)
      modifies this`chats, this`activeChatId, this`activeTab
      ensures var o := StartChat(old(chats), contactName, avatar, product, now);
        chats == o.chats && activeChatId == Some(o.activeChatId)
      ensures activeTab == "Messages"
    {
      var o := StartChat(chats, contactName, avatar, product, now);
      chats := o.chats;
      activeChatId := Some(o.activeChatId);
      activeTab := "Messages";
    }

    /** `handleAcceptOffer`. */
    method AcceptOffer(offer: Offer, now: nat)
      modifies this`allOffers, this`listings, this`chats, this`activeChatId, this`activeTab
      ensures allOffers == AcceptInOffers(old(allOffers), offer.id)
      ensures listings == CommitListing(old(listings), offer.listingId)
      ensures chats == [NegotiationChat(offer, now)] + old(chats)
      ensures activeChatId == Some("chat_negotiation_" + offer.id) && activeTab == "Messages"
    {
      allOffers := AcceptInOffers(allOffers, offer.id);
      listings := CommitListing(listings, offer.listingId);
      var c := NegotiationChat(offer, now);
      chats := [c] + chats;
      activeChatId := Some(c.id);
      activeTab := "Messages";
    }

    method SwitchToSupport()
      modifies this`activeChatId, this`activeTab
      ensures activeChatId == Some(SupportChatId) && activeTab == "Messages"
    {
      activeChatId := Some(SupportChatId);
      activeTab := "Messages";
    }

    /** `handleNotificationAction`; `now` is the time an opened product is viewed at. */
    method HandleNotificationAction(payload: Action, now: int)
      requires Valid()
      modifies this`listings, this`selectedListing, this`viewHistory, this`activeTab
      ensures Valid()
      ensures match NotificationAction(payload, old(listings))
        case OpenListing(l) =>
          listings == IncrementViews(old(listings), l.id) && selectedListing == Some(l)
          && viewHistory == UpsertHistory(old(viewHistory), l, now) && activeTab == old(activeTab)
        case ShowTab(tab) =>
          activeTab == tab && listings == old(listings) && selectedListing == old(selectedListing)
          && viewHistory == old(viewHistory)
        case _ =>
          activeTab == old(activeTab) && listings == old(listings) && selectedListing == old(selectedListing)
          && viewHistory == old(viewHistory)
    {
      var d := NotificationAction(payload, listings);
      match d
      case OpenListing(l) => OpenProduct(l, now);
      case ShowTab(tab) => activeTab := tab;
      case ListingGone =>
      case Unhandled =>
    }

    method MarkAllRead()
      modifies this`notifications
      ensures notifications == AllRead(old(notifications))
      ensures UnreadBadge() == 0
    {
      AllReadSpec(notifications);
      notifications := AllRead(notifications);
    }

    method DeleteNotification(id: string)
      modifies this`notifications
      ensures notifications == WithoutKey(old(notifications), NotificationId, id)
    {
      notifications := WithoutKey(notifications, NotificationId, id);
    }

    method MarkNotificationRead(id: string)
      modifies this`notifications
      ensures notifications == MarkRead(old(notifications), id)
      ensures UnreadBadge() <= old(UnreadBadge())
    {
      MarkReadSpec(notifications, id);
      notifications := MarkRead(notifications, id);
    }

    method ClearNotifications()
      modifies this`notifications
      ensures notifications == [] && UnreadBadge() == 0
    {
      notifications := [];
    }

    /** `handleSelectSuggestion`: a category is selected and the search cleared; a
        listing becomes the search text; the assistant entry changes neither. */
    method SelectSuggestion(s: Suggestion)
      modifies this`selectedCategory, this`searchQuery
      ensures s.kind == CategorySuggestion ==> selectedCategory == s.text && searchQuery == ""
      ensures s.kind == ListingSuggestion ==> searchQuery == s.text && selectedCategory == old(selectedCategory)
      ensures s.kind == AiSuggestion ==> searchQuery == old(searchQuery) && selectedCategory == old(selectedCategory)
    {
      match s.kind
      case CategorySuggestion =>
        selectedCategory := s.text;
        searchQuery := "";
      case ListingSuggestion =>
        searchQuery := s.text;
      case AiSuggestion =>
    }

    method AddBroadcast(need: string, details: string, minPrice: Option<int>, maxPrice: Option<int>,
                        radius: string, boostEnabled: bool, now: nat)
      modifies this`broadcasts
      ensures broadcasts == [NewBroadcast(user, need, details, minPrice, maxPrice, radius, boostEnabled, now)] + old(broadcasts)
    {
      var b := NewBroadcast(user, need, details, minPrice, maxPrice, radius, boostEnabled, now);
      broadcasts := [b] + broadcasts;
    }

    /** The edit form's submit, which also closes the form. */
    method SubmitEdit(l: Listing)
      modifies this`listings, this`editingListing
      ensures listings == ReplaceListing(old(listings), l) && editingListing == None
    {
      listings := ReplaceListing(listings, l);
      editingListing := None;
    }

    /** The add form's submit, which returns to the Home tab. */
    method AddProduct(form: Listing, now: nat)
      modifies this`listings, this`activeTab
      ensures listings == [NewListing(form, user, now)] + old(listings) && activeTab == "Home"
    {
      listings := [NewListing(form, user, now)] + listings;
      activeTab := "Home";
    }

    method SendChatMessage(chatId: string, text: string, now: nat)
      modifies this`chats
      ensures chats == SendMessage(old(chats), chatId, text, now)
    {
      chats := SendMessage(chats, chatId, text, now);
    }

    method DeleteListing(id: string)
      modifies this`listings
      ensures listings == WithoutKey(old(listings), ListingId, id)
    {
      listings := WithoutKey(listings, ListingId, id);
    }

    method MarkListingSold(id: string)
      modifies this`listings
      ensures listings == MarkSold(old(listings), id)
    {
      listings := MarkSold(listings, id);
    }

    method BoostListing(id: string)
      modifies this`listings
      ensures listings == Boost(old(listings), id)
    {
      listings := Boost(listings, id);
    }

    /** The product sheet's Mark as Sold: the same update, and the sheet closes. */
    method MarkSoldFromDetail(id: string)
      modifies this`listings, this`selectedListing
      ensures listings == MarkSold(old(listings), id) && selectedListing == None
    {
      listings := MarkSold(listings, id);
      selectedListing := None;
    }

    /** The product sheet's Contact: a chat with the seller about this listing, and the
        sheet closes. */
    method ContactSeller(now: nat)
      requires selectedListing.Some?
      modifies this`chats, this`activeChatId, this`activeTab, this`selectedListing
      ensures var l := old(selectedListing).value;
        var o := StartChat(old(chats), l.seller, SellerAvatar, Some(Product(l.title, l.price, l.imageUrl)), now);
        chats == o.chats && activeChatId == Some(o.activeChatId)
      ensures activeTab == "Messages" && selectedListing == None
    {
      var l := selectedListing.value;
      StartChatWith(l.seller, SellerAvatar, Some(Product(l.title, l.price, l.imageUrl)), now);
      selectedListing := None;
    }

    /** The product sheet's Edit: the listing opens in the form and the sheet closes. */
    method EditFromDetail()
      modifies this`editingListing, this`selectedListing
      ensures editingListing == old(selectedListing) && selectedListing == None
    {
      editingListing := selectedListing;
      selectedListing := None;
    }
  }
}
