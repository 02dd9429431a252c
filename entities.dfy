/** The marketplace's records, with the fields the front end reads and writes.
    Optional booleans of the front-end records (`isUrgent?`, `isBoosted?`, `isSupport?`)
    are plain `bool`s: a missing flag reads as `false` everywhere it is tested. */
module Entities {
  import opened Seqs

  /** Listing status: available until an offer is accepted (committed) or it is marked sold. */
  datatype ListingStatus = Available | Committed | Sold

  datatype Listing = Listing(
    id: string,
    title: string,
    price: int,
    category: string,
    description: string,
    imageUrl: string,
    seller: string,
    location: string,
    isUrgent: bool,
    isNegotiable: bool,
    isBoosted: bool,
    status: ListingStatus,
    viewCount: Option<int>,  // None: the field is missing, which `(l.viewCount || 0)` reads as 0
    offerCount: int)

  function ListingId(l: Listing): string { l.id }

  /** The number of views, with a missing count read as 0. */
  function Views(l: Listing): int {
    match l.viewCount
    case Some(n) => n
    case None => 0
  }

  /** `Partial<Listing>`: a present field overrides the stored one in `{...l, ...updates}`. */
  datatype ListingPatch = ListingPatch(
    id: Option<string>,
    title: Option<string>,
    price: Option<int>,
    category: Option<string>,
    description: Option<string>,
    imageUrl: Option<string>,
    seller: Option<string>,
    location: Option<string>,
    isUrgent: Option<bool>,
    isNegotiable: Option<bool>,
    isBoosted: Option<bool>,
    status: Option<ListingStatus>,
    viewCount: Option<int>,
    offerCount: Option<int>)

  function Or<T>(o: Option<T>, d: T): T {
    if o.Some? then o.value else d
  }

  /** The empty patch `{}`. */
  const NoChange: ListingPatch :=
    ListingPatch(None, None, None, None, None, None, None, None, None, None, None, None, None, None)

  /** `{ ...l, ...updates }`: the id too is replaced when the patch carries one. */
  function Merge(l: Listing, u: ListingPatch): Listing {
    Listing(Or(u.id, l.id), Or(u.title, l.title), Or(u.price, l.price), Or(u.category, l.category),
            Or(u.description, l.description), Or(u.imageUrl, l.imageUrl), Or(u.seller, l.seller),
            Or(u.location, l.location), Or(u.isUrgent, l.isUrgent), Or(u.isNegotiable, l.isNegotiable),
            Or(u.isBoosted, l.isBoosted), Or(u.status, l.status),
            if u.viewCount.Some? then u.viewCount else l.viewCount, Or(u.offerCount, l.offerCount))
  }

  /** The product a chat is about. */
  datatype Product = Product(title: string, price: int, imageUrl: string)

  datatype Message = Message(id: string, text: string, timestamp: string, senderId: string, agentName: Option<string>)

  datatype SupportMeta = SupportMeta(isOnline: bool, estimatedWaitMinutes: int, activeAgentsCount: int)

  datatype Chat = Chat(
    id: string,
    contactName: string,
    contactAvatar: string,
    lastSeen: string,
    lastMessage: string,
    lastMessageTime: string,
    isSupport: bool,
    supportMeta: Option<SupportMeta>,
    product: Option<Product>,
    messages: seq<Message>)

  function ChatId(c: Chat): string { c.id }

  /** The denormalised preview agrees with the tail of the message list. */
  predicate TailCached(c: Chat) {
    |c.messages| > 0
    && c.lastMessage == c.messages[|c.messages| - 1].text
    && c.lastMessageTime == c.messages[|c.messages| - 1].timestamp
  }

  /** Notification kinds: 'match', 'price_drop', 'offer', 'system', 'trending', 'payment'. */
  datatype NotificationType = Match | PriceDrop | OfferKind | System | Trending | Payment

  /** The `actionPayload` of a notification, by its `type` field: 'view_listing',
      'view_offer', 'navigate_tab', or any other string. */
  datatype Action =
    | ViewListing(id: string)
    | ViewOffer(id: string)
    | NavigateTab(tab: string)
    | OtherAction(kind: string)

  datatype Notification = Notification(
    id: string,
    kind: NotificationType,
    title: string,
    message: string,
    time: string,
    isRead: bool,
    relatedImage: Option<string>,
    actionLabel: Option<string>,
    actionPayload: Option<Action>)

  function NotificationId(n: Notification): string { n.id }

  /** `notifications.map(n => ({ ...n, isRead: true }))`, and what `forEach(n => n.isRead = true)`
      leaves behind. */
  function AllRead(ns: seq<Notification>): seq<Notification> {
    seq(|ns|, i requires 0 <= i < |ns| => ns[i].(isRead := true))
  }

  /** `notifications.filter(n => !n.isRead).length`. */
  function UnreadCount(ns: seq<Notification>): nat {
    |Filter(ns, IsUnread)|
  }

  predicate IsUnread(n: Notification) { !n.isRead }

  /** Marking everything read leaves every notification read and changes nothing else. */
  lemma AllReadSpec(ns: seq<Notification>)
    ensures |AllRead(ns)| == |ns|
    ensures forall i :: 0 <= i < |ns| ==> AllRead(ns)[i].isRead && AllRead(ns)[i].(isRead := ns[i].isRead) == ns[i]
    ensures UnreadCount(AllRead(ns)) == 0
  {
    FilterNone(AllRead(ns), IsUnread);
  }

  lemma AllReadIdempotent(ns: seq<Notification>)
    ensures AllRead(AllRead(ns)) == AllRead(ns)
  {
  }

  datatype Broadcast = Broadcast(
    id: string,
    author: string,
    authorAvatar: string,
    need: string,
    details: string,
    budgetMin: int,
    budgetMax: int,
    location: string,
    time: string,
    isBoosted: bool,
    category: string)

  datatype OfferStatus = Pending | Accepted | Declined | Countered

  datatype Offer = Offer(
    id: string,
    listingId: string,
    listingTitle: string,
    listingImage: string,
    buyerName: string,
    buyerAvatar: string,
    originalPrice: int,
    offeredPrice: int,
    message: string,
    status: OfferStatus,
    timestamp: int)

  function OfferId(o: Offer): string { o.id }

  datatype TransactionKind = Sell | Buy

  datatype Transaction = Transaction(
    id: string,
    listingId: string,
    listingTitle: string,
    amount: int,
    kind: TransactionKind,
    status: string,
    timestamp: int,
    partnerName: string)

  datatype BankDetails = BankDetails(bankName: string, accountNumber: string, accountName: string)

  datatype User = User(name: string, email: string, bankDetails: Option<BankDetails>)

  /** `user?.name || 'Obokobong'`: the signed-in name, or the prototype's default seller. */
  function UserName(user: Option<User>): (r: string)
    ensures r != ""
    ensures user.Some? && user.value.name != "" ==> r == user.value.name
  {
    if user.Some? && user.value.name != "" then user.value.name else "Obokobong"
  }

  /** One entry of the viewer's history: which listing, at what price, when last seen. */
  datatype ViewRecord = ViewRecord(listingId: string, lastViewedPrice: int, timestamp: int)

  function RecordListingId(v: ViewRecord): string { v.listingId }
}
