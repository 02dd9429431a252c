/** The browser-storage service (services/storageService.ts): one JSON array per key,
    read, changed in place and written back by every operation.

    Local storage is modelled as a map from the service's keys to typed values; a key
    that is missing, or whose text does not parse, reads as "absent", which every
    list getter turns into `[]` and `getUser` into `null` (`None`). */
module Storage {
  import opened Seqs
  import opened Entities

  datatype Key =
    | UserKey | ListingsKey | ChatsKey | NotificationsKey
    | BroadcastsKey | OffersKey | TransactionsKey | SavedListingsKey

  /** The local-storage key each entry is stored under. */
  function KeyName(k: Key): string {
    match k
    case UserKey => "sellit_user"
    case ListingsKey => "sellit_listings"
    case ChatsKey => "sellit_chats"
    case NotificationsKey => "sellit_notifications"
    case BroadcastsKey => "sellit_broadcasts"
    case OffersKey => "sellit_offers"
    case TransactionsKey => "sellit_transactions"
    case SavedListingsKey => "sellit_saved_listings"
  }

  const AllKeys: seq<Key> :=
    [UserKey, ListingsKey, ChatsKey, NotificationsKey, BroadcastsKey, OffersKey, TransactionsKey, SavedListingsKey]

  /** Where each key sits in `AllKeys`, so `Object.values(KEYS)` lists every key. */
  function KeyPosition(k: Key): (j: nat)
    ensures j < |AllKeys| && AllKeys[j] == k
  {
    match k
    case UserKey => 0
    case ListingsKey => 1
    case ChatsKey => 2
    case NotificationsKey => 3
    case BroadcastsKey => 4
    case OffersKey => 5
    case TransactionsKey => 6
    case SavedListingsKey => 7
  }

  /** A stored entry: the parsed value, or text that `JSON.parse` rejects (or the empty
      string, which `getItem` also reads as `null`). */
  datatype Stored =
    | UserValue(user: User)
    | ListingsValue(listings: seq<Listing>)
    | ChatsValue(chats: seq<Chat>)
    | NotificationsValue(notifications: seq<Notification>)
    | BroadcastsValue(broadcasts: seq<Broadcast>)
    | OffersValue(offers: seq<Offer>)
    | TransactionsValue(transactions: seq<Transaction>)
    | IdsValue(ids: seq<string>)
    | Unparsable(text: string)

  type Table = map<Key, Stored>

  // ---------------------------------------------------------------------------
  // Reading the table (`getItem(key) || []`)
  // ---------------------------------------------------------------------------

  function UserIn(t: Table): Option<User> {
    if UserKey in t && t[UserKey].UserValue? then Some(t[UserKey].user) else None
  }

  function ListingsIn(t: Table): seq<Listing> {
    if ListingsKey in t && t[ListingsKey].ListingsValue? then t[ListingsKey].listings else []
  }

  function ChatsIn(t: Table): seq<Chat> {
    if ChatsKey in t && t[ChatsKey].ChatsValue? then t[ChatsKey].chats else []
  }

  function NotificationsIn(t: Table): seq<Notification> {
    if NotificationsKey in t && t[NotificationsKey].NotificationsValue? then t[NotificationsKey].notifications else []
  }

  function BroadcastsIn(t: Table): seq<Broadcast> {
    if BroadcastsKey in t && t[BroadcastsKey].BroadcastsValue? then t[BroadcastsKey].broadcasts else []
  }

  function OffersIn(t: Table): seq<Offer> {
    if OffersKey in t && t[OffersKey].OffersValue? then t[OffersKey].offers else []
  }

  function TransactionsIn(t: Table): seq<Transaction> {
    if TransactionsKey in t && t[TransactionsKey].TransactionsValue? then t[TransactionsKey].transactions else []
  }

  function SavedIn(t: Table): seq<string> {
    if SavedListingsKey in t && t[SavedListingsKey].IdsValue? then t[SavedListingsKey].ids else []
  }

  /** `!localStorage.getItem('sellit_listings')`: the raw entry is missing or empty. */
  predicate FirstTimeIn(t: Table) {
    ListingsKey !in t || t[ListingsKey] == Unparsable("")
  }

  /** Once every key is removed, every list reads as empty, there is no user, and the
      next visit counts as a first visit. */
  lemma ClearedTableIsEmpty()
    ensures UserIn(map[]) == None && FirstTimeIn(map[])
    ensures ListingsIn(map[]) == [] && ChatsIn(map[]) == [] && NotificationsIn(map[]) == []
    ensures BroadcastsIn(map[]) == [] && OffersIn(map[]) == [] && TransactionsIn(map[]) == []
    ensures SavedIn(map[]) == []
  {
  }

  // ---------------------------------------------------------------------------
  // The list updates the service performs, as functions of the list it read
  // ---------------------------------------------------------------------------

  /** `updateListing`: merge `updates` into the first listing with that id; `None` when no
      listing has it, in which case nothing is written. */
  function UpdateFirstListing(ls: seq<Listing>, id: string, updates: ListingPatch): Option<seq<Listing>> {
    var i := IndexOfKey(ls, ListingId, id);
    if i == -1 then None else Some(ls[i := Merge(ls[i], updates)])
  }

  lemma UpdateFirstListingSpec(ls: seq<Listing>, id: string, updates: ListingPatch)
    ensures UpdateFirstListing(ls, id, updates).None? <==> forall j :: 0 <= j < |ls| ==> ls[j].id != id
    ensures UpdateFirstListing(ls, id, updates).Some? ==>
      var r := UpdateFirstListing(ls, id, updates).value;
      exists i :: 0 <= i < |ls| && ls[i].id == id && (forall j :: 0 <= j < i ==> ls[j].id != id)
        && |r| == |ls| && r[i] == Merge(ls[i], updates)
        && r[i].id == (if updates.id.Some? then updates.id.value else id)
        && forall j :: 0 <= j < |ls| && j != i ==> r[j] == ls[j]
  {
    var i := IndexOfKey(ls, ListingId, id);
    if i != -1 {
      assert ls[i].id == id;
    }
  }

  /** A patch carrying only an id renames the listing: `updateListing('1', { id: '9' })`
      leaves every other field as it was. */
  lemma UpdateRenames(l: Listing, newId: string)
    ensures UpdateFirstListing([l], l.id, NoChange.(id := Some(newId))) == Some([l.(id := newId)])
  {
    var u := NoChange.(id := Some(newId));
    assert IndexOfKey([l], ListingId, l.id) == 0;
    assert Merge(l, u) == l.(id := newId);
    assert [l][0 := Merge(l, u)] == [l.(id := newId)];
  }

  /** `toggleSavedListing`: append an absent id, or splice out its first occurrence. */
  function ToggleFirst(saved: seq<string>, id: string): seq<string> {
    var i := IndexOfKey(saved, Self, id);
    if i == -1 then saved + [id] else saved[..i] + saved[i + 1..]
  }

  /** Splicing out position `i` of a duplicate-free list removes exactly that element. */
  lemma RemoveAtSpec(s: seq<string>, i: int)
    requires 0 <= i < |s| && UniqueKeys(s, Self)
    ensures s[i] !in s[..i] + s[i + 1..]
    ensures forall x :: x != s[i] ==> (x in s[..i] + s[i + 1..] <==> x in s)
    ensures UniqueKeys(s[..i] + s[i + 1..], Self)
  {
    var r := s[..i] + s[i + 1..];
    assert |r| == |s| - 1;
    assert forall j :: 0 <= j < i ==> r[j] == s[j];
    assert forall j :: i <= j < |r| ==> r[j] == s[j + 1];
    forall x | x in s && x != s[i]
      ensures x in r
    {
      var j :| 0 <= j < |s| && s[j] == x;
      if j < i { assert r[j] == x; } else { assert r[j - 1] == x; }
    }
  }

  /** Without duplicates, toggling flips membership of the id, keeps every other id,
      and keeps the list free of duplicates. */
  lemma ToggleFirstFlips(saved: seq<string>, id: string)
    requires UniqueKeys(saved, Self)
    ensures (id in ToggleFirst(saved, id)) <==> id !in saved
    ensures forall x :: x != id ==> (x in ToggleFirst(saved, id) <==> x in saved)
    ensures UniqueKeys(ToggleFirst(saved, id), Self)
  {
    var i := IndexOfKey(saved, Self, id);
    if i == -1 {
      assert forall j :: 0 <= j < |saved| ==> saved[j] != id;
      assert (saved + [id])[|saved|] == id;
    } else {
      assert saved[i] == id;
      RemoveAtSpec(saved, i);
    }
  }

  /** Toggling an absent id twice gives back exactly the list; toggling a present one
      twice gives back the same set of ids (the id moves to the end). */
  lemma ToggleFirstTwice(saved: seq<string>, id: string)
    requires UniqueKeys(saved, Self)
    ensures id !in saved ==> ToggleFirst(ToggleFirst(saved, id), id) == saved
    ensures forall x :: x in ToggleFirst(ToggleFirst(saved, id), id) <==> x in saved
  {
    ToggleFirstFlips(saved, id);
    ToggleFirstFlips(ToggleFirst(saved, id), id);
    if id !in saved {
      var t := saved + [id];
      assert forall j :: 0 <= j < |saved| ==> saved[j] != id;
      assert IndexOfKey(t, Self, id) == |saved|;
      assert t[..|saved|] + t[|saved| + 1..] == saved;
    }
  }

  /** `addMessage`'s new message: id from `crypto.randomUUID()`, time from `toLocaleTimeString`. */
  function NewMessage(text: string, senderId: string, uuid: string, time: string): Message {
    Message(uuid, text, time, senderId, None)
  }

  /** `addMessage`: push onto the first chat with the id and refresh its preview. */
  function AppendToFirstChat(chats: seq<Chat>, chatId: string, m: Message): Option<seq<Chat>> {
    var i := IndexOfKey(chats, ChatId, chatId);
    if i == -1 then None
    else Some(chats[i := chats[i].(messages := chats[i].messages + [m], lastMessage := m.text, lastMessageTime := m.timestamp)])
  }

  /** The chat gains exactly one message, the new one, and its preview then agrees with it. */
  lemma AppendToFirstChatSpec(chats: seq<Chat>, chatId: string, m: Message)
    ensures AppendToFirstChat(chats, chatId, m).None? <==> forall j :: 0 <= j < |chats| ==> chats[j].id != chatId
    ensures AppendToFirstChat(chats, chatId, m).Some? ==>
      var r := AppendToFirstChat(chats, chatId, m).value;
      exists i :: 0 <= i < |chats| && chats[i].id == chatId && (forall j :: 0 <= j < i ==> chats[j].id != chatId)
        && |r| == |chats|
        && r[i].messages == chats[i].messages + [m]
        && |r[i].messages| == |chats[i].messages| + 1
        && r[i].lastMessage == m.text && r[i].lastMessageTime == m.timestamp
        && TailCached(r[i])
        && r[i].(messages := chats[i].messages, lastMessage := chats[i].lastMessage, lastMessageTime := chats[i].lastMessageTime) == chats[i]
        && forall j :: 0 <= j < |chats| && j != i ==> r[j] == chats[j]
  {
    var i := IndexOfKey(chats, ChatId, chatId);
    if i != -1 {
      assert chats[i].id == chatId;
    }
  }

  /** `markAsRead`: set the flag on the first notification with the id only. */
  function MarkFirstRead(ns: seq<Notification>, id: string): Option<seq<Notification>> {
    var i := IndexOfKey(ns, NotificationId, id);
    if i == -1 then None else Some(ns[i := ns[i].(isRead := true)])
  }

  lemma MarkFirstReadSpec(ns: seq<Notification>, id: string)
    ensures MarkFirstRead(ns, id).None? <==> forall j :: 0 <= j < |ns| ==> ns[j].id != id
    ensures MarkFirstRead(ns, id).Some? ==>
      var r := MarkFirstRead(ns, id).value;
      exists i :: 0 <= i < |ns| && ns[i].id == id && (forall j :: 0 <= j < i ==> ns[j].id != id)
        && |r| == |ns| && r[i] == ns[i].(isRead := true)
        && forall j :: 0 <= j < |ns| && j != i ==> r[j] == ns[j]
  {
    var i := IndexOfKey(ns, NotificationId, id);
    if i != -1 {
      assert ns[i].id == id;
    }
  }

  /** `updateOfferStatus`: set the status of the first offer with the id only. */
  function SetFirstOfferStatus(offers: seq<Offer>, id: string, status: OfferStatus): Option<seq<Offer>> {
    var i := IndexOfKey(offers, OfferId, id);
    if i == -1 then None else Some(offers[i := offers[i].(status := status)])
  }

  lemma SetFirstOfferStatusSpec(offers: seq<Offer>, id: string, status: OfferStatus)
    ensures SetFirstOfferStatus(offers, id, status).None? <==> forall j :: 0 <= j < |offers| ==> offers[j].id != id
    ensures SetFirstOfferStatus(offers, id, status).Some? ==>
      var r := SetFirstOfferStatus(offers, id, status).value;
      exists i :: 0 <= i < |offers| && offers[i].id == id && (forall j :: 0 <= j < i ==> offers[j].id != id)
        && |r| == |offers| && r[i] == offers[i].(status := status)
        && forall j :: 0 <= j < |offers| && j != i ==> r[j] == offers[j]
  {
    var i := IndexOfKey(offers, OfferId, id);
    if i != -1 {
      assert offers[i].id == id;
    }
  }

  // ---------------------------------------------------------------------------
  // The service
  // ---------------------------------------------------------------------------

  class StorageService {
    /** The browser's local storage, restricted to this service's keys. */
    var table: Table

    constructor(existing: Table)
      ensures table == existing
    {
      table := existing;
    }

    // User management

    method SaveUser(user: User)
      modifies this
      ensures table == old(table)[UserKey := UserValue(user)]
    {
      table := table[UserKey := UserValue(user)];
    }

    /** The stored user, when the user entry holds one; no user otherwise. */
    function GetUser(): (r: Option<User>)
      reads this
      ensures UserKey in table && table[UserKey].UserValue? ==> r == Some(table[UserKey].user)
      ensures !(UserKey in table && table[UserKey].UserValue?) ==> r == None
    {
      UserIn(table)
    }

    method Logout()
      modifies this
      ensures table == old(table) - {UserKey}
    {
      table := table - {UserKey};
    }

    // Listings

    function GetListings(): (r: seq<Listing>)
      reads this
      ensures ListingsKey in table && table[ListingsKey].ListingsValue? ==> r == table[ListingsKey].listings
      ensures !(ListingsKey in table && table[ListingsKey].ListingsValue?) ==> r == []
    {
      ListingsIn(table)
    }

    method SaveListings(listings: seq<Listing>)
      modifies this
      ensures table == old(table)[ListingsKey := ListingsValue(listings)]
      ensures GetListings() == listings
    {
      table := table[ListingsKey := ListingsValue(listings)];
    }

    method AddListing(listing: Listing)
      modifies this
      ensures table == old(table)[ListingsKey := ListingsValue([listing] + old(GetListings()))]
      ensures GetListings() == [listing] + old(GetListings())
    {
      var listings := GetListings();
      listings := [listing] + listings;  // unshift
      SaveListings(listings);
    }

    method UpdateListing(id: string, updates: ListingPatch)
      modifies this
      ensures UpdateFirstListing(old(GetListings()), id, updates).None? ==> table == old(table)
      ensures UpdateFirstListing(old(GetListings()), id, updates).Some? ==>
        table == old(table)[ListingsKey := ListingsValue(UpdateFirstListing(old(GetListings()), id, updates).value)]
    {
      var listings := GetListings();
      var index := IndexOfKey(listings, ListingId, id);
      if index != -1 {
        listings := listings[index := Merge(listings[index], updates)];
        SaveListings(listings);
      }
    }

    method DeleteListing(id: string)
      modifies this
      ensures table == old(table)[ListingsKey := ListingsValue(WithoutKey(old(GetListings()), ListingId, id))]
    {
      var listings := WithoutKey(GetListings(), ListingId, id);
      SaveListings(listings);
    }

    // Saved listings

    function GetSavedListings(): (r: seq<string>)
      reads this
      ensures SavedListingsKey in table && table[SavedListingsKey].IdsValue? ==> r == table[SavedListingsKey].ids
      ensures !(SavedListingsKey in table && table[SavedListingsKey].IdsValue?) ==> r == []
    {
      SavedIn(table)
    }

    method ToggleSavedListing(id: string)
      modifies this
      ensures table == old(table)[SavedListingsKey := IdsValue(ToggleFirst(old(GetSavedListings()), id))]
      ensures UniqueKeys(old(GetSavedListings()), Self) ==> (IsListingSaved(id) <==> !old(IsListingSaved(id)))
    {
      var saved := GetSavedListings();
      if UniqueKeys(saved, Self) {
        ToggleFirstFlips(saved, id);
      }
      var index := IndexOfKey(saved, Self, id);
      if index == -1 {
        saved := saved + [id];  // push
      } else {
        saved := saved[..index] + saved[index + 1..];  // splice(index, 1)
      }
      table := table[SavedListingsKey := IdsValue(saved)];
    }

    predicate IsListingSaved(id: string)
      reads this
      ensures IsListingSaved(id) <==> SavedListingsKey in table && table[SavedListingsKey].IdsValue? && id in table[SavedListingsKey].ids
    {
      id in GetSavedListings()
    }

    // Chats

    function GetChats(): (r: seq<Chat>)
      reads this
      ensures ChatsKey in table && table[ChatsKey].ChatsValue? ==> r == table[ChatsKey].chats
      ensures !(ChatsKey in table && table[ChatsKey].ChatsValue?) ==> r == []
    {
      ChatsIn(table)
    }

    method SaveChats(chats: seq<Chat>)
      modifies this
      ensures table == old(table)[ChatsKey := ChatsValue(chats)]
      ensures GetChats() == chats
    {
      table := table[ChatsKey := ChatsValue(chats)];
    }

    /** `uuid` and `time` stand for `crypto.randomUUID()` and the formatted current time. */
    method AddMessage(chatId: string, text: string, senderId: string, uuid: string, time: string)
      modifies this
      ensures var r := AppendToFirstChat(old(GetChats()), chatId, NewMessage(text, senderId, uuid, time));
        if r.None? then table == old(table) else table == old(table)[ChatsKey := ChatsValue(r.value)]
    {
      var chats := GetChats();
      var index := IndexOfKey(chats, ChatId, chatId);
      if index != -1 {
        var newMessage := NewMessage(text, senderId, uuid, time);
        var chat := chats[index];
        chat := chat.(messages := chat.messages + [newMessage]);
        chat := chat.(lastMessage := text);
        chat := chat.(lastMessageTime := newMessage.timestamp);
        chats := chats[index := chat];
        SaveChats(chats);
      }
    }

    method AddChat(chat: Chat)
      modifies this
      ensures table == old(table)[ChatsKey := ChatsValue([chat] + old(GetChats()))]
      ensures GetChats() == [chat] + old(GetChats())
    {
      var chats := GetChats();
      chats := [chat] + chats;
      SaveChats(chats);
    }

    // Notifications

    function GetNotifications(): (r: seq<Notification>)
      reads this
      ensures NotificationsKey in table && table[NotificationsKey].NotificationsValue? ==> r == table[NotificationsKey].notifications
      ensures !(NotificationsKey in table && table[NotificationsKey].NotificationsValue?) ==> r == []
    {
      NotificationsIn(table)
    }

    method SaveNotifications(notifications: seq<Notification>)
      modifies this
      ensures table == old(table)[NotificationsKey := NotificationsValue(notifications)]
      ensures GetNotifications() == notifications
    {
      table := table[NotificationsKey := NotificationsValue(notifications)];
    }

    method AddNotification(notification: Notification)
      modifies this
      ensures table == old(table)[NotificationsKey := NotificationsValue([notification] + old(GetNotifications()))]
      ensures GetNotifications() == [notification] + old(GetNotifications())
    {
      var notifications := GetNotifications();
      notifications := [notification] + notifications;
      SaveNotifications(notifications);
    }

    method MarkAsRead(id: string)
      modifies this
      ensures var r := MarkFirstRead(old(GetNotifications()), id);
        if r.None? then table == old(table) else table == old(table)[NotificationsKey := NotificationsValue(r.value)]
    {
      var notifications := GetNotifications();
      var index := IndexOfKey(notifications, NotificationId, id);
      if index != -1 {
        notifications := notifications[index := notifications[index].(isRead := true)];
        SaveNotifications(notifications);
      }
    }

    method MarkAllAsRead()
      modifies this
      ensures table == old(table)[NotificationsKey := NotificationsValue(AllRead(old(GetNotifications())))]
      ensures GetNotifications() == AllRead(old(GetNotifications()))
    {
      var notifications := GetNotifications();
      ghost var before := notifications;
      var i := 0;
      while i < |notifications|  // forEach(n => n.isRead = true)
        invariant 0 <= i <= |notifications| == |before|
        invariant forall k :: 0 <= k < i ==> notifications[k] == before[k].(isRead := true)
        invariant forall k :: i <= k < |notifications| ==> notifications[k] == before[k]
      {
        notifications := notifications[i := notifications[i].(isRead := true)];
        i := i + 1;
      }
      assert notifications == AllRead(before);
      SaveNotifications(notifications);
    }

    method DeleteNotification(id: string)
      modifies this
      ensures table == old(table)[NotificationsKey := NotificationsValue(WithoutKey(old(GetNotifications()), NotificationId, id))]
    {
      var notifications := WithoutKey(GetNotifications(), NotificationId, id);
      SaveNotifications(notifications);
    }

    method ClearNotifications()
      modifies this
      ensures table == old(table)[NotificationsKey := NotificationsValue([])]
      ensures GetNotifications() == []
    {
      table := table[NotificationsKey := NotificationsValue([])];
    }

    // Broadcasts

    function GetBroadcasts(): (r: seq<Broadcast>)
      reads this
      ensures BroadcastsKey in table && table[BroadcastsKey].BroadcastsValue? ==> r == table[BroadcastsKey].broadcasts
      ensures !(BroadcastsKey in table && table[BroadcastsKey].BroadcastsValue?) ==> r == []
    {
      BroadcastsIn(table)
    }

    method SaveBroadcasts(broadcasts: seq<Broadcast>)
      modifies this
      ensures table == old(table)[BroadcastsKey := BroadcastsValue(broadcasts)]
      ensures GetBroadcasts() == broadcasts
    {
      table := table[BroadcastsKey := BroadcastsValue(broadcasts)];
    }

    method AddBroadcast(broadcast: Broadcast)
      modifies this
      ensures table == old(table)[BroadcastsKey := BroadcastsValue([broadcast] + old(GetBroadcasts()))]
      ensures GetBroadcasts() == [broadcast] + old(GetBroadcasts())
    {
      var broadcasts := GetBroadcasts();
      broadcasts := [broadcast] + broadcasts;
      SaveBroadcasts(broadcasts);
    }

    // Offers

    function GetOffers(): (r: seq<Offer>)
      reads this
      ensures OffersKey in table && table[OffersKey].OffersValue? ==> r == table[OffersKey].offers
      ensures !(OffersKey in table && table[OffersKey].OffersValue?) ==> r == []
    {
      OffersIn(table)
    }

    method SaveOffers(offers: seq<Offer>)
      modifies this
      ensures table == old(table)[OffersKey := OffersValue(offers)]
      ensures GetOffers() == offers
    {
      table := table[OffersKey := OffersValue(offers)];
    }

    method AddOffer(offer: Offer)
      modifies this
      ensures table == old(table)[OffersKey := OffersValue([offer] + old(GetOffers()))]
      ensures GetOffers() == [offer] + old(GetOffers())
    {
      var offers := GetOffers();
      offers := [offer] + offers;
      SaveOffers(offers);
    }

    method UpdateOfferStatus(id: string, status: OfferStatus)
      modifies this
      ensures var r := SetFirstOfferStatus(old(GetOffers()), id, status);
        if r.None? then table == old(table) else table == old(table)[OffersKey := OffersValue(r.value)]
    {
      var offers := GetOffers();
      var index := IndexOfKey(offers, OfferId, id);
      if index != -1 {
        offers := offers[index := offers[index].(status := status)];
        SaveOffers(offers);
      }
    }

    // Transactions

    function GetTransactions(): (r: seq<Transaction>)
      reads this
      ensures TransactionsKey in table && table[TransactionsKey].TransactionsValue? ==> r == table[TransactionsKey].transactions
      ensures !(TransactionsKey in table && table[TransactionsKey].TransactionsValue?) ==> r == []
    {
      TransactionsIn(table)
    }

    method SaveTransactions(transactions: seq<Transaction>)
      modifies this
      ensures table == old(table)[TransactionsKey := TransactionsValue(transactions)]
      ensures GetTransactions() == transactions
    {
      table := table[TransactionsKey := TransactionsValue(transactions)];
    }

    method AddTransaction(transaction: Transaction)
      modifies this
      ensures table == old(table)[TransactionsKey := TransactionsValue([transaction] + old(GetTransactions()))]
      ensures GetTransactions() == [transaction] + old(GetTransactions())
    {
      var transactions := GetTransactions();
      transactions := [transaction] + transactions;
      SaveTransactions(transactions);
    }

    // Initialisation and reset

    predicate IsFirstTimeUser()
      reads this
      ensures IsFirstTimeUser() <==> ListingsKey !in table || table[ListingsKey] == Unparsable("")
    {
      FirstTimeIn(table)
    }

    /** `Object.values(KEYS).forEach(key => removeItem(key))`. */
    method ClearAll()
      modifies this
      ensures table == map[]
      ensures GetListings() == [] && GetChats() == [] && GetNotifications() == [] && GetBroadcasts() == []
      ensures GetOffers() == [] && GetTransactions() == [] && GetSavedListings() == []
      ensures GetUser() == None && IsFirstTimeUser()
    {
      var i := 0;
      while i < |AllKeys|
        invariant 0 <= i <= |AllKeys|
        invariant forall j :: 0 <= j < i ==> AllKeys[j] !in table
      {
        table := table - {AllKeys[i]};
        i := i + 1;
      }
      forall k: Key
        ensures k !in table
      {
        var j := KeyPosition(k);
        assert AllKeys[j] == k;
      }
      assert table == map[];
      ClearedTableIsEmpty();
    }
  }
}
