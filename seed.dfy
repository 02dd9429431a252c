/** The data a first visit starts from (constants/seedData.ts). */
module SeedData {
  import opened Seqs
  import opened Entities

  const FridgeDescription: string :=
    "Compact fridge perfect for dorm rooms. Keeps drinks cold and snacks fresh. Barely used, moving out sale!"
  const FridgeImage: string :=
    "https://images.unsplash.com/photo-1571175443880-49e1d25b2bc5?q=80&w=800&auto=format&fit=crop"
  const LaptopDescription: string :=
    "HP Pavilion 15, 8GB RAM, 256GB SSD, Intel i5. Great for coding and multimedia. Comes with charger and laptop bag."
  const LaptopImage: string :=
    "https://images.unsplash.com/photo-1496181133206-80ce9b88a853?q=80&w=800&auto=format&fit=crop"

  const SeedListing1: Listing := Listing(
    "1", "Mini Refrigerator", 65000, "Electronics", FridgeDescription, FridgeImage,
    "Obokobong", "Moremi Hall", true, true, false, Available, Some(45), 3)

  const SeedListing2: Listing := Listing(
    "2", "HP Laptop", 275000, "Electronics", LaptopDescription, LaptopImage,
    "Obokobong", "NDDC Hostel", false, false, false, Available, Some(120), 1)

  const SeedListings: seq<Listing> := [SeedListing1, SeedListing2]

  const MatchTitle: string := "New Match for your Broadcast!"
  const MatchMessage: string :=
    "Someone just listed a \"2-Burner Gas Stove\" that matches your request in Moremi Hall."
  const MatchImage: string := "https://images.unsplash.com/photo-1556909212-d5b604d0c90d?w=150"
  const DropMessage: string := "The \"Study Desk\" you viewed dropped from ₦38,000 to ₦32,000."
  const DropImage: string := "https://images.unsplash.com/photo-1518455027359-f3f8164ba6bd?w=150"

  const SeedNotification1: Notification := Notification(
    "1", Match, MatchTitle, MatchMessage, "2 mins ago", false, Some(MatchImage),
    Some("View Item"), Some(ViewListing("new_1")))

  const SeedNotification2: Notification := Notification(
    "2", PriceDrop, "Price Drop Alert!", DropMessage, "1 hour ago", false, Some(DropImage),
    Some("View Price"), Some(ViewListing("new_2")))

  const SeedNotifications: seq<Notification> := [SeedNotification1, SeedNotification2]

  const SupportGreeting: string :=
    "Hello! This is the human support desk. If you have issues with payments, escrow, or safety, we are here to help."
  const SupportAvatar: string := "https://images.unsplash.com/photo-1573497019940-1c28c88b4f3e?w=150"

  const SeedSupportChat: Chat := Chat(
    "chat_support", "Sellit Human Desk", SupportAvatar,
    "Online", SupportGreeting, "09:00", true, Some(SupportMeta(true, 2, 3)), None,
    [Message("s1", SupportGreeting, "09:00", "them", Some("Official Bot"))])

  const LampAvatar: string := "https://images.unsplash.com/photo-1494790108377-be9c29b29330?w=150"
  const LampDetails: string :=
    "Need a good reading lamp for late-night study sessions. Preferably with adjustable brightness."

  const SeedBroadcasts: seq<Broadcast> := [
    Broadcast("b1", "Sarah Chen", LampAvatar, "Looking for a Study Lamp", LampDetails,
              5000, 15000, "Moremi Hall", "30 mins ago", false, "Electronics")
  ]
}
