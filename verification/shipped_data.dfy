/** The configuration the site ships with (`WEDDING_DATA`), used as a witness
    value, assembled from one constant per section. Its gallery is given here
    in the declared shape, a sequence of `{ src }` records; the object shape
    the data file actually uses is `GalleryTiles` with the title
    `ShippedGalleryTitle`, examined in module `AssetCache`. */
module ShippedData {
  import opened Wrappers
  import opened Config

  const HeroVideoUrl: string :=
    "https://res.cloudinary.com/dyk3nghtf/video/upload/f_auto,q_auto:best/Engagement_day_ghdwkw.mp4"

  const GalleryTiles: seq<GalleryItem> :=
    [
    GalleryItem("https://picsum.photos/600/900?random=1", "col-span-1 row-span-2 md:col-span-1 md:row-span-2"),
    GalleryItem("https://picsum.photos/900/600?random=2", "col-span-2 row-span-1 md:col-span-2 md:row-span-1"),
    GalleryItem("https://picsum.photos/600/900?random=3", "col-span-1 row-span-2 md:col-span-1 md:row-span-2"),
    GalleryItem("https://picsum.photos/600/600?random=4", "col-span-1 row-span-1 md:col-span-1 md:row-span-1"),
    GalleryItem("https://picsum.photos/600/600?random=5", "col-span-1 row-span-1 md:col-span-1 md:row-span-1"),
    GalleryItem("https://picsum.photos/600/600?random=6", "col-span-1 row-span-1 md:col-span-1 md:row-span-1"),
    GalleryItem("https://picsum.photos/900/600?random=7", "col-span-2 row-span-1 md:col-span-2 md:row-span-1"),
    GalleryItem("https://picsum.photos/600/600?random=8", "col-span-1 row-span-1 md:col-span-1 md:row-span-1"),
    GalleryItem("https://picsum.photos/900/500?random=9", "col-span-2 row-span-1 md:col-span-2 md:row-span-1"),
    GalleryItem("https://picsum.photos/900/500?random=10", "col-span-2 row-span-1 md:col-span-2 md:row-span-1")
  ]

  const ShippedGalleryTitle: string :=
    "Captured Moments"

  /** The gallery entries in the declared `{ src }[]` shape. */
  const GalleryImages: seq<GalleryImage> :=
    [
    GalleryImage("https://picsum.photos/600/900?random=1"),
    GalleryImage("https://picsum.photos/900/600?random=2"),
    GalleryImage("https://picsum.photos/600/900?random=3"),
    GalleryImage("https://picsum.photos/600/600?random=4"),
    GalleryImage("https://picsum.photos/600/600?random=5"),
    GalleryImage("https://picsum.photos/600/600?random=6"),
    GalleryImage("https://picsum.photos/900/600?random=7"),
    GalleryImage("https://picsum.photos/600/600?random=8"),
    GalleryImage("https://picsum.photos/900/500?random=9"),
    GalleryImage("https://picsum.photos/900/500?random=10")
  ]

  const Schedule: seq<WeddingEventGroup> :=
    [
    WeddingEventGroup(
      "event-1", "14th July 2026", "Akad\nNikah",
      Some("Hyatt Regency Kyoto"), Some("5:00 PM"), None, None,
      "https://images.unsplash.com/photo-1493976040374-85c8e12f0c0e?q=80&w=1000&auto=format&fit=crop",
      Some("https://images.unsplash.com/photo-1516550893923-42d28e5677af?q=80&w=500&auto=format&fit=crop")),
    WeddingEventGroup(
      "event-2", "15th July 2026", "Ceremony &\nReception",
      None, None,
      Some([
        WeddingEventDetail("3:00 PM", "Ceremony", "at Kinkaku-ji"),
        WeddingEventDetail("5:00 PM", "Welcome Drink", "at The Ritz-Carlton Kyoto"),
        WeddingEventDetail("6:30 PM", "Reception", "at The Ritz-Carlton Kyoto")
      ]),
      None,
      "https://images.unsplash.com/photo-1519741497674-611481863552?q=80&w=1000&auto=format&fit=crop",
      None)
  ]

  const Groom: CoupleProfile :=
    CoupleProfile("Leo Alexander", "Ciputra", "The Groom", "@leo.alexander",
                  "https://instagram.com", "https://picsum.photos/600/800?random=10")

  const Bride: CoupleProfile :=
    CoupleProfile("Kaia Amara", "Azizah", "The Bride", "@kaia.amara",
                  "https://instagram.com", "https://picsum.photos/600/800?random=11")

  const MetadataValue: Metadata :=
    Metadata("Ciputra & Azizah - A Journey Begins",
             "We invite you to celebrate our wedding in Kyoto, Japan.")

  const HeroValue: HeroInfo :=
    HeroInfo(HeroVideoUrl, "2026-07-14T00:00:00", "Kyoto, Japan",
    Some("https://images.unsplash.com/photo-1493976040374-85c8e12f0c0e?q=80&w=1920&auto=format&fit=crop"))

  const IntroValue: IntroInfo :=
    IntroInfo(
    "WE INVITE YOU TO JOIN US AS WE\nEXCHANGE VOWS AND CELEBRATE THE LOVE\nTHAT HAS BROUGHT US HERE.",
    "A journey years in the making, now culminating in a moment we can't wait to share with you. We hope you can join us in the beautiful city of Kyoto.",
    "\"And of His signs is that He created for you from yourselves mates that you may find tranquillity in them; and He placed between you affection and mercy.\"",
    "Ar-Rum 30:21")

  const LoveStoryPoster: string :=
    "https://images.unsplash.com/photo-1519741497674-611481863552?q=80&w=1920&auto=format&fit=crop"

  const LoveStoryValue: LoveStoryInfo :=
    LoveStoryInfo("Our Love Story",
    "\"We loved with a love that was more than love.\"",
    "\U{00E2}\U{20AC}\U{201D} Edgar Allan Poe", // mis-encoded in the data file itself; kept as it is
    HeroVideoUrl,
    [StoryItem("How We Met", "It started with a chance encounter at a local coffee shop in Kyoto. Rain was pouring down, and we both reached for the last umbrella in the rack. That awkward laugh turned into a conversation that lasted for hours."),
     StoryItem("The Proposal", "Three years later, under the cherry blossoms of Maruyama Park, Leo got down on one knee. It was simple, private, and absolutely perfect.")],
    "Est. 2023",
    Some(LoveStoryPoster))

  const GiftValue: GiftInfo :=
    GiftInfo(
    "Your blessing is the greatest gift we could ask for. However, if you wish to honor us with a token of love, we have provided the following options.",
    [BankAccount("BCA", "https://upload.wikimedia.org/wikipedia/commons/thumb/5/5c/Bank_Central_Asia.svg/1200px-Bank_Central_Asia.svg.png",
                 "123 456 7890", "Leo Alexander"),
     BankAccount("MANDIRI", "https://upload.wikimedia.org/wikipedia/commons/thumb/a/ad/Bank_Mandiri_logo_2016.svg/1200px-Bank_Mandiri_logo_2016.svg.png",
                 "098 765 4321", "Kaia Amara")],
    Address("Jalan Bunga Sakura No. 88, Cluster Kyoto", "Jakarta Selatan, DKI Jakarta 12345", "Leo & Kaia"))

  const RsvpValue: RsvpInfo :=
    RsvpInfo("January 1st, 2026", None)

  const FooterBackground: string :=
    "https://picsum.photos/900/500?random=10"

  const FooterValue: FooterInfo :=
    FooterInfo(["#KaiaLeoBegin", "#KyotoLoveStory"],
               [SocialLink("Instagram", "https://instagram.com")],
               FooterBackground,
               None)

  const WeddingDataValue: WeddingData :=
    WeddingData(
    MetadataValue, HeroValue, IntroValue, Couple(Groom, Bride), Schedule, LoveStoryValue,
    GalleryImages, GiftValue, RsvpValue, FooterValue, None)
}
