/** The static wedding configuration (the `WeddingData` interface and the
    records it is built from). Optional fields (`x?: T`) are `Option`s. */
module Config {
  import opened Wrappers

  datatype CoupleProfile = CoupleProfile(
    name: string,
    firstName: string,
    role: string,
    handle: string,
    instagramUrl: string,
    photoUrl: string)

  datatype WeddingEventDetail = WeddingEventDetail(time: string, title: string, location: string)

  datatype WeddingEventGroup = WeddingEventGroup(
    id: string,
    date: string,
    title: string,
    primaryLocation: Option<string>,
    primaryTime: Option<string>,
    subEvents: Option<seq<WeddingEventDetail>>,
    description: Option<string>,
    imageMain: string,
    imageDetail: Option<string>)

  datatype BankAccount = BankAccount(
    bankName: string,
    logoUrl: string,
    accountNumber: string,
    holderName: string)

  /** A gallery tile with its grid placement. */
  datatype GalleryItem = GalleryItem(src: string, spanClass: string)

  /** An element of `gallery`, declared as `{ src: string }`. */
  datatype GalleryImage = GalleryImage(src: string)

  datatype StoryItem = StoryItem(title: string, content: string)

  datatype Metadata = Metadata(title: string, description: string)

  datatype HeroInfo = HeroInfo(
    videoUrl: string,
    targetDate: string,
    location: string,
    posterUrl: Option<string>)

  datatype IntroInfo = IntroInfo(
    title: string,
    description: string,
    verseText: string,
    verseReference: string)

  datatype Couple = Couple(groom: CoupleProfile, bride: CoupleProfile)

  datatype LoveStoryInfo = LoveStoryInfo(
    title: string,
    quote: string,
    quoteAuthor: string,
    videoUrl: string,
    stories: seq<StoryItem>,
    estYear: string,
    posterUrl: Option<string>)

  datatype Address = Address(street: string, city: string, receiver: string)

  datatype GiftInfo = GiftInfo(description: string, accounts: seq<BankAccount>, address: Address)

  datatype RsvpInfo = RsvpInfo(deadline: string, contactPhone: Option<string>)

  datatype SocialLink = SocialLink(platform: string, url: string)

  datatype FooterInfo = FooterInfo(
    hashtags: seq<string>,
    socialLinks: seq<SocialLink>,
    backgroundImage: string,
    videoUrl: Option<string>)

  datatype MusicConfig = MusicConfig(url: string, autoPlay: bool)

  datatype WeddingData = WeddingData(
    metadata: Metadata,
    hero: HeroInfo,
    intro: IntroInfo,
    couple: Couple,
    schedule: seq<WeddingEventGroup>,
    loveStory: LoveStoryInfo,
    gallery: seq<GalleryImage>,
    gift: GiftInfo,
    rsvp: RsvpInfo,
    footer: FooterInfo,
    music: Option<MusicConfig>)

  /** JavaScript truthiness of a string: `undefined` and `""` are falsy. */
  predicate Truthy(s: string) {
    |s| > 0
  }

  predicate TruthyOpt(s: Option<string>) {
    s.Some? && Truthy(s.value)
  }
}
