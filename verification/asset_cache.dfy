/** The asset preloader: which URLs of the configuration are fetched and in
    what order, how each is classified for its loader, how progress is
    reported, and the local-storage flag that records a finished preload.
    Element loading, `localStorage` and `Promise.all` are abstracted: the
    browser is a value, the completion order of the loads is an input. */
module AssetCache {
  import opened Wrappers
  import opened Config
  import opened Text
  import ShippedData

  /** Declared next to the storage key but never read by any operation. */
  const CacheName := "wedding-assets-v1"
  const CacheKey := "wedding-assets-cached"

  // ---------------------------------------------------------------------
  // Collecting the URLs

  /** `imageMain` then `imageDetail` of every event, in schedule order. */
  function ScheduleCandidates(events: seq<WeddingEventGroup>): (c: seq<Option<string>>)
    ensures |c| == 2 * |events|
  {
    if |events| == 0 then []
    else
      var last := events[|events| - 1];
      ScheduleCandidates(events[..|events| - 1]) + [Some(last.imageMain), last.imageDetail]
  }

  /** The `src` of every gallery entry, in gallery order. */
  function GalleryCandidates(items: seq<GalleryImage>): (c: seq<Option<string>>)
    ensures |c| == |items|
  {
    if |items| == 0 then []
    else GalleryCandidates(items[..|items| - 1]) + [Some(items[|items| - 1].src)]
  }

  function MusicUrl(music: Option<MusicConfig>): Option<string> {
    match music
    case Some(m) => Some(m.url)
    case None => None
  }

  /** Every field the collector looks at, in the order it looks at them:
      hero video and poster, groom and bride photos, each event's two images,
      love-story video and poster, gallery sources, footer background, music.
      An absent optional field is `None`. */
  function AssetCandidates(data: WeddingData): (c: seq<Option<string>>)
    ensures |c| == 8 + 2 * |data.schedule| + |data.gallery|
  {
    [Some(data.hero.videoUrl), data.hero.posterUrl]
    + [Some(data.couple.groom.photoUrl), Some(data.couple.bride.photoUrl)]
    + ScheduleCandidates(data.schedule)
    + [Some(data.loveStory.videoUrl), data.loveStory.posterUrl]
    + GalleryCandidates(data.gallery)
    + [Some(data.footer.backgroundImage), MusicUrl(data.music)]
  }

  /** The truthy candidates, unwrapped, in order, repeats kept. */
  function Present(c: seq<Option<string>>): (r: seq<string>)
    ensures |r| <= |c|
    ensures forall i :: 0 <= i < |r| ==> Truthy(r[i])
  {
    if |c| == 0 then []
    else Present(c[..|c| - 1]) + (if TruthyOpt(c[|c| - 1]) then [c[|c| - 1].value] else [])
  }

  lemma {:induction false} PresentAppend(a: seq<Option<string>>, b: seq<Option<string>>)
    ensures Present(a + b) == Present(a) + Present(b)
    decreases |b|
  {
    if |b| > 0 {
      var b' := b[..|b| - 1];
      assert (a + b)[..|a + b| - 1] == a + b';
      PresentAppend(a, b');
    } else {
      assert a + b == a;
    }
  }

  lemma PresentSnoc(c: seq<Option<string>>, x: Option<string>)
    ensures Present(c + [x]) == Present(c) + (if TruthyOpt(x) then [x.value] else [])
  {
    assert (c + [x])[..|c|] == c;
  }

  /** What one `if (field) urls.push(field)` adds. */
  function Push(x: Option<string>): (r: seq<string>)
    ensures r == Present([x])
  {
    assert [x][..0] == [];
    if TruthyOpt(x) then [x.value] else []
  }

  lemma PresentPair(a: Option<string>, b: Option<string>)
    ensures Present([a, b]) == Push(a) + Push(b)
  {
    assert [a, b] == [a] + [b];
    PresentAppend([a], [b]);
  }

  /** One more event adds its main image, then its detail image. */
  lemma ScheduleStep(events: seq<WeddingEventGroup>, i: nat)
    requires i < |events|
    ensures Present(ScheduleCandidates(events[..i + 1])) ==
      Present(ScheduleCandidates(events[..i])) + Push(Some(events[i].imageMain)) + Push(events[i].imageDetail)
  {
    var event := events[i];
    assert events[..i + 1][..i] == events[..i];
    PresentAppend(ScheduleCandidates(events[..i]), [Some(event.imageMain), event.imageDetail]);
    PresentPair(Some(event.imageMain), event.imageDetail);
  }

  /** The `forEach` over the schedule. */
  method CollectSchedule(events: seq<WeddingEventGroup>) returns (urls: seq<string>)
    ensures urls == Present(ScheduleCandidates(events))
  {
    urls := [];
    var i := 0;
    while i < |events|
      invariant 0 <= i <= |events|
      invariant urls == Present(ScheduleCandidates(events[..i]))
    {
      ScheduleStep(events, i);
      urls := urls + Push(Some(events[i].imageMain)) + Push(events[i].imageDetail);
      i := i + 1;
    }
    assert events[..i] == events;
  }

  /** One more gallery entry adds its source. */
  lemma GalleryStep(items: seq<GalleryImage>, i: nat)
    requires i < |items|
    ensures Present(GalleryCandidates(items[..i + 1])) == Present(GalleryCandidates(items[..i])) + Push(Some(items[i].src))
  {
    assert items[..i + 1][..i] == items[..i];
    PresentAppend(GalleryCandidates(items[..i]), [Some(items[i].src)]);
  }

  /** The `forEach` over the gallery. */
  method CollectGallery(items: seq<GalleryImage>) returns (urls: seq<string>)
    ensures urls == Present(GalleryCandidates(items))
  {
    urls := [];
    var i := 0;
    while i < |items|
      invariant 0 <= i <= |items|
      invariant urls == Present(GalleryCandidates(items[..i]))
    {
      GalleryStep(items, i);
      urls := urls + Push(Some(items[i].src));
      i := i + 1;
    }
    assert items[..i] == items;
  }

  /** `getAllAssetUrls`: a push for each truthy field, section by section,
      with the schedule and gallery loops in between. */
  method GetAllAssetUrls(data: WeddingData) returns (urls: seq<string>)
    ensures urls == Present(AssetCandidates(data))
    ensures |urls| <= 8 + 2 * |data.schedule| + |data.gallery|
    ensures forall i :: 0 <= i < |urls| ==> Truthy(urls[i])
  {
    var hero := Push(Some(data.hero.videoUrl)) + Push(data.hero.posterUrl);
    var couple := Push(Some(data.couple.groom.photoUrl)) + Push(Some(data.couple.bride.photoUrl));
    var schedule := CollectSchedule(data.schedule);
    var loveStory := Push(Some(data.loveStory.videoUrl)) + Push(data.loveStory.posterUrl);
    var gallery := CollectGallery(data.gallery);
    var closing := Push(Some(data.footer.backgroundImage)) + Push(MusicUrl(data.music));
    urls := hero + couple + schedule + loveStory + gallery + closing;
    CandidatesBySection(data);
    PresentPair(Some(data.hero.videoUrl), data.hero.posterUrl);
    PresentPair(Some(data.couple.groom.photoUrl), Some(data.couple.bride.photoUrl));
    PresentPair(Some(data.loveStory.videoUrl), data.loveStory.posterUrl);
    PresentPair(Some(data.footer.backgroundImage), MusicUrl(data.music));
  }

  lemma CandidatesBySection(data: WeddingData)
    ensures Present(AssetCandidates(data)) ==
      Present([Some(data.hero.videoUrl), data.hero.posterUrl])
      + Present([Some(data.couple.groom.photoUrl), Some(data.couple.bride.photoUrl)])
      + Present(ScheduleCandidates(data.schedule))
      + Present([Some(data.loveStory.videoUrl), data.loveStory.posterUrl])
      + Present(GalleryCandidates(data.gallery))
      + Present([Some(data.footer.backgroundImage), MusicUrl(data.music)])
  {
    var h := [Some(data.hero.videoUrl), data.hero.posterUrl];
    var c := [Some(data.couple.groom.photoUrl), Some(data.couple.bride.photoUrl)];
    var s := ScheduleCandidates(data.schedule);
    var l := [Some(data.loveStory.videoUrl), data.loveStory.posterUrl];
    var g := GalleryCandidates(data.gallery);
    var t := [Some(data.footer.backgroundImage), MusicUrl(data.music)];
    PresentAppend(h, c);
    PresentAppend(h + c, s);
    PresentAppend(h + c + s, l);
    PresentAppend(h + c + s + l, g);
    PresentAppend(h + c + s + l + g, t);
  }

  /** How many candidates carry exactly `u`. */
  function Occurrences(c: seq<Option<string>>, u: string): nat {
    if |c| == 0 then 0
    else Occurrences(c[..|c| - 1], u) + (if c[|c| - 1] == Some(u) then 1 else 0)
  }

  /** No deduplication: a non-empty URL appears in the result once for every
      field that holds it. */
  lemma {:induction false} NoDeduplication(c: seq<Option<string>>, u: string)
    requires Truthy(u)
    ensures multiset(Present(c))[u] == Occurrences(c, u)
    decreases |c|
  {
    if |c| > 0 {
      NoDeduplication(c[..|c| - 1], u);
    }
  }

  /** The first URL is the hero video whenever the hero has one, and the last
      is the music whenever music is configured. */
  lemma CollectionEnds(data: WeddingData)
    ensures Truthy(data.hero.videoUrl) ==> |Present(AssetCandidates(data))| > 0 && Present(AssetCandidates(data))[0] == data.hero.videoUrl
    ensures TruthyOpt(MusicUrl(data.music)) ==>
      var urls := Present(AssetCandidates(data));
      |urls| > 0 && urls[|urls| - 1] == data.music.value.url
  {
    var c := AssetCandidates(data);
    var first := [Some(data.hero.videoUrl)];
    assert c == first + c[1..];
    PresentAppend(first, c[1..]);
    assert Present(first) == Present([]) + (if Truthy(data.hero.videoUrl) then [data.hero.videoUrl] else []);
    assert c[..|c| - 1][..|c| - 1] == c[..|c| - 1];
  }

  // ---------------------------------------------------------------------
  // The gallery as it appears in the shipped configuration

  /** The `src` of every gallery image, in order. */
  function ImageSources(items: seq<GalleryImage>): (r: seq<string>)
    ensures |r| == |items| && forall i :: 0 <= i < |items| ==> r[i] == items[i].src
  {
    if |items| == 0 then [] else ImageSources(items[..|items| - 1]) + [items[|items| - 1].src]
  }

  /** The runtime value of `gallery`: the declared array, or the object with
      `title` and `images` that the shipped configuration and the gallery
      section use. */
  datatype GalleryValue = GalleryArray(items: seq<GalleryImage>) | GalleryObject(title: string, images: seq<GalleryItem>)

  /** The object's tiles read as declared gallery images: the layout class
      is dropped, the source kept. */
  function AsImages(tiles: seq<GalleryItem>): (r: seq<GalleryImage>)
    ensures |r| == |tiles| && forall i :: 0 <= i < |tiles| ==> r[i].src == tiles[i].src
  {
    if |tiles| == 0 then [] else AsImages(tiles[..|tiles| - 1]) + [GalleryImage(tiles[|tiles| - 1].src)]
  }

  /** `gallery?.forEach(...)` as written: optional chaining only protects
      against a missing gallery, so an object gallery throws. */
  function GalleryUrlsAsWritten(g: GalleryValue): Result<seq<string>, ScriptError> {
    match g
    case GalleryArray(items) => Success(Present(GalleryCandidates(items)))
    case GalleryObject(_, _) => Failure(TypeError("gallery.forEach is not a function"))
  }

  /** The shipped configuration makes the collector throw. */
  lemma ShippedGalleryThrows()
    ensures GalleryUrlsAsWritten(GalleryObject(ShippedData.ShippedGalleryTitle, ShippedData.GalleryTiles))
      == Failure(TypeError("gallery.forEach is not a function"))
  {
  }

  /** The gallery sources for either shape: the array's entries, or the
      object's `images`. */
  function GalleryUrls(g: GalleryValue): (urls: seq<string>)
    ensures g.GalleryArray? ==> GalleryUrlsAsWritten(g) == Success(urls)
    ensures forall i :: 0 <= i < |urls| ==> Truthy(urls[i])
  {
    match g
    case GalleryArray(items) => Present(GalleryCandidates(items))
    case GalleryObject(_, images) => Present(GalleryCandidates(AsImages(images)))
  }

  /** The corrected collection never fails, and on the object shape yields
      every non-empty image source in order. */
  lemma GalleryUrlsOfObject(title: string, images: seq<GalleryItem>)
    requires forall i :: 0 <= i < |images| ==> Truthy(images[i].src)
    ensures var urls := GalleryUrls(GalleryObject(title, images));
      |urls| == |images| && forall i :: 0 <= i < |images| ==> urls[i] == images[i].src
  {
    GalleryAllPresent(AsImages(images));
  }

  /** On the shipped object the corrected collection finds all ten images. */
  lemma ShippedGalleryCollected()
    ensures |GalleryUrls(GalleryObject(ShippedData.ShippedGalleryTitle, ShippedData.GalleryTiles))| == 10
  {
    GalleryUrlsOfObject(ShippedData.ShippedGalleryTitle, ShippedData.GalleryTiles);
  }

  /** A gallery whose every entry has a source contributes exactly those
      sources, in order. */
  lemma {:induction false} GalleryAllPresent(items: seq<GalleryImage>)
    requires forall i :: 0 <= i < |items| ==> Truthy(items[i].src)
    ensures Present(GalleryCandidates(items)) == ImageSources(items)
    decreases |items|
  {
    if |items| > 0 {
      GalleryAllPresent(items[..|items| - 1]);
    }
  }

  /** Two events, the first with a detail image and the second without. */
  lemma TwoEventUrls(e0: WeddingEventGroup, e1: WeddingEventGroup)
    requires Truthy(e0.imageMain) && TruthyOpt(e0.imageDetail)
    requires Truthy(e1.imageMain) && e1.imageDetail.None?
    ensures Present(ScheduleCandidates([e0, e1])) == [e0.imageMain, e0.imageDetail.value, e1.imageMain]
  {
    SchedulePair(e0, e1);
    PresentAppend([Some(e0.imageMain), e0.imageDetail], [Some(e1.imageMain), e1.imageDetail]);
    PresentPair(Some(e0.imageMain), e0.imageDetail);
    PresentPair(Some(e1.imageMain), e1.imageDetail);
  }

  lemma SchedulePair(e0: WeddingEventGroup, e1: WeddingEventGroup)
    ensures ScheduleCandidates([e0, e1]) == [Some(e0.imageMain), e0.imageDetail] + [Some(e1.imageMain), e1.imageDetail]
  {
    assert [e0, e1][..1] == [e0];
    assert [e0][..0] == [];
  }

  /** The shape of the shipped configuration as far as collecting goes: every
      URL field filled in except the second event's detail image and the
      music, two events and ten gallery images. */
  predicate ShippedShape(data: WeddingData) {
    && Truthy(data.hero.videoUrl) && TruthyOpt(data.hero.posterUrl)
    && Truthy(data.couple.groom.photoUrl) && Truthy(data.couple.bride.photoUrl)
    && |data.schedule| == 2
    && Truthy(data.schedule[0].imageMain) && TruthyOpt(data.schedule[0].imageDetail)
    && Truthy(data.schedule[1].imageMain) && data.schedule[1].imageDetail.None?
    && Truthy(data.loveStory.videoUrl) && TruthyOpt(data.loveStory.posterUrl)
    && |data.gallery| == 10 && (forall i :: 0 <= i < |data.gallery| ==> Truthy(data.gallery[i].src))
    && Truthy(data.footer.backgroundImage) && data.music.None?
  }

  /** The twenty URLs such a configuration yields, in collection order. */
  function ShapeUrls(data: WeddingData): (r: seq<string>)
    requires ShippedShape(data)
    ensures |r| == 20
    ensures r[0] == data.hero.videoUrl && r[7] == data.loveStory.videoUrl
    ensures r[18] == data.gallery[9].src && r[19] == data.footer.backgroundImage
  {
    [data.hero.videoUrl, data.hero.posterUrl.value]
    + [data.couple.groom.photoUrl, data.couple.bride.photoUrl]
    + [data.schedule[0].imageMain, data.schedule[0].imageDetail.value, data.schedule[1].imageMain]
    + [data.loveStory.videoUrl, data.loveStory.posterUrl.value]
    + ImageSources(data.gallery)
    + [data.footer.backgroundImage]
  }

  lemma CollectShape(data: WeddingData)
    requires ShippedShape(data)
    ensures Present(AssetCandidates(data)) == ShapeUrls(data)
  {
    CandidatesBySection(data);
    assert Present([Some(data.hero.videoUrl), data.hero.posterUrl]) == [data.hero.videoUrl, data.hero.posterUrl.value] by {
      PresentPair(Some(data.hero.videoUrl), data.hero.posterUrl);
    }
    assert Present([Some(data.couple.groom.photoUrl), Some(data.couple.bride.photoUrl)]) == [data.couple.groom.photoUrl, data.couple.bride.photoUrl] by {
      PresentPair(Some(data.couple.groom.photoUrl), Some(data.couple.bride.photoUrl));
    }
    assert Present([Some(data.loveStory.videoUrl), data.loveStory.posterUrl]) == [data.loveStory.videoUrl, data.loveStory.posterUrl.value] by {
      PresentPair(Some(data.loveStory.videoUrl), data.loveStory.posterUrl);
    }
    assert Present([Some(data.footer.backgroundImage), MusicUrl(data.music)]) == [data.footer.backgroundImage] by {
      PresentPair(Some(data.footer.backgroundImage), MusicUrl(data.music));
    }
    assert data.schedule == [data.schedule[0], data.schedule[1]];
    TwoEventUrls(data.schedule[0], data.schedule[1]);
    GalleryAllPresent(data.gallery);
  }

  /** A configuration that agrees with the shipped one on every section the
      collector reads, with the gallery in the declared array shape: the
      shipped `WeddingDataValue`, whose gallery is rewritten that way, is one
      (`ShippedValueCollects`). On the object gallery the data file really
      holds, the collector throws instead (`ShippedGalleryThrows`). */
  predicate CollectsAsShipped(data: WeddingData) {
    && data.hero == ShippedData.HeroValue
    && data.couple == Couple(ShippedData.Groom, ShippedData.Bride)
    && data.schedule == ShippedData.Schedule
    && data.loveStory.videoUrl == ShippedData.HeroVideoUrl
    && data.loveStory.posterUrl == Some(ShippedData.LoveStoryPoster)
    && data.gallery == ShippedData.GalleryImages
    && data.footer.backgroundImage == ShippedData.FooterBackground
    && data.music.None?
  }

  lemma ShippedValueCollects()
    ensures CollectsAsShipped(ShippedData.WeddingDataValue)
  {
  }

  lemma ShippedHasShape(data: WeddingData)
    requires CollectsAsShipped(data)
    ensures ShippedShape(data)
    ensures data.hero.videoUrl == data.loveStory.videoUrl == ShippedData.HeroVideoUrl
    ensures data.gallery[9].src == data.footer.backgroundImage
  {
  }

  /** No deduplication on the shipped configuration, its gallery in the
      declared array shape: twenty URLs, with the
      video used by both the hero and the love story collected at positions
      0 and 7, and the image shared by the last gallery tile and the footer
      at 18 and 19. */
  lemma ShippedCollection(data: WeddingData)
    requires CollectsAsShipped(data)
    ensures var urls := Present(AssetCandidates(data));
      && |urls| == 20
      && urls[0] == urls[7] == ShippedData.HeroVideoUrl
      && urls[18] == urls[19] == ShippedData.FooterBackground
  {
    ShippedHasShape(data);
    CollectShape(data);
  }

  // ---------------------------------------------------------------------
  // Classifying a URL

  datatype AssetKind = Video | Audio | Image

  const VideoExtensions: seq<string> := ["mp4", "webm", "mov"]
  const AudioExtensions: seq<string> := ["mp3", "wav", "ogg", "m4a"]

  /** `\.ext(\?|$)` with the `i` flag matches at position `i`. */
  predicate ExtensionAt(url: string, i: nat, ext: string) {
    && i + 1 + |ext| <= |url|
    && url[i] == '.'
    && (forall j :: 0 <= j < |ext| ==> LowerAscii(url[i + 1 + j]) == ext[j])
    && (i + 1 + |ext| == |url| || url[i + 1 + |ext|] == '?')
  }

  /** The regular expression `\.(e1|e2|...)(\?|$)` matches somewhere in `url`. */
  ghost predicate Matches(url: string, exts: seq<string>) {
    exists i: nat, k :: i < |url| && 0 <= k < |exts| && ExtensionAt(url, i, exts[k])
  }

  predicate AnyExtensionAt(url: string, i: nat, exts: seq<string>) {
    exists k :: 0 <= k < |exts| && ExtensionAt(url, i, exts[k])
  }

  /** A left-to-right scan for a match starting at or after `from`. */
  function SearchFrom(url: string, exts: seq<string>, from: nat): (found: bool)
    requires from <= |url|
    ensures found <==> exists i: nat, k :: from <= i < |url| && 0 <= k < |exts| && ExtensionAt(url, i, exts[k])
    decreases |url| - from
  {
    if from == |url| then false
    else AnyExtensionAt(url, from, exts) || SearchFrom(url, exts, from + 1)
  }

  /** The loader `preloadAllAssets` picks: video when a video extension
      matches, audio when only an audio extension does, image otherwise. */
  function Classify(url: string): (kind: AssetKind)
    ensures kind == Video <==> Matches(url, VideoExtensions)
    ensures kind == Audio <==> !Matches(url, VideoExtensions) && Matches(url, AudioExtensions)
    ensures kind == Image <==> !Matches(url, VideoExtensions) && !Matches(url, AudioExtensions)
  {
    if SearchFrom(url, VideoExtensions, 0) then Video
    else if SearchFrom(url, AudioExtensions, 0) then Audio
    else Image
  }

  /** The shipped video, and a video file whose extension is in capitals. */
  lemma ClassifyVideoExamples()
    ensures Classify(ShippedData.HeroVideoUrl) == Video
    ensures Classify("clip.MOV") == Video
  {
    var u1 := ShippedData.HeroVideoUrl;
    assert ExtensionAt(u1, |u1| - 4, VideoExtensions[0]);
    var u2 := "clip.MOV";
    assert ExtensionAt(u2, 4, VideoExtensions[2]);
  }

  /** An audio extension followed by a query string. */
  lemma ClassifyAudioExample()
    ensures Classify("song.mp3?v=2") == Audio
  {
    var u := "song.mp3?v=2";
    assert ExtensionAt(u, 4, AudioExtensions[0]);
    assert forall i :: 0 <= i < |u| && u[i] == '.' ==> i == 4;
    assert LowerAscii(u[7]) != VideoExtensions[0][2];
    assert LowerAscii(u[5]) != VideoExtensions[1][0];
    assert LowerAscii(u[6]) != VideoExtensions[2][1];
  }

  /** When both kinds match, video wins. */
  lemma ClassifyVideoPrecedence()
    ensures Classify("a.mp3?.webm") == Video
  {
    var u := "a.mp3?.webm";
    assert ExtensionAt(u, 6, VideoExtensions[1]);
    assert ExtensionAt(u, 1, AudioExtensions[0]);
  }

  /** An extension not followed by `?` or the end does not count. */
  lemma ClassifyImageExample()
    ensures Classify("a.mp4x") == Image
  {
    var u := "a.mp4x";
    assert forall i :: 0 <= i < |u| && u[i] == '.' ==> i == 1;
    assert u[5] == 'x';
    assert !ExtensionAt(u, 1, VideoExtensions[0]);
    assert LowerAscii(u[2]) != VideoExtensions[1][0];
    assert LowerAscii(u[3]) != VideoExtensions[2][1];
    assert !AnyExtensionAt(u, 1, VideoExtensions);
    assert LowerAscii(u[4]) != AudioExtensions[0][2];
    assert LowerAscii(u[2]) != AudioExtensions[1][0];
    assert LowerAscii(u[2]) != AudioExtensions[2][0];
    assert LowerAscii(u[4]) != AudioExtensions[3][2];
    assert !AnyExtensionAt(u, 1, AudioExtensions);
  }

  // ---------------------------------------------------------------------
  // The cached flag

  /** The page's view of the browser: server-side rendering has no window. */
  datatype Browser = NoWindow | Window(localStorage: map<string, string>)

  /** `isAssetsCached`. */
  predicate IsAssetsCached(b: Browser) {
    b.Window? && CacheKey in b.localStorage && b.localStorage[CacheKey] == "true"
  }

  /** `markAssetsCached`: stores "true" under the key, touching nothing else. */
  function MarkAssetsCached(b: Browser): (r: Browser)
    ensures r.Window? <==> b.Window?
    ensures r.Window? ==> r.localStorage.Keys == b.localStorage.Keys + {CacheKey}
    ensures r.Window? ==> r.localStorage[CacheKey] == "true"
    ensures r.Window? ==> forall key :: key in b.localStorage && key != CacheKey ==> r.localStorage[key] == b.localStorage[key]
  {
    match b
    case NoWindow => NoWindow
    case Window(storage) => Window(storage[CacheKey := "true"])
  }

  /** `clearAssetsCache`: removes the key, touching nothing else. */
  function ClearAssetsCache(b: Browser): (r: Browser)
    ensures r.Window? <==> b.Window?
    ensures r.Window? ==> r.localStorage.Keys == b.localStorage.Keys - {CacheKey}
    ensures r.Window? ==> forall key :: key in r.localStorage ==> r.localStorage[key] == b.localStorage[key]
  {
    match b
    case NoWindow => NoWindow
    case Window(storage) => Window(storage - {CacheKey})
  }

  /** The flag reads true after a mark, false after a clear, and never
      without a window; only the exact string "true" counts. */
  lemma CachedFlagLifecycle(b: Browser, stored: string)
    ensures IsAssetsCached(MarkAssetsCached(b)) <==> b.Window?
    ensures !IsAssetsCached(ClearAssetsCache(b))
    ensures !IsAssetsCached(NoWindow)
    ensures b.Window? ==> (IsAssetsCached(Window(b.localStorage[CacheKey := stored])) <==> stored == "true")
  {
  }

  // ---------------------------------------------------------------------
  // Preloading with progress

  /** How one element load settled: `onload` / `onloadedmetadata`, or
      `onerror` (a thrown error is caught the same way). */
  datatype LoadOutcome = Loaded | LoadFailed

  datatype ProgressCall = ProgressCall(loaded: nat, total: nat)

  /** The order in which the load promises settle: each URL index once. */
  predicate IsCompletionOrder(order: seq<nat>, n: nat) {
    && |order| == n
    && (forall k :: 0 <= k < n ==> order[k] < n)
    && (forall k, l :: 0 <= k < l < n ==> order[k] != order[l])
  }

  /** `preloadAllAssets`: every load is started with the loader its URL
      classifies to; as each settles, whatever its outcome, the counter goes
      up and `onProgress` (when given) is called; when all have settled the
      flag is stored. */
  method PreloadAllAssets(urls: seq<string>, completionOrder: seq<nat>, outcomes: seq<LoadOutcome>,
                          hasOnProgress: bool, browser: Browser)
    returns (loaders: seq<AssetKind>, calls: seq<ProgressCall>, browser': Browser)
    requires IsCompletionOrder(completionOrder, |urls|)
    requires |outcomes| == |urls|
    ensures |loaders| == |urls|
    ensures forall i :: 0 <= i < |urls| ==> loaders[i] == Classify(urls[i])
    ensures hasOnProgress ==> |calls| == |urls|
    ensures hasOnProgress ==> forall k :: 0 <= k < |calls| ==> calls[k] == ProgressCall(k + 1, |urls|)
    ensures !hasOnProgress ==> calls == []
    ensures browser' == MarkAssetsCached(browser)
  {
    var total := |urls|;
    var loaded := 0;

    loaders := [];
    var i := 0;
    while i < |urls|
      invariant 0 <= i <= |urls|
      invariant |loaders| == i
      invariant forall m :: 0 <= m < i ==> loaders[m] == Classify(urls[m])
    {
      loaders := loaders + [Classify(urls[i])];
      i := i + 1;
    }

    calls := [];
    var k := 0;
    while k < |completionOrder|
      invariant 0 <= k <= |completionOrder|
      invariant loaded == k
      invariant hasOnProgress ==> |calls| == k
      invariant hasOnProgress ==> forall m :: 0 <= m < k ==> calls[m] == ProgressCall(m + 1, total)
      invariant !hasOnProgress ==> calls == []
    {
      // The load of `urls[completionOrder[k]]` settles; a failure counts
      // like a success.
      loaded := loaded + 1;
      if hasOnProgress {
        calls := calls + [ProgressCall(loaded, total)];
      }
      k := k + 1;
    }
    browser' := MarkAssetsCached(browser);
  }
}
