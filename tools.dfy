/** The three search tools of utils/tools.py as instances of the shared
    normaliser. For each tool there is its `Config`, a direct model of its
    request parameters and of the record literal in its loop, a lemma that
    the instance agrees with the direct model, the tool's `_run` as a method,
    and the properties of its output. */
module Tools {
  import opened Json
  import opened Normalizer

  // ----- Google Images -----

  const GoogleImages: Config := Config(
    "google_images", "", map["num" := Num(10), "safe" := Str("active")],
    "images_results", 10,
    [FieldRule("title", "title", true), FieldRule("source", "source", false),
     FieldRule("link", "original", false), FieldRule("thumbnail", "thumbnail", false)],
    "Google Images")

  /** The parameters GoogleImageSearchTool sends. */
  function GoogleImagesParams(query: string, apiKey: Option<string>): map<string, Json>
  {
    map["engine" := Str("google_images"), "q" := Str(query), "api_key" := ApiKeyValue(apiKey),
        "num" := Num(10), "safe" := Str("active")]
  }

  /** The record GoogleImageSearchTool appends for one element of images_results. */
  function GoogleImageRecord(img: Json): Raises<Json>
  {
    if !img.Obj? then Raised(NoGetMessage(img))
    else
      match Slice(Get(img.fields, "title", Str("")), TitleLimit)
      case Raised(m) => Raised(m)
      case Ok(title) =>
        Ok(Obj(map["title" := title,
                   "source" := Get(img.fields, "source", Str("")),
                   "link" := Get(img.fields, "original", Str("")),
                   "thumbnail" := Get(img.fields, "thumbnail", Str("")),
                   "platform" := Str("Google Images")]))
  }

  lemma GoogleImagesAgrees(query: string, apiKey: Option<string>, img: Json)
    ensures RequestParams(GoogleImages, query, apiKey) == GoogleImagesParams(query, apiKey)
    ensures MakeRecord(GoogleImages, img) == GoogleImageRecord(img)
  {
    assert GoogleImages.queryPrefix + query == query;
  }

  /** GoogleImageSearchTool._run. */
  method GoogleImageSearch(query: string, apiKey: Option<string>, provider: Provider) returns (out: Json)
    ensures out == Normalize(GoogleImages, provider(GoogleImagesParams(query, apiKey)))
  {
    GoogleImagesAgrees(query, apiKey, Null);
    out := Run(GoogleImages, query, apiKey, provider);
  }

  /** A raising provider gives the error object; a document without
      images_results gives an empty list. */
  lemma GoogleImagesNoResults(outcome: Raises<map<string, Json>>)
    ensures outcome.Raised? ==> Normalize(GoogleImages, outcome) == ErrorObject(outcome.message)
    ensures outcome.Ok? && "images_results" !in outcome.value ==> Normalize(GoogleImages, outcome) == Arr([])
  {
  }

  /** With a list of images: the output has min(len, 10) records, record i
      built from image i; any image among the first 10 that raises replaces
      the whole list by the error object of the first one that raises. */
  lemma GoogleImagesList(results: map<string, Json>, images: seq<Json>)
    requires "images_results" in results && results["images_results"] == Arr(images)
    ensures var out := Normalize(GoogleImages, Ok(results)); var n := Min(|images|, 10);
      ((forall i :: 0 <= i < n ==> GoogleImageRecord(images[i]).Ok?) ==>
        out.Arr? && |out.items| == n && |out.items| <= 10 &&
        forall i :: 0 <= i < n ==> GoogleImageRecord(images[i]) == Ok(out.items[i])) &&
      (forall k ::
        (0 <= k < n && GoogleImageRecord(images[k]).Raised? &&
         forall j :: 0 <= j < k ==> GoogleImageRecord(images[j]).Ok?) ==>
        out == ErrorObject(GoogleImageRecord(images[k]).message))
  {
    forall img: Json ensures MakeRecord(GoogleImages, img) == GoogleImageRecord(img) {
      GoogleImagesAgrees("", None, img);
    }
    ListResults(GoogleImages, results, images);
  }

  /** A string title (or none) becomes a prefix of at most 100 characters,
      the whole title when it fits; the record has exactly the five keys. */
  lemma GoogleImageTitle(img: map<string, Json>)
    requires "title" in img ==> img["title"].Str?
    ensures GoogleImageRecord(Obj(img)).Ok?
    ensures var r := GoogleImageRecord(Obj(img)).value; var t := Get(img, "title", Str("")).s;
      r.Obj? && r.fields.Keys == {"title", "source", "link", "thumbnail", "platform"} &&
      r.fields["title"].Str? && |r.fields["title"].s| <= 100 && r.fields["title"].s <= t &&
      (|t| <= 100 ==> r.fields["title"].s == t)
  {
    SliceString(Get(img, "title", Str("")).s, TitleLimit);
  }

  // ----- Pinterest -----

  const Pinterest: Config := Config(
    "pinterest", "", map[],
    "pinterest_results", 10,
    [FieldRule("title", "title", true), FieldRule("source", "link", false),
     FieldRule("link", "image", false), FieldRule("thumbnail", "thumbnail", false)],
    "Pinterest")

  /** The parameters PinterestSearchTool sends: no result count and no safe-search flag. */
  function PinterestParams(query: string, apiKey: Option<string>): map<string, Json>
  {
    map["engine" := Str("pinterest"), "q" := Str(query), "api_key" := ApiKeyValue(apiKey)]
  }

  /** The record PinterestSearchTool appends for one element of pinterest_results. */
  function PinterestRecord(pin: Json): Raises<Json>
  {
    if !pin.Obj? then Raised(NoGetMessage(pin))
    else
      match Slice(Get(pin.fields, "title", Str("")), TitleLimit)
      case Raised(m) => Raised(m)
      case Ok(title) =>
        Ok(Obj(map["title" := title,
                   "source" := Get(pin.fields, "link", Str("")),
                   "link" := Get(pin.fields, "image", Str("")),
                   "thumbnail" := Get(pin.fields, "thumbnail", Str("")),
                   "platform" := Str("Pinterest")]))
  }

  lemma PinterestAgrees(query: string, apiKey: Option<string>, pin: Json)
    ensures RequestParams(Pinterest, query, apiKey) == PinterestParams(query, apiKey)
    ensures MakeRecord(Pinterest, pin) == PinterestRecord(pin)
  {
    assert Pinterest.queryPrefix + query == query;
  }

  /** PinterestSearchTool._run. */
  method PinterestSearch(query: string, apiKey: Option<string>, provider: Provider) returns (out: Json)
    ensures out == Normalize(Pinterest, provider(PinterestParams(query, apiKey)))
  {
    PinterestAgrees(query, apiKey, Null);
    out := Run(Pinterest, query, apiKey, provider);
  }

  lemma PinterestNoResults(outcome: Raises<map<string, Json>>)
    ensures outcome.Raised? ==> Normalize(Pinterest, outcome) == ErrorObject(outcome.message)
    ensures outcome.Ok? && "pinterest_results" !in outcome.value ==> Normalize(Pinterest, outcome) == Arr([])
  {
  }

  lemma PinterestList(results: map<string, Json>, pins: seq<Json>)
    requires "pinterest_results" in results && results["pinterest_results"] == Arr(pins)
    ensures var out := Normalize(Pinterest, Ok(results)); var n := Min(|pins|, 10);
      ((forall i :: 0 <= i < n ==> PinterestRecord(pins[i]).Ok?) ==>
        out.Arr? && |out.items| == n && |out.items| <= 10 &&
        forall i :: 0 <= i < n ==> PinterestRecord(pins[i]) == Ok(out.items[i])) &&
      (forall k ::
        (0 <= k < n && PinterestRecord(pins[k]).Raised? &&
         forall j :: 0 <= j < k ==> PinterestRecord(pins[j]).Ok?) ==>
        out == ErrorObject(PinterestRecord(pins[k]).message))
  {
    forall pin: Json ensures MakeRecord(Pinterest, pin) == PinterestRecord(pin) {
      PinterestAgrees("", None, pin);
    }
    ListResults(Pinterest, results, pins);
  }

  lemma PinterestTitle(pin: map<string, Json>)
    requires "title" in pin ==> pin["title"].Str?
    ensures PinterestRecord(Obj(pin)).Ok?
    ensures var r := PinterestRecord(Obj(pin)).value; var t := Get(pin, "title", Str("")).s;
      r.Obj? && r.fields.Keys == {"title", "source", "link", "thumbnail", "platform"} &&
      r.fields["title"].Str? && |r.fields["title"].s| <= 100 && r.fields["title"].s <= t &&
      (|t| <= 100 ==> r.fields["title"].s == t)
  {
    SliceString(Get(pin, "title", Str("")).s, TitleLimit);
  }

  // ----- SlideShare / Scribd -----

  /** The site filter put in front of the caller's query. */
  const SiteFilter: string := "site:slideshare.net OR site:scribd.com "

  const SlideShare: Config := Config(
    "google", SiteFilter, map["num" := Num(8)],
    "organic_results", 8,
    [FieldRule("title", "title", false), FieldRule("source", "link", false),
     FieldRule("snippet", "snippet", false)],
    "SlideShare/Scribd")

  /** The parameters SlideShareSearchTool sends. */
  function SlideShareParams(query: string, apiKey: Option<string>): map<string, Json>
  {
    map["engine" := Str("google"), "q" := Str(SiteFilter + query),
        "api_key" := ApiKeyValue(apiKey), "num" := Num(8)]
  }

  /** The record SlideShareSearchTool appends for one element of organic_results. */
  function SlideShareRecord(result: Json): Raises<Json>
  {
    if !result.Obj? then Raised(NoGetMessage(result))
    else
      Ok(Obj(map["title" := Get(result.fields, "title", Str("")),
                 "source" := Get(result.fields, "link", Str("")),
                 "snippet" := Get(result.fields, "snippet", Str("")),
                 "platform" := Str("SlideShare/Scribd")]))
  }

  lemma SlideShareAgrees(query: string, apiKey: Option<string>, result: Json)
    ensures RequestParams(SlideShare, query, apiKey) == SlideShareParams(query, apiKey)
    ensures MakeRecord(SlideShare, result) == SlideShareRecord(result)
  {
  }

  /** SlideShareSearchTool._run. */
  method SlideShareSearch(query: string, apiKey: Option<string>, provider: Provider) returns (out: Json)
    ensures out == Normalize(SlideShare, provider(SlideShareParams(query, apiKey)))
  {
    SlideShareAgrees(query, apiKey, Null);
    out := Run(SlideShare, query, apiKey, provider);
  }

  lemma SlideShareNoResults(outcome: Raises<map<string, Json>>)
    ensures outcome.Raised? ==> Normalize(SlideShare, outcome) == ErrorObject(outcome.message)
    ensures outcome.Ok? && "organic_results" !in outcome.value ==> Normalize(SlideShare, outcome) == Arr([])
  {
  }

  lemma SlideShareList(results: map<string, Json>, found: seq<Json>)
    requires "organic_results" in results && results["organic_results"] == Arr(found)
    ensures var out := Normalize(SlideShare, Ok(results)); var n := Min(|found|, 8);
      ((forall i :: 0 <= i < n ==> SlideShareRecord(found[i]).Ok?) ==>
        out.Arr? && |out.items| == n && |out.items| <= 8 &&
        forall i :: 0 <= i < n ==> SlideShareRecord(found[i]) == Ok(out.items[i])) &&
      (forall k ::
        (0 <= k < n && SlideShareRecord(found[k]).Raised? &&
         forall j :: 0 <= j < k ==> SlideShareRecord(found[j]).Ok?) ==>
        out == ErrorObject(SlideShareRecord(found[k]).message))
  {
    forall result: Json ensures MakeRecord(SlideShare, result) == SlideShareRecord(result) {
      SlideShareAgrees("", None, result);
    }
    ListResults(SlideShare, results, found);
  }

  /** A dict element always makes a record: title and snippet are copied
      whole, however long, and the record has exactly the four keys. */
  lemma SlideShareUntruncated(result: map<string, Json>)
    ensures SlideShareRecord(Obj(result)).Ok?
    ensures var r := SlideShareRecord(Obj(result)).value;
      r.Obj? && r.fields.Keys == {"title", "source", "snippet", "platform"} &&
      r.fields["title"] == Get(result, "title", Str("")) &&
      r.fields["snippet"] == Get(result, "snippet", Str(""))
  {
  }

  // ----- All three -----

  /** Every list a tool returns has at most its cap of records, each tagged
      with the tool's non-empty platform, with exactly the tool's keys. */
  lemma PlatformTagged(outcome: Raises<map<string, Json>>)
    ensures var out := Normalize(GoogleImages, outcome);
      out.Arr? ==> |out.items| <= 10 && forall r :: r in out.items ==>
        r.Obj? && r.fields.Keys == {"title", "source", "link", "thumbnail", "platform"} &&
        r.fields["platform"] == Str("Google Images")
    ensures var out := Normalize(Pinterest, outcome);
      out.Arr? ==> |out.items| <= 10 && forall r :: r in out.items ==>
        r.Obj? && r.fields.Keys == {"title", "source", "link", "thumbnail", "platform"} &&
        r.fields["platform"] == Str("Pinterest")
    ensures var out := Normalize(SlideShare, outcome);
      out.Arr? ==> |out.items| <= 8 && forall r :: r in out.items ==>
        r.Obj? && r.fields.Keys == {"title", "source", "snippet", "platform"} &&
        r.fields["platform"] == Str("SlideShare/Scribd")
  {
    BatchInvariant(GoogleImages, outcome);
    BatchInvariant(Pinterest, outcome);
    BatchInvariant(SlideShare, outcome);
    assert RuleKeys(GoogleImages.rules) == {"title", "source", "link", "thumbnail"};
    assert RuleKeys(Pinterest.rules) == {"title", "source", "link", "thumbnail"};
    assert RuleKeys(SlideShare.rules) == {"title", "source", "snippet"};
  }

  // ----- Worked cases -----

  /** One image with a 150-character title gives one record whose title is
      its first 100 characters. */
  lemma LongGoogleTitle()
    ensures var long := seq(150, _ => 'A');
      var doc := map["images_results" := Arr([Obj(map["title" := Str(long), "source" := Str("s"),
                                                      "original" := Str("o"), "thumbnail" := Str("t")])])];
      Normalize(GoogleImages, Ok(doc)) ==
        Arr([Obj(map["title" := Str(long[..100]), "source" := Str("s"), "link" := Str("o"),
                     "thumbnail" := Str("t"), "platform" := Str("Google Images")])])
  {
    var long := seq(150, _ => 'A');
    var img := Obj(map["title" := Str(long), "source" := Str("s"), "original" := Str("o"), "thumbnail" := Str("t")]);
    var rec := Obj(map["title" := Str(long[..100]), "source" := Str("s"), "link" := Str("o"),
                       "thumbnail" := Str("t"), "platform" := Str("Google Images")]);
    assert Slice(Str(long), TitleLimit) == Ok(Str(long[..100]));
    GoogleImagesAgrees("", None, img);
    assert MakeRecord(GoogleImages, img) == Ok(rec);
    assert [img][..Min(10, 1)] == [img];
    assert SliceItems(Arr([img]), 10) == Ok([img]);
    assert MapRecords(GoogleImages, [img][1..]) == Ok([]);
    assert [rec] + [] == [rec];
    assert MapRecords(GoogleImages, [img]) == Ok([rec]);
  }

  /** An empty document gives an empty list from every tool, and a provider
      that raises "timeout" gives {"error": "timeout"}. */
  lemma EmptyAndTimeout()
    ensures Normalize(GoogleImages, Ok(map[])) == Arr([])
    ensures Normalize(Pinterest, Ok(map[])) == Arr([])
    ensures Normalize(SlideShare, Ok(map[])) == Arr([])
    ensures Normalize(GoogleImages, Raised("timeout")) == Obj(map["error" := Str("timeout")])
    ensures Normalize(Pinterest, Raised("timeout")) == Obj(map["error" := Str("timeout")])
    ensures Normalize(SlideShare, Raised("timeout")) == Obj(map["error" := Str("timeout")])
  {
  }

  /** An element that is not a dict raises on `.get`: one null among the
      results turns the whole answer into the error object. */
  lemma NullElementFails()
    ensures Normalize(SlideShare, Ok(map["organic_results" := Arr([Obj(map[]), Null])])) ==
      ErrorObject(NoGetMessage(Null))
  {
    var items := [Obj(map[]), Null];
    var doc := map["organic_results" := Arr(items)];
    assert items[..Min(8, 2)] == items;
    assert SliceItems(doc[SlideShare.resultsKey], SlideShare.cap) == Ok(items);
    assert MakeRecord(SlideShare, items[0]).Ok?;
    assert MakeRecord(SlideShare, items[1]) == Raised(NoGetMessage(Null));
    MapRecordsFirstRaise(SlideShare, items, 1);
  }
}
