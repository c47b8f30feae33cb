/**
 * The config-driven projection of one feed item into a news record.
 *
 * `imp` is always the import section of a feed configuration (the hash a
 * record reads as `feed[:import]`); configuration keys, which are symbols in
 * Ruby, appear here as their names. An item is one element of the parsed
 * payload: normally a string-keyed hash, though any value the source does not
 * need to dig into is accepted.
 */
module FeedProjection {
  import opened RubyValue

  // ---------------------------------------------------------------------
  // Output shapes
  // ---------------------------------------------------------------------

  datatype MediaSourceUrl = MediaSourceUrl(url: Value)

  /** One entry of a content block's `media_contents`. */
  datatype MediaContent = MediaContent(
    contentType: string,
    copyright: Value,
    captionText: Value,
    width: int,
    height: int,
    sourceUrl: MediaSourceUrl)

  datatype ContentBlock = ContentBlock(
    title: Value,
    intro: Value,
    body: Value,
    mediaContents: seq<MediaContent>)

  datatype SourceUrl = SourceUrl(url: Value, description: string)

  /** One normalized news record. */
  datatype News = News(
    externalId: Value,
    author: Value,
    fullVersion: bool,
    newsType: Value,
    publicationDate: Value,
    publishedAt: Value,
    sourceUrl: SourceUrl,
    contentBlocks: seq<ContentBlock>)

  /** The fixed description every record's source url carries. */
  const SourceUrlDescription := "source url of original article"

  // ---------------------------------------------------------------------
  // load_from_feed_definition
  // ---------------------------------------------------------------------

  /** The two shapes of configuration key the importer digs for: a field of
      the import section (`:title`), or a field of its image section
      (`[:images, :width]`). */
  datatype FieldKey = Field(name: string) | ImageField(name: string)

  /** `feed[:import].dig(*key)` does not raise: a two-level key needs the image
      section to be absent, nil or a hash. */
  predicate ConfigDiggable(imp: map<string, Value>, key: FieldKey)
  {
    key.Field? || Get(imp, "images").Nil? || Get(imp, "images").Hash?
  }

  /** `feed[:import].dig(*key)`: the source key the configuration names for a
      field, or nil. */
  function ConfigEntry(imp: map<string, Value>, key: FieldKey): Value
    requires ConfigDiggable(imp, key)
  {
    match key
    case Field(name) => Get(imp, name)
    case ImageField(name) =>
      var images := Get(imp, "images");
      if images.Nil? then Nil else Get(images.fields, name)
  }

  /** `v.dig(k)` (and `v.fetch(k, default)`) does not raise: a hash takes any
      key, an array only an integer index; nil, booleans, integers and strings
      have neither method. */
  predicate CanDig(v: Value, k: Value)
  {
    v.Hash? || (v.Arr? && k.Int?)
  }

  /** `Array#[]` with an integer: a negative index counts from the end; nil
      when the index is out of range. */
  function ElementAt(xs: seq<Value>, n: int): Value
  {
    if 0 <= n < |xs| then xs[n]
    else if -|xs| <= n < 0 then xs[|xs| + n]
    else Nil
  }

  /** `v.dig(k)` with one key. A string-keyed hash holds only string keys, so
      any other key finds nothing. */
  function Dig(v: Value, k: Value): Value
    requires CanDig(v, k)
  {
    if v.Hash? then (if k.Str? && k.s in v.fields then v.fields[k.s] else Nil)
    else ElementAt(v.elems, k.n)
  }

  /** load_from_feed_definition does not raise for `key` on `v`: the
      configuration can be dug, and `v` is only dug when the entry is not blank. */
  predicate Loadable(imp: map<string, Value>, key: FieldKey, v: Value)
  {
    ConfigDiggable(imp, key) && (Blank(ConfigEntry(imp, key)) || CanDig(v, ConfigEntry(imp, key)))
  }

  /** The value of one configured field of an item: "" when the configuration
      leaves the field blank, otherwise the item's value under the configured
      source key, or nil when the item has no such key. Whatever it returns
      was taken from the item, unless it is "" or nil. */
  function LoadFromFeedDefinition(imp: map<string, Value>, key: FieldKey, item: Value): (r: Value)
    requires Loadable(imp, key, item)
    ensures || r == Str("") || r == Nil
            || (item.Hash? && r in item.fields.Values)
            || (item.Arr? && r in item.elems)
  {
    var defined := ConfigEntry(imp, key);
    if Blank(defined) then Str("") else Dig(item, defined)
  }

  /** A field the configuration leaves blank loads as "" for every item, even
      one that is not a hash: the item is not looked at. */
  lemma UnconfiguredFieldIsEmpty(imp: map<string, Value>, key: FieldKey, item: Value)
    requires ConfigDiggable(imp, key) && Blank(ConfigEntry(imp, key))
    ensures Loadable(imp, key, item) && LoadFromFeedDefinition(imp, key, item) == Str("")
  {
  }

  /** A field configured with a non-blank entry loads from a hash item as the
      item's value under that key when the entry is a string, and as nil (not
      "") when the item lacks the key or the entry is not a string. */
  lemma ConfiguredFieldIsLookup(imp: map<string, Value>, key: FieldKey, item: map<string, Value>)
    requires ConfigDiggable(imp, key) && !Blank(ConfigEntry(imp, key))
    ensures Loadable(imp, key, Hash(item))
    ensures var entry := ConfigEntry(imp, key);
            entry.Str? && entry.s in item ==> LoadFromFeedDefinition(imp, key, Hash(item)) == item[entry.s]
    ensures var entry := ConfigEntry(imp, key);
            entry.Str? && entry.s !in item ==> LoadFromFeedDefinition(imp, key, Hash(item)) == Nil
    ensures !ConfigEntry(imp, key).Str? ==> LoadFromFeedDefinition(imp, key, Hash(item)) == Nil
  {
  }

  // ---------------------------------------------------------------------
  // media_contents
  // ---------------------------------------------------------------------

  /** The image section of the configuration, `feed[:import][:images]`. */
  function ImagesConfig(imp: map<string, Value>): Value
  {
    Get(imp, "images")
  }

  /** `feed[:import][:images][:image_tag]`: the item key of the image list. */
  function ImageTag(imp: map<string, Value>): Value
    requires ImagesConfig(imp).Hash?
  {
    Get(ImagesConfig(imp).fields, "image_tag")
  }

  /** The three guards of media_contents pass: images are configured, not
      false, and name an image tag. */
  predicate ImagesEnabled(imp: map<string, Value>)
  {
    var images := ImagesConfig(imp);
    !Blank(images) && images != Bool(false) && images.Hash? && !Blank(ImageTag(imp))
  }

  /** `item.fetch(tag, [])`: the item's value under the image tag, or [] when
      it has none. */
  function FetchImages(item: Value, tag: Value): Value
    requires CanDig(item, tag)
  {
    if item.Hash? then (if tag.Str? && tag.s in item.fields then item.fields[tag.s] else Arr([]))
    else if -|item.elems| <= tag.n < |item.elems| then ElementAt(item.elems, tag.n)
    else Arr([])
  }

  /** One element of an image list can be projected without raising: each
      configured image field can be loaded from it (it needs to be a hash only
      when some image field is configured), and the loaded width and height
      have a `to_i`. */
  predicate ImageReady(imp: map<string, Value>, image: Value)
    requires ImagesConfig(imp).Hash?
  {
    && Loadable(imp, ImageField("copyright"), image)
    && Loadable(imp, ImageField("caption_text"), image)
    && Loadable(imp, ImageField("width"), image)
    && Loadable(imp, ImageField("height"), image)
    && Loadable(imp, ImageField("source_url"), image)
    && HasToI(LoadFromFeedDefinition(imp, ImageField("width"), image))
    && HasToI(LoadFromFeedDefinition(imp, ImageField("height"), image))
  }

  predicate ImagesReady(imp: map<string, Value>, images: seq<Value>)
    requires ImagesConfig(imp).Hash?
  {
    forall i :: 0 <= i < |images| ==> ImageReady(imp, images[i])
  }

  /** media_contents does not raise on `item`: a non-blank image section is a
      hash, and when images are enabled the item can be fetched from and its
      value under the image tag is an array of projectable images. */
  predicate MediaReady(imp: map<string, Value>, item: Value)
  {
    var images := ImagesConfig(imp);
    || Blank(images)
    || (&& images.Hash?
        && (|| Blank(ImageTag(imp))
            || (&& CanDig(item, ImageTag(imp))
                && var list := FetchImages(item, ImageTag(imp));
                   list.Arr? && ImagesReady(imp, list.elems))))
  }

  /** The media entry built from one image. */
  function MediaEntry(imp: map<string, Value>, image: Value): MediaContent
    requires ImagesConfig(imp).Hash? && ImageReady(imp, image)
  {
    MediaContent(
      contentType := "image",
      copyright := LoadFromFeedDefinition(imp, ImageField("copyright"), image),
      captionText := LoadFromFeedDefinition(imp, ImageField("caption_text"), image),
      width := ToI(LoadFromFeedDefinition(imp, ImageField("width"), image)),
      height := ToI(LoadFromFeedDefinition(imp, ImageField("height"), image)),
      sourceUrl := MediaSourceUrl(LoadFromFeedDefinition(imp, ImageField("source_url"), image)))
  }

  /** The media entries of an image list, in list order. */
  function MediaList(imp: map<string, Value>, images: seq<Value>): seq<MediaContent>
    requires ImagesConfig(imp).Hash? && ImagesReady(imp, images)
  {
    if images == [] then []
    else MediaList(imp, images[..|images| - 1]) + [MediaEntry(imp, images[|images| - 1])]
  }

  /** What media_contents returns for an item: [] unless images are enabled,
      otherwise one entry per element of the item's image list. */
  function MediaOf(imp: map<string, Value>, item: Value): seq<MediaContent>
    requires MediaReady(imp, item)
  {
    var images := ImagesConfig(imp);
    if Blank(images) then []
    else if images == Bool(false) then []
    else if Blank(ImageTag(imp)) then []
    else MediaList(imp, FetchImages(item, ImageTag(imp)).elems)
  }

  /** media_contents: the guards, then one entry per image appended in order. */
  method MediaContents(imp: map<string, Value>, item: Value) returns (media: seq<MediaContent>)
    requires MediaReady(imp, item)
    ensures media == MediaOf(imp, item)
  {
    var images := ImagesConfig(imp);
    if Blank(images) {
      return [];
    }
    if images == Bool(false) {
      return [];
    }
    if Blank(ImageTag(imp)) {
      return [];
    }
    var list := FetchImages(item, ImageTag(imp)).elems;
    media := [];
    for i := 0 to |list|
      invariant media == MediaList(imp, list[..i])
    {
      assert list[..i + 1][..i] == list[..i];
      media := media + [MediaEntry(imp, list[i])];
    }
    assert list[..|list|] == list;
  }

  /** MediaList yields exactly one entry per image, in the same order. */
  lemma {:induction false} MediaListAt(imp: map<string, Value>, images: seq<Value>)
    requires ImagesConfig(imp).Hash? && ImagesReady(imp, images)
    ensures |MediaList(imp, images)| == |images|
    ensures forall i :: 0 <= i < |images| ==> MediaList(imp, images)[i] == MediaEntry(imp, images[i])
  {
    if images != [] {
      var init := images[..|images| - 1];
      assert ImagesReady(imp, init);
      MediaListAt(imp, init);
    }
  }

  /** With images disabled (section blank or false, or no image tag), every
      item has no media. */
  lemma MediaDisabledIsEmpty(imp: map<string, Value>, item: Value)
    requires MediaReady(imp, item) && !ImagesEnabled(imp)
    ensures MediaOf(imp, item) == []
  {
  }

  /** With images enabled, an item yields one media entry per element of its
      image list, in order; an item without the image tag yields none. */
  lemma MediaOfEnabled(imp: map<string, Value>, item: Value)
    requires MediaReady(imp, item) && ImagesEnabled(imp)
    ensures CanDig(item, ImageTag(imp))
    ensures var list := FetchImages(item, ImageTag(imp));
            && |MediaOf(imp, item)| == |list.elems|
            && (forall i :: 0 <= i < |list.elems| ==> MediaOf(imp, item)[i] == MediaEntry(imp, list.elems[i]))
            && (list == Arr([]) ==> MediaOf(imp, item) == [])
    ensures item.Hash? && ImageTag(imp).Str? && ImageTag(imp).s !in item.fields ==> MediaOf(imp, item) == []
  {
    MediaListAt(imp, FetchImages(item, ImageTag(imp)).elems);
  }

  /** Every media entry is an image; its width and height are the `to_i` of
      the configured values, hence 0 when the configuration leaves them blank
      or the image is a hash that lacks the configured key. */
  lemma MediaEntriesAreImages(imp: map<string, Value>, item: Value)
    requires MediaReady(imp, item)
    ensures forall m :: m in MediaOf(imp, item) ==> m.contentType == "image"
    ensures ImagesEnabled(imp) ==>
              var list := FetchImages(item, ImageTag(imp)).elems;
              && |MediaOf(imp, item)| == |list|
              && forall i :: 0 <= i < |list| ==>
                   && MediaOf(imp, item)[i].width == ToI(LoadFromFeedDefinition(imp, ImageField("width"), list[i]))
                   && MediaOf(imp, item)[i].height == ToI(LoadFromFeedDefinition(imp, ImageField("height"), list[i]))
    ensures ImagesEnabled(imp) && Blank(ConfigEntry(imp, ImageField("width"))) ==>
              forall m :: m in MediaOf(imp, item) ==> m.width == 0
    ensures ImagesEnabled(imp) && Blank(ConfigEntry(imp, ImageField("height"))) ==>
              forall m :: m in MediaOf(imp, item) ==> m.height == 0
    ensures ImagesEnabled(imp) && ConfigEntry(imp, ImageField("width")).Str? ==>
              var list := FetchImages(item, ImageTag(imp)).elems;
              && |MediaOf(imp, item)| == |list|
              && forall i :: 0 <= i < |list| && list[i].Hash? && ConfigEntry(imp, ImageField("width")).s !in list[i].fields ==>
                   MediaOf(imp, item)[i].width == 0
    ensures ImagesEnabled(imp) && ConfigEntry(imp, ImageField("height")).Str? ==>
              var list := FetchImages(item, ImageTag(imp)).elems;
              && |MediaOf(imp, item)| == |list|
              && forall i :: 0 <= i < |list| && list[i].Hash? && ConfigEntry(imp, ImageField("height")).s !in list[i].fields ==>
                   MediaOf(imp, item)[i].height == 0
  {
    if ImagesEnabled(imp) {
      var list := FetchImages(item, ImageTag(imp)).elems;
      MediaListAt(imp, list);
      ToIOfBlankIsZero(Str(""));
    }
  }

  // ---------------------------------------------------------------------
  // parse_single_news_from_json
  // ---------------------------------------------------------------------

  /** parse_single_news_from_json does not raise on `item`: every configured
      text field can be loaded from it, and media_contents accepts it. An item
      needs to be a hash only when something is dug out of it. */
  predicate ItemReady(imp: map<string, Value>, item: Value)
  {
    && Loadable(imp, Field("external_id"), item)
    && Loadable(imp, Field("author"), item)
    && Loadable(imp, Field("date"), item)
    && Loadable(imp, Field("url"), item)
    && Loadable(imp, Field("title"), item)
    && Loadable(imp, Field("intro"), item)
    && Loadable(imp, Field("body"), item)
    && MediaReady(imp, item)
  }

  /** The record parse_single_news_from_json builds from one item. */
  function NewsOf(imp: map<string, Value>, item: Value): News
    requires ItemReady(imp, item)
  {
    News(
      externalId := LoadFromFeedDefinition(imp, Field("external_id"), item),
      author := LoadFromFeedDefinition(imp, Field("author"), item),
      fullVersion := false,
      newsType := Get(imp, "news_type"),
      publicationDate := LoadFromFeedDefinition(imp, Field("date"), item),
      publishedAt := LoadFromFeedDefinition(imp, Field("date"), item),
      sourceUrl := SourceUrl(LoadFromFeedDefinition(imp, Field("url"), item), SourceUrlDescription),
      contentBlocks := [
        ContentBlock(
          title := LoadFromFeedDefinition(imp, Field("title"), item),
          intro := LoadFromFeedDefinition(imp, Field("intro"), item),
          body := LoadFromFeedDefinition(imp, Field("body"), item),
          mediaContents := MediaOf(imp, item))
      ])
  }

  /** What the configuration promises for the text field `name` holding `v`:
      "" when its entry is blank; otherwise, for a hash item, the item's value
      under the configured string key, and nil when the item lacks the key or
      the entry is not a string. */
  predicate FieldFromItem(imp: map<string, Value>, name: string, item: Value, v: Value)
  {
    var entry := Get(imp, name);
    && (Blank(entry) ==> v == Str(""))
    && (!Blank(entry) && item.Hash? ==> v == (if entry.Str? then Get(item.fields, entry.s) else Nil))
  }

  /** The promises every record keeps: not a full version, the feed's news
      type, one date under both names, the fixed source description, exactly
      one content block carrying the item's media, and each text field as the
      configuration says. */
  predicate RecordPromises(imp: map<string, Value>, item: Value, n: News)
    requires MediaReady(imp, item)
  {
    && !n.fullVersion
    && n.newsType == Get(imp, "news_type")
    && n.publicationDate == n.publishedAt
    && n.sourceUrl.description == "source url of original article"
    && |n.contentBlocks| == 1
    && n.contentBlocks[0].mediaContents == MediaOf(imp, item)
    && FieldFromItem(imp, "external_id", item, n.externalId)
    && FieldFromItem(imp, "author", item, n.author)
    && FieldFromItem(imp, "date", item, n.publicationDate)
    && FieldFromItem(imp, "url", item, n.sourceUrl.url)
    && FieldFromItem(imp, "title", item, n.contentBlocks[0].title)
    && FieldFromItem(imp, "intro", item, n.contentBlocks[0].intro)
    && FieldFromItem(imp, "body", item, n.contentBlocks[0].body)
  }

  /** Every projected record keeps the record promises. */
  lemma NewsShape(imp: map<string, Value>, item: Value)
    requires ItemReady(imp, item)
    ensures RecordPromises(imp, item, NewsOf(imp, item))
  {
  }

  /** parse_single_news_from_json: builds the record, running media_contents;
      the result is the projection of the item and keeps the record promises. */
  method ParseSingleNewsFromJson(imp: map<string, Value>, item: Value) returns (news: News)
    requires ItemReady(imp, item)
    ensures news == NewsOf(imp, item)
    ensures RecordPromises(imp, item, news)
  {
    var media := MediaContents(imp, item);
    news := News(
      externalId := LoadFromFeedDefinition(imp, Field("external_id"), item),
      author := LoadFromFeedDefinition(imp, Field("author"), item),
      fullVersion := false,
      newsType := Get(imp, "news_type"),
      publicationDate := LoadFromFeedDefinition(imp, Field("date"), item),
      publishedAt := LoadFromFeedDefinition(imp, Field("date"), item),
      sourceUrl := SourceUrl(LoadFromFeedDefinition(imp, Field("url"), item), SourceUrlDescription),
      contentBlocks := [
        ContentBlock(
          title := LoadFromFeedDefinition(imp, Field("title"), item),
          intro := LoadFromFeedDefinition(imp, Field("intro"), item),
          body := LoadFromFeedDefinition(imp, Field("body"), item),
          mediaContents := media)
      ]);
    NewsShape(imp, item);
  }

  // ---------------------------------------------------------------------
  // The whole payload, as convert_json_to_hash builds it
  // ---------------------------------------------------------------------

  /** `feed[:import]` is a hash. */
  predicate FeedValid(feed: map<string, Value>)
  {
    "import" in feed && feed["import"].Hash?
  }

  function Import(feed: map<string, Value>): map<string, Value>
    requires FeedValid(feed)
  {
    feed["import"].fields
  }

  /** Every element of the payload can be projected without raising: the feed
      has an import section and parse_single_news_from_json accepts each
      element. An empty payload demands nothing. */
  predicate PayloadReady(feed: map<string, Value>, items: seq<Value>)
  {
    || items == []
    || (&& FeedValid(feed)
        && forall i :: 0 <= i < |items| ==> ItemReady(Import(feed), items[i]))
  }

  /** The news list of a payload: its elements projected in order. */
  function NewsListOf(feed: map<string, Value>, items: seq<Value>): seq<News>
    requires PayloadReady(feed, items)
  {
    if items == [] then []
    else NewsListOf(feed, items[..|items| - 1]) + [NewsOf(Import(feed), items[|items| - 1])]
  }

  /** The news list has one record per payload element, and record `i` is the
      projection of element `i`. */
  lemma {:induction false} NewsListOfAt(feed: map<string, Value>, items: seq<Value>)
    requires PayloadReady(feed, items)
    ensures |NewsListOf(feed, items)| == |items|
    ensures forall i :: 0 <= i < |items| ==> NewsListOf(feed, items)[i] == NewsOf(Import(feed), items[i])
  {
    if items != [] {
      var init := items[..|items| - 1];
      assert PayloadReady(feed, init);
      NewsListOfAt(feed, init);
    }
  }

  // ---------------------------------------------------------------------
  // Worked examples
  // ---------------------------------------------------------------------

  /** A payload item `{"title": "T", "url": "U"}` under a configuration that
      maps only title and url yields title "T", url "U", and "" for every other
      text field. */
  lemma TitleAndUrlExample()
    ensures var imp := map["title" := Str("title"), "url" := Str("url")];
            var item := Hash(map["title" := Str("T"), "url" := Str("U")]);
            ItemReady(imp, item) &&
            var n := NewsOf(imp, item);
            && n.contentBlocks[0].title == Str("T")
            && n.sourceUrl.url == Str("U")
            && n.externalId == Str("") && n.author == Str("")
            && n.publicationDate == Str("") && n.publishedAt == Str("")
            && n.contentBlocks[0].intro == Str("") && n.contentBlocks[0].body == Str("")
            && n.contentBlocks[0].mediaContents == []
  {
    var imp := map["title" := Str("title"), "url" := Str("url")];
    var item := Hash(map["title" := Str("T"), "url" := Str("U")]);
    assert "title"[0] == 't' && !IsUnicodeSpace('t');
    assert "url"[0] == 'u' && !IsUnicodeSpace('u');
    ConfiguredFieldIsLookup(imp, Field("title"), item.fields);
    ConfiguredFieldIsLookup(imp, Field("url"), item.fields);
    UnconfiguredFieldIsEmpty(imp, Field("external_id"), item);
    UnconfiguredFieldIsEmpty(imp, Field("author"), item);
    UnconfiguredFieldIsEmpty(imp, Field("date"), item);
    UnconfiguredFieldIsEmpty(imp, Field("intro"), item);
    UnconfiguredFieldIsEmpty(imp, Field("body"), item);
    assert Blank(ImagesConfig(imp));
    assert ItemReady(imp, item);
    MediaDisabledIsEmpty(imp, item);
  }

  /** With `image_tag: "image"` and a source url mapping, the item
      `{"image": [{"source_url": "x.png"}]}` yields one media entry for
      "x.png" with width and height 0. */
  lemma ImageExample()
    ensures var imp := map["images" := Hash(map["image_tag" := Str("image"), "source_url" := Str("source_url")])];
            var item := Hash(map["image" := Arr([Hash(map["source_url" := Str("x.png")])])]);
            MediaReady(imp, item) &&
            var media := MediaOf(imp, item);
            && |media| == 1
            && media[0].sourceUrl.url == Str("x.png")
            && media[0].width == 0 && media[0].height == 0
  {
    var imp := map["images" := Hash(map["image_tag" := Str("image"), "source_url" := Str("source_url")])];
    var image := Hash(map["source_url" := Str("x.png")]);
    var item := Hash(map["image" := Arr([image])]);
    assert "image"[0] == 'i' && !IsUnicodeSpace('i');
    assert "source_url"[0] == 's' && !IsUnicodeSpace('s');
    assert ImageTag(imp) == Str("image");
    assert ImageReady(imp, image);
    assert MediaReady(imp, item);
    ToIOfBlankIsZero(Str(""));
    assert MediaOf(imp, item) == MediaList(imp, [image]);
    assert [image][..0] == [];
  }

  /** An image section that maps no image field never looks into the images:
      `{"image": ["a", nil]}` yields two entries of "" with width and height 0. */
  lemma UnmappedImagesExample()
    ensures var imp := map["images" := Hash(map["image_tag" := Str("image")])];
            var item := Hash(map["image" := Arr([Str("a"), Nil])]);
            var blankEntry := MediaContent("image", Str(""), Str(""), 0, 0, MediaSourceUrl(Str("")));
            MediaReady(imp, item) && MediaOf(imp, item) == [blankEntry, blankEntry]
  {
    var imp := map["images" := Hash(map["image_tag" := Str("image")])];
    var images := [Str("a"), Nil];
    var item := Hash(map["image" := Arr(images)]);
    assert "image"[0] == 'i' && !IsUnicodeSpace('i');
    assert ImageTag(imp) == Str("image");
    assert ImageReady(imp, Str("a")) && ImageReady(imp, Nil);
    assert MediaReady(imp, item);
    ToIOfBlankIsZero(Str(""));
    var blankEntry := MediaContent("image", Str(""), Str(""), 0, 0, MediaSourceUrl(Str("")));
    assert MediaEntry(imp, Str("a")) == blankEntry;
    assert MediaEntry(imp, Nil) == blankEntry;
    assert images[..1] == [Str("a")] && images[..1][..0] == [];
    assert MediaList(imp, images[..1]) == [blankEntry];
    assert MediaList(imp, images) == [blankEntry, blankEntry];
    assert MediaOf(imp, item) == MediaList(imp, images);
  }

  /** A configuration that maps no text field and no images never looks into
      the item: a non-hash item projects to a record of "" fields, no media. */
  lemma NonHashItemExample()
    ensures var item := Arr([Int(1)]);
            ItemReady(map[], item) &&
            var n := NewsOf(map[], item);
            && n.externalId == Str("") && n.author == Str("") && n.publicationDate == Str("")
            && n.sourceUrl.url == Str("") && n.contentBlocks[0].title == Str("")
            && n.contentBlocks[0].mediaContents == []
  {
  }
}
