# Feed record projection

A Dafny model of the news-feed importer's `Record` (`app/models/record.rb`).
A record fetches the raw text of a JSON news feed, keeps it as `xml_data`,
and converts the parsed payload into `json_data = {news: [...]}`: one
normalized news record per feed item, in payload order. Which item key feeds
which record field is decided by the feed configuration's import section
(`feed[:import]`), a nested hash mapping field names (`title`, `url`, `date`,
…, and under `images` the image fields) to the item keys that hold them.

- `ruby_value.dfy` (module `RubyValue`): the parsed JSON value, ActiveSupport's
  `blank?`, and `to_i` on nil, integers and strings (leading white space, an
  optional sign, digits with single underscores between them), proved
  against `Integer#to_s`.
- `feed_projection.dfy` (module `FeedProjection`): `load_from_feed_definition`,
  `media_contents` (a specification function `MediaOf` and the looping method
  `MediaContents` proved equal to it), `parse_single_news_from_json` (the
  function `NewsOf` and the method `ParseSingleNewsFromJson`), and the news
  list of a whole payload (`NewsListOf`).
- `record.dfy` (module `Records`): the class `Record` with its two stored
  fields and the two methods that update them.

Modelling choices:

- Configuration keys are Ruby symbols; they appear as their names. Item keys
  are strings, as JSON.parse produces them, so looking up any configured
  value that is not a string finds nothing (nil).
- The configuration is only ever dug with one key (`:title`) or two
  (`[:images, :width]`); `FieldKey` names these two shapes.
- The entries built by `media_contents` are non-nil hashes, so the final
  `compact.flatten` leaves the list unchanged; with the typed `MediaContent`
  there is nothing for it to do, and it is not written out.
- The `images == false` guard in `media_contents` is already covered by the
  `blank?` guard before it (`false.blank?` holds); it is kept in the model
  all the same.
- `load_from_feed_definition` only digs into an item (or image) when the
  configuration entry is not blank. An item therefore needs to be a hash only
  when something is dug out of it; `dig` and `fetch` are modelled on a hash
  (string keys, so any other key finds nothing) and on an array (an integer
  index, negative from the end), the two receivers on which they do not
  raise. `Loadable`, `ImageReady`, `MediaReady` and `ItemReady` state exactly
  when the source does not raise: the values dug into have `dig`, the value
  under the image tag is an array, and `to_i` is applied to nil, an integer
  or a string. The source raises (NoMethodError, TypeError) everywhere else
  and promises nothing there.

## Model

| member | source | states |
|---|---|---|
| `RubyValue.ToIOfDecimalText` | app/models/record.rb:93-94 | `to_i` inverts `Integer#to_s`: the decimal text of any integer, optionally followed by text that cannot continue a number ("300px"), converts back to that integer |
| `RubyValue.ToIOfBlankIsZero` | app/models/record.rb:93-94 | `to_i` of nil, "" or a white-space-only string is 0, so a missing or unconfigured width or height becomes 0 |
| `RubyValue.NonNumericToIIsZero` | app/models/record.rb:93-94 | a non-numeric string, one where no digit follows the leading white space and optional sign ("abc5", "px300"), converts to 0 |
| `RubyValue.NonZeroToIStartsWithDigit` | app/models/record.rb:93-94 | conversely, a string converting to a non-zero number has a digit right after its leading white space and optional sign |
| `RubyValue.NoDigitToIIsZero` | app/models/record.rb:93-94 | a string containing no digit converts to 0 |
| `FeedProjection.LoadFromFeedDefinition` | app/models/record.rb:75-80 | the loaded value is "", nil, or one of the item's own values; it never invents a value |
| `FeedProjection.UnconfiguredFieldIsEmpty` | app/models/record.rb:76-77 | a field whose configuration entry (one- or two-level) is blank loads as "" from every item, even one that is not a hash, since the item is not looked at |
| `FeedProjection.ConfiguredFieldIsLookup` | app/models/record.rb:79 | a field with a non-blank entry loads from a hash item as the value under the configured string key, and as nil (not "") when the key is missing or the entry is not a string |
| `FeedProjection.MediaContents` | app/models/record.rb:82-103 | the guards and the loop appending one entry per image yield exactly `MediaOf`, the media list of the item |
| `FeedProjection.MediaDisabledIsEmpty` | app/models/record.rb:83-85 | when the image section is blank or false, or its image tag is blank, every item has no media |
| `FeedProjection.MediaListAt` | app/models/record.rb:88-100 | the media list of an image list has one entry per image, and entry `i` is built from image `i` |
| `FeedProjection.MediaOfEnabled` | app/models/record.rb:87-102 | with images enabled, an item yields one entry per element of its list under the image tag, in order; a hash item without that key yields [] |
| `FeedProjection.MediaEntriesAreImages` | app/models/record.rb:89-98 | every media entry has content type "image"; width and height are the `to_i` of the configured values, 0 when the configuration leaves them blank or the image lacks the key |
| `FeedProjection.NewsShape` | app/models/record.rb:53-72 | every record is not a full version, carries the feed's news type, the same date as publication date and published at, the fixed source description, exactly one content block whose media are the item's media, and each text field is "" for a blank entry, else the hash item's value under the configured key or nil |
| `FeedProjection.ParseSingleNewsFromJson` | app/models/record.rb:52-73 | the record built by running `MediaContents` keeps all of those record promises |
| `FeedProjection.NewsListOfAt` | app/models/record.rb:28-34 | the news list of a payload has one record per element, and record `i` is the projection of element `i` |
| `FeedProjection.TitleAndUrlExample` | app/models/record.rb:52-80 | the item `{"title": "T", "url": "U"}` under a title/url-only configuration gives title "T", url "U", "" for every other text field and no media |
| `FeedProjection.ImageExample` | app/models/record.rb:82-103 | with image tag "image" and a source url mapping, `{"image": [{"source_url": "x.png"}]}` gives one media entry for "x.png" with width and height 0 |
| `FeedProjection.UnmappedImagesExample` | app/models/record.rb:87-99 | with an image section mapping no image field, `{"image": ["a", nil]}` gives two entries of "" with width and height 0, without raising |
| `FeedProjection.NonHashItemExample` | app/models/record.rb:52-85 | a configuration mapping no text field and no images projects even a non-hash item, to a record of "" fields without media |
| `Records.Record.constructor` | app/models/record.rb:8-12 | a new record holds its source url and feed and no raw or structured data |
| `Records.Record.LoadJsonData` | app/models/record.rb:14-21 | the raw data becomes the response body exactly when the status is "200" and the body is present; otherwise it is unchanged |
| `Records.Record.ConvertJsonToHash` | app/models/record.rb:27-35 | the structured data becomes `{news: L}`, `L` as long as the payload, `L[i]` the projection of element `i`, built by a loop that appends in order |
| `Records.FetchAndConvertTwice` | app/models/record.rb:14-35 | a 404 response, an empty body and a nil body all leave the raw data unchanged, and converting the same payload twice stores the same news |

## Left out

- The HTTP request through `ApiRequestService` (app/models/record.rb:15): network I/O through a class that is not part of this model. `LoadJsonData` takes the response status and body as parameters.
- `JSON.parse` (app/models/record.rb:29): a foreign parser. `ConvertJsonToHash` takes the parsed payload as a parameter instead of parsing `xml_data`.
- `convert_to_json` (app/models/record.rb:23-25): `to_json` is a foreign serializer.
- ActiveRecord persistence, the `audited` history hook and the schema: framework plumbing.
- Floating-point numbers in a payload, and the truncation `to_i` applies to them: there is no float in the value model.
- `RubyValue.ToI`: does not model the `0d` radix prefix that Ruby's base-10 string conversion also accepts.
- Symbol values in the configuration: a symbol source key never matches a string-keyed item; configuration values are modelled as strings and other JSON values.
- `RubyValue.ToIOfDecimalText`: for 0 it excludes a following `d` or `D`, because of the same `0d` prefix.
- A hash (rather than an array) under the image tag, or a parsed payload that is a hash: Ruby then iterates over its key/value pairs in insertion order, which a Dafny map does not have; the preconditions exclude these inputs, although Ruby does not raise on them when no field needs digging.
- The exceptions the source raises on values that cannot be dug into or iterated (see above): excluded by preconditions rather than modelled.
