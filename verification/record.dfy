/**
 * The stored record of one feed import: the raw text fetched from the feed
 * (`xml_data`) and the normalized news built from it (`json_data`).
 */
module Records {
  import opened RubyValue
  import opened FeedProjection

  datatype Option<T> = None | Some(value: T)

  /** The structured data a record stores: `{news: [...]}`. */
  datatype NewsData = NewsData(news: seq<News>)

  /** `String#present?` on a response body that may be nil. */
  predicate PresentBody(body: Option<string>)
  {
    body.Some? && !BlankString(body.value)
  }

  class Record {
    var sourceUrl: string
    var feed: map<string, Value>
    var xmlData: Option<string>
    var jsonData: Option<NewsData>

    /** A new record knows its source and feed configuration and holds no data yet. */
    constructor (sourceUrl: string, feed: map<string, Value>)
      ensures this.sourceUrl == sourceUrl && this.feed == feed
      ensures xmlData == None && jsonData == None
    {
      this.sourceUrl := sourceUrl;
      this.feed := feed;
      xmlData := None;
      jsonData := None;
    }

    /** load_json_data, given the HTTP response (`code`, `body`) fetched from
        `sourceUrl`: the body replaces the raw data only on status "200" with
        a body that is not blank; otherwise nothing changes. */
    method LoadJsonData(code: string, body: Option<string>)
      modifies this`xmlData
      ensures code == "200" && PresentBody(body) ==> xmlData == body
      ensures !(code == "200" && PresentBody(body)) ==> xmlData == old(xmlData)
    {
      if code != "200" {
        return;
      }
      if !PresentBody(body) {
        return;
      }
      xmlData := body;
    }

    /** convert_json_to_hash, given the parsed raw data `parsed`: the structured
        data becomes `{news: L}` where `L` projects the payload's elements in
        order. */
    method ConvertJsonToHash(parsed: Value)
      requires parsed.Arr? && PayloadReady(feed, parsed.elems)
      modifies this`jsonData
      ensures jsonData == Some(NewsData(NewsListOf(feed, parsed.elems)))
      ensures |jsonData.value.news| == |parsed.elems|
      ensures forall i :: 0 <= i < |parsed.elems| ==>
                jsonData.value.news[i] == NewsOf(Import(feed), parsed.elems[i])
    {
      var newsData := [];
      var items := parsed.elems;
      for i := 0 to |items|
        invariant PayloadReady(feed, items[..i])
        invariant newsData == NewsListOf(feed, items[..i])
      {
        assert items[..i + 1][..i] == items[..i];
        var news := ParseSingleNewsFromJson(Import(feed), items[i]);
        newsData := newsData + [news];
      }
      assert items[..|items|] == items;
      jsonData := Some(NewsData(newsData));
      NewsListOfAt(feed, items);
    }
  }

  /** A failed or empty fetch leaves the stored raw data as it was, and
      converting the same payload twice stores the same news. */
  method FetchAndConvertTwice(r: Record, parsed: Value, body: Option<string>)
    requires parsed.Arr? && PayloadReady(r.feed, parsed.elems)
    modifies r`xmlData, r`jsonData
    ensures r.xmlData == old(r.xmlData)
    ensures r.jsonData == Some(NewsData(NewsListOf(r.feed, parsed.elems)))
  {
    r.LoadJsonData("404", body);
    r.LoadJsonData("200", Some(""));
    r.LoadJsonData("200", None);
    r.ConvertJsonToHash(parsed);
    var first := r.jsonData;
    r.ConvertJsonToHash(parsed);
    assert r.jsonData == first;
  }
}
