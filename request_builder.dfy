/** `CRequestBuilder` of src/ch_5_classes.ts: two fields set by chainable setters. */
module Builder {
  import opened Wrappers

  /** The two request methods the setter accepts. */
  datatype HttpMethod = Get | Post

  class RequestBuilder {
    /** `url`, `null` (None) until set. */
    var url: Option<string>
    /** `method`, `null` (None) until set. */
    var verb: Option<HttpMethod>

    constructor ()
      ensures url == None && verb == None
    {
      url := None;
      verb := None;
    }

    /** `setUrl`: records the URL, leaves the method alone, returns the builder. */
    method SetUrl(url: string) returns (self: RequestBuilder)
      modifies this
      ensures self == this
      ensures this.url == Some(url) && verb == old(verb)
    {
      this.url := Some(url);
      self := this;
    }

    /** `setMethod`: records the method, leaves the URL alone, returns the builder. */
    method SetMethod(verb: HttpMethod) returns (self: RequestBuilder)
      modifies this
      ensures self == this
      ensures this.verb == Some(verb) && url == old(url)
    {
      this.verb := Some(verb);
      self := this;
    }
  }

  /** The script's chain `setMethod('get').setUrl('http://www.url.com')`. */
  method BuildExample() returns (url: Option<string>, verb: Option<HttpMethod>)
    ensures url == Some("http://www.url.com") && verb == Some(Get)
  {
    var b := new RequestBuilder();
    var chained := b.SetMethod(Get);
    chained := chained.SetUrl("http://www.url.com");
    url, verb := b.url, b.verb;
  }

  /** The two setters touch disjoint fields, so chaining them in either order gives the same request. */
  method SettersCommute(u: string, m: HttpMethod) returns (urlFirst: (Option<string>, Option<HttpMethod>), methodFirst: (Option<string>, Option<HttpMethod>))
    ensures urlFirst == methodFirst == (Some(u), Some(m))
  {
    var b1 := new RequestBuilder();
    var c1 := b1.SetUrl(u);
    c1 := c1.SetMethod(m);
    urlFirst := (b1.url, b1.verb);
    var b2 := new RequestBuilder();
    var c2 := b2.SetMethod(m);
    c2 := c2.SetUrl(u);
    methodFirst := (b2.url, b2.verb);
  }

  /** A later `setUrl` overrides an earlier one. */
  method LastUrlWins(first: string, second: string) returns (url: Option<string>)
    ensures url == Some(second)
  {
    var b := new RequestBuilder();
    var chained := b.SetUrl(first);
    chained := chained.SetUrl(second);
    url := b.url;
  }
}
