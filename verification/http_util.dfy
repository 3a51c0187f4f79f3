/** The static entry points of `HttpUtil`: each binds a fresh builder to one
    HTTP method and the given URL. */
module HttpUtil {
  import opened JavaLang
  import Builder

  /** `HttpUtil.get(url)`. */
  function Get(url: Nullable<string>): (r: Result<Builder.RequestBuilder>)
    ensures r.Ok? <==> url.Ref? && |url.value| > 0
    ensures r.Ok? ==> r.value.httpMethod == Builder.GET && r.value.url.base == url.value
  {
    Builder.NewRequestBuilder(url, Builder.GET)
  }

  /** `HttpUtil.post(url)`. */
  function Post(url: Nullable<string>): (r: Result<Builder.RequestBuilder>)
    ensures r.Ok? <==> url.Ref? && |url.value| > 0
    ensures r.Ok? ==> r.value.httpMethod == Builder.POST && r.value.url.base == url.value
  {
    Builder.NewRequestBuilder(url, Builder.POST)
  }

  /** `HttpUtil.put(url)`. */
  function Put(url: Nullable<string>): (r: Result<Builder.RequestBuilder>)
    ensures r.Ok? <==> url.Ref? && |url.value| > 0
    ensures r.Ok? ==> r.value.httpMethod == Builder.PUT && r.value.url.base == url.value
  {
    Builder.NewRequestBuilder(url, Builder.PUT)
  }

  /** `HttpUtil.delete(url)`. */
  function Delete(url: Nullable<string>): (r: Result<Builder.RequestBuilder>)
    ensures r.Ok? <==> url.Ref? && |url.value| > 0
    ensures r.Ok? ==> r.value.httpMethod == Builder.DELETE && r.value.url.base == url.value
  {
    Builder.NewRequestBuilder(url, Builder.DELETE)
  }

  /** `HttpUtil.uploadFile(url)`: the same builder `post` gives. */
  function UploadFile(url: Nullable<string>): (r: Result<Builder.RequestBuilder>)
    ensures r == Post(url)
  {
    Builder.NewRequestBuilder(url, Builder.POST)
  }
}
