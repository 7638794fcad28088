/** The loading / error / not-found / loaded choice that every page which
    fetches one record makes before it renders that record. */
module Fetch {
  import opened Wrappers

  datatype Phase<T> = Loading | Failed | Missing | Ready(data: T)

  /** `if (loading) ...; if (error) ...; if (!data) ...;` and only then the
      record: the earlier test always wins. */
  function SelectPhase<T>(loading: bool, error: bool, data: Option<T>): (r: Phase<T>)
    ensures r.Loading? <==> loading
    ensures r.Failed? <==> !loading && error
    ensures r.Missing? <==> !loading && !error && data.None?
    ensures r.Ready? <==> !loading && !error && data.Some?
    ensures r.Ready? ==> r.data == data.value
  {
    if loading then Loading
    else if error then Failed
    else match data
      case None => Missing
      case Some(d) => Ready(d)
  }

  /** The HTTP methods the pages send with. */
  datatype Method = Post | Put | Delete

  /** A request a page sends: method, URL and body. */
  datatype Request<B> = Request(verb: Method, url: string, body: B)
}
