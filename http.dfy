/** What the tool path sees of an outbound `fetch` call. The network is not
    modelled: the response is an input to each operation that would fetch. */
module Http {

  import opened Outcome

  /** Either the `fetch` promise rejects (with an error message), or a reply
      arrives with its status, status text and body (already read as `B`). */
  datatype Response<B> =
    | NetworkError(message: string)
    | Reply(status: nat, statusText: string, body: B)

  /** `response.ok`: the status is in the range 200-299. */
  predicate IsOk(status: nat) {
    200 <= status <= 299
  }

  /** An outbound request: URL and headers in insertion order. */
  datatype Request = Request(url: string, headers: seq<(string, string)>)

  /** The value of the first header named `name`, if any. */
  function HeaderValue(headers: seq<(string, string)>, name: string): (r: Option<string>)
    ensures r.Some? ==> (name, r.value) in headers
    ensures r.None? ==> forall h :: h in headers ==> h.0 != name
  {
    if |headers| == 0 then None
    else if headers[0].0 == name then Some(headers[0].1)
    else HeaderValue(headers[1..], name)
  }

  /** `https://api.github.com/repos/${owner}/${repo}/contents/${path}?ref=${ref}` */
  function ContentsUrl(owner: string, repo: string, path: string, ref: string): string {
    "https://api.github.com/repos/" + owner + "/" + repo + "/contents/" + path + "?ref=" + ref
  }
}
