/** `load_url`'s retrieval: a direct fetch, then the rewrite proxies one at a
    time until one answers. */
module Fetch {
  import opened State

  /** A response as far as the model needs it: the Content-Type header, which
      may be absent. The body is not modelled. */
  datatype Response = Response(contentType: Option<string>)

  /** The proxies from index `i` on, asked in order until one answers: the
      answer, if any, and the final `proxy_index`. */
  function FromProxies(url: string, proxies: seq<string>, fetch: string -> Option<Response>, i: nat): (Option<Response>, nat)
    requires i <= |proxies|
    decreases |proxies| - i
  {
    if i == |proxies| then (None, i)
    else if fetch(proxies[i] + url).Some? then (fetch(proxies[i] + url), i + 1)
    else FromProxies(url, proxies, fetch, i + 1)
  }

  /** `load_url`'s retrieval: the direct fetch, and only if it is rejected the
      proxies, in the order given. */
  function Retrieve(url: string, proxies: seq<string>, fetch: string -> Option<Response>): (Option<Response>, nat) {
    if fetch(url).Some? then (fetch(url), 0) else FromProxies(url, proxies, fetch, 0)
  }

  /** Asking the proxies from `i` on stops at the first that answers: every
      proxy before it was rejected, the answer is that proxy's, and there is
      no answer only when every proxy from `i` on was rejected. */
  lemma {:induction false} FirstProxyAnswers(url: string, proxies: seq<string>, fetch: string -> Option<Response>, i: nat)
    requires i <= |proxies|
    ensures var (response, tried) := FromProxies(url, proxies, fetch, i);
      i <= tried <= |proxies|
      && (forall j :: i <= j < tried - 1 ==> fetch(proxies[j] + url).None?)
      && (response.Some? ==> i < tried && response == fetch(proxies[tried - 1] + url))
      && (response.None? ==> tried == |proxies|)
      && (response.None? <==> forall j :: i <= j < |proxies| ==> fetch(proxies[j] + url).None?)
    decreases |proxies| - i
  {
    if i < |proxies| && fetch(proxies[i] + url).None? {
      FirstProxyAnswers(url, proxies, fetch, i + 1);
    }
  }

  /** The retrieval's promise: the direct answer when there is one, with no
      proxy asked; otherwise the first proxy to answer, every proxy before it
      having been rejected and none after it asked; no answer only when the
      direct fetch and every proxy were rejected. */
  lemma RetrieveFallsBack(url: string, proxies: seq<string>, fetch: string -> Option<Response>)
    ensures var (response, tried) := Retrieve(url, proxies, fetch);
      (fetch(url).Some? ==> response == fetch(url) && tried == 0)
      && tried <= |proxies|
      && (forall j :: 0 <= j < tried - 1 ==> fetch(proxies[j] + url).None?)
      && (fetch(url).None? && response.Some? ==> 1 <= tried && response == fetch(proxies[tried - 1] + url))
      && (response.None? <==> fetch(url).None? && forall j :: 0 <= j < |proxies| ==> fetch(proxies[j] + url).None?)
  {
    FirstProxyAnswers(url, proxies, fetch, 0);
  }

  /** The proxy loop in `load_url`, once the direct fetch was rejected: asks
      `proxies[0] + url`, `proxies[1] + url`, … in order, stopping at the
      first that answers. `fetch` gives the outcome of each request (None: the
      promise rejected); `tried` is the final `proxy_index`. */
  method TryProxies(url: string, proxies: seq<string>, fetch: string -> Option<Response>)
    returns (response: Option<Response>, tried: nat)
    ensures (response, tried) == FromProxies(url, proxies, fetch, 0)
  {
    response := None;
    tried := 0;
    while tried < |proxies|
      invariant tried <= |proxies|
      invariant response.None?
      invariant FromProxies(url, proxies, fetch, tried) == FromProxies(url, proxies, fetch, 0)
    {
      response := fetch(proxies[tried] + url);
      tried := tried + 1;
      if response.Some? {
        break;
      }
    }
  }
}
