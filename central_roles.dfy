/**
 * IoT Central role service: the request URLs of `get_role` and
 * `list_roles`, and the paging loop of `list_roles`.
 *
 * The HTTP exchange is abstracted to a finite source of response bodies:
 * the k-th request made answers `responses[k]`, and a request past the end
 * of the source fails as a failed request does. A body is a JSON object;
 * the role objects built from a page's `value` are represented by the JSON
 * items themselves.
 */
module CentralRoles {
  import opened Wrappers
  import opened Json

  const BasePath := "api/roles"

  /** The URL `list_roles` starts from: `https://{app}.{suffix}/api/roles`. */
  function ListUrl(appId: string, dnsSuffix: string): (url: string)
    ensures |url| > 0
  {
    "https://" + appId + "." + dnsSuffix + "/" + BasePath
  }

  /** The URL of one role: `https://{app}.{suffix}/api/roles/{role}`. */
  function RoleUrl(appId: string, dnsSuffix: string, roleId: string): (url: string)
    ensures |url| > 0
  {
    "https://" + appId + "." + dnsSuffix + "/" + BasePath + "/" + roleId
  }

  /** A role's URL is the listing URL with the role id appended as one more path segment. */
  lemma RoleUrlExtendsListUrl(appId: string, dnsSuffix: string, roleId: string)
    ensures RoleUrl(appId, dnsSuffix, roleId) == ListUrl(appId, dnsSuffix) + "/" + roleId
    ensures var prefix := "https://" + appId + "." + dnsSuffix + "/";
      ListUrl(appId, dnsSuffix)[..|prefix|] == prefix && ListUrl(appId, dnsSuffix)[|prefix|..] == "api/roles"
  {
    var prefix := "https://" + appId + "." + dnsSuffix + "/";
    assert ListUrl(appId, dnsSuffix) == prefix + BasePath;
  }

  /** Why `list_roles` raises: a body without `value`, a `value` that is not a list, or a failed request. */
  datatype RoleError = MissingValue(body: Object) | ValueNotAList | RequestFailed

  /** The URL the loop follows next: the page's `nextLink`, or "" (falsy) when there is none. */
  function NextLink(body: Object): string {
    if "nextLink" in body && body["nextLink"].JStr? then body["nextLink"].s else ""
  }

  /** The loop's guard: below the page cap (0 means no cap) and a non-empty URL to follow. */
  predicate Continues(url: string, maxPages: int, pagesProcessed: nat) {
    (maxPages == 0 || pagesProcessed < maxPages) && url != ""
  }

  /** Prepends `prefix` to a successful result; an error stays as it is. */
  function Prepend(prefix: seq<Json>, r: Result<seq<Json>, RoleError>): (p: Result<seq<Json>, RoleError>)
    ensures p.Success? <==> r.Success?
    ensures p.Success? ==> p.value == prefix + r.value
    ensures p.Failure? ==> p == r
  {
    match r
    case Success(v) => Success(prefix + v)
    case Failure(e) => Failure(e)
  }

  lemma PrependNothing(r: Result<seq<Json>, RoleError>)
    ensures Prepend([], r) == r
  {
    if r.Success? {
      assert [] + r.value == r.value;
    }
  }

  lemma PrependTwice(a: seq<Json>, b: seq<Json>, r: Result<seq<Json>, RoleError>)
    ensures Prepend(a, Prepend(b, r)) == Prepend(a + b, r)
  {
    if r.Success? {
      assert a + (b + r.value) == (a + b) + r.value;
    }
  }

  /**
   * The roles the loop gathers from the k-th request on, when that request
   * goes to `url`: the specification of `ListRoles`.
   */
  function Pages(url: string, maxPages: int, responses: seq<Object>, k: nat): Result<seq<Json>, RoleError>
    requires k <= |responses|
    decreases |responses| - k
  {
    if !Continues(url, maxPages, k) then Success([])
    else if k == |responses| then Failure(RequestFailed)
    else
      var body := responses[k];
      if "value" !in body then Failure(MissingValue(body))
      else if !body["value"].JArr? then Failure(ValueNotAList)
      else Prepend(body["value"].items, Pages(NextLink(body), maxPages, responses, k + 1))
  }

  /** The URLs requested from the k-th request on, including a request that fails. */
  function Requested(url: string, maxPages: int, responses: seq<Object>, k: nat): seq<string>
    requires k <= |responses|
    decreases |responses| - k
  {
    if !Continues(url, maxPages, k) then []
    else if k == |responses| || "value" !in responses[k] || !responses[k]["value"].JArr? then [url]
    else [url] + Requested(NextLink(responses[k]), maxPages, responses, k + 1)
  }

  /**
   * `list_roles`: fetch pages from the listing URL, following `nextLink`,
   * until there is none or `maxPages` pages (when positive) have been
   * processed. Also returns the URLs requested, in order.
   */
  method ListRoles(appId: string, dnsSuffix: string, maxPages: int, responses: seq<Object>)
    returns (r: Result<seq<Json>, RoleError>, requested: seq<string>)
    ensures r == Pages(ListUrl(appId, dnsSuffix), maxPages, responses, 0)
    ensures requested == Requested(ListUrl(appId, dnsSuffix), maxPages, responses, 0)
  {
    var roles: seq<Json> := [];
    var url := ListUrl(appId, dnsSuffix);
    var pagesProcessed: nat := 0;
    requested := [];
    PrependNothing(Pages(url, maxPages, responses, 0));
    while Continues(url, maxPages, pagesProcessed)
      invariant pagesProcessed <= |responses|
      invariant Pages(ListUrl(appId, dnsSuffix), maxPages, responses, 0) == Prepend(roles, Pages(url, maxPages, responses, pagesProcessed))
      invariant Requested(ListUrl(appId, dnsSuffix), maxPages, responses, 0) == requested + Requested(url, maxPages, responses, pagesProcessed)
      decreases |responses| - pagesProcessed
    {
      requested := requested + [url];
      if pagesProcessed == |responses| {
        return Failure(RequestFailed), requested;
      }
      var body := responses[pagesProcessed];
      if "value" !in body {
        return Failure(MissingValue(body)), requested;
      }
      if !body["value"].JArr? {
        return Failure(ValueNotAList), requested;
      }
      PrependTwice(roles, body["value"].items, Pages(NextLink(body), maxPages, responses, pagesProcessed + 1));
      roles := roles + body["value"].items;
      url := NextLink(body);
      pagesProcessed := pagesProcessed + 1;
    }
    assert roles + [] == roles;
    return Success(roles), requested;
  }

  // ---------------------------------------------------------------------------
  // What the loop promises.

  /** The items of the pages' `value` lists, in page order. */
  function Values(pages: seq<Object>): seq<Json> {
    if pages == [] then []
    else
      var last := pages[|pages| - 1];
      Values(pages[..|pages| - 1]) + (if "value" in last && last["value"].JArr? then last["value"].items else [])
  }

  lemma ValuesOne(body: Object)
    requires "value" in body && body["value"].JArr?
    ensures Values([body]) == body["value"].items
  {
    assert [body][..0] == [];
  }

  lemma {:induction false} ValuesPrepend(body: Object, rest: seq<Object>)
    ensures Values([body] + rest) == Values([body]) + Values(rest)
    decreases |rest|
  {
    if rest == [] {
      assert [body] + rest == [body];
    } else {
      var init := rest[..|rest| - 1];
      assert ([body] + rest)[..|rest|] == [body] + init;
      ValuesPrepend(body, init);
    }
  }

  /**
   * A listing that succeeds returns the concatenation of the `value` lists
   * of exactly the pages it requested, in order.
   */
  lemma {:induction false} PagesConcatenate(url: string, maxPages: int, responses: seq<Object>, k: nat)
    requires k <= |responses|
    requires Pages(url, maxPages, responses, k).Success?
    ensures k + |Requested(url, maxPages, responses, k)| <= |responses|
    ensures Pages(url, maxPages, responses, k).value == Values(responses[k..k + |Requested(url, maxPages, responses, k)|])
    decreases |responses| - k
  {
    if Continues(url, maxPages, k) {
      var body := responses[k];
      var next := NextLink(body);
      PagesConcatenate(next, maxPages, responses, k + 1);
      var n := |Requested(next, maxPages, responses, k + 1)|;
      var later := responses[k + 1..k + 1 + n];
      assert responses[k..k + 1 + n] == [body] + later;
      ValuesPrepend(body, later);
      ValuesOne(body);
    } else {
      assert responses[k..k] == [];
    }
  }

  /** With a positive cap, at most `maxPages` requests are made in all. */
  lemma {:induction false} RequestsCapped(url: string, maxPages: int, responses: seq<Object>, k: nat)
    requires k <= |responses|
    requires maxPages > 0 && k <= maxPages
    ensures |Requested(url, maxPages, responses, k)| <= maxPages - k
    decreases |responses| - k
  {
    if Continues(url, maxPages, k) && k < |responses| && "value" in responses[k] && responses[k]["value"].JArr? {
      RequestsCapped(NextLink(responses[k]), maxPages, responses, k + 1);
    }
  }

  /** A negative cap stops the loop before its first request: the result is empty. */
  lemma NegativeCapRequestsNothing(url: string, maxPages: int, responses: seq<Object>)
    requires maxPages < 0
    ensures Pages(url, maxPages, responses, 0) == Success([])
    ensures Requested(url, maxPages, responses, 0) == []
  {
  }

  /**
   * Without a cap, a listing that succeeds stops only at a page without a
   * `nextLink`: the last page requested has none, and every earlier one
   * links to the next URL requested.
   */
  lemma {:induction false} UncappedFollowsLinksToTheEnd(url: string, responses: seq<Object>, k: nat)
    requires k <= |responses| && url != ""
    requires Pages(url, 0, responses, k).Success?
    ensures var req := Requested(url, 0, responses, k);
      && |req| >= 1 && k + |req| <= |responses|
      && req[0] == url
      && NextLink(responses[k + |req| - 1]) == ""
      && forall i | 1 <= i < |req| :: req[i] == NextLink(responses[k + i - 1])
    decreases |responses| - k
  {
    var body := responses[k];
    var next := NextLink(body);
    if next != "" {
      UncappedFollowsLinksToTheEnd(next, responses, k + 1);
      var req := Requested(url, 0, responses, k);
      var tail := Requested(next, 0, responses, k + 1);
      assert req == [url] + tail;
      forall i | 1 <= i < |req| ensures req[i] == NextLink(responses[k + i - 1]) {
        assert req[i] == tail[i - 1];
      }
    }
  }

  /** A first page without `value` makes the listing raise, whatever follows it. */
  lemma FirstPageWithoutValueRaises(appId: string, dnsSuffix: string, maxPages: int, responses: seq<Object>)
    requires maxPages >= 0 && |responses| > 0 && "value" !in responses[0]
    ensures Pages(ListUrl(appId, dnsSuffix), maxPages, responses, 0) == Failure(MissingValue(responses[0]))
  {
  }
}
