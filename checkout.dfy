/** The checkout redirect of server.js:31-62: the URL of the provider's hosted
    checkout page for a product, built by string concatenation.

    The percent-encoder `encodeURIComponent` (ECMAScript 2015, section 18.2.6.5)
    is a parameter `enc`; the only thing assumed of it, where needed, is what
    that section guarantees: its output never contains the characters '?',
    '&' and '#', which delimit a URL's query, its fields and its fragment.
    The success URL (server.js:44-47) is taken already built. */
module Checkout {
  import opened Wrappers

  const LiveMode := "live_mode"
  const LiveOrigin := "https://checkout.dodopayments.com/buy"
  const TestOrigin := "https://test.checkout.dodopayments.com/buy"

  /** `enc` escapes the characters that delimit a URL's query, its fields and its fragment. */
  ghost predicate EscapesDelimiters(enc: string -> string)
  {
    forall x :: '?' !in enc(x) && '&' !in enc(x) && '#' !in enc(x)
  }

  /** The checkout origin for the `DODO_PAYMENTS_ENVIRONMENT` setting
      (server.js:38-40): live exactly when the setting is 'live_mode', the test
      origin otherwise, unset included. Neither origin has a query or a fragment. */
  function Origin(environment: Option<string>): (r: string)
    ensures r == LiveOrigin <==> environment == Some(LiveMode)
    ensures r == TestOrigin <==> environment != Some(LiveMode)
    ensures '?' !in r && '#' !in r
  {
    if environment == Some(LiveMode) then LiveOrigin else TestOrigin
  }

  /** The checkout URL as server.js:51-53 composes it: the product id goes into
      the path as it is, the return URL and the email are encoded, and the
      email field is there only when the email is truthy. */
  function CheckoutUrl(environment: Option<string>, productId: string, email: Option<string>,
                       successUrl: string, enc: string -> string): (url: string)
    ensures IsLive(url) <==> environment == Some(LiveMode)
  {
    var url := Origin(environment) + "/" + productId + "?" + Query(email, successUrl, enc);
    LiveOriginIsNotTestOrigin(url[|TestOrigin|..]);
    url
  }

  /** The text after the '?' of the checkout URL (server.js:51, 53). */
  function Query(email: Option<string>, successUrl: string, enc: string -> string): string
  {
    "quantity=1&redirect_url=" + enc(successUrl) + (if Truthy(email) then "&email=" + enc(email.value) else "")
  }

  /** The redirect handler's URL building (server.js:38-53), appending the email field in place. */
  method BuildCheckoutUrl(environment: Option<string>, productId: string, email: Option<string>,
                          successUrl: string, enc: string -> string) returns (checkoutUrl: string)
    ensures checkoutUrl == CheckoutUrl(environment, productId, email, successUrl, enc)
  {
    var baseUrl := if environment == Some(LiveMode) then LiveOrigin else TestOrigin;
    var returnUrl := enc(successUrl);
    checkoutUrl := baseUrl + "/" + productId + "?quantity=1&redirect_url=" + returnUrl;
    if Truthy(email) {
      checkoutUrl := checkoutUrl + "&email=" + enc(email.value);
    }
  }

  /** Whether a URL points at the live checkout. */
  predicate IsLive(url: string)
  {
    LiveOrigin <= url
  }

  /** The two origins part at their ninth character, so whatever follows the
      origin, a URL on the test origin never starts with the live one. */
  lemma LiveOriginIsNotTestOrigin(rest: string)
    ensures !(LiveOrigin <= TestOrigin + rest)
  {
    assert LiveOrigin[8] == 'c';
    assert (TestOrigin + rest)[8] == 't';
  }

  // ---- Reading a URL back: the path ends at the first '?' or '#'; the query runs
  // from that '?' to the next '#' and is cut into fields at each '&'

  /** The part of a URL before its first '?' or '#' (all of it when there is neither). */
  function PathOf(url: string): (p: string)
    ensures p <= url
    ensures '?' !in p && '#' !in p
  {
    if url == [] || url[0] == '?' || url[0] == '#' then [] else [url[0]] + PathOf(url[1..])
  }

  /** The part of `s` before its first '#': a fragment is not part of the query. */
  function BeforeFragment(s: string): (r: string)
    ensures r <= s
    ensures '#' !in r
  {
    if s == [] || s[0] == '#' then [] else [s[0]] + BeforeFragment(s[1..])
  }

  /** The query of a URL: from its first '?' up to the next '#'; nothing when
      there is no '?' or a '#' comes first. */
  function QueryOf(url: string): (q: string)
    ensures |q| <= |url|
    ensures '#' !in q
  {
    if url == [] || url[0] == '#' then []
    else if url[0] == '?' then BeforeFragment(url[1..])
    else QueryOf(url[1..])
  }

  /** `s` cut at every `sep`; never empty, and no part holds `sep`. */
  function Split(s: string, sep: char): (parts: seq<string>)
    ensures |parts| >= 1
    ensures forall i :: 0 <= i < |parts| ==> sep !in parts[i]
  {
    if s == [] then [[]]
    else
      var rest := Split(s[1..], sep);
      if s[0] == sep then [[]] + rest
      else [[s[0]] + rest[0]] + rest[1..]
  }

  /** The fields of a URL's query. */
  function Fields(url: string): seq<string>
  {
    Split(QueryOf(url), '&')
  }

  /** Text without '#' has no fragment to cut off. */
  lemma {:induction false} BeforeFragmentWithout(s: string)
    requires '#' !in s
    ensures BeforeFragment(s) == s
  {
    if s != [] {
      BeforeFragmentWithout(s[1..]);
      assert [s[0]] + s[1..] == s;
    }
  }

  /** A path without '?' or '#', then '?', then a query without '#', reads back
      as that path and that query. */
  lemma {:induction false} PathAndQuery(path: string, query: string)
    requires '?' !in path && '#' !in path && '#' !in query
    ensures PathOf(path + "?" + query) == path
    ensures QueryOf(path + "?" + query) == query
  {
    if path != [] {
      assert (path + "?" + query)[1..] == path[1..] + "?" + query;
      PathAndQuery(path[1..], query);
    } else {
      assert path + "?" + query == ['?'] + query;
      BeforeFragmentWithout(query);
    }
  }

  /** A path without '?' or '#', then '#', then anything, reads back as that
      path and an empty query: whatever follows the '#' is fragment. */
  lemma {:induction false} PathAndFragment(path: string, rest: string)
    requires '?' !in path && '#' !in path
    ensures PathOf(path + "#" + rest) == path
    ensures QueryOf(path + "#" + rest) == []
  {
    if path != [] {
      assert (path + "#" + rest)[1..] == path[1..] + "#" + rest;
      PathAndFragment(path[1..], rest);
    } else {
      assert path + "#" + rest == ['#'] + rest;
    }
  }

  /** A string without the separator is a single part. */
  lemma {:induction false} SplitWithout(s: string, sep: char)
    requires sep !in s
    ensures Split(s, sep) == [s]
  {
    if s != [] {
      assert s[0] != sep;
      SplitWithout(s[1..], sep);
      assert [s[0]] + s[1..] == s;
    }
  }

  /** Splitting at the first separator. */
  lemma {:induction false} SplitAt(a: string, sep: char, b: string)
    requires sep !in a
    ensures Split(a + [sep] + b, sep) == [a] + Split(b, sep)
  {
    var s := a + [sep] + b;
    if a == [] {
      assert s[0] == sep && s[1..] == b;
    } else {
      assert s[0] == a[0] != sep;
      assert s[1..] == a[1..] + [sep] + b;
      SplitAt(a[1..], sep, b);
      assert [a[0]] + a[1..] == a;
    }
  }

  /** `parts` joined with `sep` between each two. */
  function Join(parts: seq<string>, sep: char): string
    requires |parts| >= 1
  {
    if |parts| == 1 then parts[0] else parts[0] + [sep] + Join(parts[1..], sep)
  }

  /** Splitting undoes joining when no part holds the separator. */
  lemma {:induction false} SplitJoin(parts: seq<string>, sep: char)
    requires |parts| >= 1
    requires forall i :: 0 <= i < |parts| ==> sep !in parts[i]
    ensures Split(Join(parts, sep), sep) == parts
  {
    if |parts| == 1 {
      SplitWithout(parts[0], sep);
    } else {
      SplitJoin(parts[1..], sep);
      SplitAt(parts[0], sep, Join(parts[1..], sep));
      assert [parts[0]] + parts[1..] == parts;
    }
  }

  const QuantityField := "quantity=1"
  const RedirectKey := "redirect_url="
  const EmailKey := "email="

  /** The query fields the checkout URL is meant to carry, in order. */
  function IntendedFields(email: Option<string>, successUrl: string, enc: string -> string): seq<string>
  {
    [QuantityField, RedirectKey + enc(successUrl)]
    + (if Truthy(email) then [EmailKey + enc(email.value)] else [])
  }

  /** What follows the '?' of the checkout URL is its intended fields joined with '&'. */
  lemma QueryIsJoin(email: Option<string>, successUrl: string, enc: string -> string)
    ensures Query(email, successUrl, enc) == Join(IntendedFields(email, successUrl, enc), '&')
  {
    var fields := IntendedFields(email, successUrl, enc);
    var q, r := QuantityField, RedirectKey + enc(successUrl);
    assert "quantity=1&redirect_url=" == q + ['&'] + RedirectKey;
    if Truthy(email) {
      var e := EmailKey + enc(email.value);
      assert "&email=" == ['&'] + EmailKey;
      assert fields == [q, r, e] && fields[1..] == [r, e] && fields[1..][1..] == [e];
      assert Join(fields[1..], '&') == r + ['&'] + e;
    } else {
      assert fields == [q, r] && fields[1..] == [r];
    }
  }

  /** A URL made of a path without '?' or '#', a '?', and the checkout query
      reads back as that path and the intended fields. */
  lemma {:induction false} ReadsBack(path: string, email: Option<string>, successUrl: string, enc: string -> string)
    requires EscapesDelimiters(enc)
    requires '?' !in path && '#' !in path
    ensures PathOf(path + "?" + Query(email, successUrl, enc)) == path
    ensures Fields(path + "?" + Query(email, successUrl, enc)) == IntendedFields(email, successUrl, enc)
  {
    var fields := IntendedFields(email, successUrl, enc);
    QueryIsJoin(email, successUrl, enc);
    assert '#' !in enc(successUrl) && (Truthy(email) ==> '#' !in enc(email.value));
    PathAndQuery(path, Query(email, successUrl, enc));
    assert forall i :: 0 <= i < |fields| ==> '&' !in fields[i];
    SplitJoin(fields, '&');
  }

  /** When the product id has neither '?' nor '#', the checkout URL reads back
      as the origin and product id, then exactly the fields quantity=1, the
      encoded return URL and, for a truthy email, the encoded email. */
  lemma CheckoutUrlReadsBack(environment: Option<string>, productId: string, email: Option<string>,
                             successUrl: string, enc: string -> string)
    requires EscapesDelimiters(enc)
    requires '?' !in productId && '#' !in productId
    ensures var url := CheckoutUrl(environment, productId, email, successUrl, enc);
            && PathOf(url) == Origin(environment) + "/" + productId
            && Fields(url) == IntendedFields(email, successUrl, enc)
  {
    ReadsBack(Origin(environment) + "/" + productId, email, successUrl, enc);
  }

  /** The product id is put into the path unencoded (server.js:51). A product
      id holding '?' therefore starts the query itself: with the id
      "p?quantity=99&x=" (what the route receives for the request path
      /checkout/p%3Fquantity%3D99%26x%3D), the first field is quantity=99 and
      quantity=1 is no longer a field at all. */
  lemma ProductIdRewritesQuery(environment: Option<string>, email: Option<string>,
                               successUrl: string, enc: string -> string)
    requires EscapesDelimiters(enc)
    ensures var url := CheckoutUrl(environment, "p?quantity=99&x=", email, successUrl, enc);
            && PathOf(url) == Origin(environment) + "/p"
            && Fields(url) == ["quantity=99", "x=?quantity=1"] + IntendedFields(email, successUrl, enc)[1..]
            && QuantityField !in Fields(url)
  {
    var fields := IntendedFields(email, successUrl, enc);
    var origin, query := Origin(environment), Query(email, successUrl, enc);
    var path := origin + "/p";
    InjectedUrl(origin, query);
    InjectedReadsBack(path, email, successUrl, enc);
    assert forall i :: 1 <= i < |fields| ==> fields[i][0] != 'q';
  }

  /** With the injected product id, the first '?' of the URL follows "p". */
  lemma InjectedUrl(origin: string, query: string)
    ensures origin + "/" + "p?quantity=99&x=" + "?" + query == (origin + "/p") + "?" + ("quantity=99&x=?" + query)
  {
  }

  /** A path without '?' or '#', then '?', then the checkout query behind the
      injected "quantity=99&x=?", reads back as that path and the injected fields. */
  lemma InjectedReadsBack(path: string, email: Option<string>, successUrl: string, enc: string -> string)
    requires EscapesDelimiters(enc)
    requires '?' !in path && '#' !in path
    ensures var url := path + "?" + ("quantity=99&x=?" + Query(email, successUrl, enc));
            && PathOf(url) == path
            && Fields(url) == ["quantity=99", "x=?quantity=1"] + IntendedFields(email, successUrl, enc)[1..]
  {
    var fields := IntendedFields(email, successUrl, enc);
    var injected := ["quantity=99", "x=?quantity=1"] + fields[1..];
    assert '#' !in enc(successUrl) && (Truthy(email) ==> '#' !in enc(email.value));
    PathAndQuery(path, "quantity=99&x=?" + Query(email, successUrl, enc));
    InjectedQuery(email, successUrl, enc);
    assert forall i :: 0 <= i < |injected| ==> '&' !in injected[i];
    SplitJoin(injected, '&');
  }

  /** With the injected product id, the query is the injected fields joined with '&'. */
  lemma InjectedQuery(email: Option<string>, successUrl: string, enc: string -> string)
    ensures var fields := IntendedFields(email, successUrl, enc);
            "quantity=99&x=?" + Query(email, successUrl, enc) == Join(["quantity=99", "x=?quantity=1"] + fields[1..], '&')
  {
    var fields := IntendedFields(email, successUrl, enc);
    var rest := Join(fields[1..], '&');
    var injected := ["quantity=99", "x=?quantity=1"] + fields[1..];
    QueryIsJoin(email, successUrl, enc);
    assert fields[0] == QuantityField && |fields| >= 2;
    assert injected[1..] == ["x=?quantity=1"] + fields[1..] && injected[1..][1..] == fields[1..];
    assert "quantity=99&x=?" + (QuantityField + ['&'] + rest) == "quantity=99" + ['&'] + ("x=?quantity=1" + ['&'] + rest);
  }

  /** A product id holding '#' ends the path and starts a fragment: with the
      id "p#x" (what the route receives for /checkout/p%23x), the URL has no
      query at all, so quantity, the return URL and the email all fall into
      the fragment. */
  lemma ProductIdDropsQuery(environment: Option<string>, email: Option<string>,
                            successUrl: string, enc: string -> string)
    ensures var url := CheckoutUrl(environment, "p#x", email, successUrl, enc);
            && PathOf(url) == Origin(environment) + "/p"
            && QueryOf(url) == []
            && Fields(url) == [[]]
  {
    var path := Origin(environment) + "/p";
    var query := Query(email, successUrl, enc);
    assert Origin(environment) + "/" + "p#x" + "?" + query == path + "#" + ("x?" + query);
    PathAndFragment(path, "x?" + query);
  }

  /** The product id encoded like the other interpolated values, as the
      checkout redirect evidently intends. */
  function SafeCheckoutUrl(environment: Option<string>, productId: string, email: Option<string>,
                           successUrl: string, enc: string -> string): (url: string)
    ensures IsLive(url) <==> environment == Some(LiveMode)
  {
    var url := Origin(environment) + "/" + enc(productId) + "?" + Query(email, successUrl, enc);
    LiveOriginIsNotTestOrigin(url[|TestOrigin|..]);
    url
  }

  /** With the product id encoded, every product id reads back from the path
      and the query always holds exactly the intended fields. */
  lemma SafeCheckoutUrlReadsBack(environment: Option<string>, productId: string, email: Option<string>,
                                 successUrl: string, enc: string -> string)
    requires EscapesDelimiters(enc)
    ensures var url := SafeCheckoutUrl(environment, productId, email, successUrl, enc);
            && PathOf(url) == Origin(environment) + "/" + enc(productId)
            && Fields(url) == IntendedFields(email, successUrl, enc)
  {
    assert '?' !in enc(productId) && '#' !in enc(productId);
    ReadsBack(Origin(environment) + "/" + enc(productId), email, successUrl, enc);
  }
}
