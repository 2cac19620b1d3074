/**
 * How `main` picks a handler for an endpoint: the handler's name is
 * `"format_"` followed by the endpoint's third `/`-separated segment with
 * every `-` turned into `_`, and that name is looked up among the
 * script's functions. The lookup is modelled as an explicit table.
 */
module Endpoints {
  import opened Wrappers
  import opened Strings

  /** A WordPress REST route: `/namespace/route/resource`. */
  function Route(namespace: string, route: string, resource: string): string
  {
    "/" + namespace + "/" + route + "/" + resource
  }

  /**
   * The API endpoints, in the order they are fetched: the menu routes of
   * the header and the footer, then the scripts and styles routes.
   */
  const ENDPOINTS: seq<string> := [
    Route("wp-json", "ccnavigation-header", "menu"),
    Route("wp-json", "ccnavigation-footer", "menu"),
    Route("wp-json", "cc-wpscripts", "get"),
    Route("wp-json", "cc-wpstyles", "get")
  ]

  /** The four `format_*` handlers. */
  datatype Handler =
    | FormatCcnavigationHeader
    | FormatCcnavigationFooter
    | FormatCcWpscripts
    | FormatCcWpstyles

  /** The name each handler is defined under in the script. */
  function Name(h: Handler): string
  {
    match h
    case FormatCcnavigationHeader => "format_ccnavigation_header"
    case FormatCcnavigationFooter => "format_ccnavigation_footer"
    case FormatCcWpscripts => "format_cc_wpscripts"
    case FormatCcWpstyles => "format_cc_wpstyles"
  }

  /** The functions the name lookup can find, by name. */
  const HANDLERS: map<string, Handler> := map[
    "format_ccnavigation_header" := FormatCcnavigationHeader,
    "format_ccnavigation_footer" := FormatCcnavigationFooter,
    "format_cc_wpscripts" := FormatCcWpscripts,
    "format_cc_wpstyles" := FormatCcWpstyles
  ]

  /** The handler each endpoint is meant to reach, position by position. */
  const HANDLER_ORDER: seq<Handler> := [
    FormatCcnavigationHeader, FormatCcnavigationFooter, FormatCcWpscripts, FormatCcWpstyles
  ]

  /**
   * `f"format_{endpoint.split('/')[2].replace('-', '_')}"`; `None` stands
   * for the `IndexError` of an endpoint with fewer than two slashes. A
   * derived name always starts with `format_` and holds no `-`.
   */
  function HandlerName(endpoint: string): (name: Option<string>)
    ensures name.Some? ==> |name.value| >= 7 && name.value[..7] == "format_" && '-' !in name.value
  {
    var parts := Split(endpoint, '/');
    if |parts| < 3 then None
    else
      ReplaceCharFacts(parts[2], '-', '_');
      Some("format_" + ReplaceChar(parts[2], '-', '_'))
  }

  /**
   * The handler the derived name finds, or `None` when the name is unknown:
   * a handler is found exactly when the derived name is its name.
   */
  function Dispatch(endpoint: string): (h: Option<Handler>)
    ensures h.Some? ==> HandlerName(endpoint) == Some(Name(h.value))
    ensures h.None? <==> HandlerName(endpoint).None? || forall g: Handler :: Name(g) != HandlerName(endpoint).value
  {
    match HandlerName(endpoint)
    case None => None
    case Some(name) => if name in HANDLERS then Some(HANDLERS[name]) else None
  }

  /**
   * For an endpoint `/a/b/rest` whose first two segments hold no slash, the
   * handler name is built from `b` alone, whatever follows it.
   */
  lemma HandlerNameOfPath(a: string, b: string, rest: string)
    requires '/' !in a && '/' !in b
    ensures HandlerName("/" + a + "/" + b + "/" + rest) == Some("format_" + ReplaceChar(b, '-', '_'))
  {
    var t2 := b + ['/'] + rest;
    SplitCons(b, '/', rest);
    var t1 := a + ['/'] + t2;
    SplitCons(a, '/', t2);
    var t0 := "" + ['/'] + t1;
    SplitCons("", '/', t1);
    assert "/" + a + "/" + b + "/" + rest == t0;
    assert Split(t0, '/')[2] == b;
  }

  /**
   * `split('/')[2]` fails exactly when the endpoint has fewer than two
   * slashes, since `k` slashes give `k + 1` parts.
   */
  lemma MissingSegmentIff(endpoint: string)
    ensures HandlerName(endpoint).None? <==> multiset(endpoint)['/'] < 2
  {
    SplitCount(endpoint, '/');
  }

  /** An endpoint without any slash has no third segment: the name lookup fails. */
  lemma NoSlashNoHandler(endpoint: string)
    requires '/' !in endpoint
    ensures HandlerName(endpoint) == None && Dispatch(endpoint) == None
  {
    SplitNoSep(endpoint, '/');
  }

  lemma HeaderSegment()
    ensures "format_" + ReplaceChar("ccnavigation-header", '-', '_') == "format_ccnavigation_header"
  {
    assert ReplaceChar("ccnavigation-header", '-', '_') == "ccnavigation_header";
  }

  lemma HeaderEndpoint()
    ensures Dispatch(ENDPOINTS[0]) == Some(FormatCcnavigationHeader)
  {
    HeaderName();
  }

  lemma HeaderName()
    ensures HandlerName(ENDPOINTS[0]) == Some("format_ccnavigation_header")
  {
    HandlerNameOfPath("wp-json", "ccnavigation-header", "menu");
    HeaderSegment();
  }

  lemma FooterSegment()
    ensures "format_" + ReplaceChar("ccnavigation-footer", '-', '_') == "format_ccnavigation_footer"
  {
    assert ReplaceChar("ccnavigation-footer", '-', '_') == "ccnavigation_footer";
  }

  lemma FooterEndpoint()
    ensures Dispatch(ENDPOINTS[1]) == Some(FormatCcnavigationFooter)
  {
    FooterName();
  }

  lemma FooterName()
    ensures HandlerName(ENDPOINTS[1]) == Some("format_ccnavigation_footer")
  {
    HandlerNameOfPath("wp-json", "ccnavigation-footer", "menu");
    FooterSegment();
  }

  lemma ScriptsSegment()
    ensures "format_" + ReplaceChar("cc-wpscripts", '-', '_') == "format_cc_wpscripts"
  {
    assert ReplaceChar("cc-wpscripts", '-', '_') == "cc_wpscripts";
  }

  lemma ScriptsEndpoint()
    ensures Dispatch(ENDPOINTS[2]) == Some(FormatCcWpscripts)
  {
    ScriptsName();
  }

  lemma ScriptsName()
    ensures HandlerName(ENDPOINTS[2]) == Some("format_cc_wpscripts")
  {
    HandlerNameOfPath("wp-json", "cc-wpscripts", "get");
    ScriptsSegment();
  }

  lemma StylesSegment()
    ensures "format_" + ReplaceChar("cc-wpstyles", '-', '_') == "format_cc_wpstyles"
  {
    assert ReplaceChar("cc-wpstyles", '-', '_') == "cc_wpstyles";
  }

  lemma StylesEndpoint()
    ensures Dispatch(ENDPOINTS[3]) == Some(FormatCcWpstyles)
  {
    StylesName();
  }

  lemma StylesName()
    ensures HandlerName(ENDPOINTS[3]) == Some("format_cc_wpstyles")
  {
    HandlerNameOfPath("wp-json", "cc-wpstyles", "get");
    StylesSegment();
  }

  /**
   * The derived names of the four endpoints are exactly the four handlers,
   * one each, in fetch order.
   */
  lemma EndpointDispatch(i: nat)
    requires i < |ENDPOINTS|
    ensures Dispatch(ENDPOINTS[i]) == Some(HANDLER_ORDER[i])
  {
    if i == 0 {
      HeaderEndpoint();
    } else if i == 1 {
      FooterEndpoint();
    } else if i == 2 {
      ScriptsEndpoint();
    } else {
      StylesEndpoint();
    }
  }

  /** Endpoint `i` reaches handler `i`, for every `i` at once. */
  lemma DispatchInOrder()
    ensures forall i :: 0 <= i < |ENDPOINTS| ==> Dispatch(ENDPOINTS[i]) == Some(HANDLER_ORDER[i])
  {
    forall i | 0 <= i < |ENDPOINTS|
      ensures Dispatch(ENDPOINTS[i]) == Some(HANDLER_ORDER[i])
    {
      EndpointDispatch(i);
    }
  }

  /** Where each handler stands in `HANDLER_ORDER`. */
  function Position(h: Handler): nat
  {
    match h
    case FormatCcnavigationHeader => 0
    case FormatCcnavigationFooter => 1
    case FormatCcWpscripts => 2
    case FormatCcWpstyles => 3
  }

  /** No two endpoints reach the same handler. */
  lemma DispatchIsInjective()
    ensures forall i, j :: 0 <= i < j < |ENDPOINTS| ==> Dispatch(ENDPOINTS[i]) != Dispatch(ENDPOINTS[j])
  {
    DispatchInOrder();
    forall i | 0 <= i < |HANDLER_ORDER|
      ensures Position(HANDLER_ORDER[i]) == i
    {
    }
  }

  /** Every handler is reached: handler `h` by the endpoint at its position. */
  lemma DispatchIsOnto()
    ensures forall h: Handler :: Position(h) < |ENDPOINTS| && Dispatch(ENDPOINTS[Position(h)]) == Some(h)
  {
    DispatchInOrder();
    forall h: Handler
      ensures HANDLER_ORDER[Position(h)] == h
    {
    }
  }
}
