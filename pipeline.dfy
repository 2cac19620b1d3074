/**
 * The build script's `main`: prime the site's script and style cache with
 * one plain request, then fetch each endpoint in `ENDPOINTS` order and let
 * its handler write or append its rendered fragment under `includes/`.
 * The first failed request ends the run with a `ScriptError`; files
 * written before it stay. The network, the JSON decoding and the template
 * engine are parameters: `network` answers each request and `render`
 * stands for decoding the body, transforming it and rendering the
 * handler's template.
 */
module Pipeline {
  import opened Wrappers
  import opened Strings
  import opened Config
  import opened Errors
  import opened Endpoints

  /** One HTTP GET: its URL, the Basic Auth it carries, and whether its body is read as JSON. */
  datatype Request = Request(url: string, auth: Option<BasicAuth>, json: bool)

  /** What a request gets back: a body, or the failure the HTTP client raised. */
  datatype Response = Ok(body: string) | Err(failure: FetchFailure)

  datatype Outcome = Success | Failed(error: ScriptError)

  /** The contents of a file, or nothing when it does not exist. */
  function Contents(files: map<string, string>, name: string): string
  {
    if name in files then files[name] else ""
  }

  /** The `includes/` directory: each file's name and contents. */
  class IncludesDir {
    var files: map<string, string>

    constructor (files: map<string, string>)
      ensures this.files == files
    {
      this.files := files;
    }

    /** Opening for writing (`"w"`): the file is created or its old contents replaced. */
    method Write(name: string, text: string)
      modifies this
      ensures files == old(files)[name := text]
    {
      files := files[name := text];
    }

    /** Opening for appending (`"a"`): the text goes after what is there, if anything. */
    method Append(name: string, text: string)
      modifies this
      ensures files == old(files)[name := Contents(old(files), name) + text]
    {
      files := files[name := Contents(files, name) + text];
    }
  }

  /** The include file each handler writes to. */
  function Target(h: Handler): string
  {
    match h
    case FormatCcnavigationHeader => "site-header.html"
    case FormatCcnavigationFooter => "site-footer.html"
    case FormatCcWpscripts => "site-footer.html"
    case FormatCcWpstyles => "html-head.html"
  }

  /**
   * What a handler does to the directory with its rendered fragment: the
   * menus and the styles overwrite their file; the scripts fragment is
   * appended to the footer.
   */
  function Effect(files: map<string, string>, h: Handler, fragment: string): map<string, string>
  {
    var line := fragment + "\n";
    match h
    case FormatCcnavigationHeader => files["site-header.html" := line]
    case FormatCcnavigationFooter => files["site-footer.html" := line]
    case FormatCcWpscripts => files["site-footer.html" := Contents(files, "site-footer.html") + line]
    case FormatCcWpstyles => files["html-head.html" := line]
  }

  /**
   * A handler touches its own file and no other: that file ends with the
   * fragment and a newline (after the old footer, for the scripts), and
   * every other file keeps its contents.
   */
  lemma EffectTouchesOnlyTarget(files: map<string, string>, h: Handler, fragment: string)
    ensures var r := Effect(files, h, fragment);
            && Target(h) in r
            && (forall name :: name in r ==> name in files || name == Target(h))
            && (forall name :: name in files && name != Target(h) ==> name in r && r[name] == files[name])
            && (h != FormatCcWpscripts ==> r[Target(h)] == fragment + "\n")
            && (h == FormatCcWpscripts ==> r[Target(h)] == Contents(files, Target(h)) + fragment + "\n")
  {
  }

  /** The cache-priming request to the site root; its body is not decoded. */
  function PrimeRequest(args: Args): Request
  {
    Request(SiteUrl(args.domain) + "/", RequestAuth(args), false)
  }

  /** The request for endpoint `i`. */
  function EndpointRequest(args: Args, i: nat): Request
    requires i < |ENDPOINTS|
  {
    Request(SiteUrl(args.domain) + ENDPOINTS[i], RequestAuth(args), true)
  }

  /** Every request a complete run makes, in order. */
  function Planned(args: Args): seq<Request>
  {
    [PrimeRequest(args)] + seq(|ENDPOINTS|, i requires 0 <= i < |ENDPOINTS| => EndpointRequest(args, i))
  }

  /** The fragment the handler of endpoint `i` renders from its response. */
  function Fragment(args: Args, network: Request -> Response, render: (Handler, string) -> string, i: nat): string
    requires i < |ENDPOINTS| && network(EndpointRequest(args, i)).Ok?
  {
    render(HANDLER_ORDER[i], network(EndpointRequest(args, i)).body)
  }

  /** The directory after the handlers of the first `n` endpoints have run, in order. */
  function Replay(files: map<string, string>, args: Args, network: Request -> Response,
                  render: (Handler, string) -> string, n: nat): map<string, string>
    requires n <= |ENDPOINTS|
    requires forall i :: 0 <= i < n ==> network(EndpointRequest(args, i)).Ok?
  {
    if n == 0 then files
    else Effect(Replay(files, args, network, render, n - 1), HANDLER_ORDER[n - 1], Fragment(args, network, render, n - 1))
  }

  /**
   * The error a failed request ends the run with: exit code 1 and a message
   * naming the failure, with the URL of a connection error filled in.
   */
  function RequestError(request: Request, failure: FetchFailure): (e: ScriptError)
    ensures e.code == 1
  {
    NewScriptError(FailureMessage(failure, request.url), Some(1))
  }

  /**
   * Except on a connection error, the run ends with exactly the error
   * `request_data` raises.
   */
  lemma RequestErrorAsRaised(request: Request, failure: FetchFailure)
    requires !failure.ConnectionError?
    ensures RequestError(request, failure) == NewScriptError(FailureMessageAsWritten(failure, request.url), Some(1))
  {
  }

  /** A connection or timeout failure ends the run with a message that ends with the failed URL. */
  lemma RequestErrorNamesUrl(request: Request, failure: FetchFailure)
    requires !failure.HttpError?
    ensures var e := RequestError(request, failure);
            |request.url| <= |e.message| && e.message[|e.message| - |request.url|..] == request.url
  {
    var m := FailureMessage(failure, request.url);
    assert RequestError(request, failure).message == "(1) " + m by {
      assert DecimalString(1) == [DigitChar(1)] == "1";
    }
    FailureMessageNamesUrl(failure, request.url, request.url);
    SuffixOfConcat("(1) ", m, |request.url|);
  }

  /** The planned requests, one by one: the priming request, then endpoint `i` at position `i + 1`. */
  lemma PlannedAt(args: Args, i: nat)
    requires i < |ENDPOINTS|
    ensures |Planned(args)| == |ENDPOINTS| + 1 && Planned(args)[0] == PrimeRequest(args)
    ensures Planned(args)[i + 1] == EndpointRequest(args, i)
    ensures Planned(args)[..i + 2] == Planned(args)[..i + 1] + [EndpointRequest(args, i)]
  {
  }

  /** Handling one more endpoint adds its handler's effect on top of the earlier ones. */
  lemma ReplayStep(files: map<string, string>, args: Args, network: Request -> Response,
                   render: (Handler, string) -> string, i: nat)
    requires i < |ENDPOINTS|
    requires forall k :: 0 <= k <= i ==> network(EndpointRequest(args, k)).Ok?
    ensures Replay(files, args, network, render, i + 1)
            == Effect(Replay(files, args, network, render, i), HANDLER_ORDER[i], render(HANDLER_ORDER[i], network(EndpointRequest(args, i)).body))
  {
  }

  /** One handler's file operation on the directory. */
  method Handle(dir: IncludesDir, handler: Handler, fragment: string)
    modifies dir
    ensures dir.files == Effect(old(dir.files), handler, fragment)
  {
    match handler
    case FormatCcnavigationHeader => dir.Write("site-header.html", fragment + "\n");
    case FormatCcnavigationFooter => dir.Write("site-footer.html", fragment + "\n");
    case FormatCcWpscripts => dir.Append("site-footer.html", fragment + "\n");
    case FormatCcWpstyles => dir.Write("html-head.html", fragment + "\n");
  }

  /**
   * One turn of `main`'s loop: request endpoint `i`, look its handler up by
   * name and, when the request succeeded, let the handler render and write
   * its fragment. A failed request leaves the directory alone.
   */
  method HandleEndpoint(args: Args, network: Request -> Response, render: (Handler, string) -> string,
                        dir: IncludesDir, i: nat)
    returns (request: Request, response: Response)
    requires i < |ENDPOINTS|
    modifies dir
    ensures request == EndpointRequest(args, i) && response == network(request)
    ensures response.Ok? ==> dir.files == Effect(old(dir.files), HANDLER_ORDER[i], render(HANDLER_ORDER[i], response.body))
    ensures response.Err? ==> dir.files == old(dir.files)
  {
    var endpoint := ENDPOINTS[i];
    var endUrl := SiteUrl(args.domain) + endpoint;
    EndpointDispatch(i);
    var handler := Dispatch(endpoint).value;
    request := Request(endUrl, RequestAuth(args), true);
    response := network(request);
    if response.Ok? {
      var fragment := render(handler, response.body);
      Handle(dir, handler, fragment);
    }
  }

  /**
   * `main` after `setup`: the requests made are a prefix of the planned
   * ones, and every one but possibly the last succeeded. A run succeeds
   * exactly when all four endpoints were handled; otherwise the last
   * request failed and its failure is reported as a `ScriptError` with
   * code 1. Either way the directory holds what the handled endpoints
   * wrote, in order.
   */
  method BuildIncludes(args: Args, network: Request -> Response, render: (Handler, string) -> string, dir: IncludesDir)
    returns (requested: seq<Request>, handled: nat, outcome: Outcome)
    modifies dir
    ensures 1 <= |requested| <= |Planned(args)| && requested == Planned(args)[..|requested|]
    ensures forall j :: 0 <= j < |requested| - 1 ==> network(requested[j]).Ok?
    ensures handled <= |ENDPOINTS| && forall i :: 0 <= i < handled ==> network(EndpointRequest(args, i)).Ok?
    ensures outcome.Success? <==> handled == |ENDPOINTS|
    ensures outcome.Success? ==> |requested| == |Planned(args)| && network(requested[|requested| - 1]).Ok?
    ensures outcome.Failed? ==>
              var last := requested[|requested| - 1];
              && network(last).Err?
              && handled == (if |requested| == 1 then 0 else |requested| - 2)
              && outcome.error == RequestError(last, network(last).failure)
    ensures dir.files == Replay(old(dir.files), args, network, render, handled)
  {
    var auth := RequestAuth(args);
    var prime := Request(SiteUrl(args.domain) + "/", auth, false);
    requested := [prime];
    handled := 0;
    var primed := network(prime);
    if primed.Err? {
      outcome := Failed(RequestError(prime, primed.failure));
      return;
    }
    for i := 0 to |ENDPOINTS|
      invariant handled == i && |requested| == i + 1 && requested == Planned(args)[..i + 1]
      invariant forall j :: 0 <= j < |requested| ==> network(requested[j]).Ok?
      invariant forall k :: 0 <= k < i ==> network(EndpointRequest(args, k)).Ok?
      invariant dir.files == Replay(old(dir.files), args, network, render, i)
    {
      var request, response := HandleEndpoint(args, network, render, dir, i);
      PlannedAt(args, i);
      requested := requested + [request];
      if response.Err? {
        outcome := Failed(RequestError(request, response.failure));
        return;
      }
      ReplayStep(old(dir.files), args, network, render, i);
      handled := handled + 1;
    }
    outcome := Success;
  }

  /**
   * After a complete run the three include files hold exactly what this
   * run rendered, whatever was there before: the header, the footer
   * followed by the scripts appended to it, and the styles. No other file
   * is touched.
   */
  lemma {:induction false} CompleteRun(files: map<string, string>, args: Args, network: Request -> Response,
                                       render: (Handler, string) -> string)
    requires forall i :: 0 <= i < |ENDPOINTS| ==> network(EndpointRequest(args, i)).Ok?
    ensures var out := Replay(files, args, network, render, |ENDPOINTS|);
            && out.Keys == files.Keys + {"site-header.html", "site-footer.html", "html-head.html"}
            && out["site-header.html"] == Fragment(args, network, render, 0) + "\n"
            && out["site-footer.html"] == Fragment(args, network, render, 1) + "\n" + Fragment(args, network, render, 2) + "\n"
            && out["html-head.html"] == Fragment(args, network, render, 3) + "\n"
            && forall name :: name in files && name !in {"site-header.html", "site-footer.html", "html-head.html"} ==> out[name] == files[name]
  {
    var h, f, st := "site-header.html", "site-footer.html", "html-head.html";
    var f1 := Replay(files, args, network, render, 1);
    var f2 := Replay(files, args, network, render, 2);
    var f3 := Replay(files, args, network, render, 3);
    var f4 := Replay(files, args, network, render, 4);
    assert Replay(files, args, network, render, 0) == files;
    assert f1 == Effect(files, HANDLER_ORDER[0], Fragment(args, network, render, 0));
    assert f2 == Effect(f1, HANDLER_ORDER[1], Fragment(args, network, render, 1));
    assert f3 == Effect(f2, HANDLER_ORDER[2], Fragment(args, network, render, 2));
    assert f4 == Effect(f3, HANDLER_ORDER[3], Fragment(args, network, render, 3));
    assert f1 == files[h := Fragment(args, network, render, 0) + "\n"];
    assert f2 == f1[f := Fragment(args, network, render, 1) + "\n"];
    assert Contents(f2, f) == Fragment(args, network, render, 1) + "\n";
    var a, b := Fragment(args, network, render, 1), Fragment(args, network, render, 2);
    assert (a + "\n") + (b + "\n") == a + "\n" + b + "\n";
    assert f3 == f2[f := Fragment(args, network, render, 1) + "\n" + Fragment(args, network, render, 2) + "\n"];
    assert f4 == f3[st := Fragment(args, network, render, 3) + "\n"];
  }

  /**
   * Why the footer endpoint must come before the scripts endpoint: in the
   * fixed order the scripts fragment ends up after the footer, while in the
   * other order the footer's write would wipe the appended scripts out.
   */
  lemma FooterBeforeScripts(files: map<string, string>, footer: string, scripts: string)
    ensures Effect(Effect(files, FormatCcnavigationFooter, footer), FormatCcWpscripts, scripts)["site-footer.html"]
            == footer + "\n" + scripts + "\n"
    ensures Effect(Effect(files, FormatCcWpscripts, scripts), FormatCcnavigationFooter, footer)["site-footer.html"]
            == footer + "\n"
  {
  }

  /** The footer endpoint precedes the scripts endpoint in the fetch order. */
  lemma FooterFetchedBeforeScripts()
    ensures exists f, s ::
              && 0 <= f < s < |ENDPOINTS|
              && Dispatch(ENDPOINTS[f]) == Some(FormatCcnavigationFooter)
              && Dispatch(ENDPOINTS[s]) == Some(FormatCcWpscripts)
  {
    EndpointDispatch(1);
    EndpointDispatch(2);
  }
}
