/**
 * The branch filter (pkg/branchfilter/http.go): it resolves a webhook
 * client for the configured git provider, builds the allow-list of target
 * branches, and answers each pull-request webhook either by echoing the
 * request's headers and body (the target branch is allowed) or by writing
 * nothing (it is not), failing with 500 on anything it cannot classify.
 */
module BranchFilter {
  import opened Results
  import opened GoStrings
  import opened NetHttp

  // ---------------------------------------------------------------------
  // Provider resolution (getGitClient)
  // ---------------------------------------------------------------------

  /** The go-scm drivers the filter can select; `Stash` is Bitbucket Server. */
  datatype Provider = Bitbucket | Stash | Gitea | GitLab | Gogs | GitHub

  /** A driver's `NewDefault()` public endpoint, or `New(url)` with the given URL. */
  datatype Endpoint = DefaultEndpoint | CustomEndpoint(url: string)

  /** The webhook client the filter parses requests with. */
  datatype Client = Client(provider: Provider, endpoint: Endpoint)

  /**
   * A driver's `New(url)` constructor: it accepts the URL, or fails with an
   * error. The drivers are foreign code, so this is a parameter of the model.
   */
  type ClientConstructor = (Provider, string) -> Result<()>

  const BitbucketNames: set<string> := {"bitbucket", "bitbucket-cloud", "bitbucketcloud"}
  const StashNames: set<string> := {"bitbucketserver", "bitbucket-server"}

  /** Every provider name the `switch` knows, each written in lower case. */
  const KnownNames: set<string> := BitbucketNames + StashNames + {"gitea", "gitlab", "gogs"}

  /** `gitProvider` is one of `names` up to the case of its letters. */
  ghost predicate NamedAs(gitProvider: string, names: set<string>)
  {
    exists name :: name in names && AsciiEqualFold(gitProvider, name)
  }

  /**
   * The `switch` on the lower-cased `GIT_PROVIDER`. Each driver is chosen
   * exactly when the setting is one of its aliases up to letter case, and
   * GitHub exactly when it is none of the known names.
   */
  function ProviderFor(gitProvider: string): (r: Provider)
    ensures r == Bitbucket <==> NamedAs(gitProvider, BitbucketNames)
    ensures r == Stash <==> NamedAs(gitProvider, StashNames)
    ensures r == Gitea <==> NamedAs(gitProvider, {"gitea"})
    ensures r == GitLab <==> NamedAs(gitProvider, {"gitlab"})
    ensures r == Gogs <==> NamedAs(gitProvider, {"gogs"})
    ensures r == GitHub <==> !NamedAs(gitProvider, KnownNames)
  {
    KnownNamesAreLower();
    NamedAsLowered(gitProvider, BitbucketNames);
    NamedAsLowered(gitProvider, StashNames);
    NamedAsLowered(gitProvider, {"gitea"});
    NamedAsLowered(gitProvider, {"gitlab"});
    NamedAsLowered(gitProvider, {"gogs"});
    NamedAsLowered(gitProvider, KnownNames);
    var name := ToLower(gitProvider);
    if name in BitbucketNames then Bitbucket
    else if name in StashNames then Stash
    else if name == "gitea" then Gitea
    else if name == "gitlab" then GitLab
    else if name == "gogs" then Gogs
    else GitHub
  }

  /** The known names contain no upper-case letter. */
  lemma KnownNamesAreLower()
    ensures forall name :: name in KnownNames ==> ToLower(name) == name
  {
    forall name | name in KnownNames ensures ToLower(name) == name {
      ToLowerKeepsLower(name);
    }
  }

  /** Against lower-case names, matching up to case is matching the lower-cased setting. */
  lemma NamedAsLowered(gitProvider: string, names: set<string>)
    requires forall name :: name in names ==> ToLower(name) == name
    ensures NamedAs(gitProvider, names) <==> ToLower(gitProvider) in names
  {
    if ToLower(gitProvider) in names {
      AsciiEqualFoldToLower(gitProvider);
    }
    if NamedAs(gitProvider, names) {
      var name :| name in names && AsciiEqualFold(gitProvider, name);
      ToLowerIffAsciiEqualFold(gitProvider, name);
    }
  }

  /** A driver's `New(url)`: a client on that URL, or the constructor's error. */
  function NewClient(provider: Provider, url: string, construct: ClientConstructor): (r: Result<Client>)
    ensures r.Ok? <==> construct(provider, url).Ok?
    ensures r.Ok? ==> r.value == Client(provider, CustomEndpoint(url))
    ensures r.Err? ==> r.error == construct(provider, url).error
  {
    match construct(provider, url)
    case Ok(_) => Ok(Client(provider, CustomEndpoint(url)))
    case Err(e) => Err(e)
  }

  /**
   * `getGitClient`, with `GIT_PROVIDER` and `GIT_URL` passed in. Only the
   * Bitbucket and GitHub drivers fall back to a default endpoint when the
   * URL is empty; the others always get the URL as given.
   */
  function GetGitClient(gitProvider: string, gitURL: string, construct: ClientConstructor): (r: Result<Client>)
    ensures r.Ok? ==> r.value.provider == ProviderFor(gitProvider)
    ensures r.Ok? ==> (r.value.endpoint == DefaultEndpoint
                       <==> gitURL == "" && ProviderFor(gitProvider) in {Bitbucket, GitHub})
    ensures r.Ok? && r.value.endpoint.CustomEndpoint? ==> r.value.endpoint.url == gitURL
    ensures r.Err? <==> !(gitURL == "" && ProviderFor(gitProvider) in {Bitbucket, GitHub})
                        && construct(ProviderFor(gitProvider), gitURL).Err?
    ensures r.Err? ==> r.error == construct(ProviderFor(gitProvider), gitURL).error
  {
    var provider := ProviderFor(gitProvider);
    match provider
    case Bitbucket =>
      if gitURL != "" then NewClient(Bitbucket, gitURL, construct)
      else Ok(Client(Bitbucket, DefaultEndpoint))
    case Stash => NewClient(Stash, gitURL, construct)
    case Gitea => NewClient(Gitea, gitURL, construct)
    case GitLab => NewClient(GitLab, gitURL, construct)
    case Gogs => NewClient(Gogs, gitURL, construct)
    case GitHub =>
      if gitURL != "" then NewClient(GitHub, gitURL, construct)
      else Ok(Client(GitHub, DefaultEndpoint))
  }

  /** Provider names are matched without regard to the case of their letters. */
  lemma ProviderIgnoresCase(a: string, b: string)
    requires AsciiEqualFold(a, b)
    ensures ProviderFor(a) == ProviderFor(b)
  {
    ToLowerIffAsciiEqualFold(a, b);
  }

  /** A default endpoint is never constructed, so it never fails. */
  lemma DefaultEndpointNeverFails(gitProvider: string, construct: ClientConstructor)
    requires ProviderFor(gitProvider) in {Bitbucket, GitHub}
    ensures GetGitClient(gitProvider, "", construct) == Ok(Client(ProviderFor(gitProvider), DefaultEndpoint))
  {
  }

  // ---------------------------------------------------------------------
  // The allow-list (NewBranchFilterServeMux, lines 41-50)
  // ---------------------------------------------------------------------

  /** `ALLOWED_BRANCHES` separates branch names with colons. */
  const BranchSeparator: char := ':'

  const NoBranchesAllowed: string := "no branches allowed"

  /**
   * Builds the allow-list from `ALLOWED_BRANCHES`: an empty string is an
   * error; otherwise every piece of the colon split becomes a key, empty
   * pieces included, and repeated names collapse into one key.
   */
  method NewAllowedBranches(allowedBranchesString: string) returns (r: Result<map<string, string>>)
    ensures r.Err? <==> allowedBranchesString == ""
    ensures r.Err? ==> r.error == NoBranchesAllowed
    ensures r.Ok? ==> forall b :: b in r.value <==> b in Split(allowedBranchesString, BranchSeparator)
    ensures r.Ok? ==> forall b :: b in r.value ==> r.value[b] == ""
    ensures r.Ok? ==> r.value != map[]
  {
    if allowedBranchesString == "" {
      return Err(NoBranchesAllowed);
    }
    var allowedBranches: map<string, string> := map[];
    var allowedBranchesSlice := Split(allowedBranchesString, BranchSeparator);
    for i := 0 to |allowedBranchesSlice|
      invariant forall b :: b in allowedBranches <==> b in allowedBranchesSlice[..i]
      invariant forall b :: b in allowedBranches ==> allowedBranches[b] == ""
    {
      allowedBranches := allowedBranches[allowedBranchesSlice[i] := ""];
    }
    assert allowedBranchesSlice[..|allowedBranchesSlice|] == allowedBranchesSlice;
    assert allowedBranchesSlice[0] in allowedBranches;
    return Ok(allowedBranches);
  }

  /** Two names separated by a colon give two allowed branches. */
  lemma SplitTwoNames()
    ensures Split("main:release", BranchSeparator) == ["main", "release"]
  {
    var parts := ["main", "release"];
    assert Join(parts, ':') == "main" + [':'] + Join(parts[1..], ':');
    assert parts[1..] == ["release"];
    assert Join(parts, ':') == "main:release";
    SplitJoin(parts, ':');
  }

  /** A doubled or trailing colon allows the empty branch name. */
  lemma SplitKeepsEmptyPieces()
    ensures Split("a::b:", BranchSeparator) == ["a", "", "b", ""]
  {
    var parts := ["a", "", "b", ""];
    assert parts[1..] == ["", "b", ""] && parts[1..][1..] == ["b", ""] && parts[1..][1..][1..] == [""];
    assert Join(["b", ""], ':') == "b:";
    assert Join(["", "b", ""], ':') == ":b:";
    assert Join(parts, ':') == "a::b:";
    SplitJoin(parts, ':');
  }

  // ---------------------------------------------------------------------
  // Parsing, and the handler's decision
  // ---------------------------------------------------------------------

  /** What the parser sees of the request. */
  datatype WebhookRequest = WebhookRequest(httpMethod: string, header: Header, body: seq<byte>)

  /**
   * The outcomes of `Webhooks.Parse` and of the cast to `*scm.PullRequestHook`
   * that the handler tells apart: a parse error, a nil webhook, a webhook of
   * another kind, a nil pull-request hook, or a pull request and its target.
   */
  datatype ParsedWebhook =
    | ParseError(err: string)
    | NilWebhook
    | OtherWebhook(kind: string)
    | NilPullRequestHook
    | PullRequestHook(target: string)

  /** The go-scm parser of a client: foreign code, so a parameter of the model. */
  type WebhookParser = (Client, WebhookRequest) -> ParsedWebhook

  /** Where a request ends up. */
  datatype Verdict = Ignored | Failed | Dropped | Relayed

  /** The terminal state for a request's method, its parse, and the allow-list. */
  function Classify(httpMethod: string, parsed: ParsedWebhook, allowed: map<string, string>): Verdict
  {
    if httpMethod != MethodPost then Ignored
    else match parsed
      case PullRequestHook(target) => if target in allowed then Relayed else Dropped
      case _ => Failed
  }

  /**
   * What `handlePost` does to the response `w`, as written: a failed body
   * read writes 500 and carries on; a parse failure writes 500; an allowed
   * target gets every request header value and then the body bytes read.
   */
  function PostResponse(w: Response, body: Body, reqHeader: Header, parsed: ParsedWebhook,
                        allowed: map<string, string>): (r: Response)
    ensures var v := Classify(MethodPost, parsed, allowed);
            && (w.status.Some? ==> r.status == w.status)
            && (w.status.None? ==> r.status == if body.readError || v == Failed then Some(StatusInternalServerError)
                                               else if v == Relayed then Some(StatusOK)
                                               else None)
            && (v == Relayed ==> r.body == w.body + body.data)
            && (v == Relayed ==>
                  forall name :: Values(r.header, name) == Values(w.header, name) + Values(reqHeader, name))
            && (v != Relayed ==> r.header == w.header && r.body == w.body)
  {
    var afterRead := if body.readError then w.WriteHeader(StatusInternalServerError) else w;
    match parsed
    case PullRequestHook(target) =>
      if target in allowed then afterRead.AddAll(reqHeader).Write(body.data) else afterRead
    case _ => afterRead.WriteHeader(StatusInternalServerError)
  }

  /** What `handleWebHookRequests` does to the response: only POST is handled. */
  function HandleResponse(w: Response, httpMethod: string, body: Body, reqHeader: Header,
                          parsed: ParsedWebhook, allowed: map<string, string>): (r: Response)
    ensures httpMethod != MethodPost ==> r == w
    ensures Classify(httpMethod, parsed, allowed) != Relayed ==> r.header == w.header && r.body == w.body
    ensures Classify(httpMethod, parsed, allowed) == Relayed ==> r.body == w.body + body.data
  {
    if httpMethod == MethodPost then PostResponse(w, body, reqHeader, parsed, allowed) else w
  }

  /**
   * On a fresh response and a body read without error, the response says
   * which terminal state the request reached: nothing written when it was
   * ignored or filtered out, a bare 500 when it failed to parse, and when it
   * is relayed a 200 carrying every request header value in order and the
   * body byte for byte.
   */
  lemma ResponseShowsVerdict(httpMethod: string, data: seq<byte>, reqHeader: Header,
                                parsed: ParsedWebhook, allowed: map<string, string>)
    ensures var r := HandleResponse(Untouched, httpMethod, Body(data, false), reqHeader, parsed, allowed);
            var v := Classify(httpMethod, parsed, allowed);
            && (v == Ignored || v == Dropped <==> r == Untouched)
            && (v == Failed <==> r == Response(Some(StatusInternalServerError), map[], []))
            && (v == Relayed <==> r.status == Some(StatusOK))
            && (v == Relayed ==> r.body == data)
            && (v == Relayed ==> forall name :: Values(r.header, name) == Values(reqHeader, name))
            && (v == Relayed ==> r.header.Keys == set name | name in reqHeader && reqHeader[name] != [])
  {
    MergeIntoEmpty(reqHeader);
  }

  /**
   * With the allow-list built from a setting, a pull request is relayed
   * exactly when its target is, letter for letter, one of the setting's
   * colon-delimited fields; a name differing only in case is dropped.
   */
  lemma RelayedIffTargetIsField(allowedBranchesString: string, allowed: map<string, string>, target: string)
    requires forall b :: b in allowed <==> b in Split(allowedBranchesString, BranchSeparator)
    ensures Classify(MethodPost, PullRequestHook(target), allowed) == Relayed
        <==> IsField(allowedBranchesString, BranchSeparator, target)
    ensures Classify(MethodPost, PullRequestHook(target), allowed) == Dropped
        <==> !IsField(allowedBranchesString, BranchSeparator, target)
  {
    SplitIsFields(allowedBranchesString, BranchSeparator, target);
  }

  /** A request that is not a POST leaves the response as it was. */
  lemma NonPostIgnored(w: Response, httpMethod: string, body: Body, reqHeader: Header,
                       parsed: ParsedWebhook, allowed: map<string, string>)
    requires httpMethod != MethodPost
    ensures HandleResponse(w, httpMethod, body, reqHeader, parsed, allowed) == w
    ensures Classify(httpMethod, parsed, allowed) == Ignored
  {
  }

  /** Every parse failure ends in a 500 with no header and no body added. */
  lemma ParseFailureIs500(w: Response, body: Body, reqHeader: Header,
                          parsed: ParsedWebhook, allowed: map<string, string>)
    requires !parsed.PullRequestHook?
    requires w.status.None?
    ensures var r := PostResponse(w, body, reqHeader, parsed, allowed);
            r.status == Some(StatusInternalServerError) && r.header == w.header && r.body == w.body
  {
  }

  /** A target branch outside the allow-list writes nothing. */
  lemma FilteredOutWritesNothing(w: Response, data: seq<byte>, reqHeader: Header,
                                 target: string, allowed: map<string, string>)
    requires target !in allowed
    ensures PostResponse(w, Body(data, false), reqHeader, PullRequestHook(target), allowed) == w
  {
  }

  /**
   * As written, a failed body read does not stop the handler: when the
   * bytes read so far still parse as a pull request into an allowed branch,
   * they are relayed, under the 500 written for the failed read.
   */
  lemma ReadFailureStillRelays(data: seq<byte>, reqHeader: Header, target: string,
                               allowed: map<string, string>)
    requires target in allowed
    ensures var r := PostResponse(Untouched, Body(data, true), reqHeader, PullRequestHook(target), allowed);
            r.status == Some(StatusInternalServerError) && r.body == data
  {
  }

  /**
   * The read-failure branch as evidently intended: write 500 and stop. A
   * failed read then relays nothing and leaves a 500 on a fresh response;
   * every other request is answered as written.
   */
  function PostResponseIntended(w: Response, body: Body, reqHeader: Header, parsed: ParsedWebhook,
                                allowed: map<string, string>): (r: Response)
    ensures body.readError ==> r.header == w.header && r.body == w.body
    ensures body.readError && w.status.None? ==> r.status == Some(StatusInternalServerError)
    ensures !body.readError ==> r == PostResponse(w, body, reqHeader, parsed, allowed)
  {
    if body.readError then w.WriteHeader(StatusInternalServerError)
    else PostResponse(w, body, reqHeader, parsed, allowed)
  }

  // ---------------------------------------------------------------------
  // The server
  // ---------------------------------------------------------------------

  /** `BranchFilterServeMux`: the client and the allow-list, fixed at startup. */
  class BranchFilterServeMux {
    const gitClient: Client
    const bindAddress: string
    const path: string
    const port: string
    const allowedBranches: map<string, string>

    constructor (gitClient: Client, allowedBranches: map<string, string>)
      ensures this.gitClient == gitClient && this.allowedBranches == allowedBranches
      ensures bindAddress == "localhost" && path == "/" && port == "8080"
    {
      this.gitClient := gitClient;
      this.bindAddress := "localhost";
      this.path := "/";
      this.port := "8080";
      this.allowedBranches := allowedBranches;
    }

    /** `handleWebHookRequests`: POST goes to `HandlePost`, anything else is ignored. */
    method HandleWebHookRequests(w: ResponseWriter, req: Request, parse: WebhookParser)
      modifies w, req`body
      ensures req.httpMethod != MethodPost ==> w.State() == old(w.State()) && req.body == old(req.body)
      ensures req.httpMethod == MethodPost ==> req.body == Body(old(req.body).data, false)
      ensures w.State() == HandleResponse(old(w.State()), req.httpMethod, old(req.body), req.header,
                                          parse(gitClient, WebhookRequest(req.httpMethod, req.header, old(req.body).data)),
                                          allowedBranches)
    {
      if req.httpMethod == MethodPost {
        HandlePost(w, req, parse);
      }
    }

    /**
     * `handlePost`: reads the body once, puts the bytes back as the request
     * body for the parser, and on an allowed target relays the headers and
     * those same bytes.
     */
    method HandlePost(w: ResponseWriter, req: Request, parse: WebhookParser)
      modifies w, req`body
      ensures req.body == Body(old(req.body).data, false)
      ensures w.State() == PostResponse(old(w.State()), old(req.body), req.header,
                                        parse(gitClient, WebhookRequest(req.httpMethod, req.header, req.body.data)),
                                        allowedBranches)
    {
      var body, readFailed := req.body.data, req.body.readError;
      if readFailed {
        w.WriteHeader(StatusInternalServerError);
      }
      req.body := Body(body, false);
      var parsedWebhook := parse(gitClient, WebhookRequest(req.httpMethod, req.header, req.body.data));
      match parsedWebhook {
        case ParseError(_) =>
          w.WriteHeader(StatusInternalServerError);
          return;
        case NilWebhook =>
          w.WriteHeader(StatusInternalServerError);
          return;
        case OtherWebhook(_) =>
          w.WriteHeader(StatusInternalServerError);
          return;
        case NilPullRequestHook =>
          w.WriteHeader(StatusInternalServerError);
          return;
        case PullRequestHook(target) =>
          if target in allowedBranches {
            CopyHeaders(w, req.header);
            w.Write(body);
          }
      }
    }
  }

  /** The header copy's inner loop: every value of one name, in order. */
  method AddEachValue(w: ResponseWriter, name: string, values: seq<string>)
    modifies w
    ensures w.State() == old(w.State()).(header := AddValues(old(w.header), name, values))
  {
    for i := 0 to |values|
      invariant w.State() == old(w.State()).(header := AddValues(old(w.header), name, values[..i]))
    {
      AddValuesSnoc(old(w.header), name, values[..i], values[i]);
      assert values[..i + 1] == values[..i] + [values[i]];
      w.AddHeader(name, values[i]);
    }
    assert values[..|values|] == values;
  }

  /**
   * The header copy of `handlePost`: every value of every name of `src`
   * added to the response. The names are visited in an arbitrary order, as
   * Go's map iteration visits them.
   */
  method CopyHeaders(w: ResponseWriter, src: Header)
    modifies w
    ensures w.State() == old(w.State()).AddAll(src)
  {
    ghost var start := w.State();
    var remaining := src.Keys;
    ghost var done: set<string> := {};
    MergeNothing(start.header, src);
    while remaining != {}
      invariant remaining !! done && remaining + done == src.Keys
      invariant w.State() == start.(header := Merge(start.header, Restrict(src, done)))
      decreases remaining
    {
      var name :| name in remaining;
      AddEachValue(w, name, src[name]);
      MergeOneMore(start.header, src, done, name);
      remaining := remaining - {name};
      done := done + {name};
    }
    assert Restrict(src, done) == src;
  }

  /**
   * `NewBranchFilterServeMux`, with the three settings passed in: the client
   * first, whose error wins; then the allow-list, which must not be empty.
   */
  method NewBranchFilterServeMux(gitProvider: string, gitURL: string, allowedBranchesString: string,
                                 construct: ClientConstructor)
    returns (r: Result<BranchFilterServeMux>)
    ensures var client := GetGitClient(gitProvider, gitURL, construct);
            && (client.Err? ==> r == Err(client.error))
            && (client.Ok? && allowedBranchesString == "" ==> r == Err(NoBranchesAllowed))
            && (r.Ok? <==> client.Ok? && allowedBranchesString != "")
            && (r.Ok? ==> fresh(r.value) && r.value.gitClient == client.value)
    ensures r.Ok? ==> forall b :: b in r.value.allowedBranches <==> b in Split(allowedBranchesString, BranchSeparator)
    ensures r.Ok? ==> r.value.bindAddress == "localhost" && r.value.path == "/" && r.value.port == "8080"
  {
    var gitClient := GetGitClient(gitProvider, gitURL, construct);
    if gitClient.Err? {
      return Err(gitClient.error);
    }
    var allowedBranches := NewAllowedBranches(allowedBranchesString);
    if allowedBranches.Err? {
      return Err(allowedBranches.error);
    }
    var b := new BranchFilterServeMux(gitClient.value, allowedBranches.value);
    return Ok(b);
  }
}
