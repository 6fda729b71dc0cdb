/** The chart fetcher. `Get` picks a getter by the form of the chart URI (an OCI reference, a
    packaged-chart archive, or an HTTP chart repository); the archive and repository getters
    go through `fetch`, the OCI getter through a registry client. The network and the registry
    are objects that record what they were asked; their answers, the semantic-version parser
    and matcher, the URL parsers, the YAML decoder, the version ordering and the index lookup
    are parameters. */
module Getter {
  import opened Wrappers
  import opened StrUtil
  import opened RepoIndex

  datatype GetOptions = GetOptions(
    uri: string, version: string, repo: string, insecureSkipVerifyTLS: bool,
    username: string, password: string, passCredentialsAll: bool)

  /** What a getter returns: the chart bytes, the URL they came from, and the error. */
  datatype Got = Got(data: Bytes, url: string, err: Option<Error>)

  /** A getter's failure: no data and no URL. */
  function Failed(e: Error): Got {
    Got([], "", Some(e))
  }

  predicate IsOCI(url: string) {
    HasPrefix(url, "oci://")
  }

  predicate IsTGZ(url: string) {
    HasSuffix(url, ".tgz") || HasSuffix(url, ".tar.gz")
  }

  predicate IsHTTP(uri: string) {
    HasPrefix(uri, "http://") || HasPrefix(uri, "https://")
  }

  // ---------------------------------------------------------------------------------------
  // HTTP: requests, clients and `fetch`

  datatype BasicAuth = BasicAuth(username: string, password: string)

  datatype HttpRequest = HttpRequest(verb: string, url: string, auth: Option<BasicAuth>)

  datatype TlsConfig = TlsConfig(insecureSkipVerify: bool)

  /** The settings of the client a request is sent with. */
  datatype ClientConfig = ClientConfig(
    disableCompression: bool, proxyFromEnvironment: bool, tls: Option<TlsConfig>, timeoutSeconds: int)

  /** An answer: the status code and line, the body as far as it could be read, and the
      error that stopped reading it. */
  datatype Response = Response(statusCode: int, status: string, body: Bytes, readErr: Option<Error>)

  /** One request as it leaves the process. */
  datatype Exchange = Exchange(client: ClientConfig, request: HttpRequest)

  /** The network as net/http sees it: the error `http.NewRequest` gives for a URL, and the
      answer (or transport error) to each exchange. */
  datatype Web = Web(requestError: string -> Option<Error>, respond: Exchange -> Result<Response>)

  const StatusOK: int := 200

  /** The client settings `fetch` uses for `opts`: compression off, proxy from the
      environment, a one-minute timeout, and certificate checks skipped exactly when asked. */
  function ClientConfigFor(opts: GetOptions): (c: ClientConfig)
    ensures c.disableCompression && c.proxyFromEnvironment && c.timeoutSeconds == 60
    ensures SkipsVerify(c) <==> opts.insecureSkipVerifyTLS
  {
    ClientConfig(true, true, if opts.insecureSkipVerifyTLS then Some(TlsConfig(true)) else None, 60)
  }

  predicate SkipsVerify(c: ClientConfig) {
    c.tls.Some? && c.tls.value.insecureSkipVerify
  }

  /** The credentials `fetch` attaches: only with PassCredentialsAll and a non-empty username
      and password. */
  function AuthFor(opts: GetOptions): Option<BasicAuth> {
    if opts.passCredentialsAll && opts.username != "" && opts.password != "" then
      Some(BasicAuth(opts.username, opts.password))
    else None
  }

  function RequestFor(opts: GetOptions): HttpRequest {
    HttpRequest("GET", opts.uri, AuthFor(opts))
  }

  /** What `fetch` returns, and the exchanges it sent (none or one). */
  datatype Fetched = Fetched(data: Bytes, err: Option<Error>, sent: seq<Exchange>)

  /** `fetch` as a function of the network's behaviour. */
  function FetchOutcome(web: Web, opts: GetOptions): (f: Fetched)
    ensures |f.sent| <= 1
  {
    var reqErr := web.requestError(opts.uri);
    if reqErr.Some? then Fetched([], reqErr, [])
    else
      var x := Exchange(ClientConfigFor(opts), RequestFor(opts));
      match web.respond(x)
      case Fail(e) => Fetched([], Some(e), [x])
      case Ok(resp) =>
        if resp.statusCode != StatusOK then
          Fetched([], Some(Errorf("failed to fetch " + opts.uri + " : " + resp.status)), [x])
        else Fetched(resp.body, resp.readErr, [x])
  }

  /** A request carries Basic credentials exactly when PassCredentialsAll is set and both the
      username and the password are non-empty, and then they are the caller's; it goes to the
      URI with the caller's client settings. */
  lemma FetchCredentials(web: Web, opts: GetOptions)
    ensures forall x | x in FetchOutcome(web, opts).sent ::
              x.request == HttpRequest("GET", opts.uri, x.request.auth)
              && x.client == ClientConfigFor(opts)
              && (x.request.auth.Some? <==> opts.passCredentialsAll && opts.username != "" && opts.password != "")
              && (x.request.auth.Some? ==> x.request.auth.value == BasicAuth(opts.username, opts.password))
  {
  }

  /** Without PassCredentialsAll the username and password make no difference at all to what
      `fetch` sends or returns. */
  lemma FetchWithholdsCredentials(web: Web, opts: GetOptions, username: string, password: string)
    requires !opts.passCredentialsAll
    ensures FetchOutcome(web, opts) == FetchOutcome(web, opts.(username := username, password := password))
  {
    var other := opts.(username := username, password := password);
    assert RequestFor(opts) == RequestFor(other);
    assert ClientConfigFor(opts) == ClientConfigFor(other);
  }

  /** Data comes only from an answer with status 200, and every error-free fetch read the
      whole body of such an answer. */
  lemma FetchStatus(web: Web, opts: GetOptions)
    ensures var f := FetchOutcome(web, opts);
            (f.data != [] || f.err.None?) ==>
              |f.sent| == 1 && web.respond(f.sent[0]).Ok?
              && web.respond(f.sent[0]).value.statusCode == StatusOK
              && f.data == web.respond(f.sent[0]).value.body
    ensures var f := FetchOutcome(web, opts);
            |f.sent| == 1 && web.respond(f.sent[0]).Ok? && web.respond(f.sent[0]).value.statusCode != StatusOK ==>
              f.data == [] && f.err == Some(Errorf("failed to fetch " + opts.uri + " : " + web.respond(f.sent[0]).value.status))
  {
  }

  /** The transport `newHTTPClient` builds; its TLS settings are filled in afterwards. */
  class Transport {
    const disableCompression: bool
    const proxyFromEnvironment: bool
    var tlsClientConfig: Option<TlsConfig>

    constructor (disableCompression: bool, proxyFromEnvironment: bool)
      ensures this.disableCompression == disableCompression && this.proxyFromEnvironment == proxyFromEnvironment
      ensures tlsClientConfig == None
    {
      this.disableCompression := disableCompression;
      this.proxyFromEnvironment := proxyFromEnvironment;
      tlsClientConfig := None;
    }
  }

  class HttpClient {
    const transport: Transport
    const timeoutSeconds: int

    constructor (transport: Transport, timeoutSeconds: int)
      ensures this.transport == transport && this.timeoutSeconds == timeoutSeconds
    {
      this.transport := transport;
      this.timeoutSeconds := timeoutSeconds;
    }

    function Config(): ClientConfig
      reads transport
    {
      ClientConfig(transport.disableCompression, transport.proxyFromEnvironment, transport.tlsClientConfig, timeoutSeconds)
    }
  }

  /** `newHTTPClient`. A new transport has no TLS settings yet, so the source's branch that
      updates existing ones never runs and is not repeated here. */
  method NewHTTPClient(opts: GetOptions) returns (client: HttpClient)
    ensures fresh(client) && fresh(client.transport)
    ensures client.Config() == ClientConfigFor(opts)
  {
    var transport := new Transport(true, true);
    if opts.insecureSkipVerifyTLS {
      if transport.tlsClientConfig.None? {
        transport.tlsClientConfig := Some(TlsConfig(true));
      }
    }
    client := new HttpClient(transport, 60);
  }

  /** An outgoing request; `SetBasicAuth` fills in its credentials. */
  class Request {
    const verb: string
    const url: string
    var auth: Option<BasicAuth>

    constructor (verb: string, url: string)
      ensures this.verb == verb && this.url == url && auth == None
    {
      this.verb := verb;
      this.url := url;
      auth := None;
    }

    method SetBasicAuth(username: string, password: string)
      modifies this`auth
      ensures auth == Some(BasicAuth(username, password))
    {
      auth := Some(BasicAuth(username, password));
    }

    function Value(): HttpRequest
      reads this`auth
    {
      HttpRequest(verb, url, auth)
    }
  }

  /** The network: it answers as `web` says and records every exchange sent to it. */
  class Network {
    const web: Web
    var sent: seq<Exchange>

    constructor (web: Web)
      ensures this.web == web && sent == []
    {
      this.web := web;
      sent := [];
    }

    /** `Client.Do`. */
    method Do(client: HttpClient, req: Request) returns (r: Result<Response>)
      modifies this`sent
      ensures sent == old(sent) + [Exchange(client.Config(), req.Value())]
      ensures r == web.respond(Exchange(client.Config(), req.Value()))
    {
      var x := Exchange(client.Config(), req.Value());
      sent := sent + [x];
      r := web.respond(x);
    }
  }

  /** `fetch`: a GET request to the URI, with Basic credentials only when the caller passes
      them on and both are set; an answer other than 200 is an error without data. */
  method Fetch(net: Network, opts: GetOptions) returns (data: Bytes, err: Option<Error>)
    modifies net`sent
    ensures data == FetchOutcome(net.web, opts).data && err == FetchOutcome(net.web, opts).err
    ensures net.sent == old(net.sent) + FetchOutcome(net.web, opts).sent
  {
    var reqErr := net.web.requestError(opts.uri);
    if reqErr.Some? {
      return [], reqErr;
    }
    var req := new Request("GET", opts.uri);
    if opts.passCredentialsAll {
      if opts.username != "" && opts.password != "" {
        req.SetBasicAuth(opts.username, opts.password);
      }
    }
    var client := NewHTTPClient(opts);
    var resp := net.Do(client, req);
    if resp.Fail? {
      return [], Some(resp.error);
    }
    if resp.value.statusCode != StatusOK {
      return [], Some(Errorf("failed to fetch " + opts.uri + " : " + resp.value.status));
    }
    return resp.value.body, resp.value.readErr;
  }

  // ---------------------------------------------------------------------------------------
  // The OCI registry

  datatype LoginOptions = LoginOptions(username: string, password: string, insecure: bool)

  /** A request to the registry. */
  datatype RegistryCall =
    | TagsCall(ref: string)
    | LoginCall(host: string, options: LoginOptions)
    | PullCall(ref: string)
    | LogoutCall(host: string)

  /** The registry as Helm's registry client sees it: whether the client can be created, and
      the answers to tag listing, login and pull. */
  datatype RegistryApi = RegistryApi(
    newClientError: Option<Error>,
    tags: string -> Result<seq<string>>,
    login: (string, LoginOptions) -> Option<Error>,
    pull: string -> Result<Bytes>)

  /** A URL as `url.Parse` splits it. */
  datatype Url = Url(scheme: string, host: string, path: string)

  /** The parsers and lookups the getters rely on: `semver.NewVersion` succeeding,
      `GetTagMatchingVersionOrConstraint`, `url.Parse` and `URL.String`, the index decoder and
      version ordering, `IndexFile.Get`, and `url.ParseRequestURI` succeeding. */
  datatype Services = Services(
    isSemVer: string -> bool,
    matchTag: (seq<string>, string) -> Result<string>,
    parseURL: string -> Result<Url>,
    render: Url -> string,
    parseIndex: Bytes -> Result<Index>,
    sortVersions: Versions -> Versions,
    lookup: (Index, string, string) -> Result<ChartVersion>,
    isRequestURI: string -> bool)

  /** The registry client: it answers as `api` says and records every call made through it. */
  class RegistryClient {
    const api: RegistryApi
    var calls: seq<RegistryCall>

    constructor (api: RegistryApi)
      ensures this.api == api && calls == []
    {
      this.api := api;
      calls := [];
    }

    method Tags(ref: string) returns (r: Result<seq<string>>)
      modifies this`calls
      ensures calls == old(calls) + [TagsCall(ref)] && r == api.tags(ref)
    {
      calls := calls + [TagsCall(ref)];
      r := api.tags(ref);
    }

    method Login(host: string, options: LoginOptions) returns (err: Option<Error>)
      modifies this`calls
      ensures calls == old(calls) + [LoginCall(host, options)] && err == api.login(host, options)
    {
      calls := calls + [LoginCall(host, options)];
      err := api.login(host, options);
    }

    method Pull(ref: string) returns (r: Result<Bytes>)
      modifies this`calls
      ensures calls == old(calls) + [PullCall(ref)] && r == api.pull(ref)
    {
      calls := calls + [PullCall(ref)];
      r := api.pull(ref);
    }

    /** The source ignores what `Logout` returns. */
    method Logout(host: string)
      modifies this`calls
      ensures calls == old(calls) + [LogoutCall(host)]
    {
      calls := calls + [LogoutCall(host)];
    }
  }

  /** The repository reference: the URI without "oci://", and "/" and the chart name behind
      it when one is given. */
  function RefFor(opts: GetOptions): string {
    var ref := TrimPrefix(opts.uri, "oci://");
    if |opts.repo| > 0 then ref + "/" + opts.repo else ref
  }

  /** Putting "oci://" back in front of the reference gives the URI, followed by "/" and the
      chart name when one is given. */
  lemma RefRoundTrip(opts: GetOptions)
    requires IsOCI(opts.uri)
    ensures "oci://" + RefFor(opts) == opts.uri + (if |opts.repo| > 0 then "/" + opts.repo else "")
  {
    assert "oci://" + opts.uri[6..] == opts.uri;
  }

  /** `strings.Split(ref, "/")[0]`: the text before the first '/', or all of it. */
  function HostOf(ref: string): string {
    var k := IndexOf(ref, '/');
    if k < 0 then ref else ref[..k]
  }

  /** The host is the longest prefix of the reference without a '/'. */
  lemma HostOfShape(ref: string)
    ensures HasPrefix(ref, HostOf(ref)) && '/' !in HostOf(ref)
    ensures |HostOf(ref)| < |ref| ==> ref[|HostOf(ref)|] == '/'
  {
  }

  function LoginOptionsFor(opts: GetOptions): LoginOptions {
    LoginOptions(opts.username, opts.password, opts.insecureSkipVerifyTLS)
  }

  /** The tag `resolveURI` settles on, and the registry calls that took. */
  datatype Tagged = Tagged(tag: Result<string>, calls: seq<RegistryCall>)

  function TagFor(api: RegistryApi, svc: Services, ref: string, version: string): Tagged {
    if svc.isSemVer(version) then Tagged(Ok(version), [])
    else
      match api.tags(ref)
      case Fail(e) => Tagged(Fail(e), [TagsCall(ref)])
      case Ok(tags) =>
        if |tags| == 0 then Tagged(Fail(Errorf("no tags found in provided repository: " + ref)), [TagsCall(ref)])
        else Tagged(svc.matchTag(tags, version), [TagsCall(ref)])
  }

  /** What `resolveURI` returns, and the registry calls it made. */
  datatype Resolved = Resolved(url: Result<Url>, calls: seq<RegistryCall>)

  function ResolveOutcome(api: RegistryApi, svc: Services, ref: string, version: string): Resolved {
    var t := TagFor(api, svc, ref, version);
    if t.tag.Fail? then Resolved(Fail(t.tag.error), t.calls)
    else
      match svc.parseURL(ref)
      case Fail(e) => Resolved(Fail(e), t.calls)
      case Ok(u) => Resolved(Ok(u.(path := u.path + ":" + t.tag.value)), t.calls)
  }

  /** What a getter returns, with the HTTP exchanges and registry calls it made. */
  datatype Outcome = Outcome(got: Got, sent: seq<Exchange>, calls: seq<RegistryCall>)

  /** Login when the caller passes credentials on, the pull of the resolved URL, and the
      logout deferred after a successful login. */
  function PullStage(api: RegistryApi, svc: Services, opts: GetOptions, host: string, u: Url): Outcome {
    var login := if opts.passCredentialsAll then [LoginCall(host, LoginOptionsFor(opts))] else [];
    var loginErr := if opts.passCredentialsAll then api.login(host, LoginOptionsFor(opts)) else None;
    if loginErr.Some? then Outcome(Failed(Wrap("failed to login: ", loginErr.value)), [], login)
    else
      var target := svc.render(u);
      var logout := if opts.passCredentialsAll then [LogoutCall(host)] else [];
      var calls := login + [PullCall(target)] + logout;
      match api.pull(target)
      case Fail(e) => Outcome(Failed(e), [], calls)
      case Ok(data) => Outcome(Got(data, opts.uri, None), [], calls)
  }

  /** `ociGetter.Get` as a function of the registry's behaviour. */
  function OciOutcome(api: RegistryApi, svc: Services, opts: GetOptions): Outcome {
    if !IsOCI(opts.uri) then Outcome(Failed(Errorf("uri '" + opts.uri + "' is not a valid OCI ref")), [], [])
    else
      var ref := RefFor(opts);
      var r := ResolveOutcome(api, svc, ref, opts.version);
      if r.url.Fail? then Outcome(Failed(r.url.error), [], r.calls)
      else
        var p := PullStage(api, svc, opts, HostOf(ref), r.url.value);
        Outcome(p.got, [], r.calls + p.calls)
  }

  /** Resolving a reference only ever lists tags, at most once. */
  lemma ResolveOnlyLists(api: RegistryApi, svc: Services, ref: string, version: string)
    ensures var calls := ResolveOutcome(api, svc, ref, version).calls;
            |calls| <= 1 && forall c | c in calls :: c == TagsCall(ref)
  {
  }

  /** Within the pull stage: a login comes first, only with credentials passed on, against
      the given host; a successful one is answered by a logout of that host as the last call;
      a logout only ever follows that login; and the pull asks for the resolved URL. */
  lemma PullStageSession(api: RegistryApi, svc: Services, opts: GetOptions, host: string, u: Url)
    ensures var calls := PullStage(api, svc, opts, host, u).calls;
            (forall i | 0 <= i < |calls| && calls[i].LoginCall? ::
               i == 0 && opts.passCredentialsAll && calls[i] == LoginCall(host, LoginOptionsFor(opts))
               && (api.login(host, LoginOptionsFor(opts)).None? ==> calls[|calls| - 1] == LogoutCall(host)))
            && (forall i | 0 <= i < |calls| && calls[i].LogoutCall? ::
                  i == |calls| - 1 && i > 0 && calls[0] == LoginCall(host, LoginOptionsFor(opts)))
            && (forall i | 0 <= i < |calls| && calls[i].PullCall? :: calls[i].ref == svc.render(u))
            && (forall c | c in calls :: !c.TagsCall?)
  {
  }

  /** A URI that is not an OCI reference is refused before the registry is asked anything;
      the OCI getter never uses the HTTP fetcher; a failure carries no data and no URL; and a
      success returns the URI it was given. */
  lemma OciBasics(api: RegistryApi, svc: Services, opts: GetOptions)
    ensures var o := OciOutcome(api, svc, opts);
            o.sent == [] && (!IsOCI(opts.uri) ==> o.calls == [] && o.got.err.Some?)
            && (o.got.err.Some? ==> o.got.data == [] && o.got.url == "")
            && (o.got.err.None? ==> o.got.url == opts.uri)
  {
  }

  /** A version that parses as an exact semantic version is the tag: the registry's tags are
      not listed. Otherwise the tags of the reference are listed first, and an empty list is an
      error. */
  lemma OciTagListing(api: RegistryApi, svc: Services, opts: GetOptions)
    requires IsOCI(opts.uri)
    ensures var o := OciOutcome(api, svc, opts);
            (svc.isSemVer(opts.version) ==> forall c | c in o.calls :: !c.TagsCall?)
            && (!svc.isSemVer(opts.version) ==> |o.calls| > 0 && o.calls[0] == TagsCall(RefFor(opts)))
            && (!svc.isSemVer(opts.version) && api.tags(RefFor(opts)) == Ok([]) ==>
                  o.calls == [TagsCall(RefFor(opts))]
                  && o.got == Failed(Errorf("no tags found in provided repository: " + RefFor(opts))))
  {
  }

  /** The pulled reference is the parsed reference with ":" and the tag added to its path; the
      tag is the version itself when that is an exact semantic version. */
  lemma OciPullTarget(api: RegistryApi, svc: Services, opts: GetOptions, i: nat)
    requires var o := OciOutcome(api, svc, opts); i < |o.calls| && o.calls[i].PullCall?
    ensures exists u: Url, tag: string ::
              svc.parseURL(RefFor(opts)) == Ok(u)
              && OciOutcome(api, svc, opts).calls[i].ref == svc.render(u.(path := u.path + ":" + tag))
              && (svc.isSemVer(opts.version) ==> tag == opts.version)
  {
    var ref := RefFor(opts);
    var r := ResolveOutcome(api, svc, ref, opts.version);
    var t := TagFor(api, svc, ref, opts.version);
    var u := svc.parseURL(ref).value;
    ResolveOnlyLists(api, svc, ref, opts.version);
    var n := |r.calls|;
    var p := PullStage(api, svc, opts, HostOf(ref), r.url.value);
    PullStageSession(api, svc, opts, HostOf(ref), r.url.value);
    assert OciOutcome(api, svc, opts).calls[i] == p.calls[i - n];
    assert OciOutcome(api, svc, opts).calls[i].ref == svc.render(u.(path := u.path + ":" + t.tag.value));
  }

  /** Login happens only when the caller passes credentials on, against the host part of the
      reference; every login that succeeded is answered by a logout of the same host as the
      very last call, and there is no logout without a login before it. */
  lemma OciSessionPaired(api: RegistryApi, svc: Services, opts: GetOptions)
    ensures var calls := OciOutcome(api, svc, opts).calls;
            (forall i | 0 <= i < |calls| && calls[i].LoginCall? ::
               opts.passCredentialsAll && calls[i] == LoginCall(HostOf(RefFor(opts)), LoginOptionsFor(opts))
               && (api.login(calls[i].host, calls[i].options).None? ==> calls[|calls| - 1] == LogoutCall(calls[i].host)))
            && (forall i | 0 <= i < |calls| && calls[i].LogoutCall? ::
                  i == |calls| - 1 && exists j :: 0 <= j < i && calls[j].LoginCall? && calls[j].host == calls[i].host)
  {
    var calls := OciOutcome(api, svc, opts).calls;
    if IsOCI(opts.uri) {
      var ref := RefFor(opts);
      var r := ResolveOutcome(api, svc, ref, opts.version);
      ResolveOnlyLists(api, svc, ref, opts.version);
      if r.url.Ok? {
        var n := |r.calls|;
        var p := PullStage(api, svc, opts, HostOf(ref), r.url.value);
        PullStageSession(api, svc, opts, HostOf(ref), r.url.value);
        assert calls == r.calls + p.calls;
        forall i | 0 <= i < |calls| && calls[i].LogoutCall?
          ensures i == |calls| - 1 && exists j :: 0 <= j < i && calls[j].LoginCall? && calls[j].host == calls[i].host
        {
          if i >= n {
            assert calls[i] == p.calls[i - n];
            assert calls[n] == p.calls[0];
          }
        }
        forall i | 0 <= i < |calls| && calls[i].LoginCall?
          ensures opts.passCredentialsAll && calls[i] == LoginCall(HostOf(RefFor(opts)), LoginOptionsFor(opts))
                  && (api.login(calls[i].host, calls[i].options).None? ==> calls[|calls| - 1] == LogoutCall(calls[i].host))
        {
          if i >= n {
            assert calls[i] == p.calls[i - n];
            assert calls[|calls| - 1] == p.calls[|p.calls| - 1];
          }
        }
      }
    }
  }

  class OciGetter {
    const client: RegistryClient

    constructor (client: RegistryClient)
      ensures this.client == client
    {
      this.client := client;
    }

    /** `resolveURI`: the tag is the version when that is an exact semantic version, otherwise
        the matcher's pick among the listed tags; it is appended to the parsed path. */
    method ResolveURI(svc: Services, ref: string, version: string) returns (u: Result<Url>)
      modifies client`calls
      ensures u == ResolveOutcome(client.api, svc, ref, version).url
      ensures client.calls == old(client.calls) + ResolveOutcome(client.api, svc, ref, version).calls
    {
      var tag: string;
      if svc.isSemVer(version) {
        tag := version;
      } else {
        var tags := client.Tags(ref);
        if tags.Fail? {
          return Fail(tags.error);
        }
        if |tags.value| == 0 {
          return Fail(Errorf("no tags found in provided repository: " + ref));
        }
        var matched := svc.matchTag(tags.value, version);
        if matched.Fail? {
          return Fail(matched.error);
        }
        tag := matched.value;
      }
      var parsed := svc.parseURL(ref);
      if parsed.Fail? {
        return Fail(parsed.error);
      }
      var url := parsed.value;
      url := url.(path := url.path + ":" + tag);
      return Ok(url);
    }

    /** The second half of `ociGetter.Get`: the login, the pull, and the logout registered
        after a successful login, which runs when `Get` returns. */
    method PullWithSession(svc: Services, opts: GetOptions, host: string, u: Url)
      returns (data: Bytes, url: string, err: Option<Error>)
      modifies client`calls
      ensures Got(data, url, err) == PullStage(client.api, svc, opts, host, u).got
      ensures client.calls == old(client.calls) + PullStage(client.api, svc, opts, host, u).calls
    {
      if opts.passCredentialsAll {
        var loginErr := client.Login(host, LoginOptions(opts.username, opts.password, opts.insecureSkipVerifyTLS));
        if loginErr.Some? {
          return [], "", Some(Wrap("failed to login: ", loginErr.value));
        }
      }
      var result := client.Pull(svc.render(u));
      if opts.passCredentialsAll {
        client.Logout(host);
      }
      if result.Fail? {
        return [], "", Some(result.error);
      }
      return result.value, opts.uri, None;
    }

    /** `ociGetter.Get`: the reference is built from the URI and the chart name and resolved
        to a tagged URL, which is pulled. */
    method Get(svc: Services, opts: GetOptions) returns (data: Bytes, url: string, err: Option<Error>)
      modifies client`calls
      ensures Got(data, url, err) == OciOutcome(client.api, svc, opts).got
      ensures client.calls == old(client.calls) + OciOutcome(client.api, svc, opts).calls
    {
      if !IsOCI(opts.uri) {
        return [], "", Some(Errorf("uri '" + opts.uri + "' is not a valid OCI ref"));
      }
      var ref := RefFor(opts);
      ghost var r := ResolveOutcome(client.api, svc, ref, opts.version);
      var u := ResolveURI(svc, ref, opts.version);
      if u.Fail? {
        assert OciOutcome(client.api, svc, opts) == Outcome(Failed(u.error), [], r.calls);
        return [], "", Some(u.error);
      }
      assert OciOutcome(client.api, svc, opts)
             == Outcome(PullStage(client.api, svc, opts, HostOf(ref), u.value).got, [],
                        r.calls + PullStage(client.api, svc, opts, HostOf(ref), u.value).calls);
      data, url, err := PullWithSession(svc, opts, HostOf(ref), u.value);
    }
  }

  /** `newOCIGetter`: a getter around a registry client, unless creating the client fails. */
  method NewOCIGetter(client: RegistryClient) returns (g: OciGetter?, err: Option<Error>)
    ensures err == client.api.newClientError
    ensures err.None? ==> g != null && fresh(g) && g.client == client
  {
    if client.api.newClientError.Some? {
      return null, client.api.newClientError;
    }
    g := new OciGetter(client);
    err := None;
  }

  // ---------------------------------------------------------------------------------------
  // Packaged-chart archives

  /** `tgzGetter.Get` as a function of the network's behaviour. */
  function TgzOutcome(web: Web, opts: GetOptions): Outcome {
    if !IsTGZ(opts.uri) then Outcome(Failed(Errorf("uri '" + opts.uri + "' is not a valid .tgz ref")), [], [])
    else
      var f := FetchOutcome(web, opts);
      if f.err.Some? then Outcome(Failed(f.err.value), f.sent, [])
      else Outcome(Got(f.data, opts.uri, None), f.sent, [])
  }

  /** The archive getter refuses other URIs before fetching; otherwise it fetches the URI
      itself and nothing else, returns the fetched bytes with the URI unchanged, and on a
      fetch error returns no data and no URL. */
  lemma TgzFetchesUri(web: Web, opts: GetOptions)
    ensures var o := TgzOutcome(web, opts);
            o.calls == [] && (!IsTGZ(opts.uri) ==> o.sent == [] && o.got.err.Some?)
            && (forall x | x in o.sent :: x.request.url == opts.uri)
            && (o.got.err.Some? ==> o.got.data == [] && o.got.url == "")
            && (o.got.err.None? ==> o.got == Got(FetchOutcome(web, opts).data, opts.uri, None))
  {
  }

  method TgzGet(net: Network, opts: GetOptions) returns (data: Bytes, url: string, err: Option<Error>)
    modifies net`sent
    ensures Got(data, url, err) == TgzOutcome(net.web, opts).got
    ensures net.sent == old(net.sent) + TgzOutcome(net.web, opts).sent
  {
    if !IsTGZ(opts.uri) {
      return [], "", Some(Errorf("uri '" + opts.uri + "' is not a valid .tgz ref"));
    }
    var dat, e := Fetch(net, opts);
    if e.Some? {
      return [], "", e;
    }
    return dat, opts.uri, None;
  }

  // ---------------------------------------------------------------------------------------
  // HTTP chart repositories

  /** The index request: the index URL, no version or chart name, and the caller's TLS and
      credential settings. */
  function IndexOptions(opts: GetOptions): GetOptions {
    GetOptions(opts.uri + "/index.yaml", "", "", opts.insecureSkipVerifyTLS, opts.username, opts.password,
               opts.passCredentialsAll)
  }

  /** The chart URL: the index's first URL if it is an absolute request URI, otherwise that URL
      joined to the repository URI, which must then be one. */
  function ChartUrl(svc: Services, uri: string, first: string): (r: Result<string>)
    ensures r.Ok? ==> svc.isRequestURI(r.value)
                      && (r.value == first || (!svc.isRequestURI(first) && r.value == uri + "/" + first))
    ensures r.Fail? <==> !svc.isRequestURI(first) && !svc.isRequestURI(uri + "/" + first)
  {
    if svc.isRequestURI(first) then Ok(first)
    else
      var joined := uri + "/" + first;
      if svc.isRequestURI(joined) then Ok(joined) else Fail(Errorf("invalid chart url: " + joined))
  }

  /** The chart request: the chart URL, the version and name the index gave, and the caller's
      TLS and credential settings. */
  function ChartOptions(opts: GetOptions, cv: ChartVersion, url: string): GetOptions {
    GetOptions(url, cv.version, cv.name, opts.insecureSkipVerifyTLS, opts.username, opts.password,
               opts.passCredentialsAll)
  }

  /** What the repository getter does once it holds the index bytes: load the index, look
      the chart up, settle its URL and fetch it. */
  function ChartStage(web: Web, svc: Services, opts: GetOptions, buf: Bytes): Outcome {
    var loaded := LoadSpec(buf, svc.parseIndex, svc.sortVersions);
    if loaded.err.Some? then Outcome(Failed(loaded.err.value), [], [])
    else
      match svc.lookup(loaded.index, opts.repo, opts.version)
      case Fail(e) => Outcome(Failed(e), [], [])
      case Ok(cv) =>
        if |cv.urls| == 0 then
          Outcome(Failed(Errorf("no package url found in index @ " + cv.name + "/" + cv.version)), [], [])
        else
          match ChartUrl(svc, opts.uri, cv.urls[0])
          case Fail(e) => Outcome(Failed(e), [], [])
          case Ok(url) =>
            var g := FetchOutcome(web, ChartOptions(opts, cv, url));
            if g.err.Some? then Outcome(Failed(g.err.value), g.sent, [])
            else Outcome(Got(g.data, url, None), g.sent, [])
  }

  /** `repoGetter.Get` as a function of the network's behaviour. */
  function RepoOutcome(web: Web, svc: Services, opts: GetOptions): Outcome {
    if !IsHTTP(opts.uri) then Outcome(Failed(Errorf("uri '" + opts.uri + "' is not a valid Repo ref")), [], [])
    else
      var f := FetchOutcome(web, IndexOptions(opts));
      if f.err.Some? then Outcome(Failed(f.err.value), f.sent, [])
      else
        var c := ChartStage(web, svc, opts, f.data);
        Outcome(c.got, f.sent + c.sent, [])
  }

  /** After the index: at most the chart request is sent, with the caller's TLS and
      credential settings; a failure carries no data and no URL; a success returns the URL it
      fetched, which is an absolute request URI. */
  lemma ChartStageRequests(web: Web, svc: Services, opts: GetOptions, buf: Bytes)
    ensures var c := ChartStage(web, svc, opts, buf);
            c.calls == [] && |c.sent| <= 1
            && (forall x | x in c.sent :: x.client == ClientConfigFor(opts) && x.request.auth == AuthFor(opts))
            && (c.got.err.Some? ==> c.got.data == [] && c.got.url == "")
            && (c.got.err.None? ==> |c.sent| == 1 && c.sent[0].request.url == c.got.url && svc.isRequestURI(c.got.url))
  {
    var loaded := LoadSpec(buf, svc.parseIndex, svc.sortVersions);
    if loaded.err.None? && svc.lookup(loaded.index, opts.repo, opts.version).Ok? {
      var cv := svc.lookup(loaded.index, opts.repo, opts.version).value;
      if |cv.urls| > 0 && ChartUrl(svc, opts.uri, cv.urls[0]).Ok? {
        var url := ChartUrl(svc, opts.uri, cv.urls[0]).value;
        FetchCredentials(web, ChartOptions(opts, cv, url));
        assert ClientConfigFor(ChartOptions(opts, cv, url)) == ClientConfigFor(opts);
        assert AuthFor(ChartOptions(opts, cv, url)) == AuthFor(opts);
      }
    }
  }

  /** The repository getter refuses other URIs up front; it asks for the index first, at
      URI + "/index.yaml"; every request it sends uses the caller's TLS and credential
      settings; a failure carries no data and no URL; and a success returns the chart URL it
      fetched last, which is an absolute request URI. */
  lemma RepoRequests(web: Web, svc: Services, opts: GetOptions)
    ensures var o := RepoOutcome(web, svc, opts);
            o.calls == [] && |o.sent| <= 2 && (!IsHTTP(opts.uri) ==> o.sent == [] && o.got.err.Some?)
            && (|o.sent| > 0 ==> o.sent[0].request.url == opts.uri + "/index.yaml")
            && (forall x | x in o.sent :: x.client == ClientConfigFor(opts) && x.request.auth == AuthFor(opts))
            && (o.got.err.Some? ==> o.got.data == [] && o.got.url == "")
            && (o.got.err.None? ==> |o.sent| == 2 && o.sent[1].request.url == o.got.url && svc.isRequestURI(o.got.url))
  {
    if IsHTTP(opts.uri) {
      var f := FetchOutcome(web, IndexOptions(opts));
      FetchCredentials(web, IndexOptions(opts));
      assert ClientConfigFor(IndexOptions(opts)) == ClientConfigFor(opts);
      assert AuthFor(IndexOptions(opts)) == AuthFor(opts);
      ChartStageRequests(web, svc, opts, f.data);
    }
  }

  /** An index entry without URLs is an error naming the chart and version, and nothing more
      is sent. */
  lemma NoPackageUrl(web: Web, svc: Services, opts: GetOptions, buf: Bytes, cv: ChartVersion)
    requires LoadSpec(buf, svc.parseIndex, svc.sortVersions).err.None?
    requires svc.lookup(LoadSpec(buf, svc.parseIndex, svc.sortVersions).index, opts.repo, opts.version) == Ok(cv)
    requires |cv.urls| == 0
    ensures ChartStage(web, svc, opts, buf)
            == Outcome(Failed(Errorf("no package url found in index @ " + cv.name + "/" + cv.version)), [], [])
  {
  }

  /** `repoGetter.Get`: the index is fetched and loaded, the chart looked up, its first URL
      made absolute if need be, and the chart fetched. */
  method RepoGet(net: Network, svc: Services, opts: GetOptions) returns (data: Bytes, url: string, err: Option<Error>)
    modifies net`sent
    ensures Got(data, url, err) == RepoOutcome(net.web, svc, opts).got
    ensures net.sent == old(net.sent) + RepoOutcome(net.web, svc, opts).sent
  {
    if !IsHTTP(opts.uri) {
      return [], "", Some(Errorf("uri '" + opts.uri + "' is not a valid Repo ref"));
    }
    var buf, e := Fetch(net, IndexOptions(opts));
    if e.Some? {
      return [], "", e;
    }
    var idx, le := Load(buf, opts.uri, svc.parseIndex, svc.sortVersions);
    if le.Some? {
      return [], "", le;
    }
    var res := svc.lookup(idx.Value(), opts.repo, opts.version);
    if res.Fail? {
      return [], "", Some(res.error);
    }
    if |res.value.urls| == 0 {
      return [], "", Some(Errorf("no package url found in index @ " + res.value.name + "/" + res.value.version));
    }
    var chartUrlStr := res.value.urls[0];
    if !svc.isRequestURI(chartUrlStr) {
      chartUrlStr := opts.uri + "/" + chartUrlStr;
      if !svc.isRequestURI(chartUrlStr) {
        return [], "", Some(Errorf("invalid chart url: " + chartUrlStr));
      }
    }
    var newopts := ChartOptions(opts, res.value, chartUrlStr);
    var dat, fe := Fetch(net, newopts);
    if fe.Some? {
      return [], "", fe;
    }
    return dat, newopts.uri, fe;
  }

  // ---------------------------------------------------------------------------------------
  // Dispatch

  datatype Handler = OciHandler | TgzHandler | RepoHandler

  /** The getter `Get` hands a URI to: OCI references first, then archives, then HTTP
      repositories. */
  function HandlerFor(uri: string): (h: Option<Handler>)
    ensures h.None? <==> !IsOCI(uri) && !IsTGZ(uri) && !IsHTTP(uri)
  {
    if IsOCI(uri) then Some(OciHandler)
    else if IsTGZ(uri) then Some(TgzHandler)
    else if IsHTTP(uri) then Some(RepoHandler)
    else None
  }

  /** An OCI reference goes to the OCI getter even when it names an archive. */
  lemma OciBeforeArchive(rest: string)
    ensures HandlerFor("oci://" + rest) == Some(OciHandler)
    ensures HandlerFor("oci://" + rest + ".tgz") == Some(OciHandler)
  {
    Affixes("oci://", rest, "");
    Affixes("oci://", rest, ".tgz");
    assert "oci://" + rest + "" == "oci://" + rest;
  }

  /** An HTTP URL of an archive goes to the archive getter, not to the repository getter. */
  lemma ArchiveBeforeRepo(rest: string)
    ensures HandlerFor("https://" + rest + ".tgz") == Some(TgzHandler)
    ensures HandlerFor("http://" + rest + ".tar.gz") == Some(TgzHandler)
  {
    Affixes("https://", rest, ".tgz");
    NotPrefix("https://" + rest + ".tgz", "oci://", 0);
    Affixes("http://", rest, ".tar.gz");
    NotPrefix("http://" + rest + ".tar.gz", "oci://", 0);
  }

  /** Every other HTTP URL goes to the repository getter, and a URI of no known form to none. */
  lemma RepoForOtherHttp(uri: string)
    ensures IsHTTP(uri) && !IsTGZ(uri) ==> HandlerFor(uri) == Some(RepoHandler)
    ensures HandlerFor("s3://charts/fireworks") == None
  {
    if IsHTTP(uri) {
      assert uri[0] == 'h';
      NotPrefix(uri, "oci://", 0);
    }
    NotPrefix("s3://charts/fireworks", "oci://", 0);
    NotSuffix("s3://charts/fireworks", ".tgz", 3);
    NotSuffix("s3://charts/fireworks", ".tar.gz", 6);
    NotPrefix("s3://charts/fireworks", "http://", 0);
    NotPrefix("s3://charts/fireworks", "https://", 0);
  }

  lemma Affixes(p: string, mid: string, q: string)
    ensures HasPrefix(p + mid + q, p) && HasSuffix(p + mid + q, q)
  {
    assert (p + mid + q)[..|p|] == p;
    assert (p + mid + q)[|p + mid + q| - |q|..] == q;
  }

  lemma NotPrefix(s: string, p: string, i: nat)
    requires i < |p| && (i < |s| ==> s[i] != p[i])
    ensures !HasPrefix(s, p)
  {
  }

  lemma NotSuffix(s: string, q: string, i: nat)
    requires i < |q| && (|q| <= |s| ==> s[|s| - |q| + i] != q[i])
    ensures !HasSuffix(s, q)
  {
  }

  /** `Get` as a function of the network's and the registry's behaviour. */
  function GetOutcome(web: Web, api: RegistryApi, svc: Services, opts: GetOptions): Outcome {
    match HandlerFor(opts.uri)
    case Some(OciHandler) =>
      if api.newClientError.Some? then Outcome(Failed(api.newClientError.value), [], [])
      else OciOutcome(api, svc, opts)
    case Some(TgzHandler) => TgzOutcome(web, opts)
    case Some(RepoHandler) => RepoOutcome(web, svc, opts)
    case None => Outcome(Failed(Errorf("no handler found for url: " + opts.uri)), [], [])
  }

  /** The chosen getter gets past its own check of the URI, whatever the network and the
      registry answer: the archive getter fetches the URI itself, the repository getter asks
      for the index first, and the OCI getter talks only to the registry, listing its tags
      first unless the version is exact. */
  lemma GetNeverRefuses(web: Web, api: RegistryApi, svc: Services, opts: GetOptions)
    ensures HandlerFor(opts.uri) == Some(OciHandler) ==>
              GetOutcome(web, api, svc, opts).sent == []
              && (api.newClientError.None? && !svc.isSemVer(opts.version) ==>
                    |GetOutcome(web, api, svc, opts).calls| > 0
                    && GetOutcome(web, api, svc, opts).calls[0] == TagsCall(RefFor(opts)))
    ensures HandlerFor(opts.uri) == Some(TgzHandler) ==>
              GetOutcome(web, api, svc, opts).calls == []
              && (web.requestError(opts.uri).None? ==>
                    GetOutcome(web, api, svc, opts).sent == [Exchange(ClientConfigFor(opts), RequestFor(opts))])
    ensures HandlerFor(opts.uri) == Some(RepoHandler) ==>
              GetOutcome(web, api, svc, opts).calls == []
              && (web.requestError(opts.uri + "/index.yaml").None? ==>
                    |GetOutcome(web, api, svc, opts).sent| > 0
                    && GetOutcome(web, api, svc, opts).sent[0].request.url == opts.uri + "/index.yaml")
  {
    if HandlerFor(opts.uri) == Some(OciHandler) && api.newClientError.None? {
      OciTagListing(api, svc, opts);
    }
  }

  /** Whatever the URI: a failure carries no data and no URL, and a URI no getter takes is
      refused without any request. */
  lemma GetFailuresCarryNothing(web: Web, api: RegistryApi, svc: Services, opts: GetOptions)
    ensures var o := GetOutcome(web, api, svc, opts);
            o.got.err.Some? ==> o.got.data == [] && o.got.url == ""
    ensures HandlerFor(opts.uri).None? ==>
              GetOutcome(web, api, svc, opts) == Outcome(Failed(Errorf("no handler found for url: " + opts.uri)), [], [])
  {
    match HandlerFor(opts.uri)
    case Some(OciHandler) => OciBasics(api, svc, opts);
    case Some(TgzHandler) => TgzFetchesUri(web, opts);
    case Some(RepoHandler) => RepoRequests(web, svc, opts);
    case None =>
  }

  /** `Get`: the dispatch, with the network and the registry client it may use. */
  method Get(net: Network, client: RegistryClient, svc: Services, opts: GetOptions)
    returns (data: Bytes, url: string, err: Option<Error>)
    modifies net`sent, client`calls
    ensures Got(data, url, err) == GetOutcome(net.web, client.api, svc, opts).got
    ensures net.sent == old(net.sent) + GetOutcome(net.web, client.api, svc, opts).sent
    ensures client.calls == old(client.calls) + GetOutcome(net.web, client.api, svc, opts).calls
  {
    if IsOCI(opts.uri) {
      var g, e := NewOCIGetter(client);
      if e.Some? {
        return [], "", e;
      }
      data, url, err := g.Get(svc, opts);
      return;
    }
    if IsTGZ(opts.uri) {
      data, url, err := TgzGet(net, opts);
      return;
    }
    if IsHTTP(opts.uri) {
      data, url, err := RepoGet(net, svc, opts);
      return;
    }
    return [], "", Some(Errorf("no handler found for url: " + opts.uri));
  }
}
