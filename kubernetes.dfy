/** The Kubernetes cluster manager (binder/cluster.py): launching the cluster
    and its proxy and registry services, deploying an app's specification files,
    and registering the app's notebook server with the proxy. Every external
    call is a parameter of the model: `kubectl` says whether a `kubectl.sh`
    command succeeded, `describe(i)` is what the `i`-th `kubectl.sh describe`
    printed (`None` when it failed), `post(i)` is how the `i`-th HTTP POST to the
    proxy ended. The machine state the manager changes (the environment and the
    two info files under the project root) is the `Host` object. */
module Kubernetes {
  import opened Common
  import opened Text
  import opened Scrape
  import opened InfoFiles
  import opened Preload

  /** `os.path.join(dir, name)` of Python's `posixpath`. */
  function Join(dir: string, name: string): (path: string)
    ensures EndsWith(path, name)
  {
    if StartsWith(name, "/") then name
    else if dir == [] || EndsWith(dir, "/") then dir + name
    else dir + "/" + name
  }

  /** `_create`'s command: the namespace flag only for a truthy namespace. */
  function CreateCommand(filename: string, namespace: Option<string>): (cmd: seq<string>)
    ensures |cmd| == if Truthy(namespace) then 5 else 4
    ensures cmd[..4] == ["kubectl.sh", "create", "-f", filename]
    ensures Truthy(namespace) ==> cmd[4] == "--namespace=" + namespace.value
  {
    var cmd := ["kubectl.sh", "create", "-f", filename];
    if Truthy(namespace) then cmd + ["--namespace=" + namespace.value] else cmd
  }

  /** `_create` as written: when the command fails, the handler formats the
      undefined name `path`, so a NameError escapes instead of False. */
  function CreateAsWritten(filename: string, namespace: Option<string>, kubectl: seq<string> -> bool): Result<bool> {
    if kubectl(CreateCommand(filename, namespace)) then Ok(true) else Err(NameError("path"))
  }

  /** As written, `_create` never reports a failure by its result. */
  lemma CreateAsWrittenNeverFalse(filename: string, namespace: Option<string>, kubectl: seq<string> -> bool)
    ensures CreateAsWritten(filename, namespace, kubectl) != Ok(false)
    ensures !kubectl(CreateCommand(filename, namespace)) ==>
      CreateAsWritten(filename, namespace, kubectl) == Err(NameError("path"))
  {
  }

  /** `_create` as intended: False exactly when the command failed. */
  function Create(filename: string, namespace: Option<string>, kubectl: seq<string> -> bool): (ok: bool)
    ensures ok <==> kubectl(CreateCommand(filename, namespace))
    ensures ok <==> CreateAsWritten(filename, namespace, kubectl) == Ok(true)
  {
    kubectl(CreateCommand(filename, namespace))
  }

  /** How an HTTP POST to the proxy ended. */
  datatype PostOutcome = Status(code: int) | ConnectionFailed

  /** The route request `_register_proxy_route` POSTs. */
  datatype RouteRequest = RouteRequest(url: string, target: string, authorization: string)

  /** What `_register_proxy_route` returned or raised, how many pod-IP lookups
      it made, and the requests it sent. */
  datatype RouteRun = RouteRun(result: Result<bool>, lookups: nat, posts: seq<RouteRequest>)

  const ROUTE_ATTEMPTS := 20
  const CREATED := 201

  function RouteRequestFor(appId: string, ip: string, base: string, token: string): RouteRequest {
    RouteRequest(base + "/" + appId, "http://" + ip + ":8888", "token " + token)
  }

  /** What `_get_pod_ip` returns on each attempt, given what `kubectl.sh describe pod`
      printed on it (`None` when the command failed). */
  function PodIps(describe: nat -> Option<string>): nat -> Option<string> {
    (j: nat) => PodIp(describe(j))
  }

  /** What `__get_service_url` returns on each attempt, given what
      `kubectl.sh describe service` printed on it. */
  function ServiceUrls(describe: nat -> Option<string>): nat -> Option<string> {
    (j: nat) => ServiceUrl(describe(j))
  }

  /** The route registration from attempt `i` on, after the requests `posts`. */
  function RouteFrom(appId: string, ips: nat -> Option<string>, info: Result<(string, string)>,
                     post: nat -> PostOutcome, i: nat, posts: seq<RouteRequest>): RouteRun
    requires i <= ROUTE_ATTEMPTS
    decreases ROUTE_ATTEMPTS - i
  {
    if i == ROUTE_ATTEMPTS then RouteRun(Ok(false), i, posts)
    else
      var ip := ips(i);
      if !Truthy(ip) then RouteFrom(appId, ips, info, post, i + 1, posts)
      else if info.Err? then RouteRun(Err(info.exc), i + 1, posts)
      else
        var request := RouteRequestFor(appId, ip.value, info.value.0, info.value.1);
        if post(i).ConnectionFailed? then RouteFrom(appId, ips, info, post, i + 1, posts + [request])
        else RouteRun(if post(i).code == CREATED then Ok(true) else Err(RouteRejected), i + 1, posts + [request])
  }

  /** An attempt after which the loop goes on: no IP yet, or the proxy could not be reached. */
  predicate Retried(ips: nat -> Option<string>, info: Result<(string, string)>, post: nat -> PostOutcome, j: nat) {
    !Truthy(ips(j)) || (info.Ok? && post(j) == ConnectionFailed)
  }

  /** The first attempt from `i` on after which the loop stops. */
  function FirstStop(ips: nat -> Option<string>, info: Result<(string, string)>, post: nat -> PostOutcome, i: nat)
    : (r: Option<nat>)
    requires i <= ROUTE_ATTEMPTS
    ensures r.Some? ==> i <= r.value < ROUTE_ATTEMPTS && !Retried(ips, info, post, r.value)
    ensures r.Some? ==> forall j :: i <= j < r.value ==> Retried(ips, info, post, j)
    ensures r.None? ==> forall j :: i <= j < ROUTE_ATTEMPTS ==> Retried(ips, info, post, j)
    decreases ROUTE_ATTEMPTS - i
  {
    if i == ROUTE_ATTEMPTS then None
    else if !Retried(ips, info, post, i) then Some(i)
    else FirstStop(ips, info, post, i + 1)
  }

  /** How the attempt that stops the loop ends it: the proxy info cannot be
      read, or the proxy answered with 201 (True) or another status (raised). */
  function StopResult(info: Result<(string, string)>, post: nat -> PostOutcome, j: nat): Result<bool> {
    if info.Err? then Err(info.exc)
    else if post(j) == Status(CREATED) then Ok(true)
    else Err(RouteRejected)
  }

  /** The route registration stops at the first attempt that finds the pod's
      address and either cannot read the proxy info or reaches the proxy; it
      reports True only on a 201 and raises on any other status; when every
      attempt is retried it gives False after 20 lookups. */
  lemma {:induction false} RouteOutcome(appId: string, ips: nat -> Option<string>, info: Result<(string, string)>,
                                        post: nat -> PostOutcome, i: nat, posts: seq<RouteRequest>)
    requires i <= ROUTE_ATTEMPTS
    ensures var run := RouteFrom(appId, ips, info, post, i, posts);
      var stop := FirstStop(ips, info, post, i);
      && run.lookups == (if stop.Some? then stop.value + 1 else ROUTE_ATTEMPTS)
      && run.result == (if stop.Some? then StopResult(info, post, stop.value) else Ok(false))
    decreases ROUTE_ATTEMPTS - i
  {
    if i < ROUTE_ATTEMPTS && Retried(ips, info, post, i) {
      var ip := ips(i);
      if !Truthy(ip) {
        RouteOutcome(appId, ips, info, post, i + 1, posts);
      } else {
        RouteOutcome(appId, ips, info, post, i + 1, posts + [RouteRequestFor(appId, ip.value, info.value.0, info.value.1)]);
      }
    }
  }

  /** The requests already sent stay at the head of the list, and each
      attempt sends at most one more. */
  lemma {:induction false} RoutePosts(appId: string, ips: nat -> Option<string>, info: Result<(string, string)>,
                                      post: nat -> PostOutcome, i: nat, posts: seq<RouteRequest>)
    requires i <= ROUTE_ATTEMPTS
    ensures var run := RouteFrom(appId, ips, info, post, i, posts);
      && i <= run.lookups <= ROUTE_ATTEMPTS
      && |posts| <= |run.posts| <= |posts| + (run.lookups - i)
      && run.posts[..|posts|] == posts
    decreases ROUTE_ATTEMPTS - i
  {
    if i < ROUTE_ATTEMPTS {
      var ip := ips(i);
      if !Truthy(ip) {
        RoutePosts(appId, ips, info, post, i + 1, posts);
      } else if info.Ok? && post(i) == ConnectionFailed {
        var posts' := posts + [RouteRequestFor(appId, ip.value, info.value.0, info.value.1)];
        RoutePosts(appId, ips, info, post, i + 1, posts');
        var run := RouteFrom(appId, ips, info, post, i + 1, posts');
        assert run.posts[..|posts|] == run.posts[..|posts'|][..|posts|];
      }
    }
  }

  /** A request as `_register_proxy_route` sends it: to `<routes endpoint>/<app id>`
      with the stored token, for port 8888 of some address. */
  predicate WellFormedRequest(request: RouteRequest, appId: string, base: string, token: string) {
    && request.url == base + "/" + appId
    && request.authorization == "token " + token
    && StartsWith(request.target, "http://") && EndsWith(request.target, ":8888")
  }

  /** Every request sent carries the stored endpoint and token, and targets
      port 8888 of some address; `RoutePostsFromAttempts` says which. */
  lemma {:induction false} RouteRequestsWellFormed(appId: string, ips: nat -> Option<string>, info: Result<(string, string)>,
                                                   post: nat -> PostOutcome, i: nat, posts: seq<RouteRequest>)
    requires i <= ROUTE_ATTEMPTS
    requires info.Ok?
    requires forall k :: 0 <= k < |posts| ==>
      WellFormedRequest(posts[k], appId, info.value.0, info.value.1)
    ensures forall k :: 0 <= k < |RouteFrom(appId, ips, info, post, i, posts).posts| ==>
      WellFormedRequest(RouteFrom(appId, ips, info, post, i, posts).posts[k], appId, info.value.0, info.value.1)
    decreases ROUTE_ATTEMPTS - i
  {
    if i < ROUTE_ATTEMPTS {
      var ip := ips(i);
      if !Truthy(ip) {
        RouteRequestsWellFormed(appId, ips, info, post, i + 1, posts);
      } else {
        var request := RouteRequestFor(appId, ip.value, info.value.0, info.value.1);
        assert request.target == "http://" + (ip.value + ":8888");
        assert WellFormedRequest(request, appId, info.value.0, info.value.1);
        var posts' := posts + [request];
        assert forall k :: 0 <= k < |posts'| ==> posts'[k] == if k < |posts| then posts[k] else request;
        RouteRequestsWellFormed(appId, ips, info, post, i + 1, posts');
      }
    }
  }

  /** The requests of attempts `lo` to `hi - 1` when the proxy info reads as
      `(base, token)`: one for each attempt whose pod lookup gave a truthy
      address, targeting that address. */
  function RequestsFor(appId: string, ips: nat -> Option<string>, base: string, token: string, lo: nat, hi: nat)
    : (requests: seq<RouteRequest>)
    requires lo <= hi
    ensures |requests| <= hi - lo
    decreases hi - lo
  {
    if lo == hi then []
    else
      (if Truthy(ips(lo)) then [RouteRequestFor(appId, ips(lo).value, base, token)] else [])
        + RequestsFor(appId, ips, base, token, lo + 1, hi)
  }

  /** With readable proxy info, a POST is sent exactly for the attempts up to
      the one that stops the loop whose pod lookup gave an address, in order,
      each to `http://<that address>:8888`. */
  lemma {:induction false} RoutePostsFromAttempts(appId: string, ips: nat -> Option<string>,
                                                  info: Result<(string, string)>, post: nat -> PostOutcome,
                                                  i: nat, posts: seq<RouteRequest>)
    requires i <= ROUTE_ATTEMPTS && info.Ok?
    ensures var run := RouteFrom(appId, ips, info, post, i, posts);
      && i <= run.lookups <= ROUTE_ATTEMPTS
      && run.posts == posts + RequestsFor(appId, ips, info.value.0, info.value.1, i, run.lookups)
    decreases ROUTE_ATTEMPTS - i
  {
    var base, token := info.value.0, info.value.1;
    if i == ROUTE_ATTEMPTS {
      assert posts + [] == posts;
    } else {
      var ip := ips(i);
      if !Truthy(ip) {
        RoutePostsFromAttempts(appId, ips, info, post, i + 1, posts);
      } else {
        var request := RouteRequestFor(appId, ip.value, base, token);
        if post(i).ConnectionFailed? {
          RoutePostsFromAttempts(appId, ips, info, post, i + 1, posts + [request]);
          var run := RouteFrom(appId, ips, info, post, i + 1, posts + [request]);
          assert posts + [request] + RequestsFor(appId, ips, base, token, i + 1, run.lookups)
              == posts + ([request] + RequestsFor(appId, ips, base, token, i + 1, run.lookups));
        } else {
          assert RequestsFor(appId, ips, base, token, i, i + 1) == [request] + [];
        }
      }
    }
  }

  /** Without the proxy info no request is sent. */
  lemma {:induction false} NoProxyInfoNoRequest(appId: string, ips: nat -> Option<string>, info: Result<(string, string)>,
                                                post: nat -> PostOutcome, i: nat)
    requires i <= ROUTE_ATTEMPTS
    requires info.Err?
    ensures RouteFrom(appId, ips, info, post, i, []).posts == []
    decreases ROUTE_ATTEMPTS - i
  {
    if i < ROUTE_ATTEMPTS && !Truthy(ips(i)) {
      NoProxyInfoNoRequest(appId, ips, info, post, i + 1);
    }
  }

  /** The number of `kubectl.sh describe service` lookups the start loops make. */
  const URL_ATTEMPTS := 5

  /** The first attempt from `i` on whose service lookup gave a truthy address. */
  function FirstUrl(urls: nat -> Option<string>, i: nat): (r: Option<(nat, string)>)
    requires i <= URL_ATTEMPTS
    ensures r.Some? ==> && i <= r.value.0 < URL_ATTEMPTS
                        && urls(r.value.0) == Some(r.value.1) && r.value.1 != ""
                        && forall j :: i <= j < r.value.0 ==> !Truthy(urls(j))
    ensures r.None? ==> forall j :: i <= j < URL_ATTEMPTS ==> !Truthy(urls(j))
    decreases URL_ATTEMPTS - i
  {
    if i == URL_ATTEMPTS then None
    else if Truthy(urls(i)) then Some((i, urls(i).value))
    else FirstUrl(urls, i + 1)
  }

  /** What `_start_proxy_server`/`_start_registry_server` return: whatever the
      launch raised, None once an address was found, False otherwise. */
  function ServerStart(launch: Option<Exc>, urls: nat -> Option<string>): Result<Option<bool>> {
    if launch.Some? then Err(launch.value)
    else if FirstUrl(urls, 0).Some? then Ok(None)
    else Ok(Some(false))
  }

  /** `.proxy_info` after the proxy start: written with the first address
      found when the launch raised nothing, otherwise left as `info`. */
  function ProxyInfoAfter(info: Option<string>, token: string, launch: Option<Exc>, urls: nat -> Option<string>)
    : Option<string>
  {
    if launch.None? && FirstUrl(urls, 0).Some? then Some(ProxyInfoText(FirstUrl(urls, 0).value.1, token)) else info
  }

  /** `.registry_info` after the registry start, in the same way. */
  function RegistryInfoAfter(info: Option<string>, launch: Option<Exc>, urls: nat -> Option<string>): Option<string> {
    if launch.None? && FirstUrl(urls, 0).Some? then Some(RegistryText(FirstUrl(urls, 0).value.1)) else info
  }

  /** The number of lookups a start loop makes: up to the first address found, at most five. */
  function Lookups(launch: Option<Exc>, urls: nat -> Option<string>): (n: nat)
    ensures n <= URL_ATTEMPTS
    ensures launch.None? ==> n >= 1
  {
    if launch.Some? then 0
    else match FirstUrl(urls, 0)
      case Some((k, _)) => k + 1
      case None => URL_ATTEMPTS
  }

  /** An exception from a step of `start`: a failed command makes the start
      unsuccessful, anything else escapes. */
  function Caught(e: Exc): Result<Option<bool>> {
    if e == CalledProcessError then Ok(Some(false)) else Err(e)
  }

  /** `_preload_registry_server`: `pulls` is what its docker pull, tag and
      push raised, if anything. A failed command is caught there and reported
      as False; any other exception escapes it. */
  function RegistryPreload(pulls: Option<Exc>): (r: Result<bool>)
    ensures r == Ok(true) <==> pulls.None?
    ensures r == Ok(false) <==> pulls == Some(CalledProcessError)
    ensures r.Err? ==> Some(r.exc) == pulls && r.exc != CalledProcessError
  {
    match pulls
    case None => Ok(true)
    case Some(e) => if e == CalledProcessError then Ok(false) else Err(e)
  }

  /** `start`'s result: `kubeUp` is what `kube-up.sh` raised, if anything.
      It must succeed, and the result is then whatever
      `preload_image("binder-base")` returned; the proxy and registry starts
      and the registry preload matter only through what they raise. */
  function StartOutcome(kubeUp: Option<Exc>, proxy: Result<Option<bool>>, registry: Result<Option<bool>>,
                        registryPreload: Result<bool>, preload: Result<Option<bool>>): Result<Option<bool>> {
    if kubeUp.Some? then Caught(kubeUp.value)
    else match FirstRaised(proxy, registry, registryPreload)
      case Some(e) => Caught(e)
      case None => if preload.Err? then Caught(preload.exc) else Ok(preload.value)
  }

  /** The first exception of the proxy start, the registry start and the
      registry preload, which run in that order; the rest do not run. */
  function FirstRaised(proxy: Result<Option<bool>>, registry: Result<Option<bool>>, registryPreload: Result<bool>)
    : Option<Exc>
  {
    if proxy.Err? then Some(proxy.exc)
    else if registry.Err? then Some(registry.exc)
    else if registryPreload.Err? then Some(registryPreload.exc)
    else None
  }

  /** A successful start needs `kube-up.sh` and the preload to succeed, and
      nothing else: what the proxy and registry starts and the registry
      preload return does not matter. */
  lemma StartSucceedsIff(kubeUp: Option<Exc>, proxy: Result<Option<bool>>, registry: Result<Option<bool>>,
                         registryPreload: Result<bool>, preload: Result<Option<bool>>)
    ensures StartOutcome(kubeUp, proxy, registry, registryPreload, preload) == Ok(Some(true))
        <==> kubeUp.None? && proxy.Ok? && registry.Ok? && registryPreload.Ok? && preload == Ok(Some(true))
    ensures proxy.Ok? && registry.Ok? && registryPreload.Ok? ==>
      StartOutcome(kubeUp, proxy, registry, registryPreload, preload)
        == StartOutcome(kubeUp, Ok(None), Ok(None), Ok(true), preload)
  {
  }

  /** Only a failed command is caught by `start`: an exception of any other
      kind from `kube-up.sh` or the registry preload escapes it, and a failed
      `kube-up.sh` makes the start unsuccessful. */
  lemma StartEscapes(kubeUp: Option<Exc>, proxy: Result<Option<bool>>, registry: Result<Option<bool>>,
                     pulls: Option<Exc>, preload: Result<Option<bool>>)
    ensures var r := StartOutcome(kubeUp, proxy, registry, RegistryPreload(pulls), preload);
      && (r.Err? ==> r.exc != CalledProcessError)
      && (kubeUp == Some(CalledProcessError) ==> r == Ok(Some(false)))
      && (kubeUp.Some? && kubeUp.value != CalledProcessError ==> r == Err(kubeUp.value))
      && (kubeUp.None? && proxy.Ok? && registry.Ok? && pulls.Some? && pulls.value != CalledProcessError
          ==> r == Err(pulls.value))
  {
  }

  /** Decimal digits of `n`, as `str(n)` writes them. */
  function Decimal(n: nat): string
    decreases n
  {
    if n < 10 then [(48 + n) as char] else Decimal(n / 10) + [(48 + n % 10) as char]
  }

  /** The names of an app's deployment files, and the result of `deploy_app`. */
  datatype DeployRun = DeployRun(result: Result<bool>, creates: seq<seq<string>>, route: Option<RouteRun>)

  const NAMESPACE_FILE := "namespace.json"

  /** The loop of `deploy_app` over the listed files from the first of `names`
      on: `success and _create(...)` runs a create only while everything so far succeeded. */
  function ScopedCreates(appDir: string, appId: string, names: seq<string>, kubectl: seq<string> -> bool,
                         success: bool, creates: seq<seq<string>>): (bool, seq<seq<string>>)
    decreases |names|
  {
    if names == [] then (success, creates)
    else if names[0] == NAMESPACE_FILE || !success then
      ScopedCreates(appDir, appId, names[1..], kubectl, success, creates)
    else
      var cmd := CreateCommand(Join(appDir, names[0]), Some(appId));
      ScopedCreates(appDir, appId, names[1..], kubectl, Create(Join(appDir, names[0]), Some(appId), kubectl), creates + [cmd])
  }

  /** The command that creates the listed file `name` in the app's namespace. */
  function ScopedCommand(appDir: string, appId: string, name: string): seq<string> {
    CreateCommand(Join(appDir, name), Some(appId))
  }

  /** The scoped creates of the listed files other than the namespace, in listing order. */
  function ScopedCommands(appDir: string, appId: string, names: seq<string>): seq<seq<string>> {
    if names == [] then []
    else
      var first := if names[0] == NAMESPACE_FILE then [] else [ScopedCommand(appDir, appId, names[0])];
      first + ScopedCommands(appDir, appId, names[1..])
  }

  /** Once a create has failed, no further file is created and the loop stays unsuccessful. */
  lemma {:induction false} ScopedCreatesAfterFailure(appDir: string, appId: string, names: seq<string>,
                                                     kubectl: seq<string> -> bool, creates: seq<seq<string>>)
    ensures ScopedCreates(appDir, appId, names, kubectl, false, creates) == (false, creates)
    decreases |names|
  {
    if names != [] {
      ScopedCreatesAfterFailure(appDir, appId, names[1..], kubectl, creates);
    }
  }

  /** Starting from success, the loop succeeds exactly when every scoped create does. */
  lemma {:induction false} ScopedCreatesSucceedIff(appDir: string, appId: string, names: seq<string>,
                                                   kubectl: seq<string> -> bool, creates: seq<seq<string>>)
    ensures ScopedCreates(appDir, appId, names, kubectl, true, creates).0 <==>
      forall k :: 0 <= k < |names| && names[k] != NAMESPACE_FILE ==> kubectl(ScopedCommand(appDir, appId, names[k]))
    decreases |names|
  {
    if names != [] {
      var rest := names[1..];
      assert forall k :: 1 <= k < |names| ==> names[k] == rest[k - 1];
      if names[0] == NAMESPACE_FILE {
        ScopedCreatesSucceedIff(appDir, appId, rest, kubectl, creates);
      } else {
        var cmd := ScopedCommand(appDir, appId, names[0]);
        if kubectl(cmd) {
          ScopedCreatesSucceedIff(appDir, appId, rest, kubectl, creates + [cmd]);
        } else {
          ScopedCreatesAfterFailure(appDir, appId, rest, kubectl, creates + [cmd]);
        }
      }
    }
  }

  /** One step of the loop while every create so far has succeeded. */
  lemma ScopedCreatesStep(appDir: string, appId: string, names: seq<string>, kubectl: seq<string> -> bool,
                          creates: seq<seq<string>>)
    requires names != []
    ensures ScopedCreates(appDir, appId, names, kubectl, true, creates) ==
      if names[0] == NAMESPACE_FILE then ScopedCreates(appDir, appId, names[1..], kubectl, true, creates)
      else ScopedCreates(appDir, appId, names[1..], kubectl, kubectl(ScopedCommand(appDir, appId, names[0])),
                         creates + [ScopedCommand(appDir, appId, names[0])])
  {
  }

  /** When the loop succeeds, the creates it ran are those of every listed
      file other than the namespace, in listing order. */
  lemma {:induction false} ScopedCreatesCommands(appDir: string, appId: string, names: seq<string>,
                                                 kubectl: seq<string> -> bool, creates: seq<seq<string>>)
    ensures var r := ScopedCreates(appDir, appId, names, kubectl, true, creates);
      r.0 ==> r.1 == creates + ScopedCommands(appDir, appId, names)
    decreases |names|
  {
    if names != [] {
      var rest := names[1..];
      var r := ScopedCreates(appDir, appId, names, kubectl, true, creates);
      var tail := ScopedCommands(appDir, appId, rest);
      ScopedCreatesStep(appDir, appId, names, kubectl, creates);
      if names[0] == NAMESPACE_FILE {
        assert r.0 ==> r.1 == creates + ScopedCommands(appDir, appId, names) by {
          assert ScopedCommands(appDir, appId, names) == [] + tail;
          assert [] + tail == tail;
          ScopedCreatesCommands(appDir, appId, rest, kubectl, creates);
        }
      } else {
        var cmd := ScopedCommand(appDir, appId, names[0]);
        if kubectl(cmd) {
          assert r.0 ==> r.1 == creates + ScopedCommands(appDir, appId, names) by {
            assert ScopedCommands(appDir, appId, names) == [cmd] + tail;
            ScopedCreatesCommands(appDir, appId, rest, kubectl, creates + [cmd]);
            assert creates + [cmd] + tail == creates + ([cmd] + tail);
          }
        } else {
          assert !r.0 by {
            ScopedCreatesAfterFailure(appDir, appId, rest, kubectl, creates + [cmd]);
          }
        }
      }
    }
  }

  /** `deploy_app(app_id, app_dir)`: `listing` is `os.listdir(app_dir)`, and
      `lookupDescribe` is the description of the proxy's lookup service. */
  function DeployAppSpec(appId: string, appDir: string, listing: seq<string>, kubectl: seq<string> -> bool,
                         describe: nat -> Option<string>, proxyFile: Option<string>, post: nat -> PostOutcome,
                         lookupDescribe: Option<string>): DeployRun {
    var nsCmd := CreateCommand(Join(appDir, NAMESPACE_FILE), None);
    var (ok, creates) := ScopedCreates(appDir, appId, listing, kubectl, Create(Join(appDir, NAMESPACE_FILE), None, kubectl), [nsCmd]);
    var lookup := ServiceUrl(lookupDescribe);
    if !ok then DeployRun(if lookup.None? then Err(TypeError) else Ok(false), creates, None)
    else
      var route := RouteFrom(appId, PodIps(describe), ReadProxyInfo(proxyFile), post, 0, []);
      if route.result.Err? then DeployRun(Err(route.result.exc), creates, Some(route))
      else DeployRun(if lookup.None? then Err(TypeError) else Ok(route.result.value), creates, Some(route))
  }

  /** `deploy_app` creates the namespace first, unscoped; registers the route
      only when every create succeeded; and reports True only when the route was
      registered and the lookup service has an address. */
  lemma DeployAppOutcome(appId: string, appDir: string, listing: seq<string>, kubectl: seq<string> -> bool,
                         describe: nat -> Option<string>, proxyFile: Option<string>, post: nat -> PostOutcome,
                         lookupDescribe: Option<string>)
    ensures var run := DeployAppSpec(appId, appDir, listing, kubectl, describe, proxyFile, post, lookupDescribe);
      && |run.creates| >= 1
      && run.creates[0] == ["kubectl.sh", "create", "-f", Join(appDir, NAMESPACE_FILE)]
      && (run.route.Some? <==>
            kubectl(run.creates[0]) &&
            forall k :: 0 <= k < |listing| && listing[k] != NAMESPACE_FILE ==> kubectl(ScopedCommand(appDir, appId, listing[k])))
      && (run.route.Some? ==> run.creates == [run.creates[0]] + ScopedCommands(appDir, appId, listing))
      && (run.result == Ok(true) ==> run.route.Some? && run.route.value.result == Ok(true) && ServiceUrl(lookupDescribe).Some?)
  {
    var nsCmd := CreateCommand(Join(appDir, NAMESPACE_FILE), None);
    var first := Create(Join(appDir, NAMESPACE_FILE), None, kubectl);
    var loop := ScopedCreates(appDir, appId, listing, kubectl, first, [nsCmd]);
    assert && |loop.1| >= 1 && loop.1[0] == nsCmd
           && (loop.0 <==> first && forall k :: 0 <= k < |listing| && listing[k] != NAMESPACE_FILE ==>
                 kubectl(ScopedCommand(appDir, appId, listing[k])))
           && (loop.0 ==> loop.1 == [nsCmd] + ScopedCommands(appDir, appId, listing)) by {
      if first {
        ScopedCreatesSucceedIff(appDir, appId, listing, kubectl, [nsCmd]);
        ScopedCreatesCommands(appDir, appId, listing, kubectl, [nsCmd]);
      } else {
        ScopedCreatesAfterFailure(appDir, appId, listing, kubectl, [nsCmd]);
      }
      ScopedCreatesPrefix(appDir, appId, listing, kubectl, first, [nsCmd]);
    }
    var run := DeployAppSpec(appId, appDir, listing, kubectl, describe, proxyFile, post, lookupDescribe);
    assert run.creates == loop.1 && (run.route.Some? <==> loop.0);
    assert first == kubectl(nsCmd);
  }

  /** What `deploy_app` returns or raises: an exception of the route
      registration escapes; otherwise a lookup service without an address raises
      TypeError (`"http://" + None`), whether or not the creates succeeded;
      otherwise the result is True exactly when the route was registered. */
  lemma DeployAppResult(appId: string, appDir: string, listing: seq<string>, kubectl: seq<string> -> bool,
                        describe: nat -> Option<string>, proxyFile: Option<string>, post: nat -> PostOutcome,
                        lookupDescribe: Option<string>)
    ensures var run := DeployAppSpec(appId, appDir, listing, kubectl, describe, proxyFile, post, lookupDescribe);
      run.result ==
        if run.route.Some? && run.route.value.result.Err? then Err(run.route.value.result.exc)
        else if ServiceUrl(lookupDescribe).None? then Err(TypeError)
        else Ok(run.route.Some? && run.route.value.result == Ok(true))
  {
    var nsCmd := CreateCommand(Join(appDir, NAMESPACE_FILE), None);
    var (ok, creates) := ScopedCreates(appDir, appId, listing, kubectl, Create(Join(appDir, NAMESPACE_FILE), None, kubectl), [nsCmd]);
    var run := DeployAppSpec(appId, appDir, listing, kubectl, describe, proxyFile, post, lookupDescribe);
    if ok {
      var route := RouteFrom(appId, PodIps(describe), ReadProxyInfo(proxyFile), post, 0, []);
      assert run.route == Some(route);
      if route.result.Ok? {
        assert (route.result == Ok(true)) == route.result.value;
      }
    } else {
      assert run.route.None?;
    }
  }

  /** All creates succeeding, the route registered and a lookup address give True. */
  lemma DeployAppSucceeds(appId: string, appDir: string, listing: seq<string>, kubectl: seq<string> -> bool,
                          describe: nat -> Option<string>, proxyFile: Option<string>, post: nat -> PostOutcome,
                          lookupDescribe: Option<string>)
    requires kubectl(CreateCommand(Join(appDir, NAMESPACE_FILE), None))
    requires forall k :: 0 <= k < |listing| && listing[k] != NAMESPACE_FILE ==> kubectl(ScopedCommand(appDir, appId, listing[k]))
    requires RouteFrom(appId, PodIps(describe), ReadProxyInfo(proxyFile), post, 0, []).result == Ok(true)
    requires ServiceUrl(lookupDescribe).Some?
    ensures DeployAppSpec(appId, appDir, listing, kubectl, describe, proxyFile, post, lookupDescribe).result == Ok(true)
  {
    var run := DeployAppSpec(appId, appDir, listing, kubectl, describe, proxyFile, post, lookupDescribe);
    DeployAppOutcome(appId, appDir, listing, kubectl, describe, proxyFile, post, lookupDescribe);
    assert run.creates[0] == CreateCommand(Join(appDir, NAMESPACE_FILE), None);
    assert run.route.Some?;
  }

  /** The creates already run stay at the head of the list. */
  lemma {:induction false} ScopedCreatesPrefix(appDir: string, appId: string, names: seq<string>,
                                               kubectl: seq<string> -> bool, success: bool, creates: seq<seq<string>>)
    ensures var (ok, cs) := ScopedCreates(appDir, appId, names, kubectl, success, creates);
      |creates| <= |cs| && cs[..|creates|] == creates && (ok ==> success)
    decreases |names|
  {
    if names != [] {
      if names[0] == NAMESPACE_FILE || !success {
        ScopedCreatesPrefix(appDir, appId, names[1..], kubectl, success, creates);
      } else {
        var cmd := ScopedCommand(appDir, appId, names[0]);
        var next := creates + [cmd];
        ScopedCreatesPrefix(appDir, appId, names[1..], kubectl, kubectl(cmd), next);
        var cs := ScopedCreates(appDir, appId, names[1..], kubectl, kubectl(cmd), next).1;
        assert cs[..|creates|] == cs[..|next|][..|creates|];
      }
    }
  }

  /** The machine the manager works on: the process environment and the
      contents of `.proxy_info` and `.registry_info` under the project root. */
  class Host {
    var environ: map<string, string>
    var proxyInfo: Option<string>
    var registryInfo: Option<string>

    constructor (environ: map<string, string>, proxyInfo: Option<string>, registryInfo: Option<string>)
      ensures this.environ == environ && this.proxyInfo == proxyInfo && this.registryInfo == registryInfo
    {
      this.environ := environ;
      this.proxyInfo := proxyInfo;
      this.registryInfo := registryInfo;
    }
  }

  /** The cluster manager. It keeps no state of its own: what it changes is on the `Host`. */
  class KubernetesManager {
    constructor () {
    }

    /** `_write_proxy_info`: replaces `.proxy_info` with the address and the token, one per line. */
    method WriteProxyInfo(host: Host, url: string, token: string)
      modifies host
      ensures host.proxyInfo == Some(ProxyInfoText(url, token))
      ensures host.environ == old(host.environ) && host.registryInfo == old(host.registryInfo)
    {
      var text := url + "\n";
      text := text + token + "\n";
      host.proxyInfo := Some(text);
    }

    /** `_write_registry_url`: replaces `.registry_info` with the address and a newline. */
    method WriteRegistryUrl(host: Host, url: string)
      modifies host
      ensures host.registryInfo == Some(RegistryText(url))
      ensures host.environ == old(host.environ) && host.proxyInfo == old(host.proxyInfo)
    {
      host.registryInfo := Some(url + "\n");
    }

    /** `_register_proxy_route(app_id)`: up to 20 attempts to find the app's
        pod address and POST its route to the proxy. */
    method RegisterProxyRoute(appId: string, describe: nat -> Option<string>, proxyFile: Option<string>,
                              post: nat -> PostOutcome) returns (run: RouteRun)
      ensures run == RouteFrom(appId, PodIps(describe), ReadProxyInfo(proxyFile), post, 0, [])
    {
      var posts: seq<RouteRequest> := [];
      for i := 0 to ROUTE_ATTEMPTS
        invariant RouteFrom(appId, PodIps(describe), ReadProxyInfo(proxyFile), post, 0, [])
               == RouteFrom(appId, PodIps(describe), ReadProxyInfo(proxyFile), post, i, posts)
      {
        var ip := PodIp(describe(i));
        if Truthy(ip) {
          var info := ReadProxyInfo(proxyFile);
          if info.Err? {
            return RouteRun(Err(info.exc), i + 1, posts);
          }
          var base, token := info.value.0, info.value.1;
          var request := RouteRequest(base + "/" + appId, "http://" + ip.value + ":8888", "token " + token);
          posts := posts + [request];
          match post(i) {
            case Status(code) =>
              if code == CREATED {
                return RouteRun(Ok(true), i + 1, posts);
              } else {
                return RouteRun(Err(RouteRejected), i + 1, posts);
              }
            case ConnectionFailed =>
          }
        }
      }
      return RouteRun(Ok(false), ROUTE_ATTEMPTS, posts);
    }

    /** `_start_proxy_server`: launch the proxy, then up to five lookups of its
        address; the first address found is written with the token, once. */
    method StartProxyServer(host: Host, token: string, launch: Option<Exc>, describe: nat -> Option<string>)
      returns (r: Result<Option<bool>>, lookups: nat)
      modifies host
      ensures r == ServerStart(launch, ServiceUrls(describe)) && lookups == Lookups(launch, ServiceUrls(describe))
      ensures host.proxyInfo == ProxyInfoAfter(old(host.proxyInfo), token, launch, ServiceUrls(describe))
      ensures host.environ == old(host.environ) && host.registryInfo == old(host.registryInfo)
    {
      if launch.Some? {
        return Err(launch.value), 0;
      }
      var url: Option<string> := None;
      lookups := 0;
      for i := 0 to URL_ATTEMPTS
        invariant lookups == i && !Truthy(url)
        invariant FirstUrl(ServiceUrls(describe), 0) == FirstUrl(ServiceUrls(describe), i)
        invariant host.proxyInfo == old(host.proxyInfo)
        invariant host.environ == old(host.environ) && host.registryInfo == old(host.registryInfo)
      {
        url := ServiceUrl(describe(i));
        lookups := lookups + 1;
        assert ServiceUrls(describe)(i) == url;
        if Truthy(url) {
          assert FirstUrl(ServiceUrls(describe), 0) == Some((i, url.value));
          WriteProxyInfo(host, url.value, token);
          break;
        }
      }
      if !Truthy(url) {
        return Ok(Some(false)), lookups;
      }
      return Ok(None), lookups;
    }

    /** `_start_registry_server`: the same loop for the registry's address. */
    method StartRegistryServer(host: Host, launch: Option<Exc>, describe: nat -> Option<string>)
      returns (r: Result<Option<bool>>, lookups: nat)
      modifies host
      ensures r == ServerStart(launch, ServiceUrls(describe)) && lookups == Lookups(launch, ServiceUrls(describe))
      ensures host.registryInfo == RegistryInfoAfter(old(host.registryInfo), launch, ServiceUrls(describe))
      ensures host.environ == old(host.environ) && host.proxyInfo == old(host.proxyInfo)
    {
      if launch.Some? {
        return Err(launch.value), 0;
      }
      var url: Option<string> := None;
      lookups := 0;
      for i := 0 to URL_ATTEMPTS
        invariant lookups == i && !Truthy(url)
        invariant FirstUrl(ServiceUrls(describe), 0) == FirstUrl(ServiceUrls(describe), i)
        invariant host.registryInfo == old(host.registryInfo)
        invariant host.environ == old(host.environ) && host.proxyInfo == old(host.proxyInfo)
      {
        url := ServiceUrl(describe(i));
        lookups := lookups + 1;
        assert ServiceUrls(describe)(i) == url;
        if Truthy(url) {
          assert FirstUrl(ServiceUrls(describe), 0) == Some((i, url.value));
          WriteRegistryUrl(host, url.value);
          break;
        }
      }
      if !Truthy(url) {
        return Ok(Some(false)), lookups;
      }
      return Ok(None), lookups;
    }

    /** The middle of `start`: the proxy start, the registry start and the
        registry preload, stopping at the first that raises. */
    method LaunchServers(host: Host, token: string, proxyLaunch: Option<Exc>, proxyDescribe: nat -> Option<string>,
                         registryLaunch: Option<Exc>, registryDescribe: nat -> Option<string>, registryPulls: Option<Exc>)
      returns (raised: Option<Exc>)
      modifies host
      ensures raised == FirstRaised(ServerStart(proxyLaunch, ServiceUrls(proxyDescribe)),
                                    ServerStart(registryLaunch, ServiceUrls(registryDescribe)),
                                    RegistryPreload(registryPulls))
      ensures host.environ == old(host.environ)
      ensures host.proxyInfo == ProxyInfoAfter(old(host.proxyInfo), token, proxyLaunch, ServiceUrls(proxyDescribe))
      ensures host.registryInfo ==
        if ServerStart(proxyLaunch, ServiceUrls(proxyDescribe)).Ok?
        then RegistryInfoAfter(old(host.registryInfo), registryLaunch, ServiceUrls(registryDescribe))
        else old(host.registryInfo)
    {
      var proxy, _ := StartProxyServer(host, token, proxyLaunch, proxyDescribe);
      if proxy.Err? {
        return Some(proxy.exc);
      }
      var reg, _ := StartRegistryServer(host, registryLaunch, registryDescribe);
      if reg.Err? {
        return Some(reg.exc);
      }
      var pushed := RegistryPreload(registryPulls);
      if pushed.Err? {
        return Some(pushed.exc);
      }
      return None;
    }

    /** `start(num_minions, provider)`: `kubeUp` is what `kube-up.sh` raised
        and `registryPulls` what the registry preload's docker commands raised,
        if anything; the launches, lookups, token and preload inputs are those
        of the steps it runs. `.proxy_info` is written only when the cluster came
        up and the proxy's address was found; `.registry_info` only when, in
        addition, the proxy start raised nothing and the registry's address was
        found. */
    method Start(host: Host, numMinions: nat, provider: string, kubeUp: Option<Exc>, token: string,
                 proxyLaunch: Option<Exc>, proxyDescribe: nat -> Option<string>,
                 registryLaunch: Option<Exc>, registryDescribe: nat -> Option<string>,
                 registryPulls: Option<Exc>, registry: string, config: Result<string>, nodesOutput: Result<string>)
      returns (r: Result<Option<bool>>)
      modifies host
      ensures host.environ == old(host.environ)["NUM_MINIONS" := Decimal(numMinions)][PROVIDER_VAR := provider]
      ensures r == StartOutcome(kubeUp, ServerStart(proxyLaunch, ServiceUrls(proxyDescribe)),
                                ServerStart(registryLaunch, ServiceUrls(registryDescribe)),
                                RegistryPreload(registryPulls),
                                PreloadImage("binder-base", registry, host.environ, config, nodesOutput).result)
      ensures host.proxyInfo ==
        if kubeUp.None? then ProxyInfoAfter(old(host.proxyInfo), token, proxyLaunch, ServiceUrls(proxyDescribe))
        else old(host.proxyInfo)
      ensures host.registryInfo ==
        if kubeUp.None? && ServerStart(proxyLaunch, ServiceUrls(proxyDescribe)).Ok?
        then RegistryInfoAfter(old(host.registryInfo), registryLaunch, ServiceUrls(registryDescribe))
        else old(host.registryInfo)
    {
      host.environ := host.environ["NUM_MINIONS" := Decimal(numMinions)];
      host.environ := host.environ[PROVIDER_VAR := provider];
      if kubeUp.Some? {
        return Caught(kubeUp.value);
      }
      var raised := LaunchServers(host, token, proxyLaunch, proxyDescribe, registryLaunch, registryDescribe, registryPulls);
      if raised.Some? {
        return Caught(raised.value);
      }
      var preload := PreloadImage("binder-base", registry, host.environ, config, nodesOutput).result;
      if preload.Err? {
        return Caught(preload.exc);
      }
      return Ok(preload.value);
    }

    /** `deploy_app(app_id, app_dir)`. */
    method DeployApp(appId: string, appDir: string, listing: seq<string>, kubectl: seq<string> -> bool,
                     describe: nat -> Option<string>, proxyFile: Option<string>, post: nat -> PostOutcome,
                     lookupDescribe: Option<string>) returns (run: DeployRun)
      ensures run == DeployAppSpec(appId, appDir, listing, kubectl, describe, proxyFile, post, lookupDescribe)
    {
      var nsCmd := CreateCommand(Join(appDir, NAMESPACE_FILE), None);
      var creates := [nsCmd];
      var success := Create(Join(appDir, NAMESPACE_FILE), None, kubectl);
      for i := 0 to |listing|
        invariant ScopedCreates(appDir, appId, listing, kubectl, Create(Join(appDir, NAMESPACE_FILE), None, kubectl), [nsCmd])
               == ScopedCreates(appDir, appId, listing[i..], kubectl, success, creates)
      {
        assert listing[i..][1..] == listing[i + 1..];
        var f := listing[i];
        if f != NAMESPACE_FILE {
          var path := Join(appDir, f);
          if success {
            creates := creates + [CreateCommand(path, Some(appId))];
            success := Create(path, Some(appId), kubectl);
          }
        }
      }
      var route: Option<RouteRun> := None;
      if success {
        var routeRun := RegisterProxyRoute(appId, describe, proxyFile, post);
        route := Some(routeRun);
        if routeRun.result.Err? {
          return DeployRun(Err(routeRun.result.exc), creates, route);
        }
        success := routeRun.result.value;
      }
      var lookup := ServiceUrl(lookupDescribe);
      if lookup.None? {
        return DeployRun(Err(TypeError), creates, route);
      }
      return DeployRun(Ok(success), creates, route);
    }
  }

  /** The holder of the single cluster manager (`ClusterManager.manager`). */
  class ClusterManager {
    var manager: KubernetesManager?

    constructor () ensures manager == null {
      manager := null;
    }

    /** `get_instance`: creates the manager on first use, then always returns it. */
    method GetInstance() returns (m: KubernetesManager)
      modifies this
      ensures old(manager) != null ==> m == old(manager)
      ensures old(manager) == null ==> fresh(m)
      ensures manager == m
    {
      if manager == null {
        manager := new KubernetesManager();
      }
      m := manager;
    }
  }

  /** Two calls of `get_instance` return the same manager. */
  method GetInstanceTwice(holder: ClusterManager) returns (first: KubernetesManager, second: KubernetesManager)
    modifies holder
    ensures first == second && holder.manager == first
  {
    first := holder.GetInstance();
    second := holder.GetInstance();
  }
}
