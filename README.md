# Binder build-and-deploy core, in Dafny

This project models the deterministic core of Binder's build-and-deploy
orchestration (`binder/app.py` and `binder/cluster.py`) and proves properties
of it. Binder turns an app description into a notebook image and then runs it
on a Kubernetes cluster behind a routing proxy. The model covers these parts:

- the app build pipeline (`App.build`): the recorded build state, which steps
  run, and in what order;
- the two Dockerfile writers: the adapted recipe (the repository's own
  Dockerfile with its `FROM` lines replaced) and the synthesized recipe;
- the deploy pipeline (`App.deploy`) and the cluster side of it
  (`KubernetesManager.deploy_app`);
- the text scrapers over `kubectl.sh describe` output and the zone line of
  the GCE configuration;
- the `.proxy_info` / `.registry_info` file formats;
- the retry loops that register a proxy route and discover the proxy and
  registry addresses;
- image preloading on the nodes, cluster `start`, and the singleton accessor.

Every external program or service is an input to the model. This covers git,
docker, the squash-and-push script, `kubectl.sh`, `gcloud`, HTTP requests,
the `Service` objects and the template helpers. Each input is a value or a
function indexed by attempt, and it says how that call ended. The result is a
`Result` (a Python exception becomes `Err`) or an `Option` (Python `None`).

Modules:

| module | file | models |
|---|---|---|
| `Common` | common.dfy | `Option`, `Result`, the exceptions that are raised or escape, the `Service` entity |
| `Text` | text.dfy | Python 2 `str` operations: `strip`, `split`, `split("\n")`, `lower`, `readlines`, `join` |
| `Scrape` | scrape.dfy | `re.search` of `<key>(?P<g>.*)<close>`, `__get_service_url`, `_get_pod_ip`, the zone regex |
| `InfoFiles` | info_files.dfy | `_read/_write_proxy_info`, `_read/_write_registry_url` |
| `Recipe` | recipe.dfy | `_build_with_dockerfile` (with `filter_from`) and `_build_without_dockerfile`, written step by step |
| `Preload` | preload.dfy | `preload_image` |
| `Kubernetes` | kubernetes.dfy | `_create`, `_register_proxy_route`, `_start_*_server`, `start`, `deploy_app`, `get_instance` |
| `Application` | application.dfy | `App.__init__`, `get_app`, `get_app_params`, image names, `build`, `deploy` |

Where the code and the documented behaviour disagree, the model follows the code:

- `deploy_app` returns a boolean, not a URL. `App.deploy` therefore returns
  `True` or `None`.
- `preload_image` returns `None` for the `aws` provider.
- The adapted Dockerfile's `FROM` directive is written without a newline, so
  it runs into the first kept line.
- `_start_proxy_server` and `_start_registry_server` return `None` on success
  and `False` on failure.
- `start` ignores the results of the proxy and registry starts and of the
  registry preload. It fails only on a failed `kube-up.sh` or a failed
  preload, and an exception other than a failed command escapes it.

## Model

| member | source | states |
|---|---|---|
| `Application.LowerAll` | binder/app.py:59 | every dependency tag is lower-cased, order and count kept |
| `Application.DockerfileTagAnyCase` | binder/app.py:59 | the Dockerfile branch is selected iff some tag lower-cases to "dockerfile", so "Dockerfile" selects it too |
| `Application.App.constructor` | binder/app.py:54-70 | the app keeps its metadata, lower-cases its dependencies, takes the minted id and has no cloned repository yet |
| `Application.GetApp` | binder/app.py:28-36 | a falsy name gives every app; a known name gives that app; an unknown name gives None |
| `Application.AppParams` | binder/app.py:80-87 | the deployment parameters are exactly the four `app.`-prefixed keys |
| `Application.AppParamsImage` | binder/app.py:80-87 | `app.notebooks-image` is the pushed, not lower-cased, image name; `app.id` is the deployment id; the port is 8888 |
| `Application.ImageTagIsPushedName` | binder/app.py:103-107 | the build tag equals the pushed image name iff that name has no capital letter |
| `Application.AppIndex.UpdateBuildState` | binder/app.py:246 | the index records the app's new state and leaves every other app's state alone |
| `Application.AppIndex.GetBuildState` | binder/app.py:76-78 | a state is present iff a build was ever recorded, and it is the recorded one |
| `Application.FetchFailureFailsBuild` | binder/app.py:89-101 | every fetch failure (a 404 or anything raised) becomes "could not fetch repository" |
| `Application.Converted` | binder/app.py:155-235 | a failed command becomes a BuildFailedException with the step's message, any other exception escapes unchanged, and no exception means none |
| `Application.Effect` | binder/app.py:89-256 | a step that ends normally raises nothing and one that raises always raises; a falsy result fails only the fetch and a service build; apart from the fetch, an exception that is not a failed command escapes unchanged; a new exception comes only from the fetch, a falsy service or a failed command |
| `Application.Plan` | binder/app.py:241-277 | the build runs the fetch first, then the services in declared order, then the templates |
| `Application.PlanLayout` | binder/app.py:259-277 | the base image step is present only when asked for, right after the templates; copy, recipe, image build and push follow; preload is present only when asked for, last |
| `Application.RunFromOutcome` | binder/app.py:248-282 | the steps run are the plan's prefix up to and including the first that raises, and the run stops with that step's exception |
| `Application.BuildOutcome` | binder/app.py:241-285 | BUILDING is recorded before any step; COMPLETED iff no step raised; FAILED right after a BuildFailedException; any other exception escapes and leaves BUILDING |
| `Application.StepRuns` | binder/app.py:248-277 | a step runs iff no earlier step raised |
| `Application.FirstFailureAt` | binder/app.py:248-282 | the first step that raises decides how many steps ran and which exception ends the build |
| `Application.ServicesInOrder` | binder/app.py:253-256 | service k is built iff the fetch and every earlier service succeeded |
| `Application.FalsyServiceFails` | binder/app.py:253-256 | the first falsy service build fails the build with a message naming its full name, and nothing after it runs |
| `Application.RanInRun` | binder/app.py:248-277 | a step is in the build trace iff it is among the steps that ran |
| `Application.UniqueStepRuns` | binder/app.py:248-277 | a step that occurs once in the plan runs iff every step before it succeeded |
| `Application.OptionalSteps` | binder/app.py:261-277 | the base image is built iff `build_base` is set and everything before it succeeded; the same holds for preload and `preload` |
| `Application.App.Conclude` | binder/app.py:279-285 | after the steps, the index holds COMPLETED or FAILED as the exception demands, or is unchanged when an exception escapes |
| `Application.App.Attempt` | binder/app.py:248-282 | one step of the `try` block either goes on with the index unchanged, or ends the build as `Concluded` says |
| `Application.App.Build` | binder/app.py:241-285 | the trace and index state are those of `BuildSpec`; the recipe is written iff every step up to and including the recipe write succeeded, and it is the adapted or synthesized text; `repo` is set iff the fetch succeeded |
| `Application.App.RunSteps` | binder/app.py:248-256 | fetch, then the services in order, then the later steps, with the index as `BuildSpec` says |
| `Application.App.RunLaterSteps` | binder/app.py:259-270 | templates, then the optional base image, then the image steps |
| `Application.App.RunImageSteps` | binder/app.py:264-277 | copy, recipe (adapted iff "dockerfile" is a tag), build under the lower-cased tag, push under the original name, optional preload |
| `Application.App.RunServices` | binder/app.py:253-256 | each service is built in declared order; the first whose build raises or is falsy ends the build as `Concluded` says, and otherwise every service succeeded with the index unchanged |
| `Application.App.ComposeRecipe` | binder/app.py:267-270 | the recipe written is the adapted one iff "dockerfile" is among the lower-cased tags, else the synthesized one |
| `Application.App.RunPublishSteps` | binder/app.py:273-285 | image build, push, then preload when asked for; the first that raises ends the build, and COMPLETED is recorded when none does |
| `Recipe.KeptLines` | binder/app.py:119-128 | no kept line starts with "FROM "; a recipe without FROM lines is kept whole |
| `Recipe.KeptLinesAppend` | binder/app.py:128 | filtering keeps the remaining lines in their original order |
| `Recipe.WriteLines` | binder/app.py:133-134 | writing a list of lines appends their concatenation |
| `Recipe.WriteAdaptedRecipe` | binder/app.py:127-150 | the written Dockerfile is `AdaptedRecipe`: base directive, kept lines, fixed tail, suffix, newline |
| `Recipe.AdaptedRecipeText` | binder/app.py:127-150 | the adapted recipe is "FROM <base>", the kept lines, "\nUSER main\n\nADD <notebooks or .> $HOME/notebooks\n\n", the suffix verbatim and "\n" |
| `Recipe.FromLineDropped` | binder/app.py:119-131 | a whole FROM line anywhere in the repository's Dockerfile leaves no trace in the output, whatever its target |
| `Recipe.FromDirectiveRunsIntoFirstLine` | binder/app.py:131-135 | for a recipe with no FROM line, the base directive runs into the recipe's first line, with no newline between |
| `Recipe.DependencyBlocksRepeat` | binder/app.py:171-177 | each "requirements.txt" tag emits the same four-line block, and no other tag emits anything |
| `Recipe.TagBlocksRepeat` | binder/app.py:171-177 | a block emitted once per tag equal to the selected one is that block repeated as many times as the tag occurs |
| `Recipe.WriteDependencyBlocks` | binder/app.py:171-177 | the dependency loop appends the blocks of the tags in order |
| `Recipe.ServiceBlocksAppend` | binder/app.py:180-184 | the service blocks follow the order of the services |
| `Recipe.WriteServiceBlocks` | binder/app.py:180-184 | each service appends "# <name> client\n", its client or "", then "\n" |
| `Recipe.WriteSynthesizedRecipe` | binder/app.py:166-195 | the written Dockerfile is `SynthesizedRecipe` |
| `Recipe.SynthesizedRecipeText` | binder/app.py:168-195 | "FROM <base>\n\n", one block per "requirements.txt", the service blocks, the ADD line defaulting to "repo", the suffix verbatim, "\n" |
| `Application.DeployMode` | binder/app.py:290-291 | a falsy mode becomes "single-node"; a truthy one is kept |
| `Application.TemplatesSpec` | binder/app.py:305-311 | the templates load iff all six files exist; the dictionary maps exactly those names to their contents |
| `Application.LoadTemplates` | binder/app.py:305-311 | the loading loop yields `TemplatesSpec` |
| `Application.ServicesOutcomeIff` | binder/app.py:324-327 | without an exception, the services succeed iff every one does; with one, the outcome is the first service's exception |
| `Application.ServicesOutcomeStops` | binder/app.py:324-327 | once a service raised, later services do not change the outcome |
| `Application.DeployServices` | binder/app.py:324-327 | every service's deploy is called even after an earlier one returned False; only an exception stops the loop |
| `Application.DeploySucceedsIff` | binder/app.py:329-340 | `deploy` returns deploy_app's True iff every service and deploy_app succeeded, else None; it never returns False |
| `Application.App.Deploy` | binder/app.py:287-340 | the mode is defaulted; deploy_app is called iff the templates loaded and no service raised; the result is `DeployResult` of those outcomes |
| `Kubernetes.CreateCommand` | binder/cluster.py:70-72 | the command is `kubectl.sh create -f <file>`, plus `--namespace=<ns>` iff the namespace is truthy |
| `Kubernetes.CreateAsWrittenNeverFalse` | binder/cluster.py:67-77 | as written, `_create` never returns False: a failed command raises NameError for `path` |
| `Kubernetes.Create` | binder/cluster.py:67-77 | corrected `_create`: False iff the command failed, True iff the as-written version returns True |
| `Kubernetes.ScopedCreatesAfterFailure` | binder/cluster.py:344-349 | once `success` is False, `and` short-circuits every later create |
| `Kubernetes.ScopedCreatesSucceedIff` | binder/cluster.py:344-349 | the create loop succeeds iff every create of a non-namespace file succeeds |
| `Kubernetes.ScopedCreatesCommands` | binder/cluster.py:344-347 | on success, every non-namespace file is created in listing order, scoped to the app id |
| `Kubernetes.ScopedCreatesPrefix` | binder/cluster.py:344-349 | creates already run stay at the head of the trace, and the loop cannot recover from failure |
| `Kubernetes.DeployAppOutcome` | binder/cluster.py:337-356 | the namespace is created first, unscoped; the route is registered iff every create succeeded; True only when the route was registered and the lookup address exists |
| `Kubernetes.DeployAppResult` | binder/cluster.py:350-356 | an exception of the route registration escapes; otherwise a missing lookup address raises TypeError, whether or not the creates succeeded; otherwise the result is True exactly when the route was registered |
| `Kubernetes.DeployAppSucceeds` | binder/cluster.py:337-356 | every create succeeding, the route registered and a lookup address give True |
| `Kubernetes.KubernetesManager.DeployApp` | binder/cluster.py:337-356 | the loop yields `DeployAppSpec` (short-circuit creates, route registration, TypeError on a missing lookup address) |
| `Kubernetes.RouteOutcome` | binder/cluster.py:171-195 | registration stops at the first attempt that finds an IP and either cannot read the proxy info or reaches the proxy; True only on 201; another status raises; after 20 retried attempts it returns False |
| `Kubernetes.RoutePosts` | binder/cluster.py:174-184 | at most 20 lookups, and at most one POST per attempt |
| `Kubernetes.RouteRequestsWellFormed` | binder/cluster.py:176-184 | every POST goes to `<base>/<app_id>` with `token <token>`, targeting `http://<ip>:8888` |
| `Kubernetes.RoutePostsFromAttempts` | binder/cluster.py:171-195 | the POSTs sent are exactly one request per attempt with a truthy pod IP, in order, up to the attempt that stopped the loop |
| `Kubernetes.NoProxyInfoNoRequest` | binder/cluster.py:176-178 | without readable proxy info, no POST is sent |
| `Kubernetes.KubernetesManager.RegisterProxyRoute` | binder/cluster.py:171-195 | the retry loop yields `RouteFrom` from attempt 0 |
| `Kubernetes.FirstUrl` | binder/cluster.py:251-260 | the first of the five lookups that gave a truthy address, with none before it |
| `Kubernetes.Lookups` | binder/cluster.py:251-260 | a start loop makes between one and five lookups |
| `Kubernetes.KubernetesManager.WriteProxyInfo` | binder/cluster.py:157-160 | `.proxy_info` becomes the url and token, one per line; nothing else changes |
| `Kubernetes.KubernetesManager.WriteRegistryUrl` | binder/cluster.py:167-169 | `.registry_info` becomes the url and a newline; nothing else changes |
| `Kubernetes.KubernetesManager.StartProxyServer` | binder/cluster.py:248-263 | at most five lookups; the info is written once, for the first address found; None on success, False otherwise |
| `Kubernetes.KubernetesManager.StartRegistryServer` | binder/cluster.py:265-280 | the same for the registry address and `.registry_info` |
| `Kubernetes.RegistryPreload` | binder/cluster.py:282-291 | True when the docker commands succeed, False when one fails, and any other exception escapes |
| `Kubernetes.StartSucceedsIff` | binder/cluster.py:293-322 | `start` succeeds iff kube-up.sh and the binder-base preload succeed and nothing raised; the results of the proxy and registry starts and of the registry preload do not matter |
| `Kubernetes.StartEscapes` | binder/cluster.py:293-316 | only a failed command is caught: a failed kube-up.sh gives False, and any other exception of kube-up.sh or of the registry preload escapes `start` |
| `Kubernetes.KubernetesManager.LaunchServers` | binder/cluster.py:302-309 | the proxy start, the registry start and the registry preload run in order until the first raises, which is reported; the info files are written as the two starts write them |
| `Kubernetes.KubernetesManager.Start` | binder/cluster.py:293-322 | `NUM_MINIONS` and `KUBERNETES_PROVIDER` are set in the environment; the result is `StartOutcome` of the steps, so kube-up.sh's exception is caught only when it is a failed command; `.proxy_info` is written only when the cluster came up and the proxy address was found, `.registry_info` only when in addition the proxy start raised nothing and the registry address was found |
| `Kubernetes.ClusterManager.GetInstance` | binder/cluster.py:22-26 | the manager is created on first use and the same one is returned afterwards |
| `Kubernetes.GetInstanceTwice` | binder/cluster.py:22-26 | two calls return the same object |
| `Scrape.SearchFindsAnyMatch` | binder/cluster.py:83-84 | `re.search` finds something iff the pattern matches at some position |
| `Scrape.ServiceUrl` | binder/cluster.py:79-90 | a failed `kubectl.sh describe service` gives None; an address found is stripped of surrounding whitespace |
| `Scrape.PodIp` | binder/cluster.py:101-112 | a failed `kubectl.sh describe pod` gives None; an address found is stripped of surrounding whitespace |
| `Scrape.NewlineSearchIsFirstOccurrence` | binder/cluster.py:83-84 | with a newline-terminated pattern, only the first occurrence of the key can match; its line must end in a newline |
| `Scrape.FieldValueSpec` | binder/cluster.py:79-90 | a field is found iff the key occurs and its first occurrence's line is newline-terminated; the value is that line's rest, stripped |
| `Scrape.PodIpMatchesInsideLongerLabel` | binder/cluster.py:101-112 | "IP:" inside "PodIP:" is the leftmost match and gives the pod IP |
| `Scrape.SearchLineValue` | binder/cluster.py:83-88 | when the key first occurs right before a newline-free text and a newline, the group is exactly that text |
| `Scrape.GreedyGroup` | binder/cluster.py:206-210 | right after the key, the greedy group runs to the last closing character of the line |
| `Scrape.DefaultZoneIsGreedy` | binder/cluster.py:206-210 | the zone is the text after `ZONE=${KUBE_GCE_ZONE:-` up to the last "}" on that line |
| `InfoFiles.ReadProxyInfo` | binder/cluster.py:152-155 | a missing file is IOError; a file without exactly two lines is ValueError; otherwise the result is an `http://...api/routes` URL and a stripped token |
| `InfoFiles.ProxyInfoRoundTrip` | binder/cluster.py:152-160 | write then read gives `("http://" + strip(url) + "/api/routes", strip(token))` for newline-free values |
| `InfoFiles.ProxyInfoReadableIff` | binder/cluster.py:152-160 | what was written reads back iff neither value holds a newline |
| `InfoFiles.ReadRegistryUrl` | binder/cluster.py:162-165 | a missing file is IOError; an empty file is IndexError; otherwise the result is the file's first line: the prefix up to and including the first newline, or the whole file when it has none |
| `InfoFiles.RegistryUrlRoundTrip` | binder/cluster.py:162-169 | write then read returns the URL with its trailing newline still attached |
| `Preload.NodeNames` | binder/cluster.py:220-225 | each name is non-empty and starts with a non-space; there is at most one name per line |
| `Preload.NodeNamesAppend` | binder/cluster.py:218-236 | the names of two runs of lines are the names of the first run followed by those of the second |
| `Preload.NodeNamesOfLine` | binder/cluster.py:220-225 | one line names the node of its first whitespace-separated token, and none when it has no token |
| `Preload.BlankLineSkipped` | binder/cluster.py:222-224 | an empty or all-whitespace line names no node, wherever it stands |
| `Preload.HeaderSkipped` | binder/cluster.py:216-218 | the header line of `get nodes` never names a node |
| `Preload.PullCommands` | binder/cluster.py:226-229 | one `gcloud compute ssh <node> --zone <zone> --command "sudo docker pull <registry>/<image>"` per node, in order |
| `Preload.PreloadImage` | binder/cluster.py:197-246 | pulls happen only with result True; an unset provider is KeyError; any other error comes from reading the config or listing the nodes |
| `Preload.PreloadOnGce` | binder/cluster.py:213-238 | on gce with a zone, the result is True whatever the nodes do, and every listed node is told to pull |
| `Preload.EnvironmentZoneWins` | binder/cluster.py:203-210 | a truthy `KUBE_GCE_ZONE` is the zone, and the config file does not matter |
| `Preload.Zone` | binder/cluster.py:203-212 | a non-empty `KUBE_GCE_ZONE` is the zone; otherwise the zone comes from the configuration file's default or the environment value, and reading the file is the only error |
| `Preload.PreloadFailsOnGce` | binder/cluster.py:199-216 | on gce, a failed read of the configuration file (when `KUBE_GCE_ZONE` is unset or empty) or a failed `kubectl.sh get nodes` (once a zone is known) raises out of `preload_image`, and these are its only errors |
| `Preload.NoZoneNoPreload` | binder/cluster.py:213-214 | without a zone, gce returns False and pulls nothing |
| `Preload.OtherProviders` | binder/cluster.py:240-246 | aws returns None, any other provider returns False, and neither pulls |

## Left out

- Subprocesses (git, docker build, squash-and-push, `kubectl.sh`, `gcloud
  compute ssh`, `kube-up.sh`, `kube-down.sh`) are inputs that state how each
  call ended. Their behaviour is not modelled. The `kubectl.sh` calls below
  only succeed or fail with a failed command.
- Kubernetes.Create, Scrape.ServiceUrl, Scrape.PodIp, Kubernetes.DeployAppSpec,
  Kubernetes.RouteFrom, Kubernetes.FirstUrl, Kubernetes.Lookups and the start
  loops (`KubernetesManager.StartProxyServer`, `StartRegistryServer`): for
  `kubectl.sh create` and `kubectl.sh describe`, only CalledProcessError is
  modelled, as a False create or a None lookup. `_create`,
  `__get_service_url` and `_get_pod_ip` catch nothing else. Any other
  exception, such as an OSError when `kubectl.sh` is not on the PATH, escapes
  `deploy_app`, `_register_proxy_route`, the start loops and `start` in the
  source, and the model does not capture it.
- HTTP via `requests` is an input. The repository 404 probe becomes a falsy
  fetch outcome, and the proxy POST becomes a status code or a connection
  failure.
- `Pool(5).map` in `preload_image` is modelled as the ordered list of pull
  commands. The True/False result of each node is discarded as in the source,
  and concurrency is not modelled.
- Preload.PreloadImage and Preload.PreloadOnGce: a pull's CalledProcessError
  is caught per node, but any other exception of a pull (an OSError when
  `gcloud` is missing, say) is re-raised by `pool.map` out of
  `preload_image`. The model treats every pull as caught, so "True whatever
  the nodes do" holds only for pulls that fail with CalledProcessError.
- Application.Effect: the BuildFailedException of a failed app image build
  carries "could not build app <name>" without the ": <error>" suffix that
  `_build_with_dockerfile` and `_build_without_dockerfile` append.
- `time.sleep` pacing is not modelled. The ids and tokens from
  `hash(time.time())` (`_get_deployment_id`, `_generate_auth_token`) are
  parameters.
- The following are abstract step outcomes: `_fill_templates`, `make_dir`,
  the `copytree`/`rmtree`/`move` calls, template filling
  (`fill_template`, `fill_template_string`, `namespace_params`), and the
  `AppIndex` and `Service` internals. `namespace_params` is assumed to
  prefix each key with `app.`, as the `app_params["app.id"]` lookup shows.
- In `deploy`, recreating the deploy directory and writing `notebook.json`
  and `namespace.json` are not modelled. The cluster side is given the
  directory listing instead.
- `_launch_proxy_server` and `_launch_registry_server` are one abstract launch
  outcome each. The three docker commands of `_preload_registry_server` are
  one outcome too, the exception they raised, if any.
- These members are not modelled: `preload_all_apps`, `create`, `destroy`,
  `stop`, `destroy_app`, `list_apps` and `kubernetes_home`. They are no-ops,
  or wrappers around a subprocess with no logic to prove.
- Printed messages and warnings are not modelled, including the
  non-`binder-base` FROM-target warning. It prints and never changes the
  output.
- `Text.Lower` changes only ASCII capitals, as Python 2 `str.lower()` does
  on byte strings. Non-ASCII encodings are not modelled.
- `Application.GetApp` returns the metadata records, not the `App` objects
  built from them. A metadata record is never empty, so it is always truthy.

## Findings

`Kubernetes.DeployAppSpec`, `Kubernetes.KubernetesManager.DeployApp` and
`Application.App.Deploy` follow the corrected `_create` below. As written, a
failed create raises NameError, which escapes `deploy_app` and `App.deploy`.

| source | as written | input that shows it | evidently intended | confidence | as-written member | corrected member |
|---|---|---|---|---|---|---|
| binder/cluster.py:74-76 | the `except` handler of `_create` formats the undefined name `path`, so a failing `kubectl.sh create` raises NameError and `_create` never returns False | any `_create` whose command exits non-zero | log the failed file and return False, so that `deploy_app`'s `success and ...` short-circuit applies | high (not executed) | `Kubernetes.CreateAsWrittenNeverFalse` | `Kubernetes.Create` |
