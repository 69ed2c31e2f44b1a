/** `KubernetesManager.preload_image` (binder/cluster.py): pulls an image from
    the private registry onto every node of the cluster ahead of time. Only the
    `gce` provider is supported: the zone comes from the environment or from the
    provider's default configuration, and every node listed by
    `kubectl.sh get nodes` is told over `gcloud compute ssh` to pull the image.
    The pulls run in a process pool and their results are ignored; the model
    lists the commands, in node order, instead of running them. */
module Preload {
  import opened Common
  import opened Text
  import opened Scrape

  const PROVIDER_VAR := "KUBERNETES_PROVIDER"
  const ZONE_VAR := "KUBE_GCE_ZONE"

  /** The nodes named by the lines of `kubectl.sh get nodes` after its header:
      the first whitespace-separated token of each line, blank lines skipped. */
  function NodeNames(lines: seq<string>): (names: seq<string>)
    ensures |names| <= |lines|
    ensures forall k :: 0 <= k < |names| ==> names[k] != [] && !IsSpace(names[k][0])
  {
    if lines == [] then []
    else
      var rest := NodeNames(lines[1..]);
      match FirstToken(lines[0])
      case None => rest
      case Some(t) => [t] + rest
  }

  /** The names of the nodes listed in two runs of lines one after the other. */
  lemma {:induction false} NodeNamesAppend(a: seq<string>, b: seq<string>)
    ensures NodeNames(a + b) == NodeNames(a) + NodeNames(b)
  {
    if a == [] {
      assert a + b == b;
    } else {
      assert (a + b)[0] == a[0];
      assert (a + b)[1..] == a[1..] + b;
      NodeNamesAppend(a[1..], b);
    }
  }

  /** One line names the node of its first whitespace-separated token
      (`node.split()[0]`), and none when `node.split()` is empty. With
      `NodeNamesAppend` this fixes the names of any run of lines. */
  lemma NodeNamesOfLine(line: string)
    ensures NodeNames([line]) == if FirstToken(line).None? then [] else [FirstToken(line).value]
  {
    assert [line][1..] == [];
  }

  /** A blank or all-whitespace line names no node, wherever it stands. */
  lemma BlankLineSkipped(a: seq<string>, line: string, b: seq<string>)
    requires forall i :: 0 <= i < |line| ==> IsSpace(line[i])
    ensures NodeNames(a + [line] + b) == NodeNames(a) + NodeNames(b)
  {
    NodeNamesAppend(a + [line], b);
    NodeNamesAppend(a, [line]);
    NodeNamesOfLine(line);
    assert NodeNames(a) + [] == NodeNames(a);
  }

  /** The command `preload(node)` runs for a node. */
  function PullCommand(node: string, zone: string, registry: string, image: string): seq<string> {
    ["gcloud", "compute", "ssh", node, "--zone", zone, "--command", "sudo docker pull " + registry + "/" + image]
  }

  function PullCommands(names: seq<string>, zone: string, registry: string, image: string): (cmds: seq<seq<string>>)
    ensures |cmds| == |names|
    ensures forall k :: 0 <= k < |names| ==> cmds[k] == PullCommand(names[k], zone, registry, image)
  {
    seq(|names|, k requires 0 <= k < |names| => PullCommand(names[k], zone, registry, image))
  }

  /** What `preload_image` returns, and the pull commands it issued. */
  datatype PreloadRun = PreloadRun(result: Result<Option<bool>>, pulls: seq<seq<string>>)

  /** The zone `preload_image` settles on: a truthy `KUBE_GCE_ZONE`, otherwise the
      default in the provider's configuration file when it has one, otherwise
      the (falsy) environment value. Reading the file may fail. */
  function Zone(environ: map<string, string>, config: Result<string>): (z: Result<Option<string>>)
    ensures ZONE_VAR in environ && environ[ZONE_VAR] != "" ==> z == Ok(Some(environ[ZONE_VAR]))
    ensures z.Err? ==> config.Err? && z == Err(config.exc)
    ensures z.Ok? && z.value.Some? ==>
      (ZONE_VAR in environ && z.value.value == environ[ZONE_VAR]) || (config.Ok? && z.value == DefaultZone(config.value))
  {
    var fromEnv := if ZONE_VAR in environ then Some(environ[ZONE_VAR]) else None;
    if Truthy(fromEnv) then Ok(fromEnv)
    else match config
      case Err(e) => Err(e)
      case Ok(text) =>
        var found := DefaultZone(text);
        Ok(if found.Some? then found else fromEnv)
  }

  /** `preload_image(image)`: `config` is the text of `cluster/gce/config-default.sh`
      (or why it could not be read), `nodesOutput` what `kubectl.sh get nodes` printed
      (or the error it exited with). */
  function PreloadImage(image: string, registry: string, environ: map<string, string>,
                        config: Result<string>, nodesOutput: Result<string>): (run: PreloadRun)
    ensures run.pulls != [] ==> run.result == Ok(Some(true))
    ensures PROVIDER_VAR !in environ ==> run.result == Err(KeyError(PROVIDER_VAR))
    ensures run.result.Err? && PROVIDER_VAR in environ ==>
      (config.Err? && run.result == Err(config.exc)) || (nodesOutput.Err? && run.result == Err(nodesOutput.exc))
  {
    if PROVIDER_VAR !in environ then PreloadRun(Err(KeyError(PROVIDER_VAR)), [])
    else
      var provider := environ[PROVIDER_VAR];
      if provider == "gce" then
        match Zone(environ, config)
        case Err(e) => PreloadRun(Err(e), [])
        case Ok(zone) =>
          if !Truthy(zone) then PreloadRun(Ok(Some(false)), [])
          else match nodesOutput
            case Err(e) => PreloadRun(Err(e), [])
            case Ok(out) =>
              var nodes := SplitLines(out)[1..];
              PreloadRun(Ok(Some(true)), PullCommands(NodeNames(nodes), zone.value, registry, image))
      else if provider == "aws" then PreloadRun(Ok(None), [])
      else PreloadRun(Ok(Some(false)), [])
  }

  /** On gce, once a zone is known and the nodes are listed, the result is True
      whatever happens on the nodes, and every listed node, in order, is told to
      pull `<registry>/<image>` in that zone. */
  lemma PreloadOnGce(image: string, registry: string, environ: map<string, string>,
                     config: Result<string>, out: string)
    requires PROVIDER_VAR in environ && environ[PROVIDER_VAR] == "gce"
    requires Zone(environ, config).Ok? && Truthy(Zone(environ, config).value)
    ensures var run := PreloadImage(image, registry, environ, config, Ok(out));
      && run.result == Ok(Some(true))
      && |run.pulls| == |NodeNames(SplitLines(out)[1..])|
      && forall k :: 0 <= k < |run.pulls| ==>
           run.pulls[k] == PullCommand(NodeNames(SplitLines(out)[1..])[k], Zone(environ, config).value.value, registry, image)
  {
  }

  /** On gce the two reads that `preload_image` does not guard raise out of
      it: the configuration file, read only when `KUBE_GCE_ZONE` is unset or
      empty, and `kubectl.sh get nodes`, run only once a zone is known. */
  lemma PreloadFailsOnGce(image: string, registry: string, environ: map<string, string>,
                          config: Result<string>, nodesOutput: Result<string>)
    requires PROVIDER_VAR in environ && environ[PROVIDER_VAR] == "gce"
    ensures (ZONE_VAR !in environ || environ[ZONE_VAR] == "") && config.Err? ==>
      PreloadImage(image, registry, environ, config, nodesOutput) == PreloadRun(Err(config.exc), [])
    ensures Zone(environ, config).Ok? && Truthy(Zone(environ, config).value) && nodesOutput.Err? ==>
      PreloadImage(image, registry, environ, config, nodesOutput) == PreloadRun(Err(nodesOutput.exc), [])
    ensures PreloadImage(image, registry, environ, config, nodesOutput).result.Err? <==>
      ((ZONE_VAR !in environ || environ[ZONE_VAR] == "") && config.Err?) ||
      (Zone(environ, config).Ok? && Truthy(Zone(environ, config).value) && nodesOutput.Err?)
  {
  }

  /** A truthy `KUBE_GCE_ZONE` wins: the configuration file is not read, and
      the environment's zone is the one every pull uses. */
  lemma EnvironmentZoneWins(image: string, registry: string, environ: map<string, string>,
                            config: Result<string>, config': Result<string>, nodesOutput: Result<string>)
    requires ZONE_VAR in environ && environ[ZONE_VAR] != ""
    ensures PreloadImage(image, registry, environ, config, nodesOutput)
         == PreloadImage(image, registry, environ, config', nodesOutput)
    ensures Zone(environ, config) == Ok(Some(environ[ZONE_VAR]))
  {
  }

  /** Without a zone, gce gives up with False before listing any node. */
  lemma NoZoneNoPreload(image: string, registry: string, environ: map<string, string>,
                        config: Result<string>, nodesOutput: Result<string>)
    requires PROVIDER_VAR in environ && environ[PROVIDER_VAR] == "gce"
    requires Zone(environ, config).Ok? && !Truthy(Zone(environ, config).value)
    ensures PreloadImage(image, registry, environ, config, nodesOutput) == PreloadRun(Ok(Some(false)), [])
  {
  }

  /** Only gce is supported: aws does nothing and returns None, any other
      provider returns False; neither pulls anything. */
  lemma OtherProviders(image: string, registry: string, environ: map<string, string>,
                       config: Result<string>, nodesOutput: Result<string>)
    requires PROVIDER_VAR in environ && environ[PROVIDER_VAR] != "gce"
    ensures PreloadImage(image, registry, environ, config, nodesOutput)
         == PreloadRun(if environ[PROVIDER_VAR] == "aws" then Ok(None) else Ok(Some(false)), [])
  {
  }

  /** The header line of `kubectl.sh get nodes` never names a node: the
      nodes pulled onto are those of the lines after it. */
  lemma {:induction false} HeaderSkipped(header: string, body: string)
    requires '\n' !in header
    ensures NodeNames(SplitLines(header + "\n" + body)[1..]) == NodeNames(SplitLines(body))
  {
    IndexOfAfter(header, '\n', body);
    var s := header + "\n" + body;
    assert s[|header| + 1..] == body;
    assert SplitLines(s) == [s[..|header|]] + SplitLines(body);
    assert SplitLines(s)[1..] == SplitLines(body);
  }
}
