/** The text scrapers of the Kubernetes backend (binder/cluster.py). Each runs
    a Python `re.search` of the shape `<key>(?P<g>.*)<close>` over the text a
    command printed: `.` stops at a newline, `.*` is greedy, and the leftmost
    position where the whole pattern matches wins. A failed command or a text
    with no match gives `None`. */
module Scrape {
  import opened Common
  import opened Text

  predicate OccursAt(s: string, p: string, i: nat) {
    i + |p| <= |s| && forall t :: 0 <= t < |p| ==> s[i + t] == p[t]
  }

  /** The pattern `<p>(?P<g>.*)<close>` matches `s` at `i` with a group of `k` characters. */
  predicate GroupAt(s: string, p: string, close: char, i: nat, k: nat) {
    && OccursAt(s, p, i)
    && i + |p| + k < |s|
    && (forall j :: i + |p| <= j < i + |p| + k ==> s[j] != '\n')
    && s[i + |p| + k] == close
  }

  /** The index of the first newline at or after `from`, or `|s|`. */
  function LineEnd(s: string, from: nat): (e: nat)
    requires from <= |s|
    ensures from <= e <= |s| && (e < |s| ==> s[e] == '\n')
    ensures forall j :: from <= j < e ==> s[j] != '\n'
    decreases |s| - from
  {
    if from == |s| || s[from] == '\n' then from else LineEnd(s, from + 1)
  }

  /** The last index in `[lo, hi)` holding `close`. */
  function LastClose(s: string, close: char, lo: nat, hi: nat): (q: Option<nat>)
    requires hi <= |s|
    ensures q.Some? ==> lo <= q.value < hi && s[q.value] == close
                        && forall j :: q.value < j < hi ==> s[j] != close
    ensures q.None? ==> forall j :: lo <= j < hi ==> s[j] != close
    decreases hi
  {
    if hi <= lo then None
    else if s[hi - 1] == close then Some(hi - 1)
    else LastClose(s, close, lo, hi - 1)
  }

  /** The length of the greedy group when `p` occurs at `i`: the last `close`
      on the rest of that line (the newline itself included). */
  function GroupLength(s: string, p: string, close: char, i: nat): (k: Option<nat>)
    requires OccursAt(s, p, i)
    ensures k.Some? ==> GroupAt(s, p, close, i, k.value)
                        && forall k': nat :: GroupAt(s, p, close, i, k') ==> k' <= k.value
    ensures k.None? ==> forall k': nat :: !GroupAt(s, p, close, i, k')
  {
    var start := i + |p|;
    var e := LineEnd(s, start);
    var hi := if e < |s| then e + 1 else |s|;
    assert forall k': nat :: GroupAt(s, p, close, i, k') ==> start + k' < hi by {
      forall k' | GroupAt(s, p, close, i, k') ensures start + k' < hi {
        if e < |s| {
          assert s[e] == '\n';
        }
      }
    }
    match LastClose(s, close, start, hi)
    case None => None
    case Some(q) => Some(q - start)
  }

  /** `re.search` from position `from`: the leftmost match position and its greedy group length. */
  function SearchFrom(s: string, p: string, close: char, from: nat): (m: Option<(nat, nat)>)
    ensures m.Some? ==>
      && from <= m.value.0
      && GroupAt(s, p, close, m.value.0, m.value.1)
      && (forall k: nat :: GroupAt(s, p, close, m.value.0, k) ==> k <= m.value.1)
      && (forall j: nat, k: nat :: from <= j < m.value.0 ==> !GroupAt(s, p, close, j, k))
    ensures m.None? ==> forall j: nat, k: nat :: from <= j ==> !GroupAt(s, p, close, j, k)
    decreases |s| - from
  {
    if from >= |s| then None
    else if OccursAt(s, p, from) && GroupLength(s, p, close, from).Some? then
      Some((from, GroupLength(s, p, close, from).value))
    else SearchFrom(s, p, close, from + 1)
  }

  /** `m.group(...)` of `re.search(...)`: the text of the leftmost, greedy match. */
  function Search(s: string, p: string, close: char): Option<string> {
    var m := SearchFrom(s, p, close, 0);
    if m.None? then None
    else Some(s[m.value.0 + |p|..m.value.0 + |p| + m.value.1])
  }

  lemma SearchOfMatch(s: string, p: string, close: char, i: nat, k: nat)
    requires SearchFrom(s, p, close, 0) == Some((i, k))
    ensures i + |p| + k < |s| && Search(s, p, close) == Some(s[i + |p|..i + |p| + k])
  {
  }

  /** `re.search` finds something exactly when the pattern matches somewhere. */
  lemma SearchFindsAnyMatch(s: string, p: string, close: char)
    ensures Search(s, p, close).Some? <==> exists i: nat, k: nat :: GroupAt(s, p, close, i, k)
  {
    var m := SearchFrom(s, p, close, 0);
    if m.Some? {
      assert GroupAt(s, p, close, m.value.0, m.value.1);
    }
  }

  /** The first occurrence of `p` at or after `from`. */
  function Find(s: string, p: string, from: nat): (i: Option<nat>)
    ensures i.Some? ==> from <= i.value && OccursAt(s, p, i.value)
                        && forall j: nat :: from <= j < i.value ==> !OccursAt(s, p, j)
    ensures i.None? ==> forall j: nat :: from <= j ==> !OccursAt(s, p, j)
    decreases |s| - from
  {
    if from + |p| > |s| then None
    else if OccursAt(s, p, from) then Some(from)
    else Find(s, p, from + 1)
  }

  /** A group closed by a newline runs exactly to the end of its line. */
  lemma NewlineGroupEndsLine(s: string, p: string, i: nat, k: nat)
    requires GroupAt(s, p, '\n', i, k)
    ensures LineEnd(s, i + |p|) == i + |p| + k
  {
    var e := LineEnd(s, i + |p|);
    assert e <= i + |p| + k;
  }

  /** Scanning from `from` skips every position before the first occurrence
      `i` of the key and matches there, up to the end of that line. */
  lemma {:induction false} NewlineSearchFromFound(s: string, p: string, from: nat, i: nat)
    requires from <= i && Find(s, p, from) == Some(i) && LineEnd(s, i + |p|) < |s|
    ensures SearchFrom(s, p, '\n', from) == Some((i, LineEnd(s, i + |p|) - i - |p|))
    decreases i - from
  {
    if from < i {
      assert !OccursAt(s, p, from);
      NewlineSearchFromFound(s, p, from + 1, i);
    } else {
      var e := LineEnd(s, i + |p|);
      assert LastClose(s, '\n', i + |p|, e + 1) == Some(e);
    }
  }

  lemma NewlineSearchFound(s: string, p: string, i: nat)
    requires Find(s, p, 0) == Some(i) && LineEnd(s, i + |p|) < |s|
    ensures Search(s, p, '\n') == Some(s[i + |p|..LineEnd(s, i + |p|)])
  {
    var e := LineEnd(s, i + |p|);
    var k := e - i - |p|;
    assert SearchFrom(s, p, '\n', 0) == Some((i, k)) by {
      NewlineSearchFromFound(s, p, 0, i);
    }
    SearchOfMatch(s, p, '\n', i, k);
    assert i + |p| + k == e;
  }

  lemma NewlineSearchUnterminated(s: string, p: string, i: nat)
    requires Find(s, p, 0) == Some(i) && LineEnd(s, i + |p|) == |s|
    ensures Search(s, p, '\n').None?
  {
    forall j: nat, k: nat ensures !GroupAt(s, p, '\n', j, k) {
      if OccursAt(s, p, j) && j + |p| + k < |s| {
        assert i <= j;
        assert s[j + |p| + k] != '\n';
      }
    }
  }

  /** When the pattern ends in a newline, only the FIRST occurrence of the key
      can match: the group is the rest of its line, and there is no match at all
      when that occurrence is on the last, unterminated line. */
  lemma NewlineSearchIsFirstOccurrence(s: string, p: string)
    ensures Find(s, p, 0).None? ==> Search(s, p, '\n').None?
    ensures Find(s, p, 0).Some? && LineEnd(s, Find(s, p, 0).value + |p|) < |s| ==>
      Search(s, p, '\n') == Some(s[Find(s, p, 0).value + |p|..LineEnd(s, Find(s, p, 0).value + |p|)])
    ensures Find(s, p, 0).Some? && LineEnd(s, Find(s, p, 0).value + |p|) == |s| ==>
      Search(s, p, '\n').None?
  {
    var m := SearchFrom(s, p, '\n', 0);
    var f := Find(s, p, 0);
    if f.None? {
      
    } else {
      var i := f.value;
      if LineEnd(s, i + |p|) < |s| {
        NewlineSearchFound(s, p, i);
      } else {
        NewlineSearchUnterminated(s, p, i);
      }
    }
  }

  /** The value of a `<key> <value>` field of a `kubectl.sh describe` output:
      the text after the key up to the end of its line, stripped. `None` when
      the command failed (`describe` is `None`) or the pattern did not match. */
  function FieldValue(describe: Option<string>, key: string): Option<string> {
    match describe
    case None => None
    case Some(out) =>
      match Search(out, key, '\n')
      case None => None
      case Some(g) => Some(Strip(g))
  }

  const INGRESS_LABEL := "LoadBalancer Ingress:"
  const IP_LABEL := "IP:"

  /** `__get_service_url`: the external address of a service. */
  function ServiceUrl(describe: Option<string>): (url: Option<string>)
    ensures describe.None? ==> url.None?
    ensures url.Some? ==> url.value == [] || (!IsSpace(url.value[0]) && !IsSpace(url.value[|url.value| - 1]))
  {
    FieldValue(describe, INGRESS_LABEL)
  }

  /** `_get_pod_ip`: the address of the app's notebook-server pod. */
  function PodIp(describe: Option<string>): (ip: Option<string>)
    ensures describe.None? ==> ip.None?
    ensures ip.Some? ==> ip.value == [] || (!IsSpace(ip.value[0]) && !IsSpace(ip.value[|ip.value| - 1]))
  {
    FieldValue(describe, IP_LABEL)
  }

  /** A field is found exactly when its key occurs and the first occurrence
      is followed by a newline; its value is that line's remainder, stripped. */
  lemma FieldValueSpec(out: string, key: string)
    ensures FieldValue(Some(out), key) ==
      match Find(out, key, 0)
      case None => None
      case Some(i) =>
        if LineEnd(out, i + |key|) < |out|
        then Some(Strip(out[i + |key|..LineEnd(out, i + |key|)]))
        else None
  {
    NewlineSearchIsFirstOccurrence(out, key);
    var f := Find(out, key, 0);
    if f.Some? {
      var start := f.value + |key|;
      if LineEnd(out, start) < |out| {
        assert Search(out, key, '\n') == Some(out[start..LineEnd(out, start)]);
      } else {
        assert Search(out, key, '\n').None?;
      }
    }
  }

  /** When the key first occurs at `i` and is followed by `v` and a newline, the group is `v`. */
  lemma SearchLineValue(s: string, key: string, i: nat, v: string)
    requires Find(s, key, 0) == Some(i) && '\n' !in v
    requires i + |key| + |v| < |s| && s[i + |key|..i + |key| + |v|] == v && s[i + |key| + |v|] == '\n'
    ensures Search(s, key, '\n') == Some(v)
  {
    SearchFromLineValue(s, key, i, v);
    SearchOfMatch(s, key, '\n', i, |v|);
  }

  lemma SearchFromLineValue(s: string, key: string, i: nat, v: string)
    requires Find(s, key, 0) == Some(i) && '\n' !in v
    requires i + |key| + |v| < |s| && s[i + |key|..i + |key| + |v|] == v && s[i + |key| + |v|] == '\n'
    ensures SearchFrom(s, key, '\n', 0) == Some((i, |v|))
  {
    LineEndOfValue(s, i + |key|, v);
    NewlineSearchFromFound(s, key, 0, i);
  }

  /** The line starting at `start` with the text `v` ends right after `v`. */
  lemma LineEndOfValue(s: string, start: nat, v: string)
    requires '\n' !in v && start + |v| < |s| && s[start..start + |v|] == v && s[start + |v|] == '\n'
    ensures LineEnd(s, start) == start + |v|
  {
    forall j | start <= j < start + |v| ensures s[j] != '\n' {
      assert s[j] == s[start..start + |v|][j - start];
    }
    LineEndAt(s, start, start + |v|);
  }

  /** The first newline from `from` on is at `e` when the characters before it are not newlines. */
  lemma {:induction false} LineEndAt(s: string, from: nat, e: nat)
    requires from <= e < |s| && s[e] == '\n'
    requires forall j :: from <= j < e ==> s[j] != '\n'
    ensures LineEnd(s, from) == e
    decreases e - from
  {
    if from < e {
      LineEndAt(s, from + 1, e);
    }
  }

  /** The leftmost occurrence of "IP:" wins even inside a longer token such as "PodIP:". */
  lemma PodIpMatchesInsideLongerLabel(ip: string, rest: string)
    requires '\n' !in ip
    ensures PodIp(Some("PodIP:" + ip + "\n" + rest)) == Some(Strip(ip))
  {
    var s := "PodIP:" + ip + "\n" + rest;
    assert Find(s, IP_LABEL, 0) == Some(3) by {
      assert s[0] == 'P' && s[1] == 'o' && s[2] == 'd' && s[3] == 'I' && s[4] == 'P' && s[5] == ':';
      assert IP_LABEL[0] == 'I';
      assert !OccursAt(s, IP_LABEL, 0) && !OccursAt(s, IP_LABEL, 1) && !OccursAt(s, IP_LABEL, 2);
      assert OccursAt(s, IP_LABEL, 3);
    }
    assert s[6..6 + |ip|] == ip && s[6 + |ip|] == '\n' by {
      assert s == "PodIP:" + (ip + ("\n" + rest));
    }
    SearchLineValue(s, IP_LABEL, 3, ip);
  }

  const ZONE_ASSIGNMENT := "ZONE=${KUBE_GCE_ZONE:-"

  /** The default zone in `cluster/gce/config-default.sh`: what follows
      `ZONE=${KUBE_GCE_ZONE:-` up to the LAST "}" on that line (not stripped). */
  function DefaultZone(config: string): Option<string> {
    Search(config, ZONE_ASSIGNMENT, '}')
  }

  /** On a line `ZONE=${KUBE_GCE_ZONE:-<z>}<tail>` whose tail has no "}", the
      zone is all of `<z>`, including any "}" inside it (the match is greedy). */
  lemma DefaultZoneIsGreedy(z: string, tail: string, rest: string)
    requires '\n' !in z && '\n' !in tail && '}' !in tail
    ensures DefaultZone(ZONE_ASSIGNMENT + z + "}" + tail + "\n" + rest) == Some(z)
  {
    GreedyGroup(ZONE_ASSIGNMENT, z, '}', tail, rest);
  }

  /** Right after the key, the group runs to the last `close` of the line. */
  lemma GreedyGroup(key: string, z: string, close: char, tail: string, rest: string)
    requires close != '\n' && '\n' !in z && '\n' !in tail && close !in tail
    ensures Search(key + z + [close] + tail + "\n" + rest, key, close) == Some(z)
  {
    var s := key + z + [close] + tail + "\n" + rest;
    var n := |key|;
    assert OccursAt(s, key, 0) by { assert s[..n] == key; }
    assert forall j :: n <= j < n + |z| ==> s[j] == z[j - n];
    assert s[n + |z|] == close;
    assert GroupAt(s, key, close, 0, |z|);
    var m := SearchFrom(s, key, close, 0);
    var t := n + |z| + 1;
    assert forall j :: t <= j < t + |tail| ==> s[j] == tail[j - t];
    assert s[t + |tail|] == '\n';
    assert m.value.0 == 0;
    assert m.value.1 == |z|;
    assert s[n..n + |z|] == z;
  }
}
