/** The two files in which the Kubernetes backend remembers the cluster's
    services between runs (binder/cluster.py): `.proxy_info` holds the proxy's
    registration address and its auth token, one per line, and `.registry_info`
    holds the address of the private Docker registry. A file that does not exist
    is `None`; reading it raises `IOError`. */
module InfoFiles {
  import opened Common
  import opened Text

  /** What `_write_proxy_info(url, token)` leaves in `.proxy_info`. */
  function ProxyInfoText(url: string, token: string): string {
    url + "\n" + token + "\n"
  }

  const ROUTES_PATH := "/api/routes"

  /** `_read_proxy_info`: the file must hold exactly two lines, the proxy's host
      and the token; the host becomes the routes endpoint of the proxy's API. */
  function ReadProxyInfo(file: Option<string>): (r: Result<(string, string)>)
    ensures r == Err(IOError) <==> file.None?
    ensures r == Err(ValueError) <==> file.Some? && |ReadLines(file.value)| != 2
    ensures r.Ok? ==>
      && StartsWith(r.value.0, "http://") && EndsWith(r.value.0, ROUTES_PATH)
      && (r.value.1 == [] || (!IsSpace(r.value.1[0]) && !IsSpace(r.value.1[|r.value.1| - 1])))
  {
    match file
    case None => Err(IOError)
    case Some(text) =>
      var lines := ReadLines(text);
      if |lines| != 2 then Err(ValueError)
      else
        var url := "http://" + Strip(lines[0]) + ROUTES_PATH;
        assert url[..7] == "http://";
        assert url[|url| - |ROUTES_PATH|..] == ROUTES_PATH;
        Ok((url, Strip(lines[1])))
  }

  /** Writing the proxy info and reading it back gives the routes endpoint of
      the stripped host and the stripped token, for a newline-free host and token. */
  lemma ProxyInfoRoundTrip(url: string, token: string)
    requires '\n' !in url && '\n' !in token
    ensures ReadProxyInfo(Some(ProxyInfoText(url, token))) == Ok(("http://" + Strip(url) + ROUTES_PATH, Strip(token)))
  {
    var text := ProxyInfoText(url, token);
    assert text == url + "\n" + (token + "\n");
    ReadLinesPrepend(url, token + "\n");
    assert token + "\n" == token + "\n" + "";
    ReadLinesPrepend(token, "");
    assert ReadLines(text) == [url + "\n", token + "\n"];
    StripAppendSpace(url, '\n');
    StripAppendSpace(token, '\n');
    assert url + ['\n'] == url + "\n";
    assert token + ['\n'] == token + "\n";
  }

  /** What was written reads back exactly when neither value holds a newline:
      a newline inside the host or the token adds a line, and the two-way unpacking fails. */
  lemma ProxyInfoReadableIff(url: string, token: string)
    ensures ReadProxyInfo(Some(ProxyInfoText(url, token))).Ok? <==> '\n' !in url && '\n' !in token
  {
    var text := ProxyInfoText(url, token);
    assert text == url + "\n" + token + "\n";
    ReadLinesCount(text);
    CountAppend(url + "\n" + token, "\n", '\n');
    CountAppend(url + "\n", token, '\n');
    CountAppend(url, "\n", '\n');
    assert Count("\n", '\n') == 1;
  }

  /** What `_write_registry_url(url)` leaves in `.registry_info`. */
  function RegistryText(url: string): string {
    url + "\n"
  }

  /** `_read_registry_url`: the first line of the file, its newline kept.
      An empty file has no first line. The first line runs up to and including
      the first newline, or is the whole file when the file has none. */
  function ReadRegistryUrl(file: Option<string>): (r: Result<string>)
    ensures r == Err(IOError) <==> file.None?
    ensures r == Err(IndexError) <==> file == Some("")
    ensures r.Ok? ==> r.value != [] && StartsWith(file.value, r.value)
    ensures r.Ok? ==> '\n' !in r.value[..|r.value| - 1]
    ensures r.Ok? ==> r.value[|r.value| - 1] == '\n' || r.value == file.value
  {
    match file
    case None => Err(IOError)
    case Some(text) =>
      var lines := ReadLines(text);
      if lines == [] then Err(IndexError)
      else
        assert text != [];
        Ok(lines[0])
  }

  /** Writing a registry address and reading it back keeps the newline that
      was written after it (the line is not stripped); of an address with a
      newline inside, only the part up to that newline comes back. */
  lemma RegistryUrlRoundTrip(url: string, rest: string)
    requires '\n' !in url
    ensures ReadRegistryUrl(Some(RegistryText(url))) == Ok(url + "\n")
    ensures ReadRegistryUrl(Some(RegistryText(url + "\n" + rest))) == Ok(url + "\n")
  {
    assert RegistryText(url) == url + "\n" + "";
    ReadLinesPrepend(url, "");
    assert RegistryText(url + "\n" + rest) == url + "\n" + (rest + "\n");
    ReadLinesPrepend(url, rest + "\n");
  }
}
