/** The Dockerfiles of an app image (binder/app.py). An app whose dependencies
    name "dockerfile" brings its own recipe: `_build_with_dockerfile` adapts it,
    replacing every base-image directive by the canonical base. Any other app gets
    a recipe synthesized by `_build_without_dockerfile` from its dependency tags and
    the client code of its services. Both recipes end with the lines of a shared
    suffix Dockerfile. Each file is written piece by piece with `write`; the model
    builds the written text the same way. */
module Recipe {
  import opened Common
  import opened Text

  /** `filter_from`'s test: the line is a base-image directive. */
  predicate IsFromLine(line: string) {
    StartsWith(line, "FROM ")
  }

  /** `filter(filter_from, lines)`: the lines that are not base-image directives, in order. */
  function KeptLines(lines: seq<string>): (kept: seq<string>)
    ensures |kept| <= |lines|
    ensures forall k :: 0 <= k < |kept| ==> !IsFromLine(kept[k])
    ensures (forall k :: 0 <= k < |lines| ==> !IsFromLine(lines[k])) ==> kept == lines
  {
    if lines == [] then []
    else (if IsFromLine(lines[0]) then [] else [lines[0]]) + KeptLines(lines[1..])
  }

  /** Filtering a concatenation filters each part: the kept lines keep their order. */
  lemma {:induction false} KeptLinesAppend(a: seq<string>, b: seq<string>)
    ensures KeptLines(a + b) == KeptLines(a) + KeptLines(b)
  {
    if a == [] {
      assert a + b == b;
    } else {
      assert (a + b)[0] == a[0];
      assert (a + b)[1..] == a[1..] + b;
      KeptLinesAppend(a[1..], b);
    }
  }

  /** The line that makes the image start from `base`. */
  function FromDirective(base: string): string {
    "FROM " + base
  }

  /** `"ADD <notebooks> $HOME/notebooks\n"`, with `default` when the app names no notebooks path. */
  function AddNotebooks(notebooks: Option<string>, default: string): string {
    "ADD " + (if notebooks.Some? then notebooks.value else default) + " $HOME/notebooks\n"
  }

  /** What follows the repository's lines in the adapted recipe. */
  function AdaptedTail(notebooks: Option<string>): string {
    "\n" + "USER main\n" + "\n" + AddNotebooks(notebooks, ".") + "\n"
  }

  /** The Dockerfile `_build_with_dockerfile` writes: the base directive, then
      the repository's recipe lines without their own base directives, then the
      fixed tail and the suffix Dockerfile's lines. */
  function AdaptedRecipe(base: string, repoRecipe: string, notebooks: Option<string>, suffix: string): string {
    Concat([FromDirective(base)] + KeptLines(ReadLines(repoRecipe)))
      + AdaptedTail(notebooks) + Concat(ReadLines(suffix)) + "\n"
  }

  /** `for line in lines: f.write(line)` */
  method WriteLines(text0: string, lines: seq<string>) returns (text: string)
    ensures text == text0 + Concat(lines)
  {
    text := text0;
    for i := 0 to |lines|
      invariant text == text0 + Concat(lines[..i])
    {
      ConcatPrefixStep(lines, i);
      text := text + lines[i];
    }
    assert lines[..|lines|] == lines;
  }

  /** Writing the adapted Dockerfile line by line (binder/app.py:127-150). */
  method WriteAdaptedRecipe(base: string, repoRecipe: string, notebooks: Option<string>, suffix: string)
    returns (text: string)
    ensures text == AdaptedRecipe(base, repoRecipe, notebooks, suffix)
  {
    var lines := ReadLines(repoRecipe);
    var finalLines := [FromDirective(base)] + KeptLines(lines);
    text := WriteLines("", finalLines);
    assert text == Concat(finalLines);
    var head := text;
    var add := AddNotebooks(notebooks, ".");
    text := text + "\n";
    text := text + "USER main\n";
    text := text + "\n";
    text := text + add;
    text := text + "\n";
    assert text == head + AdaptedTail(notebooks) by {
      AppendFour(head, "\n", "USER main\n", "\n", add);
      AppendAssoc(head, "\n" + "USER main\n" + "\n" + add, "\n");
    }
    text := WriteLines(text, ReadLines(suffix));
    text := text + "\n";
    assert text == AdaptedRecipe(base, repoRecipe, notebooks, suffix) by {
      AppendAssoc(head, AdaptedTail(notebooks), Concat(ReadLines(suffix)));
    }
  }

  /** The adapted recipe in one piece: the suffix Dockerfile is copied verbatim. */
  lemma AdaptedRecipeText(base: string, repoRecipe: string, notebooks: Option<string>, suffix: string)
    ensures AdaptedRecipe(base, repoRecipe, notebooks, suffix)
      == FromDirective(base) + Concat(KeptLines(ReadLines(repoRecipe))) + AdaptedTail(notebooks) + suffix + "\n"
  {
    var kept := KeptLines(ReadLines(repoRecipe));
    ConcatCons(FromDirective(base), kept);
    ReadLinesConcat(suffix);
  }

  /** The lines of a recipe with a whole base-image line inserted after a complete line. */
  lemma LinesAssoc(a: seq<string>, b: seq<string>, c: seq<string>)
    ensures a + (b + c) == a + b + c
  {
  }

  lemma ReadLinesAroundLine(before: string, line: string, after: string)
    requires before == [] || before[|before| - 1] == '\n'
    requires '\n' !in line
    ensures ReadLines(before + (line + "\n") + after) == ReadLines(before) + [line + "\n"] + ReadLines(after)
  {
    var terminated := line + "\n";
    var rest := terminated + after;
    AppendAssoc(before, terminated, after);
    ReadLinesAppend(before, rest);
    ReadLinesPrepend(line, after);
    LinesAssoc(ReadLines(before), [terminated], ReadLines(after));
  }

  /** Filtering removes an inserted whole base-image line. */
  lemma KeptLinesSkipFromLine(a: seq<string>, line: string, b: seq<string>)
    requires IsFromLine(line)
    ensures KeptLines(a + [line] + b) == KeptLines(a + b)
  {
    KeptLinesAppend(a + [line], b);
    KeptLinesAppend(a, [line]);
    assert KeptLines([line]) == [];
    KeptLinesAppend(a, b);
  }

  /** A base-image directive anywhere in the repository's recipe (a whole
      line, after a complete line) leaves no trace in the adapted recipe. */
  lemma FromLineDropped(base: string, before: string, target: string, after: string,
                        notebooks: Option<string>, suffix: string)
    requires before == [] || before[|before| - 1] == '\n'
    requires '\n' !in target
    ensures AdaptedRecipe(base, before + ("FROM " + target + "\n") + after, notebooks, suffix)
         == AdaptedRecipe(base, before + after, notebooks, suffix)
  {
    var line := "FROM " + target;
    assert '\n' !in line by {
      forall j | 0 <= j < |line| ensures line[j] != '\n' {
        if j >= 5 { assert line[j] == target[j - 5]; }
      }
    }
    assert "FROM " + target + "\n" == line + "\n";
    ReadLinesAroundLine(before, line, after);
    ReadLinesAppend(before, after);
    assert (line + "\n")[..5] == "FROM ";
    KeptLinesSkipFromLine(ReadLines(before), line + "\n", ReadLines(after));
  }

  /** The base directive is written without a newline, so it runs into the
      first kept line: a recipe with no base directive of its own follows the
      directive on the same line. */
  lemma FromDirectiveRunsIntoFirstLine(base: string, repoRecipe: string, notebooks: Option<string>, suffix: string)
    requires forall k :: 0 <= k < |ReadLines(repoRecipe)| ==> !IsFromLine(ReadLines(repoRecipe)[k])
    ensures AdaptedRecipe(base, repoRecipe, notebooks, suffix)
      == "FROM " + base + repoRecipe + AdaptedTail(notebooks) + suffix + "\n"
  {
    AdaptedRecipeText(base, repoRecipe, notebooks, suffix);
    ReadLinesConcat(repoRecipe);
  }

  const REQUIREMENTS := "requirements.txt"

  /** What the tag "requirements.txt" adds: the file and a pip install for each Python. */
  const ADD_REQUIREMENTS := "ADD repo/requirements.txt requirements.txt\n"
  const PIP_INSTALL := "RUN pip install -r requirements.txt\n"
  const PIP3_INSTALL := "RUN /home/main/anaconda/envs/python3/bin/pip install -r requirements.txt\n"
  const REQUIREMENTS_BLOCK := ADD_REQUIREMENTS + PIP_INSTALL + PIP3_INSTALL + "\n"

  /** The block an item of `items` adds when the items are written one after
      another: `block` for each occurrence of `tag`, nothing for any other item. */
  function TagBlocks(items: seq<string>, tag: string, block: string): string {
    if items == [] then ""
    else TagBlocks(items[..|items| - 1], tag, block) + (if items[|items| - 1] == tag then block else "")
  }

  /** The blocks of the first `i + 1` items are those of the first `i`, then the block of item `i`. */
  lemma TagBlocksStep(items: seq<string>, tag: string, block: string, i: nat)
    requires i < |items|
    ensures TagBlocks(items[..i + 1], tag, block) == TagBlocks(items[..i], tag, block) + (if items[i] == tag then block else "")
  {
    assert items[..i + 1][..i] == items[..i];
  }

  /** Writing `block` for each occurrence of `tag` writes it once per occurrence. */
  lemma {:induction false} TagBlocksRepeat(items: seq<string>, tag: string, block: string)
    ensures TagBlocks(items, tag, block) == Repeat(block, Count(items, tag))
  {
    if items != [] {
      var n := |items| - 1;
      var init := items[..n];
      var last := items[n];
      var c := Count(init, tag);
      assert Count(items, tag) == c + Count([last], tag) by {
        assert items == init + [last];
        CountAppend(init, [last], tag);
      }
      TagBlocksRepeat(init, tag, block);
      if last == tag {
        assert Count([last], tag) == 1;
      } else {
        assert Count([last], tag) == 0;
        assert Repeat(block, c) + "" == Repeat(block, c);
      }
    }
  }

  /** The blocks the dependency tags add, in the order of the tags. */
  function DependencyBlocks(dependencies: seq<string>): string {
    TagBlocks(dependencies, REQUIREMENTS, REQUIREMENTS_BLOCK)
  }

  /** Every occurrence of "requirements.txt" adds the same block, and no other tag adds anything. */
  lemma DependencyBlocksRepeat(dependencies: seq<string>)
    ensures DependencyBlocks(dependencies) == Repeat(REQUIREMENTS_BLOCK, Count(dependencies, REQUIREMENTS))
  {
    TagBlocksRepeat(dependencies, REQUIREMENTS, REQUIREMENTS_BLOCK);
  }

  /** `service.client if service.client else ""` */
  function ClientText(client: Option<string>): string {
    if client.Some? then client.value else ""
  }

  function ServiceBlock(service: Service): string {
    "# " + service.name + " client\n" + ClientText(service.client) + "\n"
  }

  /** The client blocks of the services, in the order of the services. */
  function ServiceBlocks(services: seq<Service>): string {
    if services == [] then ""
    else ServiceBlocks(services[..|services| - 1]) + ServiceBlock(services[|services| - 1])
  }

  /** The blocks of the first `i + 1` services are those of the first `i`, then the block of service `i`. */
  lemma ServiceBlocksStep(services: seq<Service>, i: nat)
    requires i < |services|
    ensures ServiceBlocks(services[..i + 1]) == ServiceBlocks(services[..i]) + ServiceBlock(services[i])
  {
    assert services[..i + 1][..i] == services[..i];
  }

  /** The client blocks of two service lists one after the other are the
      blocks of the first list, then those of the second. */
  lemma {:induction false} ServiceBlocksAppend(a: seq<Service>, b: seq<Service>)
    ensures ServiceBlocks(a + b) == ServiceBlocks(a) + ServiceBlocks(b)
    decreases |b|
  {
    if b == [] {
      assert a + b == a;
    } else {
      var n := |b| - 1;
      var last := ServiceBlock(b[n]);
      assert ServiceBlocks(a + b) == ServiceBlocks(a + b[..n]) + last by {
        assert (a + b)[..|a + b| - 1] == a + b[..n];
        assert (a + b)[|a + b| - 1] == b[n];
      }
      ServiceBlocksAppend(a, b[..n]);
      AppendAssoc(ServiceBlocks(a), ServiceBlocks(b[..n]), last);
    }
  }

  /** The Dockerfile `_build_without_dockerfile` writes. */
  function SynthesizedRecipe(base: string, dependencies: seq<string>, services: seq<Service>,
                             notebooks: Option<string>, suffix: string): string {
    FromDirective(base) + "\n" + "\n" + DependencyBlocks(dependencies) + ServiceBlocks(services)
      + AddNotebooks(notebooks, "repo") + "\n" + Concat(ReadLines(suffix)) + "\n"
  }

  /** The loop over the dependency tags (binder/app.py:171-177). */
  method WriteDependencyBlocks(text0: string, dependencies: seq<string>) returns (text: string)
    ensures text == text0 + DependencyBlocks(dependencies)
  {
    text := text0;
    for i := 0 to |dependencies|
      invariant text == text0 + DependencyBlocks(dependencies[..i])
    {
      TagBlocksStep(dependencies, REQUIREMENTS, REQUIREMENTS_BLOCK, i);
      var before := text;
      ghost var block := if dependencies[i] == REQUIREMENTS then REQUIREMENTS_BLOCK else "";
      if dependencies[i] == REQUIREMENTS {
        text := text + ADD_REQUIREMENTS;
        text := text + PIP_INSTALL;
        text := text + PIP3_INSTALL;
        text := text + "\n";
        AppendFour(before, ADD_REQUIREMENTS, PIP_INSTALL, PIP3_INSTALL, "\n");
      }
      assert text == before + block;
      AppendAssoc(text0, DependencyBlocks(dependencies[..i]), block);
    }
    assert dependencies[..|dependencies|] == dependencies;
  }

  /** The loop over the services (binder/app.py:180-184). */
  method WriteServiceBlocks(text0: string, services: seq<Service>) returns (text: string)
    ensures text == text0 + ServiceBlocks(services)
  {
    text := text0;
    for i := 0 to |services|
      invariant text == text0 + ServiceBlocks(services[..i])
    {
      ServiceBlocksStep(services, i);
      var before := text;
      var client := ClientText(services[i].client);
      var header := "# " + services[i].name + " client\n";
      text := text + header;
      text := text + client;
      text := text + "\n";
      assert text == before + ServiceBlock(services[i]) by {
        AppendAssoc(before, header, client);
        AppendAssoc(before, header + client, "\n");
      }
      AppendAssoc(text0, ServiceBlocks(services[..i]), ServiceBlock(services[i]));
    }
    assert services[..|services|] == services;
  }

  /** Writing the synthesized Dockerfile block by block (binder/app.py:166-195). */
  method WriteSynthesizedRecipe(base: string, dependencies: seq<string>, services: seq<Service>,
                                notebooks: Option<string>, suffix: string)
    returns (text: string)
    ensures text == SynthesizedRecipe(base, dependencies, services, notebooks, suffix)
  {
    text := FromDirective(base) + "\n";
    text := text + "\n";
    text := WriteDependencyBlocks(text, dependencies);
    text := WriteServiceBlocks(text, services);
    text := text + AddNotebooks(notebooks, "repo");
    text := text + "\n";
    text := WriteLines(text, ReadLines(suffix));
    text := text + "\n";
  }

  /** The synthesized recipe in one piece: one requirements block per
      "requirements.txt" tag, the service blocks, and the suffix copied verbatim. */
  lemma SynthesizedRecipeText(base: string, dependencies: seq<string>, services: seq<Service>,
                              notebooks: Option<string>, suffix: string)
    ensures SynthesizedRecipe(base, dependencies, services, notebooks, suffix)
      == FromDirective(base) + "\n" + "\n" + Repeat(REQUIREMENTS_BLOCK, Count(dependencies, REQUIREMENTS))
         + ServiceBlocks(services) + AddNotebooks(notebooks, "repo") + "\n" + suffix + "\n"
  {
    DependencyBlocksRepeat(dependencies);
    ReadLinesConcat(suffix);
  }
}
