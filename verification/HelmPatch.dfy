/** The Helm chart patcher: two passes over maps whose iteration order is free, writing to a response
    that is layered over the request. */
module HelmPatch {
  import opened Wrappers
  import opened Text

  const CHART := "chart/Chart.yaml"
  const MANAGER := "chart/templates/manager/manager.yaml"
  const DOWNLOADER := "chart/templates/extras/chalkmark-extract.yaml"
  const UPLOADER := "chart/templates/extras/results.yaml"
  const REPORT_SERVICE := "chart/templates/extras/report-http.yaml"
  const SERVICE_ACCOUNT := "chart/templates/rbac/controller-manager.yaml"

  const VALUES := ".Values"
  const LOCAL := "$values"

  /** The padding put before every shipped file, around its only mention of `.Values`. */
  const BEFORE_DEFINITION := "\n{{- $values := (tpl ("
  const AFTER_DEFINITION :=
    " | toYaml) $) | fromYaml }}\n" + "{{- $values := (tpl ($values" + " | toYaml) $) | fromYaml }}\n---\n"
  const PREFIX := BEFORE_DEFINITION + VALUES + AFTER_DEFINITION

  type Universe = map<string, string>

  /** A literal rewriting, or a regular expression of which only the two answers are known. */
  datatype Replacement =
    | Literal(from: string, to: string)
    | Pattern(matches: string -> bool, replaceAll: string -> string)

  datatype Padding = Padding(prefix: string, suffix: string)

  datatype Tables = Tables(replacements: map<string, seq<Replacement>>, paddings: map<string, Padding>)

  datatype PatchError = NoSuchFile(at: string) | NoMatch(replacement: Replacement) | BadTemplate(reason: string)

  /** What the tables in the source have in common: the files, and the last replacement of each. */
  ghost predicate AsShipped(tables: Tables) {
    && tables.replacements.Keys == {MANAGER, DOWNLOADER, UPLOADER, REPORT_SERVICE, SERVICE_ACCOUNT}
    && tables.paddings.Keys == tables.replacements.Keys
    && (forall p | p in tables.paddings :: tables.paddings[p] == Padding(PREFIX, ""))
    && (forall p | p in tables.replacements ::
          tables.replacements[p] != [] && Last(tables.replacements[p]) == Literal(VALUES, LOCAL))
  }

  function Last<T>(s: seq<T>): T
    requires s != []
  {
    s[|s| - 1]
  }

  /** `base` is the output directory with its separator, or empty. */
  function Located(base: string, path: string): (at: string)
    ensures PathOf(base, at) == Some(path)
  {
    base + path
  }

  function PathOf(base: string, at: string): (path: Option<string>)
    ensures path.Some? ==> base + path.value == at
  {
    if base <= at then Some(at[|base|..]) else None
  }

  function Apply(r: Replacement, content: string): Result<string, PatchError> {
    match r
    case Literal(from, to) =>
      if from != "" && Contains(content, from) then Ok(Rewrite(content, from, to)) else Err(NoMatch(r))
    case Pattern(matches, replaceAll) =>
      if matches(content) then Ok(replaceAll(content)) else Err(NoMatch(r))
  }

  /** The replacements in order; the first that does not match decides. */
  function ApplyAll(rs: seq<Replacement>, content: string): Result<string, PatchError> {
    if rs == [] then Ok(content)
    else match ApplyAll(rs[..|rs| - 1], content)
      case Ok(c) => Apply(Last(rs), c)
      case Err(e) => Err(e)
  }

  function Pad(padding: Padding, content: string): string {
    padding.prefix + content + padding.suffix
  }

  function Contents(at: string, request: Universe, response: Universe): Result<string, PatchError> {
    if at in response then Ok(response[at])
    else if at in request then Ok(request[at])
    else Err(NoSuchFile(at))
  }

  /** What the first pass makes of one file. */
  function Replaced(
    rs: seq<Replacement>, at: string, request: Universe, response: Universe): Result<string, PatchError>
  {
    match Contents(at, request, response)
    case Ok(content) => ApplyAll(rs, content)
    case Err(e) => Err(e)
  }

  /** What the second pass makes of one file. */
  function Padded(padding: Padding, at: string, request: Universe, response: Universe): Result<string, PatchError> {
    match Contents(at, request, response)
    case Ok(content) => Ok(Pad(padding, content))
    case Err(e) => Err(e)
  }

  /** What the patcher makes of one file it knows, from the request alone. */
  function Patched(tables: Tables, base: string, path: string, request: Universe): Result<string, PatchError>
    requires path in tables.replacements || path in tables.paddings
  {
    var at := Located(base, path);
    var body :=
      if path in tables.replacements then Replaced(tables.replacements[path], at, request, map[])
      else Contents(at, request, map[]);
    if path in tables.paddings && body.Ok? then Ok(Pad(tables.paddings[path], body.value)) else body
  }

  ghost predicate IsAmong(base: string, files: map<string, string>, at: string) {
    PathOf(base, at).Some? && PathOf(base, at).value in files
  }

  /** `after` is `before` with the files put under `base`. */
  ghost predicate Layered(base: string, files: map<string, string>, before: Universe, after: Universe) {
    && (forall at :: at in after <==> at in before || IsAmong(base, files, at))
    && (forall at | at in after ::
          after[at] == if IsAmong(base, files, at) then files[PathOf(base, at).value] else before[at])
  }

  /** ... which leaves no choice. */
  lemma LayeredIsUnique(base: string, files: map<string, string>, before: Universe, a: Universe, b: Universe)
    requires Layered(base, files, before, a) && Layered(base, files, before, b)
    ensures a == b
  {
    forall at ensures at in a <==> at in b {}
    assert a.Keys == b.Keys;
  }

  ghost predicate Patchable(tables: Tables, base: string, request: Universe) {
    forall p | p in tables.replacements.Keys + tables.paddings.Keys :: Patched(tables, base, p, request).Ok?
  }

  /** The files a successful run delivers, whatever the order of the two loops. */
  ghost function Outputs(tables: Tables, base: string, request: Universe): map<string, string>
    requires Patchable(tables, base, request)
  {
    map p | p in tables.replacements.Keys + tables.paddings.Keys :: Patched(tables, base, p, request).value
  }

  type Outcomes = map<string, Result<string, PatchError>>

  ghost predicate AllOk(outcomes: Outcomes) {
    forall p | p in outcomes :: outcomes[p].Ok?
  }

  ghost function Files(outcomes: Outcomes): map<string, string>
    requires AllOk(outcomes)
  {
    map p | p in outcomes :: outcomes[p].value
  }

  ghost function ReplacementOutcomes(
    base: string, replacements: map<string, seq<Replacement>>, request: Universe, response: Universe): Outcomes
  {
    map p | p in replacements :: Replaced(replacements[p], Located(base, p), request, response)
  }

  ghost function PaddingOutcomes(
    base: string, paddings: map<string, Padding>, request: Universe, response: Universe): Outcomes
  {
    map p | p in paddings :: Padded(paddings[p], Located(base, p), request, response)
  }

  /** A pass over the files, whatever its order: it succeeds when every file can be done, then it has
      written all of them and nothing else, and otherwise its error is that of a file. */
  ghost predicate Passed(
    base: string, outcomes: Outcomes, err: Option<PatchError>, before: Universe, after: Universe)
  {
    match err
    case None => AllOk(outcomes) && Layered(base, Files(outcomes), before, after)
    case Some(e) => exists p | p in outcomes :: outcomes[p] == Err(e)
  }

  lemma LayOneMore(
    base: string, files: map<string, string>, before: Universe, after: Universe, path: string, content: string)
    requires Layered(base, files, before, after)
    ensures Layered(base, files[path := content], before, after[Located(base, path) := content])
  {
    var at := Located(base, path);
    forall other ensures IsAmong(base, files[path := content], other) <==> IsAmong(base, files, other) || other == at {}
  }

  /** In the middle of a pass: `files` are written, `rest` is still to come. */
  ghost predicate Midway(
    base: string, outcomes: Outcomes, rest: set<string>, files: map<string, string>, before: Universe, after: Universe)
  {
    && rest <= outcomes.Keys
    && files.Keys == outcomes.Keys - rest
    && (forall p | p in files :: outcomes[p] == Ok(files[p]))
    && Layered(base, files, before, after)
  }

  lemma WriteOneMore(
    base: string, outcomes: Outcomes, rest: set<string>, files: map<string, string>, before: Universe, after: Universe,
    path: string, content: string)
    requires Midway(base, outcomes, rest, files, before, after)
    requires path in rest && outcomes[path] == Ok(content)
    ensures Midway(base, outcomes, rest - {path}, files[path := content], before,
                   after[Located(base, path) := content])
  {
    LayOneMore(base, files, before, after, path, content);
  }

  lemma PassEnds(base: string, outcomes: Outcomes, files: map<string, string>, before: Universe, after: Universe)
    requires Midway(base, outcomes, {}, files, before, after)
    ensures Passed(base, outcomes, None, before, after)
  {
    assert files == Files(outcomes);
  }

  lemma OthersDoNotMatter(
    base: string, outcomes: Outcomes, rest: set<string>, files: map<string, string>, before: Universe, after: Universe,
    path: string, request: Universe)
    requires Midway(base, outcomes, rest, files, before, after) && path in rest
    ensures Contents(Located(base, path), request, after) == Contents(Located(base, path), request, before)
  {
    assert !IsAmong(base, files, Located(base, path));
  }

  class PluginResponse {
    var universe: Universe

    constructor ()
      ensures universe == map[]
    {
      universe := map[];
    }

    /** The first pass. `rest` is what the iteration over the Go map has not reached. */
    method ApplyReplacements(base: string, replacements: map<string, seq<Replacement>>, request: Universe)
      returns (err: Option<PatchError>)
      modifies this
      ensures Passed(base, ReplacementOutcomes(base, replacements, request, old(universe)), err,
                     old(universe), universe)
    {
      ghost var outcomes := ReplacementOutcomes(base, replacements, request, universe);
      ghost var files: map<string, string> := map[];
      var rest := replacements.Keys;
      while rest != {}
        invariant Midway(base, outcomes, rest, files, old(universe), universe)
      {
        var path :| path in rest;
        var at := Located(base, path);
        OthersDoNotMatter(base, outcomes, rest, files, old(universe), universe, path, request);
        var found := Contents(at, request, universe);
        if found.Err? {
          assert outcomes[path] == Err(found.error);
          return Some(found.error);
        }
        var content := ReplaceInOrder(replacements[path], found.value);
        assert outcomes[path] == content;
        if content.Err? { return Some(content.error); }
        WriteOneMore(base, outcomes, rest, files, old(universe), universe, path, content.value);
        universe, files := universe[at := content.value], files[path := content.value];
        rest := rest - {path};
      }
      PassEnds(base, outcomes, files, old(universe), universe);
      return None;
    }

    /** The second pass, reading what the first one left. */
    method ApplyPaddings(base: string, paddings: map<string, Padding>, request: Universe)
      returns (err: Option<PatchError>)
      modifies this
      ensures Passed(base, PaddingOutcomes(base, paddings, request, old(universe)), err, old(universe), universe)
    {
      ghost var outcomes := PaddingOutcomes(base, paddings, request, universe);
      ghost var files: map<string, string> := map[];
      var rest := paddings.Keys;
      while rest != {}
        invariant Midway(base, outcomes, rest, files, old(universe), universe)
      {
        var path :| path in rest;
        var at := Located(base, path);
        OthersDoNotMatter(base, outcomes, rest, files, old(universe), universe, path, request);
        var found := Contents(at, request, universe);
        if found.Err? {
          assert outcomes[path] == Err(found.error);
          return Some(found.error);
        }
        var content := Pad(paddings[path], found.value);
        assert outcomes[path] == Ok(content);
        WriteOneMore(base, outcomes, rest, files, old(universe), universe, path, content);
        universe, files := universe[at := content], files[path := content];
        rest := rest - {path};
      }
      PassEnds(base, outcomes, files, old(universe), universe);
      return None;
    }
  }

  method ReplaceInOrder(rs: seq<Replacement>, content: string) returns (result: Result<string, PatchError>)
    ensures result == ApplyAll(rs, content)
  {
    var current := content;
    for i := 0 to |rs|
      invariant ApplyAll(rs[..i], content) == Ok(current)
    {
      assert rs[..i + 1][..i] == rs[..i];
      var next := Apply(rs[i], current);
      if next.Err? {
        FirstFailureStays(rs, i + 1, content);
        return next;
      }
      current := next.value;
    }
    assert rs[..|rs|] == rs;
    return Ok(current);
  }

  lemma {:induction false} FirstFailureStays(rs: seq<Replacement>, n: nat, content: string)
    requires n <= |rs| && ApplyAll(rs[..n], content).Err?
    ensures ApplyAll(rs, content) == ApplyAll(rs[..n], content)
    decreases |rs|
  {
    if n == |rs| {
      assert rs[..n] == rs;
    } else {
      var shorter := rs[..|rs| - 1];
      assert shorter[..n] == rs[..n];
      FirstFailureStays(shorter, n, content);
    }
  }

  /** The first pass decides the body of each file, from the request alone. */
  lemma BodyIsPatched(tables: Tables, base: string, path: string, request: Universe)
    requires path in tables.replacements
    ensures var body := ReplacementOutcomes(base, tables.replacements, request, map[])[path];
            Patched(tables, base, path, request) ==
            if path in tables.paddings && body.Ok? then Ok(Pad(tables.paddings[path], body.value)) else body
  {
  }

  /** The second pass finds the body that the first one left, or else the request. */
  lemma PaddingCompletesTheFile(
    tables: Tables, base: string, path: string, request: Universe, middle: Universe)
    requires path in tables.paddings
    requires Passed(base, ReplacementOutcomes(base, tables.replacements, request, map[]), None, map[], middle)
    ensures PaddingOutcomes(base, tables.paddings, request, middle)[path] == Patched(tables, base, path, request)
  {
    var at := Located(base, path);
    var outcomes := ReplacementOutcomes(base, tables.replacements, request, map[]);
    assert IsAmong(base, Files(outcomes), at) <==> path in tables.replacements;
    if path in tables.replacements {
      assert outcomes[path] == Ok(middle[at]);
      BodyIsPatched(tables, base, path, request);
    }
  }

  /** If a pass fails, a file it worked on cannot be patched. */
  ghost predicate FailsOnAFile(tables: Tables, base: string, request: Universe, e: PatchError) {
    exists p | p in tables.replacements.Keys + tables.paddings.Keys :: Patched(tables, base, p, request) == Err(e)
  }

  lemma FirstPassFails(tables: Tables, base: string, request: Universe, e: PatchError, middle: Universe)
    requires Passed(base, ReplacementOutcomes(base, tables.replacements, request, map[]), Some(e), map[], middle)
    ensures FailsOnAFile(tables, base, request, e)
  {
    var p :| p in tables.replacements &&
             ReplacementOutcomes(base, tables.replacements, request, map[])[p] == Err(e);
    BodyIsPatched(tables, base, p, request);
  }

  lemma SecondPassFails(
    tables: Tables, base: string, request: Universe, e: PatchError, middle: Universe, after: Universe)
    requires Passed(base, ReplacementOutcomes(base, tables.replacements, request, map[]), None, map[], middle)
    requires Passed(base, PaddingOutcomes(base, tables.paddings, request, middle), Some(e), middle, after)
    ensures FailsOnAFile(tables, base, request, e)
  {
    var p :| p in tables.paddings && PaddingOutcomes(base, tables.paddings, request, middle)[p] == Err(e);
    PaddingCompletesTheFile(tables, base, p, request, middle);
  }

  lemma BothPassesPatch(tables: Tables, base: string, request: Universe, middle: Universe, after: Universe)
    requires Passed(base, ReplacementOutcomes(base, tables.replacements, request, map[]), None, map[], middle)
    requires Passed(base, PaddingOutcomes(base, tables.paddings, request, middle), None, middle, after)
    ensures Patchable(tables, base, request)
    ensures Layered(base, Outputs(tables, base, request), map[], after)
  {
    OutputsAreTheTwoLayers(tables, base, request, middle);
    LayersMerge(base, Files(ReplacementOutcomes(base, tables.replacements, request, map[])),
                Files(PaddingOutcomes(base, tables.paddings, request, middle)), middle, after);
  }

  lemma OutputsAreTheTwoLayers(tables: Tables, base: string, request: Universe, middle: Universe)
    requires Passed(base, ReplacementOutcomes(base, tables.replacements, request, map[]), None, map[], middle)
    requires AllOk(PaddingOutcomes(base, tables.paddings, request, middle))
    ensures Patchable(tables, base, request)
    ensures Outputs(tables, base, request) ==
            Files(ReplacementOutcomes(base, tables.replacements, request, map[])) +
            Files(PaddingOutcomes(base, tables.paddings, request, middle))
  {
    var first := Files(ReplacementOutcomes(base, tables.replacements, request, map[]));
    var second := Files(PaddingOutcomes(base, tables.paddings, request, middle));
    forall p | p in tables.replacements.Keys + tables.paddings.Keys
      ensures Patched(tables, base, p, request) == Ok(if p in second then second[p] else first[p])
    {
      FileIsInTheLastLayer(tables, base, p, request, middle);
    }
    OutputsAreKnown(tables, base, request, first, second);
  }

  lemma OutputsAreKnown(
    tables: Tables, base: string, request: Universe, first: map<string, string>, second: map<string, string>)
    requires first.Keys == tables.replacements.Keys && second.Keys == tables.paddings.Keys
    requires forall p | p in tables.replacements.Keys + tables.paddings.Keys ::
               Patched(tables, base, p, request) == Ok(if p in second then second[p] else first[p])
    ensures Patchable(tables, base, request) && Outputs(tables, base, request) == first + second
  {
  }

  lemma FileIsInTheLastLayer(tables: Tables, base: string, path: string, request: Universe, middle: Universe)
    requires path in tables.replacements.Keys + tables.paddings.Keys
    requires Passed(base, ReplacementOutcomes(base, tables.replacements, request, map[]), None, map[], middle)
    requires AllOk(PaddingOutcomes(base, tables.paddings, request, middle))
    ensures var first := Files(ReplacementOutcomes(base, tables.replacements, request, map[]));
            var second := Files(PaddingOutcomes(base, tables.paddings, request, middle));
            Patched(tables, base, path, request) == Ok(if path in second then second[path] else first[path])
  {
    if path in tables.paddings {
      PaddingCompletesTheFile(tables, base, path, request, middle);
    } else {
      BodyIsPatched(tables, base, path, request);
    }
  }

  lemma LayersMerge(
    base: string, first: map<string, string>, second: map<string, string>, middle: Universe, after: Universe)
    requires Layered(base, first, map[], middle) && Layered(base, second, middle, after)
    ensures Layered(base, first + second, map[], after)
  {
    forall at ensures IsAmong(base, first + second, at) <==> IsAmong(base, first, at) || IsAmong(base, second, at) {}
  }

  // ----- The same, said of the texts alone -----

  predicate Fits(r: Replacement, text: string) {
    match r
    case Literal(from, _) => from != "" && Contains(text, from)
    case Pattern(matches, _) => matches(text)
  }

  ghost predicate IsStep(r: Replacement, before: string, after: string) {
    && Fits(r, before)
    && after == match r
                case Literal(from, to) => Rewrite(before, from, to)
                case Pattern(_, replaceAll) => replaceAll(before)
  }

  /** `texts` are the contents before, between and after the replacements; each of them matched and was made. */
  ghost predicate IsChain(rs: seq<Replacement>, texts: seq<string>) {
    |texts| == |rs| + 1 && forall k :: 0 <= k < |rs| ==> IsStep(rs[k], texts[k], texts[k + 1])
  }

  ghost predicate LeadsTo(rs: seq<Replacement>, content: string, result: string) {
    exists texts :: IsChain(rs, texts) && texts[0] == content && texts[|rs|] == result
  }

  /** The replacement at n does not match what the ones before it made. */
  ghost predicate GetsStuckAt(rs: seq<Replacement>, content: string, n: nat) {
    n < |rs| && exists text :: LeadsTo(rs[..n], content, text) && !Fits(rs[n], text)
  }

  lemma ChainOneMore(rs: seq<Replacement>, r: Replacement, texts: seq<string>, after: string)
    requires IsChain(rs, texts) && IsStep(r, texts[|rs|], after)
    ensures IsChain(rs + [r], texts + [after])
  {
  }

  lemma ChainOneLess(rs: seq<Replacement>, texts: seq<string>)
    requires rs != [] && IsChain(rs, texts)
    ensures IsChain(rs[..|rs| - 1], texts[..|rs|])
    ensures IsStep(Last(rs), texts[|rs| - 1], texts[|rs|])
  {
    var init, before := rs[..|rs| - 1], texts[..|rs|];
    forall k | 0 <= k < |init| ensures IsStep(init[k], before[k], before[k + 1]) {
      assert IsStep(rs[k], texts[k], texts[k + 1]);
    }
  }

  lemma {:induction false} ResultEndsAChain(rs: seq<Replacement>, content: string)
    ensures ApplyAll(rs, content).Ok? ==> LeadsTo(rs, content, ApplyAll(rs, content).value)
  {
    if rs == [] {
      assert IsChain(rs, [content]);
    } else if ApplyAll(rs, content).Ok? {
      var init := rs[..|rs| - 1];
      ResultEndsAChain(init, content);
      var texts :|
        IsChain(init, texts) && texts[0] == content && texts[|init|] == ApplyAll(init, content).value;
      var after := ApplyAll(rs, content).value;
      ChainOneMore(init, Last(rs), texts, after);
      assert init + [Last(rs)] == rs;
      assert IsChain(rs, texts + [after]);
    }
  }

  lemma {:induction false} ChainEndsInResult(rs: seq<Replacement>, content: string, texts: seq<string>)
    requires IsChain(rs, texts) && texts[0] == content
    ensures ApplyAll(rs, content) == Ok(texts[|rs|])
  {
    if rs != [] {
      ChainOneLess(rs, texts);
      ChainEndsInResult(rs[..|rs| - 1], content, texts[..|rs|]);
    }
  }

  /** The loop over the replacements succeeds exactly when each matches what the ones before it made, and its
      result is then the end of that chain. */
  lemma ReplacingIsAChain(rs: seq<Replacement>, content: string, result: string)
    ensures ApplyAll(rs, content) == Ok(result) <==> LeadsTo(rs, content, result)
  {
    ResultEndsAChain(rs, content);
    if LeadsTo(rs, content, result) {
      var texts :| IsChain(rs, texts) && texts[0] == content && texts[|rs|] == result;
      ChainEndsInResult(rs, content, texts);
    }
  }

  lemma {:induction false} FailureIsGettingStuck(rs: seq<Replacement>, content: string) returns (n: nat)
    requires ApplyAll(rs, content).Err?
    ensures GetsStuckAt(rs, content, n) && ApplyAll(rs, content) == Err(NoMatch(rs[n]))
  {
    n := |rs| - 1;
    var init := rs[..n];
    if ApplyAll(init, content).Ok? {
      ResultEndsAChain(init, content);
    } else {
      n := FailureIsGettingStuck(init, content);
      assert init[..n] == rs[..n];
    }
  }

  /** It fails exactly at a replacement that does not match what the ones before it made. */
  lemma FailingIsGettingStuck(rs: seq<Replacement>, content: string, e: PatchError)
    ensures ApplyAll(rs, content) == Err(e) <==>
            exists n: nat :: GetsStuckAt(rs, content, n) && e == NoMatch(rs[n])
  {
    if ApplyAll(rs, content) == Err(e) {
      var n := FailureIsGettingStuck(rs, content);
      assert GetsStuckAt(rs, content, n);
    }
    if n: nat :| GetsStuckAt(rs, content, n) && e == NoMatch(rs[n]) {
      var text :| LeadsTo(rs[..n], content, text) && !Fits(rs[n], text);
      ReplacingIsAChain(rs[..n], content, text);
      assert rs[..n + 1][..n] == rs[..n];
      FirstFailureStays(rs, n + 1, content);
    }
  }

  function ReplacementsFor(tables: Tables, path: string): seq<Replacement> {
    if path in tables.replacements then tables.replacements[path] else []
  }

  /** The file is in the request, its replacements lead from there to some text, and that text stands between
      the file's prefix and suffix. */
  ghost predicate IsPatchOf(tables: Tables, base: string, path: string, request: Universe, result: string) {
    && base + path in request
    && exists text ::
         && LeadsTo(ReplacementsFor(tables, path), request[base + path], text)
         && result == (if path in tables.paddings
                       then tables.paddings[path].prefix + text + tables.paddings[path].suffix
                       else text)
  }

  lemma PatchedIsAChain(tables: Tables, base: string, path: string, request: Universe, result: string)
    requires path in tables.replacements || path in tables.paddings
    ensures Patched(tables, base, path, request) == Ok(result) <==> IsPatchOf(tables, base, path, request, result)
  {
    if base + path in request {
      var rs, content := ReplacementsFor(tables, path), request[base + path];
      var body := ApplyAll(rs, content);
      ResultEndsAChain(rs, content);
      if IsPatchOf(tables, base, path, request, result) {
        var text :|
          && LeadsTo(rs, content, text)
          && result == (if path in tables.paddings
                        then tables.paddings[path].prefix + text + tables.paddings[path].suffix
                        else text);
        ReplacingIsAChain(rs, content, text);
      }
    }
  }

  /** The response holds every file of the tables patched, the chart file, and nothing else. */
  ghost predicate HoldsThePatch(tables: Tables, base: string, request: Universe, chart: string, response: Universe) {
    && (forall p :: p in tables.replacements.Keys + tables.paddings.Keys && p != CHART ==>
          base + p in response && IsPatchOf(tables, base, p, request, response[base + p]))
    && base + CHART in response && response[base + CHART] == chart
    && (forall at :: at in response ==>
          base <= at && (at[|base|..] == CHART || at[|base|..] in tables.replacements.Keys + tables.paddings.Keys))
  }

  lemma LayeredHoldsThePatch(tables: Tables, base: string, request: Universe, chart: string, response: Universe)
    requires Patchable(tables, base, request)
    requires Layered(base, Outputs(tables, base, request)[CHART := chart], map[], response)
    ensures HoldsThePatch(tables, base, request, chart, response)
  {
    var files := Outputs(tables, base, request)[CHART := chart];
    forall p | p in files ensures base + p in response && response[base + p] == files[p] {
      assert Located(base, p) == base + p && IsAmong(base, files, base + p);
    }
    forall p | p in tables.replacements.Keys + tables.paddings.Keys && p != CHART
      ensures IsPatchOf(tables, base, p, request, response[base + p])
    {
      PatchedIsAChain(tables, base, p, request, files[p]);
    }
  }

  /** Patchable exactly when every file has a patch. */
  lemma PatchableFiles(tables: Tables, base: string, request: Universe)
    ensures Patchable(tables, base, request) <==>
            forall p :: p in tables.replacements.Keys + tables.paddings.Keys ==>
                          exists result :: IsPatchOf(tables, base, p, request, result)
  {
    forall p | p in tables.replacements.Keys + tables.paddings.Keys
      ensures Patched(tables, base, p, request).Ok? <==> exists result :: IsPatchOf(tables, base, p, request, result)
    {
      HasPatch(tables, base, p, request);
    }
  }

  lemma HasPatch(tables: Tables, base: string, path: string, request: Universe)
    requires path in tables.replacements || path in tables.paddings
    ensures Patched(tables, base, path, request).Ok? <==>
            exists result :: IsPatchOf(tables, base, path, request, result)
  {
    var patched := Patched(tables, base, path, request);
    if patched.Ok? { PatchedIsAChain(tables, base, path, request, patched.value); }
    if result :| IsPatchOf(tables, base, path, request, result) {
      PatchedIsAChain(tables, base, path, request, result);
    }
  }

  /** `chart` is what the template engine makes of Chart.yaml. Whether the patch succeeds does not depend
      on the order of the two loops, and neither does the universe of a successful response. */
  method PatchHelmChart(base: string, tables: Tables, request: Universe, chart: Result<string, string>)
    returns (response: PluginResponse, err: Option<PatchError>)
    ensures fresh(response)
    ensures err.None? <==> Patchable(tables, base, request) && chart.Ok?
    ensures err.None? ==>
              Layered(base, Outputs(tables, base, request)[CHART := chart.value], map[], response.universe)
    ensures err.Some? ==> FailsOnAFile(tables, base, request, err.value) ||
                          (chart.Err? && err.value == BadTemplate(chart.error))
    ensures err.None? <==>
            && chart.Ok?
            && forall p :: p in tables.replacements.Keys + tables.paddings.Keys ==>
                             exists result :: IsPatchOf(tables, base, p, request, result)
    ensures err.None? ==> HoldsThePatch(tables, base, request, chart.value, response.universe)
  {
    PatchableFiles(tables, base, request);
    response := new PluginResponse();
    err := response.ApplyReplacements(base, tables.replacements, request);
    ghost var middle := response.universe;
    if err.Some? {
      FirstPassFails(tables, base, request, err.value, middle);
      return;
    }
    err := response.ApplyPaddings(base, tables.paddings, request);
    if err.Some? {
      SecondPassFails(tables, base, request, err.value, middle, response.universe);
      return;
    }
    BothPassesPatch(tables, base, request, middle, response.universe);
    if chart.Err? { return response, Some(BadTemplate(chart.error)); }
    LayOneMore(base, Outputs(tables, base, request), map[], response.universe, CHART, chart.value);
    response.universe := response.universe[Located(base, CHART) := chart.value];
    LayeredHoldsThePatch(tables, base, request, chart.value, response.universe);
  }

  /** A file of the shipped tables as it stands before its last replacement. */
  function BeforeLast(rs: seq<Replacement>, content: string): Result<string, PatchError>
    requires rs != []
  {
    ApplyAll(rs[..|rs| - 1], content)
  }

  /** Every shipped file that is patched is the prefix followed by a body in which `.Values` is rewritten
      everywhere and nothing else is touched by that last step. */
  lemma ShippedFileIsPrefixAndBody(tables: Tables, base: string, path: string, request: Universe)
    requires AsShipped(tables) && path in tables.replacements
    ensures Patched(tables, base, path, request).Ok? <==>
            && Located(base, path) in request
            && BeforeLast(tables.replacements[path], request[Located(base, path)]).Ok?
            && Contains(BeforeLast(tables.replacements[path], request[Located(base, path)]).value, VALUES)
    ensures Patched(tables, base, path, request).Ok? ==>
              var text := BeforeLast(tables.replacements[path], request[Located(base, path)]).value;
              Patched(tables, base, path, request) == Ok(PREFIX + Rewrite(text, VALUES, LOCAL))
  {
    forall text: string ensures PREFIX + text + "" == PREFIX + text {}
  }

  lemma WordsAreApart()
    ensures Apart(VALUES, LOCAL) && VALUES[0] !in VALUES[1..]
    ensures VALUES[0] !in BEFORE_DEFINITION && VALUES[0] !in AFTER_DEFINITION
  {
    assert VALUES[1..] == "Values" && LOCAL[1..] == "values";
  }

  /** In a patched file `.Values` occurs exactly once, where the prefix defines $values: the templates
      below it cannot bypass the definition, and the definition is not rewritten itself. */
  lemma ValuesOccursExactlyOnce(tables: Tables, base: string, path: string, request: Universe, i: nat)
    requires AsShipped(tables) && path in tables.replacements
    requires Patched(tables, base, path, request).Ok?
    requires i <= |Patched(tables, base, path, request).value|
    ensures VALUES <= Patched(tables, base, path, request).value[i..] <==> i == |BEFORE_DEFINITION|
  {
    ShippedFileIsPrefixAndBody(tables, base, path, request);
    var text := BeforeLast(tables.replacements[path], request[Located(base, path)]).value;
    WordsAreApart();
    NothingResidual(text, VALUES, LOCAL);
    OnlyMention(BEFORE_DEFINITION, AFTER_DEFINITION, Rewrite(text, VALUES, LOCAL), VALUES, i);
  }

  lemma OnlyMention(before: string, after: string, body: string, word: string, i: nat)
    requires word != "" && word[0] !in word[1..] && word[0] !in before && word[0] !in after
    requires !Contains(body, word)
    requires i <= |before + word + after + body|
    ensures word <= (before + word + after + body)[i..] <==> i == |before|
  {
    var file := before + word + after + body;
    var rest := file[i..];
    if i < |before| {
      assert rest[0] == before[i];
    } else if i == |before| {
      assert rest == word + (after + body);
    } else if i < |before + word| {
      assert rest[0] == word[1..][i - |before| - 1];
    } else if i < |before + word + after| {
      assert rest[0] == after[i - |before + word|];
    } else {
      assert rest == body[i - |before + word + after|..];
      ContainsAt(body, word);
    }
  }

  /** Were the padding applied first, the rewriting would take the definition away. */
  lemma PaddingFirstWouldLoseTheDefinition(text: string)
    ensures !Contains(Rewrite(PREFIX + text, VALUES, LOCAL), VALUES)
    ensures !(PREFIX <= Rewrite(PREFIX + text, VALUES, LOCAL))
  {
    var file := Rewrite(PREFIX + text, VALUES, LOCAL);
    WordsAreApart();
    NothingResidual(PREFIX + text, VALUES, LOCAL);
    MentionIsContained(BEFORE_DEFINITION, VALUES, AFTER_DEFINITION, file);
  }

  lemma MentionIsContained(before: string, word: string, after: string, file: string)
    ensures before + word + after <= file ==> Contains(file, word)
  {
    ContainsAt(file, word);
    if before + word + after <= file {
      assert file == before + word + after + file[|before + word + after|..];
      assert file[|before|..] == word + after + file[|before + word + after|..];
    }
  }
}
