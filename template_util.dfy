// Rendering of the platform chart through helm, the parsing of the
// rendered annotation lines, and the stamping of those annotations onto
// every Deployment found in a request's YAML.

module TemplateUtil {
  import opened Common
  import opened Kube

  /** What running an external program produced. */
  datatype ProcessRun = ProcessRun(output: string, error: string, exitCode: int)

  /** The helm binary as seen from the service: the chart path it renders, and its runs by argument string. */
  datatype Helm = Helm(chart: string, run: string -> ProcessRun)

  datatype TemplateError =
    | HelmFailed(message: string)
    | DuplicateAnnotation(key: string)
    | MissingName
    | InvalidYaml

  function TemplateErrorMessage(e: TemplateError): string
  {
    match e
    case HelmFailed(m) => m
    case DuplicateAnnotation(k) => "An item with the same key has already been added. Key: " + k
    case MissingName => "Metadata.Name is null or empty"
    case InvalidYaml => "The YAML could not be loaded"
  }

  /** The flag helm gets for one chart value. */
  function Flag(kv: (string, string)): string
  {
    " --set " + kv.0 + "=" + kv.1
  }

  /** The flags as the loop builds them: each value's flag appended after the flags so far. */
  function SetFlags(values: seq<(string, string)>): string
  {
    if |values| == 0 then ""
    else SetFlags(values[..|values| - 1]) + Flag(values[|values| - 1])
  }

  function TemplateArguments(chart: string, values: seq<(string, string)>): string
  {
    "template " + chart + " " + SetFlags(values)
  }

  function HelmFailureMessage(run: ProcessRun): string
  {
    "Helm failed to generate requested template.  Output: " + run.output + ".  Error: " + run.error
    + "  Return Code: " + IntToString(run.exitCode)
  }

  /** The outcome of rendering the chart with the given values: a positive exit code is a failure, any other code is not. */
  function Template(helm: Helm, values: seq<(string, string)>): Result<string, TemplateError>
  {
    var run := helm.run(TemplateArguments(helm.chart, values));
    if run.exitCode > 0 then Err(HelmFailed(HelmFailureMessage(run))) else Ok(run.output)
  }

  /** `GenerateTemplate`: builds the helm argument string value by value, runs helm, and checks the exit code. */
  method GenerateTemplate(helm: Helm, values: seq<(string, string)>) returns (r: Result<string, TemplateError>)
    ensures r.Ok? <==> helm.run(TemplateArguments(helm.chart, values)).exitCode <= 0
    ensures r.Ok? ==> r.value == helm.run(TemplateArguments(helm.chart, values)).output
    ensures r.Err? ==> r.error == HelmFailed(HelmFailureMessage(helm.run(TemplateArguments(helm.chart, values))))
  {
    var helmValues := "";
    var i := 0;
    while i < |values|
      invariant 0 <= i <= |values|
      invariant helmValues == SetFlags(values[..i])
    {
      assert values[..i + 1][..i] == values[..i];
      helmValues := helmValues + " --set " + values[i].0 + "=" + values[i].1;
      i := i + 1;
    }
    assert values[..|values|] == values;
    var run := helm.run("template " + helm.chart + " " + helmValues);
    if run.exitCode > 0 {
      return Err(HelmFailed(HelmFailureMessage(run)));
    }
    return Ok(run.output);
  }

  /** The flags read from the front: the first value's flag, then the flags of the others. */
  function FlagsInOrder(values: seq<(string, string)>): string
  {
    if |values| == 0 then "" else Flag(values[0]) + FlagsInOrder(values[1..])
  }

  lemma {:induction false} FlagsInOrderSnoc(values: seq<(string, string)>, kv: (string, string))
    ensures FlagsInOrder(values + [kv]) == FlagsInOrder(values) + Flag(kv)
    decreases |values|
  {
    if |values| == 0 {
      assert ([kv])[1..] == [];
    } else {
      assert (values + [kv])[1..] == values[1..] + [kv];
      FlagsInOrderSnoc(values[1..], kv);
    }
  }

  /** The loop's flags are every value's flag, the first value's first: helm sees the values in order. */
  lemma {:induction false} SetFlagsInOrder(values: seq<(string, string)>)
    ensures SetFlags(values) == FlagsInOrder(values)
    decreases |values|
  {
    if |values| > 0 {
      var init := values[..|values| - 1];
      SetFlagsInOrder(init);
      FlagsInOrderSnoc(init, values[|values| - 1]);
      assert init + [values[|values| - 1]] == values;
    }
  }

  /** The two chart values that make helm render only the payload-app annotations. */
  const AnnotationValues: seq<(string, string)> :=
    [("services.payloadapp.payloadapp.enabled", "true"), ("services.payloadapp.payloadapp.annotations.enabled", "true")]

  predicate BreakFree(line: string)
  {
    forall j :: 0 <= j < |line| ==> line[j] != '\n'
  }

  /** Pieces put back together with a line break between each two. */
  function JoinLines(pieces: seq<string>): string
    requires |pieces| > 0
  {
    if |pieces| == 1 then pieces[0] else pieces[0] + "\n" + JoinLines(pieces[1..])
  }

  /** `Split` at line breaks: every piece between two breaks, empty ones included. */
  function Pieces(s: string): (r: seq<string>)
    ensures |r| > 0 && JoinLines(r) == s
    ensures forall i :: 0 <= i < |r| ==> BreakFree(r[i])
    decreases |s|
  {
    match IndexOfChar(s, '\n')
    case None => [s]
    case Some(k) =>
      var rest := Pieces(s[k + 1..]);
      assert ([s[..k]] + rest)[1..] == rest;
      [s[..k]] + rest
  }

  /** Break-free pieces rejoin in only one way: splitting gives them back. */
  lemma {:induction false} PiecesOfJoin(pieces: seq<string>)
    requires |pieces| > 0 && forall i :: 0 <= i < |pieces| ==> BreakFree(pieces[i])
    ensures Pieces(JoinLines(pieces)) == pieces
    decreases |pieces|
  {
    var s := JoinLines(pieces);
    var p := pieces[0];
    if |pieces| > 1 {
      var rest := JoinLines(pieces[1..]);
      assert s == p + "\n" + rest;
      assert forall j :: 0 <= j < |p| ==> s[j] == p[j];
      assert s[|p|] == '\n';
      assert IndexOfChar(s, '\n') == Some(|p|);
      assert s[..|p|] == p;
      assert s[|p| + 1..] == rest;
      PiecesOfJoin(pieces[1..]);
      assert [p] + pieces[1..] == pieces;
    }
  }

  /**
   * `RemoveEmptyEntries`: the non-empty pieces, in order.  Being a
   * subsequence that holds every non-empty piece as often as it occurs
   * and no empty one, the result is exactly those pieces.
   */
  function NonEmpty(pieces: seq<string>): (r: seq<string>)
    ensures forall i :: 0 <= i < |r| ==> |r[i]| > 0 && r[i] in pieces
    ensures Subsequence(r, pieces)
    ensures multiset(r) == multiset(pieces)["" := 0]
    ensures (forall i :: 0 <= i < |pieces| ==> |pieces[i]| > 0) ==> r == pieces
  {
    if |pieces| == 0 then []
    else
      var rest := NonEmpty(pieces[1..]);
      assert [pieces[0]] + pieces[1..] == pieces;
      var r := if |pieces[0]| == 0 then rest else [pieces[0]] + rest;
      assert Subsequence(r, pieces) by {
        if |pieces[0]| == 0 && |rest| > 0 {
          assert |rest[0]| > 0;
        } else if |pieces[0]| > 0 {
          assert r[1..] == rest;
        }
      }
      assert multiset(r) == multiset(pieces)["" := 0] by {
        MultisetWithoutEmpty(pieces[0], pieces[1..], rest);
      }
      r
  }

  lemma MultisetWithoutEmpty(p: string, tail: seq<string>, rest: seq<string>)
    requires multiset(rest) == multiset(tail)["" := 0]
    ensures multiset(if |p| == 0 then rest else [p] + rest) == multiset([p] + tail)["" := 0]
  {
    var lhs := multiset(if |p| == 0 then rest else [p] + rest);
    var rhs := multiset([p] + tail)["" := 0];
    assert multiset([p] + tail) == multiset{p} + multiset(tail);
    forall x
      ensures lhs[x] == rhs[x]
    {
      if |p| > 0 {
        assert multiset([p] + rest) == multiset{p} + multiset(rest);
      }
    }
    assert lhs == rhs;
  }

  /**
   * The lines of `s`: the non-empty ones among the break-free pieces that
   * rejoin to `s` (which `PiecesOfJoin` shows are unique), in order and
   * each as often as it occurs.
   */
  function Lines(s: string): (r: seq<string>)
    ensures forall i :: 0 <= i < |r| ==> |r[i]| > 0 && BreakFree(r[i])
    ensures Subsequence(r, Pieces(s))
    ensures multiset(r) == multiset(Pieces(s))["" := 0]
  {
    NonEmpty(Pieces(s))
  }

  /**
   * The lines are exactly the non-empty pieces, in order, of some
   * break-free split that joins back to the output; by `PiecesOfJoin`
   * there is only one such split.
   */
  lemma LinesFromPieces(s: string)
    ensures exists pieces :: |pieces| > 0 && JoinLines(pieces) == s
                             && (forall i :: 0 <= i < |pieces| ==> BreakFree(pieces[i]))
                             && Subsequence(Lines(s), pieces) && multiset(Lines(s)) == multiset(pieces)["" := 0]
  {
    var pieces := Pieces(s);
    assert |pieces| > 0 && JoinLines(pieces) == s;
  }

  /** Non-empty break-free lines, joined, split back into exactly those lines. */
  lemma LinesRoundTrip(lines: seq<string>)
    requires |lines| > 0 && forall i :: 0 <= i < |lines| ==> |lines[i]| > 0 && BreakFree(lines[i])
    ensures Lines(JoinLines(lines)) == lines
  {
    PiecesOfJoin(lines);
  }

  /** One annotation line split at its first ':'; a line without one yields nothing. */
  function AnnotationEntry(line: string): Option<(string, string)>
  {
    match IndexOfChar(line, ':')
    case None => None
    case Some(k) => Some((Trim(line[..k]), RemoveChar(Trim(line[k + 1..]), '"')))
  }

  function AnnotationEntries(lines: seq<string>): seq<(string, string)>
  {
    if |lines| == 0 then []
    else
      var rest := AnnotationEntries(lines[1..]);
      match AnnotationEntry(lines[0])
      case None => rest
      case Some(e) => [e] + rest
  }

  predicate DistinctKeys(entries: seq<(string, string)>)
  {
    forall i, j :: 0 <= i < j < |entries| ==> entries[i].0 != entries[j].0
  }

  function Keys(entries: seq<(string, string)>): set<string>
  {
    set i | 0 <= i < |entries| :: entries[i].0
  }

  /** `ToDictionary`: the entries in order, or the first key that repeats an earlier one. */
  function ToDictionary(entries: seq<(string, string)>): (r: Result<seq<(string, string)>, TemplateError>)
    ensures r.Ok? <==> DistinctKeys(entries)
    ensures r.Ok? ==> r.value == entries
    ensures r.Err? ==> r.error.DuplicateAnnotation? && exists i, j :: 0 <= i < j < |entries| && entries[i].0 == entries[j].0 == r.error.key
  {
    if |entries| == 0 then Ok([])
    else
      var init := entries[..|entries| - 1];
      var last := entries[|entries| - 1];
      match ToDictionary(init)
      case Err(e) =>
        assert !DistinctKeys(entries) by {
          var i, j :| 0 <= i < j < |init| && init[i].0 == init[j].0;
          assert entries[i] == init[i] && entries[j] == init[j];
        }
        Err(e)
      case Ok(d) =>
        if last.0 in Keys(d) then
          var i :| 0 <= i < |d| && d[i].0 == last.0;
          assert entries[i] == d[i];
          Err(DuplicateAnnotation(last.0))
        else
          assert DistinctKeys(entries) by {
            forall i, j | 0 <= i < j < |entries|
              ensures entries[i].0 != entries[j].0
            {
              if j < |entries| - 1 {
                assert entries[i] == init[i] && entries[j] == init[j];
              } else {
                assert entries[i] == d[i];
              }
            }
          }
          assert d + [last] == entries;
          Ok(d + [last])
  }

  /** `Select`: each line split at its first ':'. */
  function SplitAll(lines: seq<string>): seq<Option<(string, string)>>
  {
    seq(|lines|, i requires 0 <= i < |lines| => AnnotationEntry(lines[i]))
  }

  /** `Where(parts.Length == 2)`: the values of the options that are present, in order. */
  function Present<T>(xs: seq<Option<T>>): seq<T>
  {
    if |xs| == 0 then [] else (if xs[0].Some? then [xs[0].value] else []) + Present(xs[1..])
  }

  /** The entries are one per line that has a ':', in the order of the lines. */
  lemma {:induction false} EntriesSelectWhere(lines: seq<string>)
    ensures AnnotationEntries(lines) == Present(SplitAll(lines))
    decreases |lines|
  {
    if |lines| > 0 {
      var xs := SplitAll(lines);
      assert xs[0] == AnnotationEntry(lines[0]);
      assert xs[1..] == SplitAll(lines[1..]) by {
        forall i | 0 <= i < |lines| - 1
          ensures xs[1..][i] == SplitAll(lines[1..])[i]
        {
          assert lines[1..][i] == lines[i + 1];
        }
      }
      EntriesSelectWhere(lines[1..]);
    }
  }

  /**
   * The annotation lines helm printed, as the map of the source's LINQ
   * pipeline: one entry per line with a ':', in order, unless two of them
   * share a key.
   */
  function ParseAnnotations(output: string): (r: Result<seq<(string, string)>, TemplateError>)
    ensures r.Ok? <==> DistinctKeys(Present(SplitAll(Lines(output))))
    ensures r.Ok? ==> r.value == Present(SplitAll(Lines(output)))
    ensures r.Err? ==> r.error.DuplicateAnnotation?
                       && exists i, j :: 0 <= i < j < |Present(SplitAll(Lines(output)))|
                                        && Present(SplitAll(Lines(output)))[i].0 == r.error.key
                                        && Present(SplitAll(Lines(output)))[j].0 == r.error.key
    ensures r.Ok? ==> DistinctKeys(r.value)
    ensures r.Ok? ==> forall i :: 0 <= i < |r.value| ==> AnnotationShaped(r.value[i].0, r.value[i].1)
  {
    EntriesShaped(Lines(output));
    EntriesSelectWhere(Lines(output));
    ToDictionary(AnnotationEntries(Lines(output)))
  }

  /** What every parsed annotation looks like: a trimmed key with no ':', a value with no '"'. */
  predicate AnnotationShaped(key: string, value: string)
  {
    IsTrimmed(key) && (forall j :: 0 <= j < |key| ==> key[j] != ':')
    && (forall j :: 0 <= j < |value| ==> value[j] != '"')
  }

  lemma {:induction false} EntriesShaped(lines: seq<string>)
    ensures forall i :: 0 <= i < |AnnotationEntries(lines)| ==>
              AnnotationShaped(AnnotationEntries(lines)[i].0, AnnotationEntries(lines)[i].1)
    decreases |lines|
  {
    if |lines| > 0 {
      EntriesShaped(lines[1..]);
      match IndexOfChar(lines[0], ':')
      case None =>
      case Some(k) =>
        var key := Trim(lines[0][..k]);
        TrimIsTrimmed(lines[0][..k]);
        TrimChars(lines[0][..k]);
        assert forall j :: 0 <= j < |key| ==> key[j] != ':';
    }
  }

  /** Every character of `Trim(s)` is a character of `s`. */
  lemma TrimChars(s: string)
    ensures forall j :: 0 <= j < |Trim(s)| ==> Trim(s)[j] in s
  {
    var t := TrimStart(s);
    var r := TrimEnd(t);
    forall j | 0 <= j < |r|
      ensures r[j] in s
    {
      assert r[j] == t[j];
      assert t[j] == s[|s| - |t| + j];
    }
  }

  /** Nothing printed means no annotations. */
  lemma EmptyOutputNoAnnotations()
    ensures ParseAnnotations("") == Ok([])
  {
  }

  /** How helm prints one annotation: the key, ": ", the value, a line break. */
  function RenderAnnotations(entries: seq<(string, string)>): string
  {
    if |entries| == 0 then "" else entries[0].0 + ": " + entries[0].1 + "\n" + RenderAnnotations(entries[1..])
  }

  /** An annotation helm can print on one line and that parsing gives back unchanged. */
  predicate Printable(key: string, value: string)
  {
    IsTrimmed(key) && IsTrimmed(value)
    && (forall j :: 0 <= j < |key| ==> key[j] != ':' && key[j] != '\n')
    && (forall j :: 0 <= j < |value| ==> value[j] != '"' && value[j] != '\n')
  }

  /** Parsing what helm printed for a set of annotations gives back exactly those annotations. */
  lemma {:induction false} ParseRenderRoundTrip(entries: seq<(string, string)>)
    requires DistinctKeys(entries)
    requires forall i :: 0 <= i < |entries| ==> Printable(entries[i].0, entries[i].1)
    ensures ParseAnnotations(RenderAnnotations(entries)) == Ok(entries)
  {
    RenderedLines(entries);
  }

  lemma {:induction false} RenderedLines(entries: seq<(string, string)>)
    requires forall i :: 0 <= i < |entries| ==> Printable(entries[i].0, entries[i].1)
    ensures AnnotationEntries(Lines(RenderAnnotations(entries))) == entries
    decreases |entries|
  {
    if |entries| > 0 {
      var tail := entries[1..];
      assert [entries[0]] + tail == entries;
      assert forall i :: 0 <= i < |tail| ==> Printable(tail[i].0, tail[i].1) by {
        forall i | 0 <= i < |tail| ensures Printable(tail[i].0, tail[i].1) {
          assert tail[i] == entries[i + 1];
        }
      }
      RenderedFirstLine(entries);
      RenderedLines(tail);
    }
  }

  /** The first annotation helm prints is the first entry parsed back. */
  lemma RenderedFirstLine(entries: seq<(string, string)>)
    requires |entries| > 0 && Printable(entries[0].0, entries[0].1)
    ensures AnnotationEntries(Lines(RenderAnnotations(entries)))
         == [entries[0]] + AnnotationEntries(Lines(RenderAnnotations(entries[1..])))
  {
    var k, v := entries[0].0, entries[0].1;
    var line := k + ": " + v;
    var rest := RenderAnnotations(entries[1..]);
    assert RenderAnnotations(entries) == line + "\n" + rest;
    PrintedLineHasNoBreak(k, v);
    LinesSplitAtBreak(line, rest);
    PrintedLineParses(k, v);
    EntriesOfParsedLine(line, Lines(rest), (k, v));
  }

  lemma EntriesOfParsedLine(line: string, lines: seq<string>, e: (string, string))
    requires AnnotationEntry(line) == Some(e)
    ensures AnnotationEntries([line] + lines) == [e] + AnnotationEntries(lines)
  {
    assert ([line] + lines)[1..] == lines;
  }

  lemma PrintedLineHasNoBreak(k: string, v: string)
    requires Printable(k, v)
    ensures forall j :: 0 <= j < |k + ": " + v| ==> (k + ": " + v)[j] != '\n'
  {
    var line := k + ": " + v;
    forall j | 0 <= j < |line|
      ensures line[j] != '\n'
    {
      if j < |k| { assert line[j] == k[j]; }
      else if j >= |k| + 2 { assert line[j] == v[j - |k| - 2]; }
    }
  }

  /** A non-empty line without a break, followed by a break, is the first line. */
  lemma {:induction false} LinesSplitAtBreak(line: string, rest: string)
    requires |line| > 0 && forall j :: 0 <= j < |line| ==> line[j] != '\n'
    ensures Lines(line + "\n" + rest) == [line] + Lines(rest)
  {
    var s := line + "\n" + rest;
    assert forall j :: 0 <= j < |line| ==> s[j] == line[j];
    assert s[|line|] == '\n';
    assert IndexOfChar(s, '\n') == Some(|line|);
    assert s[..|line|] == line;
    assert s[|line| + 1..] == rest;
  }

  lemma {:induction false} PrintedLineParses(k: string, v: string)
    requires Printable(k, v)
    ensures AnnotationEntry(k + ": " + v) == Some((k, v))
  {
    var line := k + ": " + v;
    assert line[|k|] == ':';
    assert forall j :: 0 <= j < |k| ==> line[j] == k[j];
    assert IndexOfChar(line, ':') == Some(|k|);
    assert line[..|k|] == k;
    assert line[|k| + 1..] == " " + v;
    TrimOfTrimmed(k);
    TrimLeadingSpace(v);
    RemoveAbsentChar(v, '"');
  }

  /**
   * The annotations for deployments: the chart rendered with
   * `AnnotationValues`, nothing when helm printed nothing, its lines
   * parsed otherwise.
   */
  function Annotations(helm: Helm): Result<seq<(string, string)>, TemplateError>
  {
    match Template(helm, AnnotationValues)
    case Err(e) => Err(e)
    case Ok(output) => if |output| == 0 then Ok([]) else ParseAnnotations(output)
  }

  /** `GenerateAnnotations`. */
  method GenerateAnnotations(helm: Helm) returns (r: Result<seq<(string, string)>, TemplateError>)
    ensures r == Annotations(helm)
    ensures r.Ok? ==> DistinctKeys(r.value)
  {
    var templateOutput := GenerateTemplate(helm, AnnotationValues);
    if templateOutput.Err? {
      return Err(templateOutput.error);
    }
    if |templateOutput.value| == 0 {
      return Ok([]);
    }
    r := ParseAnnotations(templateOutput.value);
  }

  /** An annotation map with each annotation added unless its key is already there. */
  function AddIfAbsent(m: map<string, string>, anns: seq<(string, string)>): map<string, string>
  {
    if |anns| == 0 then m
    else
      var prev := AddIfAbsent(m, anns[..|anns| - 1]);
      var last := anns[|anns| - 1];
      if last.0 in prev then prev else prev[last.0 := last.1]
  }

  /** Adding never overwrites, never drops, and adds exactly the annotation keys. */
  lemma {:induction false} AddIfAbsentKeeps(m: map<string, string>, anns: seq<(string, string)>)
    ensures AddIfAbsent(m, anns).Keys == m.Keys + Keys(anns)
    ensures forall k :: k in m ==> AddIfAbsent(m, anns)[k] == m[k]
    decreases |anns|
  {
    if |anns| > 0 {
      var init := anns[..|anns| - 1];
      AddIfAbsentKeeps(m, init);
      assert Keys(anns) == Keys(init) + {anns[|anns| - 1].0} by {
        forall x | x in Keys(anns)
          ensures x in Keys(init) + {anns[|anns| - 1].0}
        {
          var i :| 0 <= i < |anns| && anns[i].0 == x;
          if i < |anns| - 1 { assert init[i] == anns[i]; }
        }
        forall x | x in Keys(init)
          ensures x in Keys(anns)
        {
          var i :| 0 <= i < |init| && init[i].0 == x;
          assert anns[i] == init[i];
        }
      }
    }
  }

  /** A key the map lacked gets the value its (only) annotation carries. */
  lemma {:induction false} AddIfAbsentAdds(m: map<string, string>, anns: seq<(string, string)>, i: nat)
    requires DistinctKeys(anns) && i < |anns| && anns[i].0 !in m
    ensures anns[i].0 in AddIfAbsent(m, anns) && AddIfAbsent(m, anns)[anns[i].0] == anns[i].1
    decreases |anns|
  {
    AddIfAbsentKeeps(m, anns);
    var init := anns[..|anns| - 1];
    var last := anns[|anns| - 1];
    AddIfAbsentKeeps(m, init);
    if i == |anns| - 1 {
      assert last.0 !in Keys(init);
    } else {
      assert init[i] == anns[i];
      assert DistinctKeys(init) by {
        forall a, b | 0 <= a < b < |init|
          ensures init[a].0 != init[b].0
        {
          assert init[a] == anns[a] && init[b] == anns[b];
        }
      }
      AddIfAbsentAdds(m, init, i);
    }
  }

  /** Adding the same annotations a second time changes nothing. */
  lemma {:induction false} AddIfAbsentIdempotent(m: map<string, string>, anns: seq<(string, string)>)
    ensures AddIfAbsent(AddIfAbsent(m, anns), anns) == AddIfAbsent(m, anns)
  {
    var once := AddIfAbsent(m, anns);
    AddIfAbsentKeeps(m, anns);
    AddIfAbsentKeeps(once, anns);
    assert AddIfAbsent(once, anns).Keys == once.Keys;
  }

  /**
   * The deployment with the annotations added to its metadata and to its
   * pod template, whose annotation dictionary is created first if absent.
   */
  function Annotate(dep: KubeObject, anns: seq<(string, string)>): KubeObject
  {
    dep.(annotations := AddIfAbsent(dep.annotations, anns),
         templateAnnotations := AddIfAbsent(dep.templateAnnotations, anns),
         templateAnnotated := true)
  }

  /** `UpdateDeployment`: a deployment without a name is refused before helm runs. */
  method UpdateDeployment(helm: Helm, dep: KubeObject) returns (r: Result<KubeObject, TemplateError>)
    ensures IsBlank(dep.name) ==> r == Err(MissingName)
    ensures !IsBlank(dep.name) && Annotations(helm).Err? ==> r == Err(Annotations(helm).error)
    ensures !IsBlank(dep.name) && Annotations(helm).Ok? ==> r == Ok(Annotate(dep, Annotations(helm).value))
  {
    if IsBlank(dep.name) {
      return Err(MissingName);
    }
    var anns := GenerateAnnotations(helm);
    if anns.Err? {
      return Err(anns.error);
    }
    var annotated := AddAnnotations(dep, anns.value);
    return Ok(annotated);
  }

  /** The loop of `UpdateDeployment` over the generated annotations. */
  method AddAnnotations(dep: KubeObject, anns: seq<(string, string)>) returns (r: KubeObject)
    ensures r == Annotate(dep, anns)
  {
    var annotations := dep.annotations;
    var templateAnnotations := dep.templateAnnotations;
    var i := 0;
    while i < |anns|
      invariant 0 <= i <= |anns|
      invariant annotations == AddIfAbsent(dep.annotations, anns[..i])
      invariant templateAnnotations == AddIfAbsent(dep.templateAnnotations, anns[..i])
    {
      var kvp := anns[i];
      assert anns[..i + 1][..i] == anns[..i];
      if kvp.0 !in annotations {
        annotations := annotations[kvp.0 := kvp.1];
      }
      if kvp.0 !in templateAnnotations {
        templateAnnotations := templateAnnotations[kvp.0 := kvp.1];
      }
      i := i + 1;
    }
    assert anns[..|anns|] == anns;
    r := dep.(annotations := annotations, templateAnnotations := templateAnnotations, templateAnnotated := true);
  }

  /** `OfType<V1Deployment>`: the deployments among the loaded objects, in order. */
  function Deployments(objs: seq<KubeObject>): (r: seq<KubeObject>)
    ensures forall i :: 0 <= i < |r| ==> r[i].kind == Deployment
    ensures forall o :: o in objs && o.kind == Deployment ==> o in r
    ensures forall o :: o in r ==> o in objs
  {
    if |objs| == 0 then []
    else if objs[0].kind == Deployment then [objs[0]] + Deployments(objs[1..])
    else Deployments(objs[1..])
  }

  /** The deployments keep their order and their number: each one as often as it was loaded. */
  lemma {:induction false} DeploymentsInOrder(objs: seq<KubeObject>)
    ensures Subsequence(Deployments(objs), objs)
    ensures forall o :: multiset(Deployments(objs))[o] == if o.kind == Deployment then multiset(objs)[o] else 0
    decreases |objs|
  {
    if |objs| > 0 {
      DeploymentsInOrder(objs[1..]);
      assert objs == [objs[0]] + objs[1..];
    }
  }

  /** Updating each deployment in turn; the first failure ends the whole list. */
  function UpdateAll(ds: seq<KubeObject>, anns: Result<seq<(string, string)>, TemplateError>)
    : (r: Result<seq<KubeObject>, TemplateError>)
    ensures r.Ok? ==> |r.value| == |ds|
    ensures r.Ok? ==> anns.Ok? || |ds| == 0
    ensures r.Ok? ==> forall i :: 0 <= i < |ds| ==> !IsBlank(ds[i].name) && r.value[i] == Annotate(ds[i], anns.value)
    ensures (forall i :: 0 <= i < |ds| ==> !IsBlank(ds[i].name)) && (anns.Ok? || |ds| == 0) ==> r.Ok?
  {
    if |ds| == 0 then Ok([])
    else
      match UpdateAll(ds[..|ds| - 1], anns)
      case Err(e) => Err(e)
      case Ok(acc) =>
        var d := ds[|ds| - 1];
        if IsBlank(d.name) then Err(MissingName)
        else if anns.Err? then Err(anns.error)
        else Ok(acc + [Annotate(d, anns.value)])
  }

  /** A failure in the first deployments is the failure of the whole list. */
  lemma {:induction false} UpdateAllErrSticks(ds: seq<KubeObject>, n: nat, anns: Result<seq<(string, string)>, TemplateError>)
    requires n <= |ds| && UpdateAll(ds[..n], anns).Err?
    ensures UpdateAll(ds, anns) == UpdateAll(ds[..n], anns)
    decreases |ds| - n
  {
    if n < |ds| {
      assert ds[..n + 1][..n] == ds[..n];
      UpdateAllErrSticks(ds, n + 1, anns);
    } else {
      assert ds[..n] == ds;
    }
  }

  /** The objects `GenerateKubernetesObjectsFromDeployment` returns for the loaded YAML. */
  function GeneratedObjects(helm: Helm, loaded: Option<seq<KubeObject>>): Result<seq<KubeObject>, TemplateError>
  {
    match loaded
    case None => Err(InvalidYaml)
    case Some(objs) => UpdateAll(Deployments(objs), Annotations(helm))
  }

  /**
   * `GenerateKubernetesObjectsFromDeployment`: loads the request's YAML
   * (through `loadYaml`, the YAML library), keeps the deployments and
   * updates each in turn.
   */
  method GenerateKubernetesObjectsFromDeployment(helm: Helm, loadYaml: string -> Option<seq<KubeObject>>, yaml: string)
    returns (r: Result<seq<KubeObject>, TemplateError>)
    ensures r == GeneratedObjects(helm, loadYaml(yaml))
  {
    var loaded := loadYaml(yaml);
    if loaded.None? {
      return Err(InvalidYaml);
    }
    var ds := Deployments(loaded.value);
    var returnList: seq<KubeObject> := [];
    var i := 0;
    while i < |ds|
      invariant 0 <= i <= |ds|
      invariant UpdateAll(ds[..i], Annotations(helm)) == Ok(returnList)
    {
      assert ds[..i + 1][..i] == ds[..i];
      var updated := UpdateDeployment(helm, ds[i]);
      if updated.Err? {
        UpdateAllErrSticks(ds, i + 1, Annotations(helm));
        return Err(updated.error);
      }
      returnList := returnList + [updated.value];
      i := i + 1;
    }
    assert ds[..|ds|] == ds;
    return Ok(returnList);
  }

  /** Only deployments come out, each the loaded one with the annotations added, in the order loaded. */
  lemma {:induction false} GeneratedAreAnnotatedDeployments(helm: Helm, objs: seq<KubeObject>)
    requires GeneratedObjects(helm, Some(objs)).Ok?
    ensures var r := GeneratedObjects(helm, Some(objs)).value;
      |r| == |Deployments(objs)|
      && forall i :: 0 <= i < |r| ==>
           r[i].kind == Deployment && r[i].name == Deployments(objs)[i].name
           && r[i].containers == Deployments(objs)[i].containers && r[i].templateAnnotated
           && Deployments(objs)[i].annotations.Keys <= r[i].annotations.Keys
           && forall k :: k in Deployments(objs)[i].annotations ==> r[i].annotations[k] == Deployments(objs)[i].annotations[k]
  {
    var ds := Deployments(objs);
    var r := GeneratedObjects(helm, Some(objs)).value;
    forall i | 0 <= i < |r|
      ensures ds[i].annotations.Keys <= r[i].annotations.Keys
      ensures forall k :: k in ds[i].annotations ==> r[i].annotations[k] == ds[i].annotations[k]
    {
      AddIfAbsentKeeps(ds[i].annotations, Annotations(helm).value);
    }
  }
}
