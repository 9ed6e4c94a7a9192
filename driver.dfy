/**
 The batch loop of the dataset builder. The directory listing is a sequence
 of names; `os.path.isfile`, `average_value` and the captioning service are
 the three oracles of a `World`. The first failure the script does not catch
 (an image that cannot be read, a captioning error) ends the run, which is
 recorded as an `Aborted` status naming the entry and the cause.
 */
module Driver {
  import opened Wrappers
  import opened Classifiers
  import opened Naming

  /** A progress line is printed whenever the count is a multiple of this. */
  const PROGRESS_EVERY := 1000

  datatype RunError =
    | ImageUnreadable(path: string)   // average_value could not open or decode the image
    | CaptionFailed(image: string)    // the captioning service raised for this image

  datatype Status = Running | Aborted(at: nat, error: RunError)

  /** What the batch reads from outside. */
  datatype World = World(
    files: set<string>,                                // paths that are regular files
    averages: map<string, real>,                       // average_value of each readable image
    caption: (string, seq<string>) -> Option<string>)  // generate_caption; None when the service fails

  /** The script's state between iterations: the counter, the caption files
      in the output directory, the counts printed as progress lines, and
      whether an exception has ended the run. */
  datatype RunState = RunState(
    count: nat,
    outputs: map<string, string>,
    progress: seq<nat>,
    status: Status)

  /** The entry passes the `os.path.isfile` test of line 76. */
  predicate IsProcessed(w: World, fileName: string) {
    PathsFor(fileName).diffuse in w.files
  }

  /** The listed entries whose diffuse file exists, in listing order. */
  function Processed(w: World, l: seq<string>): (r: seq<string>)
    ensures |r| <= |l|
    ensures forall f :: f in r <==> f in l && IsProcessed(w, f)
    decreases |l|
  {
    if l == [] then []
    else
      var init, last := l[..|l| - 1], l[|l| - 1];
      assert l == init + [last];
      Processed(w, init) + (if IsProcessed(w, last) then [last] else [])
  }

  /** The descriptor list of lines 79-81, built specular first, then
      roughness, then normals (with the literal standard deviation 0); the
      first image that cannot be read raises. */
  function Descriptors(p: EntryPaths, averages: map<string, real>): (r: Result<seq<string>, RunError>)
    ensures r.Ok? <==> p.specular in averages && p.roughness in averages && p.normals in averages
    ensures r.Ok? ==>
      && |r.value| == 3
      && r.value[0] == DescribeSpecular(averages[p.specular]) && r.value[0] in SPECULAR_LABELS
      && r.value[1] == DescribeRoughness(averages[p.roughness]) && r.value[1] in ROUGHNESS_LABELS
      && r.value[2] == DescribeNormals(averages[p.normals], 0.0) && r.value[2] in NORMALS_LABELS
    ensures r.Err? ==>
      && r.error.ImageUnreadable? && r.error.path !in averages
      && (r.error.path == p.specular
          || (p.specular in averages && r.error.path == p.roughness)
          || (p.specular in averages && p.roughness in averages && r.error.path == p.normals))
  {
    if p.specular !in averages then Err(ImageUnreadable(p.specular))
    else if p.roughness !in averages then Err(ImageUnreadable(p.roughness))
    else if p.normals !in averages then Err(ImageUnreadable(p.normals))
    else Ok([DescribeSpecular(averages[p.specular]),
             DescribeRoughness(averages[p.roughness]),
             DescribeNormals(averages[p.normals], 0.0)])
  }

  /** Lines 79-81 as they run: the list grows by one descriptor per image read. */
  method CollectDescriptors(p: EntryPaths, averages: map<string, real>)
    returns (r: Result<seq<string>, RunError>)
    ensures r == Descriptors(p, averages)
  {
    var descriptions: seq<string> := [];
    if p.specular !in averages {
      return Err(ImageUnreadable(p.specular));
    }
    descriptions := descriptions + [DescribeSpecular(averages[p.specular])];
    if p.roughness !in averages {
      return Err(ImageUnreadable(p.roughness));
    }
    descriptions := descriptions + [DescribeRoughness(averages[p.roughness])];
    if p.normals !in averages {
      return Err(ImageUnreadable(p.normals));
    }
    descriptions := descriptions + [DescribeNormals(averages[p.normals], 0.0)];
    assert descriptions == [DescribeSpecular(averages[p.specular]),
                            DescribeRoughness(averages[p.roughness]),
                            DescribeNormals(averages[p.normals], 0.0)];
    return Ok(descriptions);
  }

  /** What lines 78-82 write into the caption file of a processed entry:
      the caption and a newline, or an exception. */
  function CaptionFile(w: World, p: EntryPaths): Result<string, RunError> {
    match Descriptors(p, w.averages)
    case Err(e) => Err(e)
    case Ok(descriptions) =>
      match w.caption(p.diffuse, descriptions)
      case None => Err(CaptionFailed(p.diffuse))
      case Some(c) => Ok(c + "\n")
  }

  /** Lines 84-85. */
  function Report(progress: seq<nat>, count: nat): seq<nat> {
    if count % PROGRESS_EVERY == 0 then progress + [count] else progress
  }

  /** One iteration of the loop, for the entry at index `i`. The caption file
      is opened (and so created empty, or truncated) before any image is read,
      and stays behind empty when reading or captioning raises. */
  function Step(s: RunState, w: World, fileName: string, i: nat): RunState {
    if s.status.Aborted? then s
    else
      var p := PathsFor(fileName);
      if p.diffuse !in w.files then
        s.(progress := Report(s.progress, s.count))
      else
        match CaptionFile(w, p)
        case Err(e) => s.(outputs := s.outputs[p.output := ""], status := Aborted(i, e))
        case Ok(line) =>
          RunState(s.count + 1, s.outputs[p.output := line], Report(s.progress, s.count + 1), Running)
  }

  /** The whole run over a listing, starting from the output directory
      `before`: the iterations applied in listing order. */
  function Run(l: seq<string>, w: World, before: map<string, string>): RunState
    decreases |l|
  {
    if l == [] then RunState(0, before, [], Running)
    else Step(Run(l[..|l| - 1], w, before), w, l[|l| - 1], |l| - 1)
  }

  /** The progress lines a run that does not raise prints: one per iteration
      after which the number of processed entries is a multiple of 1000. */
  function Milestones(w: World, l: seq<string>): (m: seq<nat>)
    ensures forall k :: 0 <= k < |m| ==> m[k] % PROGRESS_EVERY == 0 && m[k] <= |Processed(w, l)|
    ensures forall j, k :: 0 <= j <= k < |m| ==> m[j] <= m[k]
    decreases |l|
  {
    if l == [] then []
    else
      var n := |Processed(w, l)|;
      assert |Processed(w, l[..|l| - 1])| <= n;
      Milestones(w, l[..|l| - 1]) + (if n % PROGRESS_EVERY == 0 then [n] else [])
  }

  /** Lines 68-85: the loop with its counter, its per-entry descriptor list
      and its progress test; it ends at the end of the listing or at the
      first exception. */
  method RunBatch(listing: seq<string>, w: World, before: map<string, string>)
    returns (count: nat, outputs: map<string, string>, progress: seq<nat>, status: Status)
    ensures RunState(count, outputs, progress, status) == Run(listing, w, before)
    ensures status.Running? ==> count == |Processed(w, listing)| && progress == Milestones(w, listing)
    ensures status.Aborted? ==> status.at < |listing| && count == |Processed(w, listing[..status.at])|
  {
    count, outputs, progress, status := 0, before, [], Running;
    var i := 0;
    while i < |listing| && status.Running?
      invariant 0 <= i <= |listing|
      invariant RunState(count, outputs, progress, status) == Run(listing[..i], w, before)
    {
      assert listing[..i + 1][..i] == listing[..i];
      var fileName := listing[i];
      var image := ImageId(fileName);
      var diffuseFile := Join(DIFFUSE_DIR, image + DIFFUSE_SUFFIX);
      var specularFile := Join(SPECULAR_DIR, image + SPECULAR_SUFFIX);
      var roughnessFile := Join(ROUGHNESS_DIR, image + ROUGHNESS_SUFFIX);
      var normalsFile := Join(NORMALS_DIR, image + NORMALS_SUFFIX);
      if diffuseFile in w.files {
        var newFile := Join(OUTPUT_DIRECTORY, image + OUTPUT_SUFFIX);
        outputs := outputs[newFile := ""];
        var paths := EntryPaths(image, diffuseFile, specularFile, roughnessFile, normalsFile, newFile);
        var descriptions := CollectDescriptors(paths, w.averages);
        if descriptions.Err? {
          status := Aborted(i, descriptions.error);
        } else {
          var caption := w.caption(diffuseFile, descriptions.value);
          if caption.None? {
            status := Aborted(i, CaptionFailed(diffuseFile));
          } else {
            outputs := outputs[newFile := caption.value + "\n"];
            count := count + 1;
          }
        }
      }
      if status.Running? && count % PROGRESS_EVERY == 0 {
        progress := progress + [count];
      }
      i := i + 1;
    }
    if status.Aborted? {
      RunAbortedStable(listing, w, before, i);
    } else {
      assert listing[..i] == listing;
    }
    RunCount(listing, w, before);
    RunProgress(listing, w, before);
  }

  /** After an exception, the rest of the listing is never looked at. */
  lemma {:induction false} RunAbortedStable(l: seq<string>, w: World, before: map<string, string>, k: nat)
    requires k <= |l|
    requires Run(l[..k], w, before).status.Aborted?
    ensures Run(l, w, before) == Run(l[..k], w, before)
    decreases |l| - k
  {
    if k < |l| {
      var init := l[..|l| - 1];
      assert init[..k] == l[..k];
      RunAbortedStable(init, w, before, k);
    } else {
      assert l[..k] == l;
    }
  }

  /** The counter counts the entries whose diffuse file exists; a run that
      raises does so at such an entry, for the reason `CaptionFile` gives, and
      leaves that entry's caption file empty. */
  lemma {:induction false} RunCount(l: seq<string>, w: World, before: map<string, string>)
    ensures var r := Run(l, w, before);
      r.status.Running? ==> r.count == |Processed(w, l)|
    ensures var r := Run(l, w, before);
      r.status.Aborted? ==>
        && r.status.at < |l|
        && IsProcessed(w, l[r.status.at])
        && r.count == |Processed(w, l[..r.status.at])|
        && CaptionFile(w, PathsFor(l[r.status.at])) == Err(r.status.error)
        && PathsFor(l[r.status.at]).output in r.outputs
        && r.outputs[PathsFor(l[r.status.at]).output] == ""
    decreases |l|
  {
    if l != [] {
      var init := l[..|l| - 1];
      RunCount(init, w, before);
      var s := Run(init, w, before);
      if s.status.Aborted? {
        assert l[s.status.at] == init[s.status.at];
        assert l[..s.status.at] == init[..s.status.at];
      } else {
        assert l[..|l| - 1] == init;
      }
    }
  }

  /** A run that does not raise prints exactly `Milestones`; one that raises
      prints those of the entries before the failing one. */
  lemma {:induction false} RunProgress(l: seq<string>, w: World, before: map<string, string>)
    ensures var r := Run(l, w, before);
      r.status.Running? ==> r.progress == Milestones(w, l)
    ensures var r := Run(l, w, before);
      r.status.Aborted? ==> r.status.at < |l| && r.progress == Milestones(w, l[..r.status.at])
    decreases |l|
  {
    if l != [] {
      var init, last := l[..|l| - 1], l[|l| - 1];
      assert l == init + [last];
      RunProgress(init, w, before);
      RunCount(init, w, before);
      var s := Run(init, w, before);
      if s.status.Aborted? {
        assert Step(s, w, last, |init|) == s;
        assert l[..s.status.at] == init[..s.status.at];
      } else {
        ExtendProgress(init, last, w, s, Step(s, w, last, |init|));
      }
    }
  }

  /** The inductive step of RunProgress while the run is still going. */
  lemma ExtendProgress(init: seq<string>, last: string, w: World, s: RunState, r: RunState)
    requires s.status.Running? && r == Step(s, w, last, |init|)
    requires s.count == |Processed(w, init)| && s.progress == Milestones(w, init)
    ensures r.status.Running? ==> r.progress == Milestones(w, init + [last])
    ensures r.status.Aborted? ==> r.status.at == |init| && r.progress == Milestones(w, (init + [last])[..|init|])
  {
    var l := init + [last];
    assert l[..|l| - 1] == init && l[|l| - 1] == last;
    assert l[..|init|] == init;
    if !IsProcessed(w, last) {
      assert Processed(w, l) == Processed(w, init);
    } else if CaptionFile(w, PathsFor(last)).Ok? {
      assert Processed(w, l) == Processed(w, init) + [last];
    }
  }

  /** While no entry has been processed the count stays 0, so each leading
      skipped entry prints the line for 0 once more. */
  lemma {:induction false} LeadingSkipsRepeatZero(l: seq<string>, w: World, before: map<string, string>)
    requires forall i :: 0 <= i < |l| ==> !IsProcessed(w, l[i])
    ensures Run(l, w, before) == RunState(0, before, seq(|l|, _ => 0), Running)
    decreases |l|
  {
    if l != [] {
      var init := l[..|l| - 1];
      LeadingSkipsRepeatZero(init, w, before);
      assert seq(|init|, _ => 0) + [0] == seq(|l|, _ => 0);
    }
  }

  /** The output directory a run starts from matters only for the names the
      run does not write: every other part of the result is the same. */
  lemma {:induction false} RunIndependentOfBefore(l: seq<string>, w: World, before: map<string, string>)
    ensures var r := Run(l, w, map[]);
      Run(l, w, before) == r.(outputs := before + r.outputs)
    decreases |l|
  {
    if l != [] {
      var init := l[..|l| - 1];
      RunIndependentOfBefore(init, w, before);
      var s := Run(init, w, map[]);
      var p := PathsFor(l[|l| - 1]);
      OverlayUpdate(before, s.outputs, p.output, "");
      match CaptionFile(w, p)
      case Err(_) =>
      case Ok(line) => OverlayUpdate(before, s.outputs, p.output, line);
    }
  }

  lemma OverlayUpdate(before: map<string, string>, m: map<string, string>, k: string, v: string)
    ensures (before + m)[k := v] == before + m[k := v]
  {
  }

  /** Running the batch again on the output directory it left behind, with
      the same inputs and a deterministic captioning service, changes nothing. */
  lemma RunIsIdempotent(l: seq<string>, w: World, before: map<string, string>)
    ensures var r := Run(l, w, before);
      Run(l, w, r.outputs) == r
  {
    RunIndependentOfBefore(l, w, before);
    var r := Run(l, w, before);
    RunIndependentOfBefore(l, w, r.outputs);
    var r0 := Run(l, w, map[]);
    assert (before + r0.outputs) + r0.outputs == before + r0.outputs;
  }

  /** The caption file names of a sequence of listed entries. */
  function OutputNames(fs: seq<string>): set<string> {
    set f | f in fs :: PathsFor(f).output
  }

  lemma OutputNamesSnoc(fs: seq<string>, f: string)
    ensures OutputNames(fs + [f]) == OutputNames(fs) + {PathsFor(f).output}
  {
    assert forall x :: x in fs + [f] <==> x in fs || x == f;
  }

  /** How far the loop got: every entry when it ran to the end, up to and
      including the failing entry when it raised. */
  function Reached(r: RunState, n: nat): nat {
    if r.status.Running? then n else r.status.at + 1
  }

  /** How many entries the loop finished: all of them, or those before the
      failing one. */
  function Done(r: RunState, n: nat): nat {
    if r.status.Running? then n else r.status.at
  }

  /** A caption file is written for exactly the entries the loop reached
      whose diffuse file exists (the one that raised included). */
  lemma {:induction false} RunOutputNames(l: seq<string>, w: World, before: map<string, string>)
    ensures var r := Run(l, w, before);
      Reached(r, |l|) <= |l| &&
      r.outputs.Keys == before.Keys + OutputNames(Processed(w, l[..Reached(r, |l|)]))
    decreases |l|
  {
    if l != [] {
      var init, last := l[..|l| - 1], l[|l| - 1];
      RunOutputNames(init, w, before);
      var s := Run(init, w, before);
      var r := Step(s, w, last, |init|);
      if s.status.Aborted? {
        assert r == s;
        AbortedOutputNames(l, w, before.Keys, s);
      } else {
        assert init[..|init|] == init;
        StepOutputNames(s, w, last, |init|);
        ExtendOutputNames(l, w, before.Keys, s.outputs.Keys, r.outputs.Keys);
      }
    }
  }

  /** The inductive step of RunOutputNames once the run has raised. */
  lemma AbortedOutputNames(l: seq<string>, w: World, baseNames: set<string>, s: RunState)
    requires l != [] && s.status.Aborted? && Reached(s, |l| - 1) <= |l| - 1
    requires s.outputs.Keys == baseNames + OutputNames(Processed(w, l[..|l| - 1][..Reached(s, |l| - 1)]))
    ensures Reached(s, |l|) <= |l|
    ensures s.outputs.Keys == baseNames + OutputNames(Processed(w, l[..Reached(s, |l|)]))
  {
    assert l[..|l| - 1][..Reached(s, |l| - 1)] == l[..Reached(s, |l|)];
  }

  /** The inductive step of RunOutputNames, on the sets of names alone. */
  lemma ExtendOutputNames(l: seq<string>, w: World, baseNames: set<string>, keys: set<string>, next: set<string>)
    requires l != []
    requires keys == baseNames + OutputNames(Processed(w, l[..|l| - 1]))
    requires next == keys + (if IsProcessed(w, l[|l| - 1]) then {PathsFor(l[|l| - 1]).output} else {})
    ensures next == baseNames + OutputNames(Processed(w, l[..|l|]))
  {
    var init, last := l[..|l| - 1], l[|l| - 1];
    assert l[..|l|] == l == init + [last];
    ProcessedSnoc(w, init, last);
    if IsProcessed(w, last) {
      OutputNamesSnoc(Processed(w, init), last);
    } else {
      assert Processed(w, init) + [] == Processed(w, init);
    }
  }

  /** Processed grows by the new entry exactly when its diffuse file exists. */
  lemma ProcessedSnoc(w: World, init: seq<string>, last: string)
    ensures Processed(w, init + [last]) == Processed(w, init) + (if IsProcessed(w, last) then [last] else [])
  {
    var l := init + [last];
    assert l[..|l| - 1] == init && l[|l| - 1] == last;
  }

  /** An iteration that starts while the run is still going creates the
      caption file of its entry exactly when the diffuse file exists. */
  lemma StepOutputNames(s: RunState, w: World, fileName: string, i: nat)
    requires s.status.Running?
    ensures Step(s, w, fileName, i).status.Aborted? ==> Step(s, w, fileName, i).status.at == i
    ensures Step(s, w, fileName, i).outputs.Keys ==
      s.outputs.Keys + (if IsProcessed(w, fileName) then {PathsFor(fileName).output} else {})
  {
  }

  /** Each of the first `n` entries whose diffuse file exists has its caption
      file holding what `CaptionFile` says it writes. */
  predicate CaptionsWritten(l: seq<string>, w: World, outputs: map<string, string>, n: nat)
    requires n <= |l|
  {
    forall i :: 0 <= i < n && IsProcessed(w, l[i]) ==>
      PathsFor(l[i]).output in outputs && CaptionFile(w, PathsFor(l[i])) == Ok(outputs[PathsFor(l[i]).output])
  }

  /** The caption file of every entry processed before the run ended holds
      that entry's caption. Names that share an id share their caption file,
      and a later write to it puts the same caption there again. */
  lemma {:induction false} RunOutputContents(l: seq<string>, w: World, before: map<string, string>)
    ensures var r := Run(l, w, before);
      Done(r, |l|) <= |l| && CaptionsWritten(l, w, r.outputs, Done(r, |l|))
    decreases |l|
  {
    if l != [] {
      var init, last := l[..|l| - 1], l[|l| - 1];
      assert l == init + [last];
      RunOutputContents(init, w, before);
      var s := Run(init, w, before);
      if s.status.Running? {
        ExtendOutputContents(init, last, w, s, Step(s, w, last, |init|));
      } else {
        AbortedOutputContents(init, last, w, s);
      }
    }
  }

  /** The inductive step of RunOutputContents: an iteration keeps every
      earlier caption file. One that shares the new entry's path belongs to
      a name of the same id, so the new write repeats its content, and the
      new entry cannot raise. */
  lemma ExtendOutputContents(init: seq<string>, last: string, w: World, s: RunState, r: RunState)
    requires s.status.Running? && r == Step(s, w, last, |init|)
    requires CaptionsWritten(init, w, s.outputs, |init|)
    ensures Done(r, |init| + 1) <= |init| + 1
    ensures CaptionsWritten(init + [last], w, r.outputs, Done(r, |init| + 1))
  {
    var l := init + [last];
    forall i | 0 <= i < |init| && PathsFor(init[i]).output == PathsFor(last).output
      ensures PathsFor(init[i]) == PathsFor(last)
    {
      OutputPathIdentifiesImage(init[i], last);
    }
    assert forall i :: 0 <= i < |init| ==> l[i] == init[i];
  }

  /** The inductive step of RunOutputContents once the run has raised. */
  lemma AbortedOutputContents(init: seq<string>, last: string, w: World, s: RunState)
    requires s.status.Aborted? && Done(s, |init|) <= |init|
    requires CaptionsWritten(init, w, s.outputs, Done(s, |init|))
    ensures Step(s, w, last, |init|) == s
    ensures CaptionsWritten(init + [last], w, s.outputs, Done(s, |init|))
  {
    var l := init + [last];
    assert forall i :: 0 <= i < |init| ==> l[i] == init[i];
  }

  /** When every listed name is `<id>_diffuse.png` and really is a file in the
      diffuse directory, every entry is processed. */
  lemma {:induction false} ListedDiffuseFilesAreProcessed(w: World, l: seq<string>)
    requires forall f :: f in l ==> EndsWith(f, DIFFUSE_SUFFIX) && Join(DIFFUSE_DIR, f) in w.files
    ensures Processed(w, l) == l
    decreases |l|
  {
    if l != [] {
      var init := l[..|l| - 1];
      ListedDiffuseFilesAreProcessed(w, init);
      DiffuseNameRoundTrip(l[|l| - 1]);
      assert init + [l[|l| - 1]] == l;
    }
  }

  /** A diffuse directory holding one `<id>_diffuse.png` with all three
      companion images readable and a working captioning service: one caption
      file `training_dataset/<id>.txt` ending in a newline, and a count of 1. */
  lemma OneImageRun(id: string, w: World, before: map<string, string>)
    requires var p := PathsFor(id + DIFFUSE_SUFFIX);
      && p.diffuse in w.files
      && p.specular in w.averages && p.roughness in w.averages && p.normals in w.averages
      && forall d :: w.caption(p.diffuse, d).Some?
    ensures var r := Run([id + DIFFUSE_SUFFIX], w, before);
      var out := Join(OUTPUT_DIRECTORY, id + OUTPUT_SUFFIX);
      && r.status == Running && r.count == 1 && r.progress == []
      && r.outputs.Keys == before.Keys + {out}
      && EndsWith(r.outputs[out], "\n")
  {
    ImageIdOfDiffuseName(id);
    var l := [id + DIFFUSE_SUFFIX];
    assert l[..0] == [];
  }
}
