/**
 How the dataset builder names things: the directory constants, the image id
 cut from a listed file name, and the five paths derived from that id (four
 input images and one caption file).
 */
module Naming {
  import opened Wrappers

  const SVBRDFS_DIR := "matfusion/datasets/cc0_svbrdfs"
  const DIFFUSE_DIR := SVBRDFS_DIR + "/diffuse"
  const NORMALS_DIR := SVBRDFS_DIR + "/normals"
  const ROUGHNESS_DIR := SVBRDFS_DIR + "/roughness"
  const SPECULAR_DIR := SVBRDFS_DIR + "/specular"
  const OUTPUT_DIRECTORY := "training_dataset"

  const DIFFUSE_SUFFIX := "_diffuse.png"
  const SPECULAR_SUFFIX := "_specular.png"
  const ROUGHNESS_SUFFIX := "_roughness.png"
  const NORMALS_SUFFIX := "_normals.png"
  const OUTPUT_SUFFIX := ".txt"

  /** The number of characters the id slice drops from a listed name. */
  const ID_CUT := 12

  predicate EndsWith(s: string, suffix: string) {
    |suffix| <= |s| && s[|s| - |suffix|..] == suffix
  }

  /** Python's `s[:stop]`: a negative stop counts from the end of `s`, and a
      stop outside the string is clamped to it. */
  function SliceTo(s: string, stop: int): string {
    var end := if stop < 0 then |s| + stop else stop;
    if end < 0 then [] else if end > |s| then s else s[..end]
  }

  /** `file_name[:-12]`: the name without its last twelve characters, and the
      empty string for a name of twelve characters or fewer. */
  function ImageId(fileName: string): string {
    SliceTo(fileName, -ID_CUT)
  }

  lemma ImageIdDropsSuffix(fileName: string)
    ensures var id := ImageId(fileName);
      && (|fileName| >= ID_CUT ==> |id| == |fileName| - ID_CUT && id + fileName[|id|..] == fileName)
      && (|fileName| < ID_CUT ==> id == [])
  {
  }

  /** `os.path.join(dir, name)` for a name that holds no separator and is not
      absolute, which is all the batch ever joins. */
  function Join(dir: string, name: string): string {
    dir + "/" + name
  }

  /** The inverse of joining `dir` with `id + suffix`: the id, if `path` has
      that directory and that suffix. */
  function IdOf(path: string, dir: string, suffix: string): (r: Option<string>)
    ensures r.Some? ==> Join(dir, r.value + suffix) == path
  {
    var head := dir + "/";
    if |head| + |suffix| <= |path| && path[..|head|] == head && path[|path| - |suffix|..] == suffix
    then
      var id := path[|head|..|path| - |suffix|];
      assert path == path[..|head|] + id + path[|path| - |suffix|..];
      Some(id)
    else None
  }

  lemma IdOfJoin(dir: string, id: string, suffix: string)
    ensures IdOf(Join(dir, id + suffix), dir, suffix) == Some(id)
  {
    var path := Join(dir, id + suffix);
    var head := dir + "/";
    assert path == head + id + suffix;
    assert path[..|head|] == head;
    assert path[|path| - |suffix|..] == suffix;
    assert path[|head|..|path| - |suffix|] == id;
  }

  /** Everything the batch derives from one listed file name (lines 70-77). */
  datatype EntryPaths = EntryPaths(
    id: string,
    diffuse: string,
    specular: string,
    roughness: string,
    normals: string,
    output: string)

  function PathsFor(fileName: string): EntryPaths {
    var id := ImageId(fileName);
    EntryPaths(
      id,
      Join(DIFFUSE_DIR, id + DIFFUSE_SUFFIX),
      Join(SPECULAR_DIR, id + SPECULAR_SUFFIX),
      Join(ROUGHNESS_DIR, id + ROUGHNESS_SUFFIX),
      Join(NORMALS_DIR, id + NORMALS_SUFFIX),
      Join(OUTPUT_DIRECTORY, id + OUTPUT_SUFFIX))
  }

  /** All five derived paths carry the one id, and each is told apart from the
      others only by its directory and its suffix. */
  lemma PathsShareId(fileName: string)
    ensures var p := PathsFor(fileName);
      && p.id == ImageId(fileName)
      && IdOf(p.diffuse, DIFFUSE_DIR, DIFFUSE_SUFFIX) == Some(p.id)
      && IdOf(p.specular, SPECULAR_DIR, SPECULAR_SUFFIX) == Some(p.id)
      && IdOf(p.roughness, ROUGHNESS_DIR, ROUGHNESS_SUFFIX) == Some(p.id)
      && IdOf(p.normals, NORMALS_DIR, NORMALS_SUFFIX) == Some(p.id)
      && IdOf(p.output, OUTPUT_DIRECTORY, OUTPUT_SUFFIX) == Some(p.id)
  {
    var id := ImageId(fileName);
    IdOfJoin(DIFFUSE_DIR, id, DIFFUSE_SUFFIX);
    IdOfJoin(SPECULAR_DIR, id, SPECULAR_SUFFIX);
    IdOfJoin(ROUGHNESS_DIR, id, ROUGHNESS_SUFFIX);
    IdOfJoin(NORMALS_DIR, id, NORMALS_SUFFIX);
    IdOfJoin(OUTPUT_DIRECTORY, id, OUTPUT_SUFFIX);
  }

  /** Two listed names share a caption file exactly when they share an id. */
  lemma OutputPathIdentifiesImage(a: string, b: string)
    ensures PathsFor(a).output == PathsFor(b).output <==> ImageId(a) == ImageId(b)
  {
    PathsShareId(a);
    PathsShareId(b);
  }

  /** A listed `<id>_diffuse.png` yields `<id>` back, and its diffuse path is
      the listed file itself. */
  lemma DiffuseNameRoundTrip(fileName: string)
    requires EndsWith(fileName, DIFFUSE_SUFFIX)
    ensures ImageId(fileName) + DIFFUSE_SUFFIX == fileName
    ensures PathsFor(fileName).diffuse == Join(DIFFUSE_DIR, fileName)
  {
    assert |DIFFUSE_SUFFIX| == ID_CUT;
    ImageIdDropsSuffix(fileName);
    var id := ImageId(fileName);
    assert fileName[|id|..] == DIFFUSE_SUFFIX;
  }

  lemma ImageIdOfDiffuseName(id: string)
    ensures ImageId(id + DIFFUSE_SUFFIX) == id
  {
    assert |DIFFUSE_SUFFIX| == ID_CUT;
    var name := id + DIFFUSE_SUFFIX;
    assert ImageId(name) == name[..|id|];
    assert name[..|id|] == id;
  }

  /** Distinct listed `_diffuse.png` names never share an id, so they never
      share a caption file. */
  lemma DiffuseNameIdsAreDistinct(a: string, b: string)
    requires EndsWith(a, DIFFUSE_SUFFIX) && EndsWith(b, DIFFUSE_SUFFIX)
    ensures ImageId(a) == ImageId(b) <==> a == b
  {
    DiffuseNameRoundTrip(a);
    DiffuseNameRoundTrip(b);
  }
}
