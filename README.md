# make_training_dataset: a Dafny model

`make_training_dataset.py` builds a caption dataset for material textures.
For every file in the diffuse directory of an SVBRDF set, it does this:

- cuts an image id from the file name;
- derives the paths of the specular, roughness and normals maps;
- turns the average pixel value of each map into a word label;
- asks a vision-language model for a one-sentence caption of the diffuse image;
- writes that caption to `training_dataset/<id>.txt`;
- counts the processed images and prints a progress line whenever the count is a multiple of 1000.

The model has four modules:

- `Classifiers` (`classifiers.dfy`): `describe_specular`, `describe_roughness` and `describe_normals`.
  Their range tests are Python's `value in range(lo, hi)` on a float.
  Python evaluates that as "the value equals one of the integers lo … hi-1".
  So only whole numbers pass: `12.0` is in `range(10, 15)`, `12.5` is not.
  The ghost predicate `RangeHolds` states that meaning as written.
  The decidable `InRange` is the test the functions compute.
  `InRangeIsRangeMembership` proves the two agree.
  Each classifier's contract then pins down its three labels in both directions, including all the fractional values that fall through to the last label.
- `Naming` (`naming.dfy`): the directory constants and Python's `s[:stop]` slice (`SliceTo`).
  It gives the image id `file_name[:-12]` and the five paths built from it.
  `IdOf` inverts "join a directory with `id + suffix`" and serves as the partner for the path lemmas.
- `Driver` (`driver.dfy`): the loop.
  The listing is a `seq<string>`.
  A `World` holds the three oracles:
  - the set of paths that are regular files (`os.path.isfile`);
  - a map from each readable image's path to its average value (`average_value`);
  - a captioning function that returns `None` when the service fails (`generate_caption`).

  `Run` is the specification: one `Step` per entry, in listing order.
  `RunBatch` is the loop itself, with its counter, its per-entry descriptor list and its progress test.
  Its postcondition is that it computes exactly `Run`.
  The script catches no exception, so an image that cannot be read, or a caption request that fails, ends the run.
  The model records that as `Aborted(at, error)`.
- `Wrappers` (`wrappers.dfy`): `Option` and `Result`.

Two behaviours of the code are worth stating outright:

- The caption file is opened with `"w"` (line 78) before the three averages are read (lines 79-81).
  So a failing read leaves the file behind, created or truncated, and empty.
  `RunCount` states this: a run that raises leaves the failing entry's caption file existing and empty.
- The range test truncates nothing: it is equality with an integer of the range.

## Model

| member | source | states |
|---|---|---|
| Classifiers.InRangeIsRangeMembership | make_training_dataset.py:43 | the decidable test "whole and lo <= value < hi" holds exactly when the value equals some integer that `range(lo, hi)` yields |
| Classifiers.DescribeSpecular | make_training_dataset.py:42-48 | the label is one of the three specular labels; "dull" iff the value equals an integer in [10,15); "glossy" iff it equals an integer in [15,20); "extra shiny" iff the value is not whole, or is below 10, or is 20 or more |
| Classifiers.DescribeRoughness | make_training_dataset.py:50-56 | the label is one of the three roughness labels; "decently smooth" iff the value equals an integer in [50,100); "a bit rough" iff it equals an integer in [100,150); "pretty rough" iff the value is not whole, or is below 50, or is 150 or more |
| Classifiers.DescribeNormals | make_training_dataset.py:58-64 | the label is one of the three normals labels; "low roughness" iff avg < 160, fractional or not; "average roughness" iff avg equals an integer in [160,170); "high roughness" iff avg >= 160 and it is either not whole or at least 170 (so 165.5 gives "high roughness") |
| Classifiers.LabelsAreDistinct | make_training_dataset.py:42-64 | each classifier's three labels are pairwise different, so a result is exactly one of them |
| Classifiers.NormalsIgnoresStdev | make_training_dataset.py:58-64 | the standard-deviation argument never changes the normals label |
| Classifiers.ClassifierExamples | make_training_dataset.py:42-64 | the worked values: 12 dull, 17 glossy, 5 and 22 and 12.5 extra shiny; 75 decently smooth, 120 a bit rough, 200 and 75.25 pretty rough; 140 and 159.5 low, 165 average, 180 and 165.5 high roughness |
| Naming.SliceTo | make_training_dataset.py:70 | Python's `s[:stop]`: a negative stop counts from the end and is clamped to the string; its contract for the stop -12 of line 70 is `Naming.ImageIdDropsSuffix` |
| Naming.ImageId | make_training_dataset.py:70 | `file_name[:-12]`; its contract is carried by `Naming.ImageIdDropsSuffix`, `Naming.DiffuseNameRoundTrip` and `Naming.ImageIdOfDiffuseName` |
| Naming.ImageIdDropsSuffix | make_training_dataset.py:70 | for a name of at least 12 characters, the id is the name minus its last 12 characters (id + those 12 == name); for a shorter name it is empty |
| Naming.DiffuseNameRoundTrip | make_training_dataset.py:70-72 | for a name ending in "_diffuse.png", id + "_diffuse.png" is the name again, and the derived diffuse path is the listed file itself |
| Naming.ImageIdOfDiffuseName | make_training_dataset.py:70-72 | cutting the id from id + "_diffuse.png" gives back id, for every id |
| Naming.DiffuseNameIdsAreDistinct | make_training_dataset.py:69-72 | two "_diffuse.png" names have the same id iff they are the same name |
| Naming.Join | make_training_dataset.py:72-77 | `os.path.join(dir, name)` as `dir + "/" + name`; its inverse is `Naming.IdOf`, and `Naming.IdOfJoin` proves the round trip |
| Naming.IdOf | make_training_dataset.py:72-77 | when it finds an id, joining the directory with that id and the suffix rebuilds the path exactly |
| Naming.IdOfJoin | make_training_dataset.py:72-77 | a path built as dir + "/" + id + suffix gives back exactly id when that directory and suffix are stripped |
| Naming.PathsFor | make_training_dataset.py:70-77 | the id and the five paths of lines 70-77; its contract is carried by `Naming.PathsShareId` and `Naming.OutputPathIdentifiesImage` |
| Naming.PathsShareId | make_training_dataset.py:70-77 | the diffuse, specular, roughness, normals and output paths all carry the same id; each gives it back when its own directory and suffix are stripped |
| Naming.OutputPathIdentifiesImage | make_training_dataset.py:77 | two listed names get the same caption file iff they have the same id |
| Driver.IsProcessed | make_training_dataset.py:76 | the isfile test on the derived diffuse path; `Driver.Processed` and `Driver.RunCount` state what it selects |
| Driver.Processed | make_training_dataset.py:76 | the entries whose diffuse file exists: a name is in it iff it is listed and its diffuse path is a file; never longer than the listing |
| Driver.Descriptors | make_training_dataset.py:79-81 | the list is built only when all three maps are readable; then it has three entries in the order specular, roughness, normals (with a stdev of 0), each from its classifier's label set; otherwise the error names the first unreadable map in that order |
| Driver.CollectDescriptors | make_training_dataset.py:79-81 | growing the list one descriptor at a time yields exactly `Descriptors` |
| Driver.CaptionFile | make_training_dataset.py:77-82 | what a processed entry writes (caption plus newline) or raises; `Driver.RunCount` states the raise, `Driver.RunOutputContents` the written content |
| Driver.Report | make_training_dataset.py:84-85 | the progress test; `Driver.RunProgress` and `Driver.Milestones` state which counts are printed |
| Driver.Step | make_training_dataset.py:69-85 | one iteration; its contract is carried by `Driver.RunCount`, `Driver.RunProgress`, `Driver.RunOutputNames` and `Driver.RunAbortedStable` |
| Driver.Run | make_training_dataset.py:68-85 | the whole loop as a fold of `Step`; `Driver.RunBatch` is proved equal to it, and `Driver.RunCount`, `Driver.RunProgress`, `Driver.RunOutputNames`, `Driver.RunOutputContents` and `Driver.RunIsIdempotent` state its properties |
| Driver.Milestones | make_training_dataset.py:84-85 | every printed count is a multiple of 1000 and at most the number of processed entries; the printed counts never decrease |
| Driver.RunBatch | make_training_dataset.py:68-85 | the loop computes exactly the specified run; if it finishes, the count is the number of entries whose diffuse file exists and the progress lines are `Milestones`; if it raises, it does so at an index inside the listing, with the count of the processed entries before it |
| Driver.RunAbortedStable | make_training_dataset.py:69-82 | once an exception has been raised, the rest of the listing changes nothing |
| Driver.RunCount | make_training_dataset.py:76-83 | a run that finishes counts exactly the entries whose diffuse file exists; a run that raises does so at such an entry, for the reason `CaptionFile` gives, with the count of the ones before it, and leaves that entry's caption file empty |
| Driver.RunProgress | make_training_dataset.py:83-85 | the progress lines are one per finished iteration, processed or skipped, whose count is a multiple of 1000; the iteration that raises prints none |
| Driver.LeadingSkipsRepeatZero | make_training_dataset.py:83-85 | k skipped entries with no processed one give count 0 and k progress lines all reading 0 |
| Driver.RunIndependentOfBefore | make_training_dataset.py:77-82 | the files already in the output directory affect only the names the run does not write; count, progress and status do not depend on them |
| Driver.RunIsIdempotent | make_training_dataset.py:77-82 | running again over the output directory a run left, with the same inputs and a deterministic captioner, gives the same result |
| Driver.RunOutputNames | make_training_dataset.py:76-78 | the output directory ends up holding exactly its old files plus the caption files of the reached entries whose diffuse file exists, the one that raised included |
| Driver.RunOutputContents | make_training_dataset.py:76-82 | each entry processed before the run ended has a caption file holding its caption and a newline, for every listing, names that share an id included (they share the file and write the same content); so a run that finishes met no processed entry whose images or caption fail, and a run that raises does so at the first such entry |
| Driver.ListedDiffuseFilesAreProcessed | make_training_dataset.py:69-76 | when every listed name is "<id>_diffuse.png" and is a file in the diffuse directory, every entry is processed |
| Driver.OneImageRun | make_training_dataset.py:68-85 | one "<id>_diffuse.png" with readable companions and a working captioner gives count 1 and no progress line, and the output directory gains training_dataset/<id>.txt, ending in a newline |

## Left out

- `generate_caption` (lines 13-26) calls an external chat service. It is the opaque `World.caption`, from the diffuse path and the descriptor list to a caption, or `None` when the service fails. Not modelled: the model name, the prompt text and its tuple formatting of the descriptors. `World.caption` is a function, so a given path and descriptor list always get the same caption; a nondeterministic service is not modelled.
- `average_value` and `standard_deviation` (lines 28-40) wrap image decoding, numpy mean and standard deviation, and rounding to 6 places. The averages are given as exact reals in `World.averages`. A path missing from that map stands for an image that does not exist or does not decode. `standard_deviation` is never called by the loop.
- Floating point: NaN, infinities and rounding are not modelled; a statistic is an exact real.
- File system: `os.listdir` is the given listing. `os.path.isfile` is membership in `World.files`. The output directory is assumed to exist, and a failing `open` or `write` is not modelled. `os.path.join` is `dir + "/" + name`, since a listed name holds no separator.
- Console output and timing (lines 67, 85-87): a progress line is modelled as the count it prints. The message text, the clock and the final summary line are not modelled.
- Caption files are modelled as a map from path to content. Exceptions other than an unreadable image or a failing caption service, such as keyboard interrupts or encoding errors, are not modelled.
