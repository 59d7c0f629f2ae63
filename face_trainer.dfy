/** `get_images_and_labels` and `train_face_model`: every sample image whose
    name carries a numeric id gives one face per region the detector finds
    in it, labelled with that id; the recognizer is trained on them and
    written to `trainer.yml`. */
module FaceTrainer {
  import opened Common
  import opened FileStore
  import opened Layout
  import opened FaceReset
  import FaceSample
  import Ui

  /** What happens to one image: `None` when opening, converting or
      scanning it raises, otherwise the number of face regions found. */
  type Detector = string -> Option<nat>

  /** One crop `img_arr[y:y+h, x:x+w]`: region `region` of image `image`. */
  datatype Face = Face(image: string, region: nat)

  /** The id in a sample's file name `face.<id>.<n>.jpg`: the second of at
      least three dot-separated parts, when it is all digits. */
  function ParseId(name: string): (r: Option<nat>)
    ensures r.Some? <==> |Split(name, '.')| >= 3 && IsDigits(Split(name, '.')[1])
  {
    var parts := Split(name, '.');
    if |parts| < 3 then None
    else if !IsDigits(parts[1]) then None
    else Some(ParseNat(parts[1]))
  }

  /** The crops of the first `n` regions of an image. */
  function Crops(name: string, n: nat): (r: seq<Face>)
    ensures |r| == n && forall k :: 0 <= k < n ==> r[k] == Face(name, k)
  {
    if n == 0 then [] else Crops(name, n - 1) + [Face(name, n - 1)]
  }

  function Repeat(id: nat, n: nat): (r: seq<nat>)
    ensures |r| == n && forall k :: 0 <= k < n ==> r[k] == id
  {
    if n == 0 then [] else Repeat(id, n - 1) + [id]
  }

  /** The faces one image contributes: none when it cannot be read or its
      name has no numeric id. */
  function ImageFaces(name: string, detect: Detector): seq<Face> {
    match (detect(name), ParseId(name))
    case (Some(regions), Some(_)) => Crops(name, regions)
    case _ => []
  }

  function ImageLabels(name: string, detect: Detector): seq<nat> {
    match (detect(name), ParseId(name))
    case (Some(regions), Some(id)) => Repeat(id, regions)
    case _ => []
  }

  /** The faces the images `names` give, in order. */
  function Samples(names: seq<string>, detect: Detector): seq<Face> {
    if |names| == 0 then [] else ImageFaces(names[0], detect) + Samples(names[1..], detect)
  }

  /** The ids that go with them. */
  function Labels(names: seq<string>, detect: Detector): seq<nat> {
    if |names| == 0 then [] else ImageLabels(names[0], detect) + Labels(names[1..], detect)
  }

  /** The inner loop over the regions of one image. */
  method AddRegions(name: string, id: nat, regions: nat, faces: seq<Face>, ids: seq<nat>)
    returns (faces': seq<Face>, ids': seq<nat>)
    ensures faces' == faces + Crops(name, regions)
    ensures ids' == ids + Repeat(id, regions)
  {
    faces', ids' := faces, ids;
    var k := 0;
    while k < regions
      invariant 0 <= k <= regions
      invariant faces' == faces + Crops(name, k)
      invariant ids' == ids + Repeat(id, k)
    {
      faces' := faces' + [Face(name, k)];
      ids' := ids' + [id];
      k := k + 1;
    }
  }

  /** Peeling the first image off a listing. */
  lemma Unfold(images: seq<string>, i: nat, detect: Detector)
    requires i < |images|
    ensures Samples(images[i..], detect) == ImageFaces(images[i], detect) + Samples(images[i + 1..], detect)
    ensures Labels(images[i..], detect) == ImageLabels(images[i], detect) + Labels(images[i + 1..], detect)
  {
    assert images[i..][0] == images[i] && images[i..][1..] == images[i + 1..];
  }

  /** The `try` block for one image: read it, parse its name, add its
      regions; any failure skips the image. */
  method AddImage(name: string, detect: Detector, faces: seq<Face>, ids: seq<nat>)
    returns (faces': seq<Face>, ids': seq<nat>)
    ensures faces' == faces + ImageFaces(name, detect)
    ensures ids' == ids + ImageLabels(name, detect)
  {
    faces', ids' := faces, ids;
    var read := detect(name);
    if read.None? {
      return;
    }
    var id := ParseId(name);
    if id.None? {
      return;
    }
    faces', ids' := AddRegions(name, id.value, read.value, faces, ids);
  }

  /** The loop over the listed image paths. */
  method AddImages(images: seq<string>, detect: Detector) returns (faces: seq<Face>, ids: seq<nat>)
    ensures faces == Samples(images, detect) && ids == Labels(images, detect)
  {
    faces, ids := [], [];
    var i := 0;
    while i < |images|
      invariant 0 <= i <= |images|
      invariant Samples(images, detect) == faces + Samples(images[i..], detect)
      invariant Labels(images, detect) == ids + Labels(images[i..], detect)
    {
      Unfold(images, i, detect);
      Ui.Regroup2(faces, ImageFaces(images[i], detect), Samples(images[i + 1..], detect));
      Ui.Regroup2(ids, ImageLabels(images[i], detect), Labels(images[i + 1..], detect));
      faces, ids := AddImage(images[i], detect, faces, ids);
      i := i + 1;
    }
  }

  /** `get_images_and_labels(path, detector)`. The listing order is left
      open; `order` is the one the loop followed. */
  method GetImagesAndLabels(disk: Disk, path: Path, detect: Detector)
    returns (faces: seq<Face>, ids: seq<nat>, ghost order: seq<string>)
    requires disk.IsDirectory(path)
    ensures forall n :: n in order <==> n in ChildNames(disk.entries, path) && !Hidden(n)
    ensures forall i, j :: 0 <= i < j < |order| ==> order[i] != order[j]
    ensures faces == Samples(order, detect) && ids == Labels(order, detect)
  {
    var listed := disk.ListDir(path);
    var images := Visible(listed);
    order := images;
    faces, ids := AddImages(images, detect);
  }

  /** An image is useful when it can be read, its name has an id and the
      detector finds at least one region in it. */
  predicate Usable(name: string, detect: Detector) {
    detect(name).Some? && ParseId(name).Some? && detect(name).value > 0
  }

  /** Every face comes with exactly one id, the one in its image's name. */
  lemma {:induction false} LabelsMatchSamples(names: seq<string>, detect: Detector)
    ensures |Samples(names, detect)| == |Labels(names, detect)|
    ensures forall k :: 0 <= k < |Samples(names, detect)| ==>
      ParseId(Samples(names, detect)[k].image) == Some(Labels(names, detect)[k])
    decreases |names|
  {
    if |names| > 0 {
      LabelsMatchSamples(names[1..], detect);
      var r := |ImageFaces(names[0], detect)|;
      var s, l := Samples(names[1..], detect), Labels(names[1..], detect);
      forall k | 0 <= k < |Samples(names, detect)|
        ensures ParseId(Samples(names, detect)[k].image) == Some(Labels(names, detect)[k])
      {
        if k >= r {
          assert Samples(names, detect)[k] == s[k - r];
          assert Labels(names, detect)[k] == l[k - r];
        }
      }
    }
  }

  /** Some face is recovered exactly when some listed image is usable,
      whatever the listing order. */
  lemma {:induction false} FacesFound(names: seq<string>, detect: Detector)
    ensures |Samples(names, detect)| > 0 <==> exists n :: n in names && Usable(n, detect)
    decreases |names|
  {
    if |names| > 0 {
      FacesFound(names[1..], detect);
      if Usable(names[0], detect) {
        assert |Samples(names, detect)| >= |ImageFaces(names[0], detect)|;
      }
      forall n | n in names[1..] ensures n in names {
      }
      forall n | n in names && Usable(n, detect) && n != names[0] ensures n in names[1..] {
      }
    }
  }

  /** Four separator-free parts joined by the separator split back apart. */
  lemma SplitFour(a: string, b: string, c: string, d: string, sep: char)
    requires sep !in a && sep !in b && sep !in c && sep !in d
    ensures Split(a + [sep] + (b + [sep] + (c + [sep] + d)), sep) == [a, b, c, d]
  {
    SplitWithoutSeparator(d, sep);
    SplitAtFirstSeparator(c, d, sep);
    var cd := c + [sep] + d;
    SplitAtFirstSeparator(b, cd, sep);
    var bcd := b + [sep] + cd;
    SplitAtFirstSeparator(a, bcd, sep);
  }

  /** The file names the sample collection writes, `face.1.<n>.jpg`, carry
      id 1. */
  lemma SampleNameParses(count: nat)
    ensures ParseId(FaceSample.FaceName(count)) == Some(1)
  {
    var digits := NatToString(count);
    assert '.' !in digits by {
      forall i | 0 <= i < |digits| ensures digits[i] != '.' {
        assert IsDigit(digits[i]);
      }
    }
    assert FaceSample.FaceName(count) == "face" + ['.'] + ("1" + ['.'] + (digits + ['.'] + "jpg"));
    SplitFour("face", "1", digits, "jpg", '.');
  }

  /** Some listed sample image is usable. */
  ghost predicate FacesInSamples(m: map<Path, Kind>, detect: Detector) {
    exists n :: n in ChildNames(m, FaceSamplesDir) && !Hidden(n) && Usable(n, detect)
  }

  /** The training got as far as writing the model: the cascade file is
      there, the samples directory lists something, some face was found and
      the recognizer trained. */
  ghost predicate ReachesWrite(m: map<Path, Kind>, detect: Detector, trains: bool) {
    && CascadeFile in m
    && FaceSamplesDir in m && ChildNames(m, FaceSamplesDir) != {}
    && FacesInSamples(m, detect)
    && trains
  }

  /** The directories `os.makedirs(TRAINER_DIR, exist_ok=True)` needs are
      there or can be made, and `trainer.yml` can be written. */
  ghost predicate WritesModel(m: map<Path, Kind>) {
    DirsOrAbsent(m, FaceTrainerDir) && !IsDir(m, FaceTrainerFile)
  }

  /** Where the trainer file already stands as a directory, its parents are
      all directories and `os.makedirs` adds nothing. */
  lemma MakeDirsNoOp(m: map<Path, Kind>)
    requires Tree(m) && IsDir(m, FaceTrainerFile)
    ensures WithDirs(m, FaceTrainerDir) == m
  {
    forall q | q in Prefixes(FaceTrainerDir)
      ensures IsDir(m, q)
    {
      var k :| 1 <= k <= |FaceTrainerDir| && q == FaceTrainerDir[..k];
      assert q < FaceTrainerFile;
      AncestorIsDir(m, q, FaceTrainerFile);
    }
  }

  /** The `try` block: `recognizer.train`, `os.makedirs(TRAINER_DIR,
      exist_ok=True)`, `recognizer.write(TRAINER_FILE)`; any exception
      gives false. */
  method TrainAndWrite(disk: Disk, trains: bool) returns (ok: bool)
    requires disk.Valid() && WellPlaced(disk.entries)
    modifies disk
    ensures disk.Valid() && WellPlaced(disk.entries)
    ensures ok == (trains && WritesModel(old(disk.entries)))
    ensures disk.entries ==
      if ok then WithDirs(old(disk.entries), FaceTrainerDir)[FaceTrainerFile := File] else old(disk.entries)
  {
    if !trains || !DirsOrAbsent(disk.entries, FaceTrainerDir) {
      return false;
    }
    ghost var m := disk.entries;
    WithDirsKeepsWellPlaced(disk.entries, FaceTrainerDir);
    disk.MakeDirs(FaceTrainerDir);
    assert FaceTrainerFile[..|FaceTrainerFile| - 1] == FaceTrainerDir;
    assert FaceTrainerDir in Prefixes(FaceTrainerDir) by {
      assert FaceTrainerDir[..|FaceTrainerDir|] == FaceTrainerDir;
    }
    assert FaceTrainerFile !in Prefixes(FaceTrainerDir);
    FaceFileClear(FaceTrainerDir, "trainer.yml");
    WriteKeepsWellPlaced(disk.entries, FaceTrainerFile);
    ok := disk.WriteFile(FaceTrainerFile);
    if !ok {
      MakeDirsNoOp(m);
    }
  }

  /** `train_face_model`: false without the cascade file, without samples or
      without any face found, and false when training or writing raises. */
  method TrainFaceModel(disk: Disk, detect: Detector, trains: bool) returns (ok: bool)
    requires disk.Valid() && WellPlaced(disk.entries)
    modifies disk
    ensures disk.Valid() && WellPlaced(disk.entries)
    ensures ok == (ReachesWrite(old(disk.entries), detect, trains) && WritesModel(old(disk.entries)))
    ensures disk.entries ==
      if ok then WithDirs(old(disk.entries), FaceTrainerDir)[FaceTrainerFile := File] else old(disk.entries)
  {
    if !disk.Exists(CascadeFile) {
      return false;
    }
    if !disk.Exists(FaceSamplesDir) {
      return false;
    }
    assert DirsOrAbsent(disk.entries, FaceSamplesDir);
    assert FaceSamplesDir[..|FaceSamplesDir|] == FaceSamplesDir;
    var listing := disk.ListDir(FaceSamplesDir);
    if |listing| == 0 {
      return false;
    }
    assert listing[0] in ChildNames(disk.entries, FaceSamplesDir);
    var faces, ids, order := GetImagesAndLabels(disk, FaceSamplesDir, detect);
    FacesFound(order, detect);
    LabelsMatchSamples(order, detect);
    if |faces| == 0 || |ids| == 0 {
      return false;
    }
    ok := TrainAndWrite(disk, trains);
  }
}
