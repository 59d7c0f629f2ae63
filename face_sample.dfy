/** `collect_face_samples`: finds a working webcam among indices 0 to 2,
    then saves every face the detector finds in each frame as
    `face.1.<count>.jpg` until 50 are saved or a frame cannot be read. */
module FaceSample {
  import opened Common
  import opened FileStore
  import opened Layout
  import Ui

  const FaceId: string := "1"
  const NumSamples: nat := 50
  /** Camera indices 0, 1 and 2 are tried. */
  const CameraIndices: nat := 3

  /** The name of the `count`-th saved face. */
  function FaceName(count: nat): string {
    "face." + FaceId + "." + NatToString(count) + ".jpg"
  }

  function FacePath(count: nat): Path {
    FaceSamplesDir + [FaceName(count)]
  }

  /** The paths of faces 1 to `count`. */
  function FacePaths(count: nat): set<Path> {
    if count == 0 then {} else FacePaths(count - 1) + {FacePath(count)}
  }

  lemma {:induction false} FacePathsHolds(count: nat, p: Path)
    ensures p in FacePaths(count) <==> exists j :: 1 <= j <= count && p == FacePath(j)
  {
    if count > 0 {
      FacePathsHolds(count - 1, p);
    }
  }

  /** A call on a `cv2.VideoCapture`. */
  datatype CameraCall = Open(index: nat) | Release(index: nat)

  /** The webcams `cv2.VideoCapture` can reach, and the calls made on them. */
  class Webcams {
    /** The indices whose capture opens. */
    const working: set<nat>
    var calls: seq<CameraCall>

    constructor (working: set<nat>)
      ensures this.working == working && calls == []
    {
      this.working := working;
      calls := [];
    }

    /** `cv2.VideoCapture(i, cv2.CAP_DSHOW)` followed by `isOpened()`. */
    method Open(i: nat) returns (isOpen: bool)
      modifies this
      ensures isOpen == (i in working)
      ensures calls == old(calls) + [CameraCall.Open(i)]
    {
      calls := calls + [CameraCall.Open(i)];
      isOpen := i in working;
    }

    /** `cam.release()` */
    method Release(i: nat)
      modifies this
      ensures calls == old(calls) + [CameraCall.Release(i)]
    {
      calls := calls + [CameraCall.Release(i)];
    }
  }

  /** The first index from `i` up to 2 whose camera opens. */
  function FirstWorking(working: set<nat>, i: nat): (r: Option<nat>)
    ensures r.Some? ==> i <= r.value < CameraIndices && r.value in working
    ensures forall j :: i <= j < CameraIndices && (r.None? || j < r.value) ==> j !in working
    decreases CameraIndices - i
  {
    if i >= CameraIndices then None
    else if i in working then Some(i)
    else FirstWorking(working, i + 1)
  }

  /** The calls the probe makes from index `i`: each index that fails is
      opened and released, and the first that works is opened and kept. */
  function ProbeCalls(working: set<nat>, i: nat): seq<CameraCall>
    decreases CameraIndices - i
  {
    if i >= CameraIndices then []
    else if i in working then [CameraCall.Open(i)]
    else [CameraCall.Open(i), CameraCall.Release(i)] + ProbeCalls(working, i + 1)
  }

  /** The probe loop over indices 0, 1, 2. */
  method ProbeCameras(cams: Webcams) returns (index: Option<nat>)
    modifies cams
    ensures index == FirstWorking(cams.working, 0)
    ensures cams.calls == old(cams.calls) + ProbeCalls(cams.working, 0)
  {
    var i := 0;
    while i < CameraIndices
      invariant 0 <= i <= CameraIndices
      invariant FirstWorking(cams.working, 0) == FirstWorking(cams.working, i)
      invariant old(cams.calls) + ProbeCalls(cams.working, 0) == cams.calls + ProbeCalls(cams.working, i)
    {
      ghost var before := cams.calls;
      var isOpen := cams.Open(i);
      if isOpen {
        assert cams.calls == before + ProbeCalls(cams.working, i);
        return Some(i);
      }
      cams.Release(i);
      Ui.Regroup(before, [CameraCall.Open(i)], [CameraCall.Release(i)], ProbeCalls(cams.working, i + 1));
      i := i + 1;
    }
    index := None;
  }

  /** The count the capture loop ends with, from `count`, when the frames
      still to be read hold `faces[k]` faces each; the read after the last
      frame fails. */
  function Captured(faces: seq<nat>, count: nat): nat
  {
    if count >= NumSamples || |faces| == 0 then count
    else Captured(faces[1..], count + faces[0])
  }

  function Sum(faces: seq<nat>): nat {
    if |faces| == 0 then 0 else faces[0] + Sum(faces[1..])
  }

  /** The inner `for` loop over one frame's faces: each one raises the count
      and is written as `face.1.<count>.jpg`; `cv2.imwrite` reports a failed
      write by its result, which is ignored. */
  method SaveFaces(disk: Disk, count: nat, n: nat, ghost m: map<Path, Kind>) returns (count': nat)
    requires disk.Valid() && WellPlaced(disk.entries) && IsDir(m, FaceSamplesDir)
    requires disk.entries == WithFiles(m, FacePaths(count))
    modifies disk
    ensures disk.Valid() && WellPlaced(disk.entries)
    ensures count' == count + n
    ensures disk.entries == WithFiles(m, FacePaths(count'))
  {
    count' := count;
    var j := 0;
    while j < n
      invariant 0 <= j <= n && count' == count + j
      invariant disk.Valid() && WellPlaced(disk.entries)
      invariant disk.entries == WithFiles(m, FacePaths(count'))
    {
      count' := count' + 1;
      var p := FacePath(count');
      WithFilesIsDir(m, FacePaths(count' - 1), p);
      WithFilesIsDir(m, FacePaths(count' - 1), FaceSamplesDir);
      assert p[..|p| - 1] == FaceSamplesDir;
      FaceFileClear(FaceSamplesDir, FaceName(count'));
      WriteKeepsWellPlaced(disk.entries, p);
      var _ := disk.WriteFile(p);
      WithFilesStep(m, FacePaths(count' - 1), p);
      j := j + 1;
    }
  }

  /** The `while count < NUM_SAMPLES` loop, reading the frames `faces`. */
  method CaptureFaces(disk: Disk, faces: seq<nat>) returns (count: nat)
    requires disk.Valid() && WellPlaced(disk.entries) && IsDir(disk.entries, FaceSamplesDir)
    modifies disk
    ensures disk.Valid() && WellPlaced(disk.entries)
    ensures count == Captured(faces, 0)
    ensures disk.entries == WithFiles(old(disk.entries), FacePaths(count))
  {
    ghost var m := disk.entries;
    assert WithFiles(m, {}) == m;
    count := 0;
    var i := 0;
    while count < NumSamples
      invariant 0 <= i <= |faces|
      invariant Captured(faces, 0) == Captured(faces[i..], count)
      invariant disk.Valid() && WellPlaced(disk.entries)
      invariant disk.entries == WithFiles(m, FacePaths(count))
      decreases |faces| - i
    {
      if i == |faces| {
        break;
      }
      assert faces[i..][1..] == faces[i + 1..];
      count := SaveFaces(disk, count, faces[i], m);
      i := i + 1;
      if count >= NumSamples {
        break;
      }
    }
  }

  /** Every call the function makes on the webcams: the probe, then the
      release of the camera it kept, if any. */
  function CameraCalls(working: set<nat>): seq<CameraCall> {
    var index := FirstWorking(working, 0);
    ProbeCalls(working, 0) + if index.Some? then [CameraCall.Release(index.value)] else []
  }

  /** The store after `os.makedirs(SAMPLES_DIR, exist_ok=True)`. */
  ghost function Prepared(m: map<Path, Kind>): map<Path, Kind> {
    Ensured(m, FaceSamplesDir)
  }

  /** `collect_face_samples`. A missing cascade file stops it before any
      camera is touched; no working camera stops it after the probe.
      Otherwise it captures, releases the camera, and succeeds when at
      least 50 faces were counted. */
  method CollectFaceSamples(disk: Disk, cams: Webcams, faces: seq<nat>) returns (ok: bool)
    requires disk.Valid() && WellPlaced(disk.entries)
    modifies disk, cams
    ensures disk.Valid() && WellPlaced(disk.entries)
    ensures var started := CascadeFile in old(disk.entries) && FirstWorking(cams.working, 0).Some?;
      && ok == (started && Captured(faces, 0) >= NumSamples)
      && disk.entries == if started then WithFiles(Prepared(old(disk.entries)), FacePaths(Captured(faces, 0)))
                         else Prepared(old(disk.entries))
    ensures cams.calls == old(cams.calls) +
      if CascadeFile in old(disk.entries) then CameraCalls(cams.working) else []
  {
    ghost var m := disk.entries;
    EnsureDir(disk, FaceSamplesDir);
    assert CascadeFile[2] != FaceSamplesDir[2];
    assert CascadeFile in disk.entries <==> CascadeFile in m;
    if !disk.Exists(CascadeFile) {
      return false;
    }
    var index := ProbeCameras(cams);
    if index.None? {
      return false;
    }
    var count := CaptureFaces(disk, faces);
    cams.Release(index.value);
    ok := count >= NumSamples;
  }

  /** Faces `1` to `count` are saved under consecutive numbers. */
  lemma SavedNames(count: nat, j: nat)
    ensures FacePath(j) in FacePaths(count) <==> 1 <= j <= count
  {
    FacePathsHolds(count, FacePath(j));
    if FacePath(j) in FacePaths(count) {
      var i :| 1 <= i <= count && FacePath(i) == FacePath(j);
      FaceNameInjective(i, j);
    }
  }

  /** Different counts give different file names. */
  lemma FaceNameInjective(a: nat, b: nat)
    requires FacePath(a) == FacePath(b)
    ensures a == b
  {
    var na, nb := FaceName(a), FaceName(b);
    assert na == FacePath(a)[3] && nb == FacePath(b)[3];
    var sa, sb := NatToString(a), NatToString(b);
    assert |sa| == |sb|;
    assert sa == na[7..7 + |sa|];
    assert sb == nb[7..7 + |sb|];
    ParseNatToString(a);
    ParseNatToString(b);
  }

  /** The loop stops short of 50 only when the frames run out, and then it
      has counted every face of every frame. */
  lemma {:induction false} CapturedIsSum(faces: seq<nat>, count: nat)
    ensures Captured(faces, count) >= NumSamples <==> count + Sum(faces) >= NumSamples
    ensures Captured(faces, count) < NumSamples ==> Captured(faces, count) == count + Sum(faces)
    ensures Captured(faces, count) <= count + Sum(faces)
    decreases |faces|
  {
    if count < NumSamples && |faces| > 0 {
      CapturedIsSum(faces[1..], count + faces[0]);
    }
  }

  /** The count can pass 50, by less than the largest number of faces in
      one frame: the comparison with 50 comes only after a whole frame is saved. */
  lemma {:induction false} CapturedOvershoot(faces: seq<nat>, count: nat, most: nat)
    requires forall k :: 0 <= k < |faces| ==> faces[k] <= most
    requires count < NumSamples + most
    ensures Captured(faces, count) < NumSamples + most
    decreases |faces|
  {
    if count < NumSamples && |faces| > 0 {
      CapturedOvershoot(faces[1..], count + faces[0], most);
    }
  }

  /** A frame of 49 faces and then one of 3 saves 52 images. */
  lemma OvershootExample()
    ensures Captured([49, 3], 0) == 52
  {
    assert [49, 3][1..] == [3];
  }

  /** What one call does to the number of open handles on index `i`. */
  function Delta(call: CameraCall, i: nat): int {
    match call
    case Open(j) => if j == i then 1 else 0
    case Release(j) => if j == i then -1 else 0
  }

  /** The number of times index `i` is opened, less the times it is released. */
  function Held(calls: seq<CameraCall>, i: nat): int {
    if |calls| == 0 then 0 else Delta(calls[0], i) + Held(calls[1..], i)
  }

  lemma {:induction false} HeldAppend(a: seq<CameraCall>, b: seq<CameraCall>, i: nat)
    ensures Held(a + b, i) == Held(a, i) + Held(b, i)
    decreases |a|
  {
    if |a| > 0 {
      assert (a + b)[1..] == a[1..] + b;
      HeldAppend(a[1..], b, i);
    } else {
      assert a + b == b;
    }
  }

  /** The probe keeps exactly the camera it found open. */
  lemma {:induction false} ProbeHolds(working: set<nat>, i: nat, k: nat)
    ensures Held(ProbeCalls(working, i), k) ==
      if FirstWorking(working, i) == Some(k) then 1 else 0
    decreases CameraIndices - i
  {
    if i < CameraIndices && i !in working {
      var rest := ProbeCalls(working, i + 1);
      ProbeHolds(working, i + 1, k);
      HeldAppend([CameraCall.Open(i), CameraCall.Release(i)], rest, k);
    }
  }

  /** Every camera the function opens, it releases. */
  lemma CamerasReleased(working: set<nat>, k: nat)
    ensures Held(CameraCalls(working), k) == 0
  {
    var index := FirstWorking(working, 0);
    ProbeHolds(working, 0, k);
    HeldAppend(ProbeCalls(working, 0), if index.Some? then [CameraCall.Release(index.value)] else [], k);
  }
}
