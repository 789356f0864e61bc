/**
 * `probe_camera` of the camera lister (self-made/camlist.py): open an OpenCV
 * index, read up to `warmup` frames, stopping at the first usable one, and
 * describe the camera unless the capture did not open or the last read
 * failed. The capture, its reads and its reported properties are inputs.
 */
module CamList {
  import opened Wrappers
  import opened Text
  import opened CameraProbe

  /** OpenCV's `cv2.CAP_MSMF`, the lister's default backend. */
  const CapMsmf: int := 1400

  /** The read number `k` of the warm-up; reads past the supplied ones fail. */
  function ReadAt(readings: seq<Read>, k: nat): (r: Read)
    ensures k >= |readings| ==> !r.ok && r.frame.None?
    ensures k < |readings| ==> r == readings[k]
  {
    if k < |readings| then readings[k] else Read(false, None)
  }

  /** The index of the first usable read among the first `n`, if any. */
  function FirstUsableAt(readings: seq<Read>, n: nat): (r: Option<nat>)
    ensures r.Some? ==> r.value < n && Usable(ReadAt(readings, r.value))
    ensures r.Some? ==> forall j :: 0 <= j < r.value ==> !Usable(ReadAt(readings, j))
    ensures r.None? ==> forall j :: 0 <= j < n ==> !Usable(ReadAt(readings, j))
  {
    if n == 0 then None
    else
      var r := FirstUsableAt(readings, n - 1);
      if r.Some? then r
      else if Usable(ReadAt(readings, n - 1)) then Some(n - 1)
      else None
  }

  /**
   * The `(ok, frame)` pair the warm-up loop leaves behind: the first usable
   * read, else the last read attempted, else the initial `(False, None)`
   * when `warmup` is 0.
   */
  function LastRead(readings: seq<Read>, warmup: nat): Read {
    match FirstUsableAt(readings, warmup)
    case Some(k) => ReadAt(readings, k)
    case None => if warmup == 0 then Read(false, None) else ReadAt(readings, warmup - 1)
  }

  /** The dictionary `probe_camera` returns, without the float-valued properties. */
  datatype Info = Info(index: int, backend: string, frame: Frame, fourcc: int)

  /**
   * What a probe ends in: None, the description, or the exception raised by
   * `frame.shape` when the last read succeeded without a frame.
   */
  datatype Probe = NoCamera | Described(info: Info) | NoFrameShape

  /** The backend's label: "MSMF" for Media Foundation, its number otherwise. */
  function BackendLabel(backend: int): (s: string)
    ensures backend == CapMsmf <==> s == "MSMF"
    ensures backend != CapMsmf ==> s != [] && (s[0] == '-' || IsDigit(s[0]))
  {
    if backend == CapMsmf then "MSMF"
    else
      var t := IntToString(backend);
      assert t[0] == '-' || IsDigit(t[0]);
      t
  }

  /**
   * `probe_camera(idx, backend, warmup)`: `isOpened` is what the capture
   * reports, `readings` the successive reads and `fourcc` the integer the
   * capture reports for its FOURCC property.
   */
  method ProbeCamera(idx: int, backend: int, warmup: nat, isOpened: bool, readings: seq<Read>, fourcc: int)
    returns (p: Probe)
    ensures !isOpened ==> p == NoCamera
    ensures isOpened && !LastRead(readings, warmup).ok ==> p == NoCamera
    ensures isOpened && LastRead(readings, warmup).ok && LastRead(readings, warmup).frame.None? ==> p == NoFrameShape
    ensures isOpened && LastRead(readings, warmup).ok && LastRead(readings, warmup).frame.Some? ==>
              p == Described(Info(idx, BackendLabel(backend), LastRead(readings, warmup).frame.value, fourcc))
  {
    if !isOpened {
      return NoCamera;
    }
    var ok := false;
    var frame: Option<Frame> := None;
    var k := 0;
    while k < warmup
      invariant 0 <= k <= warmup
      invariant FirstUsableAt(readings, k).None?
      invariant Read(ok, frame) == if k == 0 then Read(false, None) else ReadAt(readings, k - 1)
    {
      var r := ReadAt(readings, k);
      ok, frame := r.ok, r.frame;
      if ok && frame.Some? && frame.value.size > 0 {
        assert FirstUsableAt(readings, k + 1) == Some(k);
        FirstUsableFixed(readings, k + 1, warmup);
        break;
      }
      k := k + 1;
    }
    if k == warmup && k > 0 {
      FirstUsableFixed(readings, warmup, warmup);
    }
    if !ok {
      return NoCamera;
    }
    if frame.None? {
      return NoFrameShape;
    }
    p := Described(Info(idx, BackendLabel(backend), frame.value, fourcc));
  }

  /** Once a usable read is found among the first `n`, looking further does not move it. */
  lemma {:induction false} FirstUsableFixed(readings: seq<Read>, n: nat, m: nat)
    requires n <= m
    ensures FirstUsableAt(readings, n).Some? ==> FirstUsableAt(readings, m) == FirstUsableAt(readings, n)
    ensures FirstUsableAt(readings, m).None? ==> FirstUsableAt(readings, n).None?
    decreases m - n
  {
    if n < m {
      FirstUsableFixed(readings, n + 1, m);
    }
  }

  /** With no warm-up reads, or when no read succeeds, the probe finds no camera. */
  lemma NoOkReadNoCamera(readings: seq<Read>, warmup: nat)
    requires forall k :: 0 <= k < |readings| && k < warmup ==> !readings[k].ok
    ensures !LastRead(readings, warmup).ok
  {
    if warmup > 0 {
      var k := if FirstUsableAt(readings, warmup).Some? then FirstUsableAt(readings, warmup).value else warmup - 1;
      assert !ReadAt(readings, k).ok;
    }
  }

  /**
   * A usable read within the warm-up makes the probe describe the camera with
   * the same frame `try_open_index` of the duplicate finder keeps.
   */
  lemma UsableReadDescribes(readings: seq<Read>, warmup: nat)
    requires exists k :: 0 <= k < |readings| && k < warmup && Usable(readings[k])
    ensures LastRead(readings, warmup).ok
    ensures LastRead(readings, warmup).frame == FirstUsable(readings[..if warmup < |readings| then warmup else |readings|])
  {
    var n := if warmup < |readings| then warmup else |readings|;
    var k :| 0 <= k < |readings| && k < warmup && Usable(readings[k]);
    assert ReadAt(readings, k) == readings[k];
    var j := FirstUsableAt(readings, warmup).value;
    FirstUsableOfPrefix(readings, n, j);
  }

  /** `FirstUsable` of a prefix holding the first usable read is that read's frame. */
  lemma {:induction false} FirstUsableOfPrefix(readings: seq<Read>, n: nat, j: nat)
    requires n <= |readings| && j < n && Usable(readings[j])
    requires forall i :: 0 <= i < j ==> !Usable(ReadAt(readings, i))
    ensures FirstUsable(readings[..n]) == readings[j].frame
    decreases n
  {
    if j < n - 1 {
      FirstUsableOfPrefix(readings, n - 1, j);
      assert readings[..n][..n - 1] == readings[..n - 1];
    } else {
      var s := readings[..n];
      var t := readings[..n - 1];
      assert s[..n - 1] == t;
      forall i | 0 <= i < n - 1
        ensures !Usable(t[i])
      {
        assert ReadAt(readings, i) == t[i];
      }
      assert FirstUsable(t).None?;
    }
  }

  /**
   * A last read that reports success with an empty frame still yields a
   * description, whose frame has no elements.
   */
  lemma EmptyFrameDescribed(readings: seq<Read>, warmup: nat)
    requires 0 < warmup <= |readings|
    requires forall k :: 0 <= k < warmup ==> !Usable(readings[k])
    requires readings[warmup - 1].ok && readings[warmup - 1].frame.Some?
    ensures LastRead(readings, warmup).ok && LastRead(readings, warmup).frame.Some?
    ensures LastRead(readings, warmup).frame.value.size == 0
  {
    assert ReadAt(readings, warmup - 1) == readings[warmup - 1];
    assert FirstUsableAt(readings, warmup).None?;
  }
}
