/**
 * backend/camera_monitor.py: the camera inventory. RealSense devices and
 * OpenCV cameras are enumerated (the enumerations themselves are inputs),
 * given ids, merged into one map, and probed by trying a list of
 * (target, backend) attempts in a fixed order.
 */
module CameraMonitor {
  import opened Wrappers
  import opened Text

  /** CameraDevice, without the suggested capture mode (a float measurement). */
  datatype CameraDevice = CameraDevice(
    id: string,
    title: string,  // the `label` field
    kind: string,
    backend: Option<string>,
    index: Option<int>,
    path: Option<string>,
    serialNumber: Option<string>,
    vendorId: Option<string>,
    productId: Option<string>)

  /** `value or ""` for an optional text. */
  function OrEmpty(value: Option<string>): string {
    if value.Some? then value.value else ""
  }

  // ---------------------------------------------------------------- _slugify

  /** The characters `_slugify` keeps: [A-Za-z0-9._-]. */
  predicate SlugChar(c: char) {
    ('A' <= c <= 'Z') || ('a' <= c <= 'z') || ('0' <= c <= '9') || c == '.' || c == '_' || c == '-'
  }

  predicate AllSlugChars(s: string) {
    forall i :: 0 <= i < |s| ==> SlugChar(s[i])
  }

  /** `re.sub(r"[^A-Za-z0-9._-]+", "-", s)`: each maximal run of other characters becomes one "-". */
  function ReplaceRuns(s: string): (r: string)
    ensures AllSlugChars(r)
    ensures |r| <= |s|
    ensures s != [] ==> r != []
    ensures s != [] && !SlugChar(s[|s| - 1]) ==> r[|r| - 1] == '-'
  {
    if s == [] then []
    else
      var init := s[..|s| - 1];
      var c := s[|s| - 1];
      if SlugChar(c) then ReplaceRuns(init) + [c]
      else if init != [] && !SlugChar(init[|init| - 1]) then ReplaceRuns(init)
      else ReplaceRuns(init) + ['-']
  }

  /** Text made of kept characters only is left alone. */
  lemma {:induction false} ReplaceRunsKeeps(s: string)
    requires AllSlugChars(s)
    ensures ReplaceRuns(s) == s
  {
    if s != [] {
      ReplaceRunsKeeps(s[..|s| - 1]);
      assert s[..|s| - 1] + [s[|s| - 1]] == s;
    }
  }

  /** A whole run of other characters becomes a single "-". */
  lemma {:induction false} ReplaceRunsOfRun(s: string)
    requires s != [] && forall i :: 0 <= i < |s| ==> !SlugChar(s[i])
    ensures ReplaceRuns(s) == "-"
  {
    if |s| > 1 {
      ReplaceRunsOfRun(s[..|s| - 1]);
    }
  }

  /** `_slugify`: strip, replace the runs, and use "cam" when nothing is left. */
  function Slugify(value: string): (r: string)
    ensures r != [] && AllSlugChars(r)
    ensures Strip(value) == [] ==> r == "cam"
  {
    var cleaned := ReplaceRuns(Strip(value));
    if cleaned == [] then "cam" else cleaned
  }

  /** Kept characters are never whitespace, so a slug is already stripped. */
  lemma StripOfSlug(s: string)
    requires AllSlugChars(s)
    ensures Strip(s) == s
  {
    if s != [] {
      assert SlugChar(s[0]) && SlugChar(s[|s| - 1]);
      StripOfStripped(s);
    }
  }

  /** Slugifying a slug changes nothing. */
  lemma SlugifyIdempotent(value: string)
    ensures Slugify(Slugify(value)) == Slugify(value)
  {
    var s := Slugify(value);
    StripOfSlug(s);
    ReplaceRunsKeeps(s);
  }

  /** The decimal text of an index is its own slug. */
  lemma SlugifyDigits(n: nat)
    ensures Slugify(NatToString(n)) == NatToString(n)
  {
    var s := NatToString(n);
    assert AllSlugChars(s);
    StripOfSlug(s);
    ReplaceRunsKeeps(s);
  }

  // ------------------------------------------------------------ _backend_flag

  /** The capture backends OpenCV is asked for. */
  datatype Backend = Msmf | Dshow | AnyBackend

  /** `_backend_flag`: no flag for a missing or empty name; otherwise a case-insensitive lookup. */
  function BackendFlag(backend: Option<string>): (r: Option<Backend>)
    ensures backend.None? || backend.value == "" ==> r.None?
    ensures backend.Some? && backend.value != "" ==>
              (r == Some(Msmf) <==> Lower(backend.value) == "msmf")
              && (r == Some(Dshow) <==> Lower(backend.value) == "dshow")
              && (r == Some(AnyBackend) <==> Lower(backend.value) == "any")
  {
    if backend.None? || backend.value == "" then None
    else
      var l := Lower(backend.value);
      if l == "msmf" then Some(Msmf)
      else if l == "dshow" then Some(Dshow)
      else if l == "any" then Some(AnyBackend)
      else None
  }

  /** The lookup ignores case: "DShow" names the DirectShow backend. */
  lemma BackendFlagExamples()
    ensures BackendFlag(Some("DShow")) == Some(Dshow)
    ensures BackendFlag(Some("MSMF")) == Some(Msmf)
    ensures BackendFlag(Some("v4l2")).None?
  {
    assert Lower("DShow") == "dshow";
    assert Lower("MSMF") == "msmf";
    assert Lower("v4l2") == "v4l2";
  }

  // --------------------------------------------------------- device detection

  /** What the RealSense SDK reports for one device; None where `get_info` raised. */
  datatype RealsenseInfo = RealsenseInfo(serial: Option<string>, name: Option<string>,
                                         vendorId: Option<string>, productId: Option<string>)

  /**
   * One RealSense device as `_detect_realsense` records it: id
   * "realsense:<serial or name>", name "Intel RealSense" when it could not be read.
   */
  function RealsenseDevice(info: RealsenseInfo): (d: CameraDevice)
    ensures d.kind == "realsense" && StartsWith(d.id, "realsense:")
    ensures d.serialNumber == info.serial && d.path == info.serial
  {
    var name := if info.name.Some? then info.name.value else "Intel RealSense";
    var id := "realsense:" + (if OrEmpty(info.serial) != "" then info.serial.value else name);
    CameraDevice(id, if name != "" then name else id, "realsense", None, None,
                 info.serial, info.serial, info.vendorId, info.productId)
  }

  /** `_detect_realsense`: one device per reported device, in order. */
  function RealsenseDevices(infos: seq<RealsenseInfo>): (ds: seq<CameraDevice>)
    ensures |ds| == |infos|
    ensures forall k :: 0 <= k < |ds| ==> ds[k] == RealsenseDevice(infos[k])
  {
    seq(|infos|, k requires 0 <= k < |infos| => RealsenseDevice(infos[k]))
  }

  /** The lower-cased (vendor, product) pairs of RealSense devices that report at least one of them. */
  function Signatures(rs: seq<CameraDevice>): set<(string, string)> {
    if rs == [] then {}
    else
      var d := rs[|rs| - 1];
      var sig := (OrEmpty(d.vendorId), OrEmpty(d.productId));
      Signatures(rs[..|rs| - 1]) + (if sig != ("", "") then {(Lower(sig.0), Lower(sig.1))} else {})
  }

  /** The non-empty serial numbers of RealSense devices. */
  function Serials(rs: seq<CameraDevice>): set<string> {
    if rs == [] then {}
    else
      var d := rs[|rs| - 1];
      Serials(rs[..|rs| - 1]) + (if OrEmpty(d.serialNumber) != "" then {d.serialNumber.value} else {})
  }

  /** One camera as `enumerate_cameras` reports it; absent name, path, vid or pid are "". */
  datatype EnumCam = EnumCam(index: int, name: string, path: string, vid: string, pid: string)

  /**
   * Whether `_detect_opencv` skips a camera: its name mentions RealSense, its
   * lower-cased vid/pid is a RealSense signature, or its path contains a
   * RealSense serial.
   */
  predicate Excluded(cam: EnumCam, signatures: set<(string, string)>, serials: set<string>) {
    Contains(Lower(cam.name), "realsense")
    || (Lower(cam.vid), Lower(cam.pid)) in signatures
    || exists s :: s in serials && s != "" && Contains(cam.path, s)
  }

  /** The label of an enumerated camera: its name, or "Camera <index>". */
  function CamLabel(cam: EnumCam): string {
    if cam.name != "" then cam.name else "Camera " + IntToString(cam.index)
  }

  /** The device recorded for an enumerated camera under `id` with capture path `path`. */
  function EnumeratedDevice(cam: EnumCam, id: string, path: Option<string>): CameraDevice {
    CameraDevice(id, CamLabel(cam), "opencv", Some("dshow"), Some(cam.index), path, None,
                 if cam.vid != "" then Some(cam.vid) else None,
                 if cam.pid != "" then Some(cam.pid) else None)
  }

  /** The device the index-probing fallback records for index `idx`. */
  function FallbackDevice(idx: nat): (d: CameraDevice)
    ensures d.id == "opencv:" + NatToString(idx) && d.kind == "opencv" && d.index == Some(idx)
  {
    SlugifyDigits(idx);
    CameraDevice("opencv:" + Slugify(NatToString(idx)), "Camera " + NatToString(idx), "opencv", None,
                 Some(idx), Some(NatToString(idx)), None, None, None)
  }

  /** Two indices give the same fallback id only if they are equal. */
  lemma FallbackIdInjective(i: nat, j: nat)
    requires FallbackDevice(i).id == FallbackDevice(j).id
    ensures i == j
  {
    var p := "opencv:";
    assert FallbackDevice(i).id[|p|..] == NatToString(i);
    assert FallbackDevice(j).id[|p|..] == NatToString(j);
    NatToStringInjective(i, j);
  }

  /** The ids of `devices`. */
  function Ids(devices: seq<CameraDevice>): set<string> {
    set k | 0 <= k < |devices| :: devices[k].id
  }

  predicate DistinctIds(devices: seq<CameraDevice>) {
    forall a, b :: 0 <= a < b < |devices| ==> devices[a].id != devices[b].id
  }

  /** The fallback's devices: one per index that opens, in index order, under distinct ids. */
  function FallbackDevices(probed: seq<bool>): (ds: seq<CameraDevice>)
    ensures |ds| <= |probed|
    ensures forall k :: 0 <= k < |ds| ==> ds[k].index.Some? && 0 <= ds[k].index.value < |probed|
                                          && probed[ds[k].index.value]
                                          && ds[k] == FallbackDevice(ds[k].index.value)
    ensures forall a, b :: 0 <= a < b < |ds| ==> ds[a].index.value < ds[b].index.value
  {
    if probed == [] then []
    else
      var n := |probed| - 1;
      var init := FallbackDevices(probed[..n]);
      FallbackStep(probed, init);
      if probed[n] then init + [FallbackDevice(n)] else init
  }

  /**
   * What the fallback's devices are for the indices `probed`: each is the
   * fallback device of an index that opened, in rising index order.
   */
  ghost predicate FallbackShape(ds: seq<CameraDevice>, probed: seq<bool>) {
    |ds| <= |probed|
    && (forall k :: 0 <= k < |ds| ==> ds[k].index.Some? && 0 <= ds[k].index.value < |probed|
                                      && probed[ds[k].index.value]
                                      && ds[k] == FallbackDevice(ds[k].index.value))
    && (forall a, b :: 0 <= a < b < |ds| ==> ds[a].index.value < ds[b].index.value)
  }

  /** The fallback devices of all but the last index extend to those of every index. */
  lemma FallbackStep(probed: seq<bool>, init: seq<CameraDevice>)
    requires probed != [] && FallbackShape(init, probed[..|probed| - 1])
    ensures var n := |probed| - 1;
            FallbackShape(if probed[n] then init + [FallbackDevice(n)] else init, probed)
  {
    var n := |probed| - 1;
    var d := FallbackDevice(n);
    var ds := if probed[n] then init + [d] else init;
    forall k | 0 <= k < |ds|
      ensures ds[k].index.Some? && 0 <= ds[k].index.value < |probed| && probed[ds[k].index.value]
              && ds[k] == FallbackDevice(ds[k].index.value)
    {
      if k < |init| {
        assert ds[k] == init[k];
        assert probed[..n][init[k].index.value] == probed[init[k].index.value];
      } else {
        assert ds[k] == d;
      }
    }
    forall a, b | 0 <= a < b < |ds|
      ensures ds[a].index.value < ds[b].index.value
    {
      assert ds[a] == init[a];
      if b < |init| {
        assert ds[b] == init[b];
      } else {
        assert ds[b] == d;
      }
    }
  }

  /** The fallback devices carry distinct ids, one per index that opens. */
  lemma FallbackDevicesDistinct(probed: seq<bool>)
    ensures DistinctIds(FallbackDevices(probed))
  {
    var ds := FallbackDevices(probed);
    forall a, b | 0 <= a < b < |ds|
      ensures ds[a].id != ds[b].id
    {
      if ds[a].id == ds[b].id {
        FallbackIdInjective(ds[a].index.value, ds[b].index.value);
      }
    }
  }

  /** The length of the longest id among `devices`. */
  function MaxIdLen(devices: seq<CameraDevice>): (n: nat)
    ensures forall k :: 0 <= k < |devices| ==> |devices[k].id| <= n
  {
    if devices == [] then 0
    else
      var m := MaxIdLen(devices[..|devices| - 1]);
      var l := |devices[|devices| - 1].id|;
      assert forall k :: 0 <= k < |devices| - 1 ==> devices[k] == devices[..|devices| - 1][k];
      if l > m then l else m
  }

  /**
   * The id `_detect_opencv` files a device under when `devices` are already
   * filed: `id0` if it is free, otherwise `id0` with "-<number of devices>"
   * appended, repeated until the id is free.
   */
  function Freshened(id0: string, devices: seq<CameraDevice>): (id: string)
    ensures id !in Ids(devices)
    ensures StartsWith(id, id0)
    ensures id0 !in Ids(devices) ==> id == id0
    ensures id0 in Ids(devices) ==> StartsWith(id, id0 + "-" + IntToString(|devices|))
    decreases MaxIdLen(devices) + 1 - |id0|
  {
    if id0 in Ids(devices) then
      var k :| 0 <= k < |devices| && devices[k].id == id0;
      var next := id0 + "-" + IntToString(|devices|);
      var id := Freshened(next, devices);
      assert StartsWith(id, next);
      StartsWithPrefix(id, id0, "-" + IntToString(|devices|));
      id
    else id0
  }

  /**
   * The id-collision loop of `_detect_opencv`: while the id is taken, append
   * "-<number of devices>".
   */
  method FreshId(id0: string, devices: seq<CameraDevice>) returns (id: string)
    ensures id == Freshened(id0, devices)
  {
    id := id0;
    while id in Ids(devices)
      invariant Freshened(id, devices) == Freshened(id0, devices)
      decreases MaxIdLen(devices) + 1 - |id|
    {
      var k :| 0 <= k < |devices| && devices[k].id == id;
      assert |id| <= MaxIdLen(devices);
      id := id + "-" + IntToString(|devices|);
    }
  }

  /** The id an enumerated camera asks for: "opencv:" plus the slug of its kept path, or of its index. */
  function BaseId(cam: EnumCam, path: Option<string>): string {
    "opencv:" + Slugify(if path.Some? then path.value else IntToString(cam.index))
  }

  /**
   * The body of `_detect_opencv`'s enumeration loop for a camera that is not
   * excluded: its capture path is dropped when its lower-cased form was seen
   * before, and its id is "opencv:" plus the slug of the path (or the index),
   * made fresh.
   */
  method AddCamera(cam: EnumCam, devices: seq<CameraDevice>, seenPaths: set<string>)
    returns (d: CameraDevice, seen: set<string>)
    ensures d == EnumeratedDevice(cam, d.id, d.path)
    ensures d.id == Freshened(BaseId(cam, d.path), devices)
    ensures d.id !in Ids(devices) && StartsWith(d.id, "opencv:")
    ensures d.path.Some? ==> d.path.value == cam.path && cam.path != "" && Lower(cam.path) !in seenPaths
                             && seen == seenPaths + {Lower(cam.path)}
    ensures d.path.None? ==> seen == seenPaths && (cam.path == "" || Lower(cam.path) in seenPaths)
  {
    var capturePath: Option<string> := if cam.path != "" then Some(cam.path) else None;
    if capturePath.Some? && Lower(capturePath.value) in seenPaths {
      capturePath := None;
    }
    seen := seenPaths;
    if capturePath.Some? {
      seen := seen + {Lower(capturePath.value)};
    }
    var rawId := if capturePath.Some? then capturePath.value else IntToString(cam.index);
    var id := FreshId("opencv:" + Slugify(rawId), devices);
    StartsWithPrefix(id, "opencv:", Slugify(rawId));
    d := EnumeratedDevice(cam, id, capturePath);
  }

  /** The lower-cased capture paths the devices keep. */
  function SeenPaths(devices: seq<CameraDevice>): set<string> {
    set k | 0 <= k < |devices| && devices[k].path.Some? :: Lower(devices[k].path.value)
  }

  /** One more device adds its lower-cased path, if it keeps one. */
  lemma SeenPathsAppend(devices: seq<CameraDevice>, d: CameraDevice)
    ensures SeenPaths(devices + [d]) == SeenPaths(devices) + (if d.path.Some? then {Lower(d.path.value)} else {})
  {
    var ds := devices + [d];
    assert forall k :: 0 <= k < |devices| ==> ds[k] == devices[k];
    assert ds[|devices|] == d;
  }

  /**
   * The capture path a camera keeps after the devices `earlier`: its own
   * path, unless that is empty or its lower-cased form is already kept.
   */
  function KeptPath(cam: EnumCam, earlier: seq<CameraDevice>): Option<string> {
    if cam.path != "" && Lower(cam.path) !in SeenPaths(earlier) then Some(cam.path) else None
  }

  /**
   * How the enumeration numbers its devices: one per camera, in camera order
   * (`from` rises), each keeping the path `KeptPath` allows after the devices
   * filed before it, and filed under the base id of that path made fresh
   * against those devices.
   */
  ghost predicate IdsAssigned(cams: seq<EnumCam>, devices: seq<CameraDevice>, from: seq<nat>) {
    |from| == |devices|
    && (forall a, b :: 0 <= a < b < |from| ==> from[a] < from[b])
    && (forall k :: 0 <= k < |devices| ==>
          from[k] < |cams| && devices[k].path == KeptPath(cams[from[k]], devices[..k])
          && devices[k].id == Freshened(BaseId(cams[from[k]], devices[k].path), devices[..k]))
  }

  /** Adding the device made for camera `i`, after every camera so far, keeps the numbering. */
  lemma AddAssigned(cams: seq<EnumCam>, i: nat, devices: seq<CameraDevice>, from: seq<nat>, d: CameraDevice)
    requires i < |cams| && IdsAssigned(cams, devices, from)
    requires forall k :: 0 <= k < |from| ==> from[k] < i
    requires d.path == KeptPath(cams[i], devices)
    requires d.id == Freshened(BaseId(cams[i], d.path), devices)
    ensures IdsAssigned(cams, devices + [d], from + [i])
  {
    var ds, fs := devices + [d], from + [i];
    forall a, b | 0 <= a < b < |fs|
      ensures fs[a] < fs[b]
    {
      assert fs[a] == from[a];
      if b < |from| {
        assert fs[b] == from[b];
      }
    }
    AddFreshIds(cams, i, devices, from, d);
  }

  /** The id of each earlier device is unaffected by appending one more, and the new one has its own. */
  lemma AddFreshIds(cams: seq<EnumCam>, i: nat, devices: seq<CameraDevice>, from: seq<nat>, d: CameraDevice)
    requires i < |cams| && |from| == |devices|
    requires forall k :: 0 <= k < |devices| ==>
               from[k] < |cams| && devices[k].path == KeptPath(cams[from[k]], devices[..k])
               && devices[k].id == Freshened(BaseId(cams[from[k]], devices[k].path), devices[..k])
    requires d.path == KeptPath(cams[i], devices)
    requires d.id == Freshened(BaseId(cams[i], d.path), devices)
    ensures var ds, fs := devices + [d], from + [i];
            forall k :: 0 <= k < |ds| ==>
              fs[k] < |cams| && ds[k].path == KeptPath(cams[fs[k]], ds[..k])
              && ds[k].id == Freshened(BaseId(cams[fs[k]], ds[k].path), ds[..k])
  {
    var ds, fs := devices + [d], from + [i];
    forall k | 0 <= k < |ds|
      ensures fs[k] < |cams| && ds[k].path == KeptPath(cams[fs[k]], ds[..k])
              && ds[k].id == Freshened(BaseId(cams[fs[k]], ds[k].path), ds[..k])
    {
      if k == |devices| {
        assert ds[k] == d && fs[k] == i && ds[..k] == devices;
      } else {
        assert ds[k] == devices[k] && fs[k] == from[k] && ds[..k] == devices[..k];
      }
    }
  }

  /** Whether every camera of `cams` is excluded. */
  predicate AllExcluded(cams: seq<EnumCam>, signatures: set<(string, string)>, serials: set<string>) {
    forall j :: 0 <= j < |cams| ==> Excluded(cams[j], signatures, serials)
  }

  /**
   * The state of `_detect_opencv`'s enumeration after the first `i` cameras:
   * each device came from a camera that is not excluded (`from` says which),
   * every such camera gave a device, ids are distinct, and capture paths are
   * distinct up to case; `seenPaths` holds exactly the kept paths, lower-cased.
   */
  ghost predicate Scanned(cams: seq<EnumCam>, i: nat, signatures: set<(string, string)>, serials: set<string>,
                          devices: seq<CameraDevice>, from: seq<nat>, seenPaths: set<string>) {
    i <= |cams| && DistinctIds(devices) && |from| == |devices| && IdsAssigned(cams, devices, from)
    && (forall k :: 0 <= k < |devices| ==> devices[k].kind == "opencv" && StartsWith(devices[k].id, "opencv:"))
    && (forall k :: 0 <= k < |devices| ==>
          from[k] < i && !Excluded(cams[from[k]], signatures, serials)
          && devices[k] == EnumeratedDevice(cams[from[k]], devices[k].id, devices[k].path))
    && (forall j :: 0 <= j < i && !Excluded(cams[j], signatures, serials) ==> j in from)
    && (devices == [] <==> AllExcluded(cams[..i], signatures, serials))
    && seenPaths == SeenPaths(devices)
    && (forall k :: 0 <= k < |devices| && devices[k].path.Some? ==> Lower(devices[k].path.value) in seenPaths)
    && (forall a, b :: 0 <= a < b < |devices| && devices[a].path.Some? && devices[b].path.Some? ==>
          Lower(devices[a].path.value) != Lower(devices[b].path.value))
  }

  /** Before the first camera nothing is scanned. */
  lemma ScanStart(cams: seq<EnumCam>, signatures: set<(string, string)>, serials: set<string>)
    ensures Scanned(cams, 0, signatures, serials, [], [], {})
  {
    assert cams[..0] == [];
  }

  /** A scan over every camera gives what the enumeration promises. */
  lemma ScanDone(cams: seq<EnumCam>, signatures: set<(string, string)>, serials: set<string>,
                 devices: seq<CameraDevice>, from: seq<nat>, seenPaths: set<string>)
    requires Scanned(cams, |cams|, signatures, serials, devices, from, seenPaths)
    ensures DistinctIds(devices) && |from| == |devices| && IdsAssigned(cams, devices, from)
    ensures forall k :: 0 <= k < |devices| ==> devices[k].kind == "opencv" && StartsWith(devices[k].id, "opencv:")
    ensures forall k :: 0 <= k < |devices| ==>
              from[k] < |cams| && !Excluded(cams[from[k]], signatures, serials)
              && devices[k] == EnumeratedDevice(cams[from[k]], devices[k].id, devices[k].path)
    ensures forall j :: 0 <= j < |cams| && !Excluded(cams[j], signatures, serials) ==> j in from
    ensures devices == [] <==> AllExcluded(cams, signatures, serials)
    ensures forall a, b :: 0 <= a < b < |devices| && devices[a].path.Some? && devices[b].path.Some? ==>
              Lower(devices[a].path.value) != Lower(devices[b].path.value)
  {
    assert cams[..|cams|] == cams;
  }

  /** An excluded camera leaves the scan as it was. */
  lemma ScanSkip(cams: seq<EnumCam>, i: nat, signatures: set<(string, string)>, serials: set<string>,
                 devices: seq<CameraDevice>, from: seq<nat>, seenPaths: set<string>)
    requires i < |cams| && Excluded(cams[i], signatures, serials)
    requires Scanned(cams, i, signatures, serials, devices, from, seenPaths)
    ensures Scanned(cams, i + 1, signatures, serials, devices, from, seenPaths)
  {
    assert AllExcluded(cams[..i + 1], signatures, serials) == AllExcluded(cams[..i], signatures, serials) by {
      assert forall j :: 0 <= j < i ==> cams[..i + 1][j] == cams[..i][j];
      assert cams[..i + 1][i] == cams[i];
    }
  }

  /** A device with a fresh id keeps the ids distinct. */
  lemma AddDistinct(devices: seq<CameraDevice>, d: CameraDevice)
    requires DistinctIds(devices) && d.id !in Ids(devices)
    ensures DistinctIds(devices + [d])
  {
    var ds := devices + [d];
    forall a, b | 0 <= a < b < |ds|
      ensures ds[a].id != ds[b].id
    {
      if b == |devices| {
        assert ds[a].id in Ids(devices);
      } else {
        assert ds[a] == devices[a] && ds[b] == devices[b];
      }
    }
  }

  /** A device whose lower-cased path was not seen keeps the paths distinct. */
  lemma AddPath(devices: seq<CameraDevice>, seenPaths: set<string>, d: CameraDevice, seen: set<string>)
    requires forall k :: 0 <= k < |devices| && devices[k].path.Some? ==> Lower(devices[k].path.value) in seenPaths
    requires forall a, b :: 0 <= a < b < |devices| && devices[a].path.Some? && devices[b].path.Some? ==>
               Lower(devices[a].path.value) != Lower(devices[b].path.value)
    requires d.path.Some? ==> Lower(d.path.value) !in seenPaths && seen == seenPaths + {Lower(d.path.value)}
    requires d.path.None? ==> seen == seenPaths
    ensures var ds := devices + [d];
            (forall k :: 0 <= k < |ds| && ds[k].path.Some? ==> Lower(ds[k].path.value) in seen)
            && (forall a, b :: 0 <= a < b < |ds| && ds[a].path.Some? && ds[b].path.Some? ==>
                  Lower(ds[a].path.value) != Lower(ds[b].path.value))
  {
    var ds := devices + [d];
    forall k | 0 <= k < |ds| && ds[k].path.Some?
      ensures Lower(ds[k].path.value) in seen
    {
      if k < |devices| {
        assert ds[k] == devices[k];
      }
    }
    forall a, b | 0 <= a < b < |ds| && ds[a].path.Some? && ds[b].path.Some?
      ensures Lower(ds[a].path.value) != Lower(ds[b].path.value)
    {
      assert ds[a] == devices[a];
      if b == |devices| {
        assert Lower(ds[a].path.value) in seenPaths;
      } else {
        assert ds[b] == devices[b];
      }
    }
  }

  /** The device made for camera `i` records where it came from, and every camera so far is covered. */
  lemma AddOrigin(cams: seq<EnumCam>, i: nat, signatures: set<(string, string)>, serials: set<string>,
                  devices: seq<CameraDevice>, from: seq<nat>, d: CameraDevice)
    requires i < |cams| && !Excluded(cams[i], signatures, serials) && |from| == |devices|
    requires forall k :: 0 <= k < |devices| ==>
               from[k] < i && !Excluded(cams[from[k]], signatures, serials)
               && devices[k] == EnumeratedDevice(cams[from[k]], devices[k].id, devices[k].path)
    requires forall j :: 0 <= j < i && !Excluded(cams[j], signatures, serials) ==> j in from
    requires d == EnumeratedDevice(cams[i], d.id, d.path)
    ensures var ds, fs := devices + [d], from + [i];
            (forall k :: 0 <= k < |ds| ==>
               fs[k] < i + 1 && !Excluded(cams[fs[k]], signatures, serials)
               && ds[k] == EnumeratedDevice(cams[fs[k]], ds[k].id, ds[k].path))
            && (forall j :: 0 <= j < i + 1 && !Excluded(cams[j], signatures, serials) ==> j in fs)
  {
    var ds, fs := devices + [d], from + [i];
    forall k | 0 <= k < |ds|
      ensures fs[k] < i + 1 && !Excluded(cams[fs[k]], signatures, serials)
              && ds[k] == EnumeratedDevice(cams[fs[k]], ds[k].id, ds[k].path)
    {
      if k == |devices| {
        assert ds[k] == d && fs[k] == i;
      } else {
        assert ds[k] == devices[k] && fs[k] == from[k];
      }
    }
    forall j | 0 <= j < i + 1 && !Excluded(cams[j], signatures, serials)
      ensures j in fs
    {
      if j == i {
        assert fs[|from|] == i;
      } else {
        assert j in from;
      }
    }
  }

  /** The path `AddCamera` keeps is the one `KeptPath` allows, and the seen set follows the kept paths. */
  lemma AddKept(cam: EnumCam, devices: seq<CameraDevice>, seenPaths: set<string>, d: CameraDevice, seen: set<string>)
    requires seenPaths == SeenPaths(devices)
    requires d.path.Some? ==> d.path.value == cam.path && cam.path != "" && Lower(d.path.value) !in seenPaths
                              && seen == seenPaths + {Lower(d.path.value)}
    requires d.path.None? ==> seen == seenPaths && (cam.path == "" || Lower(cam.path) in seenPaths)
    ensures d.path == KeptPath(cam, devices)
    ensures seen == SeenPaths(devices + [d])
  {
    SeenPathsAppend(devices, d);
  }

  /** A camera that is not excluded adds the device `AddCamera` made for it. */
  lemma ScanAdd(cams: seq<EnumCam>, i: nat, signatures: set<(string, string)>, serials: set<string>,
                devices: seq<CameraDevice>, from: seq<nat>, seenPaths: set<string>,
                d: CameraDevice, seen: set<string>)
    requires i < |cams| && !Excluded(cams[i], signatures, serials)
    requires Scanned(cams, i, signatures, serials, devices, from, seenPaths)
    requires d == EnumeratedDevice(cams[i], d.id, d.path)
    requires d.id !in Ids(devices) && StartsWith(d.id, "opencv:")
    requires d.id == Freshened(BaseId(cams[i], d.path), devices)
    requires d.path.Some? ==> d.path.value == cams[i].path && cams[i].path != "" && Lower(d.path.value) !in seenPaths
                              && seen == seenPaths + {Lower(d.path.value)}
    requires d.path.None? ==> seen == seenPaths && (cams[i].path == "" || Lower(cams[i].path) in seenPaths)
    ensures Scanned(cams, i + 1, signatures, serials, devices + [d], from + [i], seen)
  {
    AddKept(cams[i], devices, seenPaths, d, seen);
    assert !AllExcluded(cams[..i + 1], signatures, serials) by {
      assert cams[..i + 1][i] == cams[i];
    }
    AddDistinct(devices, d);
    AddPath(devices, seenPaths, d, seen);
    AddOrigin(cams, i, signatures, serials, devices, from, d);
    AddAssigned(cams, i, devices, from, d);
    var ds := devices + [d];
    assert forall k :: 0 <= k < |devices| ==> ds[k] == devices[k];
  }

  /** One turn of the enumeration loop: camera `i` is skipped when excluded, otherwise added. */
  method ScanCamera(cams: seq<EnumCam>, i: nat, signatures: set<(string, string)>, serials: set<string>,
                    devices: seq<CameraDevice>, ghost from: seq<nat>, seenPaths: set<string>)
    returns (devices': seq<CameraDevice>, ghost from': seq<nat>, seenPaths': set<string>)
    requires i < |cams| && Scanned(cams, i, signatures, serials, devices, from, seenPaths)
    ensures Scanned(cams, i + 1, signatures, serials, devices', from', seenPaths')
    ensures Excluded(cams[i], signatures, serials) ==> devices' == devices
    ensures !Excluded(cams[i], signatures, serials) ==>
              |devices'| == |devices| + 1 && devices'[..|devices|] == devices
              && devices'[|devices|] == EnumeratedDevice(cams[i], devices'[|devices|].id, devices'[|devices|].path)
  {
    var cam := cams[i];
    if !Excluded(cam, signatures, serials) {
      var d, seen := AddCamera(cam, devices, seenPaths);
      ScanAdd(cams, i, signatures, serials, devices, from, seenPaths, d, seen);
      devices', from', seenPaths' := devices + [d], from + [i], seen;
      assert devices'[..|devices|] == devices;
    } else {
      ScanSkip(cams, i, signatures, serials, devices, from, seenPaths);
      devices', from', seenPaths' := devices, from, seenPaths;
    }
  }

  /**
   * The enumeration loop of `_detect_opencv`: every camera that is not
   * excluded becomes a device, in order, under a distinct id, and no two
   * devices share a capture path up to case. `from` tells which camera each
   * device came from.
   */
  method EnumerateDevices(cams: seq<EnumCam>, signatures: set<(string, string)>, serials: set<string>)
    returns (devices: seq<CameraDevice>, ghost from: seq<nat>)
    ensures DistinctIds(devices) && |from| == |devices|
    ensures forall k :: 0 <= k < |devices| ==> devices[k].kind == "opencv" && StartsWith(devices[k].id, "opencv:")
    ensures forall k :: 0 <= k < |devices| ==>
              from[k] < |cams| && !Excluded(cams[from[k]], signatures, serials)
              && devices[k] == EnumeratedDevice(cams[from[k]], devices[k].id, devices[k].path)
    ensures forall j :: 0 <= j < |cams| && !Excluded(cams[j], signatures, serials) ==> j in from
    ensures IdsAssigned(cams, devices, from)
    ensures devices == [] <==> AllExcluded(cams, signatures, serials)
    ensures forall a, b :: 0 <= a < b < |devices| && devices[a].path.Some? && devices[b].path.Some? ==>
              Lower(devices[a].path.value) != Lower(devices[b].path.value)
  {
    devices, from := [], [];
    var seenPaths: set<string> := {};
    var i := 0;
    ScanStart(cams, signatures, serials);
    while i < |cams|
      invariant Scanned(cams, i, signatures, serials, devices, from, seenPaths)
    {
      devices, from, seenPaths := ScanCamera(cams, i, signatures, serials, devices, from, seenPaths);
      i := i + 1;
    }
    ScanDone(cams, signatures, serials, devices, from, seenPaths);
  }

  /** The fallback loop of `_detect_opencv`: one device per index that opens. */
  method ProbeIndices(probed: seq<bool>) returns (devices: seq<CameraDevice>)
    ensures devices == FallbackDevices(probed)
  {
    devices := [];
    var idx := 0;
    while idx < |probed|
      invariant 0 <= idx <= |probed|
      invariant devices == FallbackDevices(probed[..idx])
    {
      assert probed[..idx + 1][..idx] == probed[..idx];
      if probed[idx] {
        devices := devices + [FallbackDevice(idx)];
      }
      idx := idx + 1;
    }
    assert probed[..|probed|] == probed;
  }

  /**
   * What `_detect_opencv` finds: nothing without OpenCV; the devices of the
   * indices that open when every enumerated camera is excluded; otherwise one
   * device per camera that is not excluded, taken in order from the camera
   * `from` names and filed under that camera's base id made fresh, with no
   * capture path repeated up to case.
   */
  ghost predicate OpenCVDetected(cv2Available: bool, cams: seq<EnumCam>, signatures: set<(string, string)>,
                                 serials: set<string>, probed: seq<bool>, devices: seq<CameraDevice>, from: seq<nat>)
  {
    (!cv2Available ==> devices == [])
    && (cv2Available && AllExcluded(cams, signatures, serials) ==> devices == FallbackDevices(probed))
    && (cv2Available && !AllExcluded(cams, signatures, serials) ==>
          |from| == |devices|
          && (forall k :: 0 <= k < |devices| ==>
                from[k] < |cams| && !Excluded(cams[from[k]], signatures, serials)
                && devices[k] == EnumeratedDevice(cams[from[k]], devices[k].id, devices[k].path))
          && (forall j :: 0 <= j < |cams| && !Excluded(cams[j], signatures, serials) ==> j in from)
          && IdsAssigned(cams, devices, from)
          && (forall a, b :: 0 <= a < b < |devices| && devices[a].path.Some? && devices[b].path.Some? ==>
                Lower(devices[a].path.value) != Lower(devices[b].path.value)))
  }

  /**
   * `_detect_opencv`: nothing without OpenCV; otherwise the enumerated
   * devices, or, when every enumerated camera is excluded, the indices that
   * open (`probed`).
   */
  method DetectOpenCV(cv2Available: bool, cams: seq<EnumCam>, signatures: set<(string, string)>,
                      serials: set<string>, probed: seq<bool>)
    returns (devices: seq<CameraDevice>, ghost from: seq<nat>)
    ensures !cv2Available ==> devices == []
    ensures DistinctIds(devices)
    ensures forall k :: 0 <= k < |devices| ==> devices[k].kind == "opencv" && StartsWith(devices[k].id, "opencv:")
    ensures cv2Available && AllExcluded(cams, signatures, serials) ==> devices == FallbackDevices(probed)
    ensures OpenCVDetected(cv2Available, cams, signatures, serials, probed, devices, from)
  {
    from := [];
    if !cv2Available {
      return [], from;
    }
    devices, from := EnumerateDevices(cams, signatures, serials);
    if devices != [] {
      return devices, from;
    }
    devices := ProbeIndices(probed);
    FallbackDevicesDistinct(probed);
    forall k | 0 <= k < |devices|
      ensures StartsWith(devices[k].id, "opencv:")
    {
      assert devices[k].id[..|"opencv:"|] == "opencv:";
    }
  }

  /**
   * The first enumerated device keeps its camera's path when that is not
   * empty, and is filed under the base id of that path unchanged.
   */
  lemma FirstEnumerated(cv2Available: bool, cams: seq<EnumCam>, signatures: set<(string, string)>,
                        serials: set<string>, probed: seq<bool>, devices: seq<CameraDevice>, from: seq<nat>)
    requires cv2Available && !AllExcluded(cams, signatures, serials)
    requires OpenCVDetected(cv2Available, cams, signatures, serials, probed, devices, from)
    requires devices != []
    ensures devices[0].path == (if cams[from[0]].path != "" then Some(cams[from[0]].path) else None)
    ensures devices[0].id == BaseId(cams[from[0]], devices[0].path)
  {
    assert devices[..0] == [];
    assert SeenPaths([]) == {};
  }

  /** `dict[id] = device` for each device in turn: a later device replaces an earlier one with its id. */
  function InsertAll(m: map<string, CameraDevice>, devices: seq<CameraDevice>): (r: map<string, CameraDevice>)
    ensures forall k :: k in r <==> k in m || k in Ids(devices)
    ensures devices != [] ==> var d := devices[|devices| - 1]; d.id in r && r[d.id] == d
  {
    if devices == [] then m
    else
      var init := devices[..|devices| - 1];
      var d := devices[|devices| - 1];
      assert forall k :: 0 <= k < |init| ==> init[k] == devices[k];
      assert Ids(devices) == Ids(init) + {d.id};
      InsertAll(m, init)[d.id := d]
  }

  /** A device whose id no later device repeats keeps its entry. */
  lemma {:induction false} InsertAllKeeps(m: map<string, CameraDevice>, devices: seq<CameraDevice>, k: nat)
    requires k < |devices| && forall j :: k < j < |devices| ==> devices[j].id != devices[k].id
    ensures devices[k].id in InsertAll(m, devices) && InsertAll(m, devices)[devices[k].id] == devices[k]
  {
    if k < |devices| - 1 {
      InsertAllKeeps(m, devices[..|devices| - 1], k);
    }
  }

  /** An entry whose id no device has is left as it was. */
  lemma {:induction false} InsertAllOthers(m: map<string, CameraDevice>, devices: seq<CameraDevice>, id: string)
    requires id in m && id !in Ids(devices)
    ensures id in InsertAll(m, devices) && InsertAll(m, devices)[id] == m[id]
  {
    if devices != [] {
      var init := devices[..|devices| - 1];
      assert Ids(devices) == Ids(init) + {devices[|devices| - 1].id};
      InsertAllOthers(m, init, id);
    }
  }

  /** A RealSense id and an OpenCV id are never equal. */
  lemma PrefixesDiffer(a: string, b: string)
    requires StartsWith(a, "realsense:") && StartsWith(b, "opencv:")
    ensures a != b
  {
    assert a[0] == 'r' && b[0] == 'o';
  }

  /**
   * Filing RealSense devices and then OpenCV devices with distinct ids: every
   * OpenCV device keeps its entry, and every RealSense id still holds a
   * RealSense device.
   */
  lemma MergedDevices(rs: seq<CameraDevice>, found: seq<CameraDevice>)
    requires forall k :: 0 <= k < |rs| ==> rs[k].kind == "realsense" && StartsWith(rs[k].id, "realsense:")
    requires forall k :: 0 <= k < |found| ==> StartsWith(found[k].id, "opencv:")
    requires DistinctIds(found)
    ensures var devices := InsertAll(InsertAll(map[], rs), found);
            (forall k :: 0 <= k < |found| ==> found[k].id in devices && devices[found[k].id] == found[k])
            && (forall k :: 0 <= k < |rs| ==> rs[k].id in devices && devices[rs[k].id].kind == "realsense")
  {
    var before := InsertAll(map[], rs);
    forall k | 0 <= k < |found|
      ensures found[k].id in InsertAll(before, found) && InsertAll(before, found)[found[k].id] == found[k]
    {
      InsertAllKeeps(before, found, k);
    }
    forall k | 0 <= k < |rs|
      ensures rs[k].id in InsertAll(before, found) && InsertAll(before, found)[rs[k].id].kind == "realsense"
    {
      if rs[k].id in Ids(found) {
        var j :| 0 <= j < |found| && found[j].id == rs[k].id;
        PrefixesDiffer(rs[k].id, found[j].id);
      }
      var last := LastWithId(rs, rs[k].id, k);
      InsertAllKeeps(map[], rs, last);
      InsertAllOthers(before, found, rs[k].id);
    }
  }

  /** Files `devices` into `m` one after the other. */
  method FileAll(m: map<string, CameraDevice>, devices: seq<CameraDevice>) returns (r: map<string, CameraDevice>)
    ensures r == InsertAll(m, devices)
  {
    r := m;
    var i := 0;
    while i < |devices|
      invariant 0 <= i <= |devices|
      invariant r == InsertAll(m, devices[..i])
    {
      assert devices[..i + 1][..i] == devices[..i];
      r := r[devices[i].id := devices[i]];
      i := i + 1;
    }
    assert devices[..|devices|] == devices;
  }

  /**
   * The exclusion sets `_detect_devices` hands to the OpenCV scan: the
   * RealSense signatures and serials.
   */
  method CollectExclusions(rs: seq<CameraDevice>) returns (signatures: set<(string, string)>, serials: set<string>)
    ensures signatures == Signatures(rs) && serials == Serials(rs)
  {
    signatures, serials := {}, {};
    var i := 0;
    while i < |rs|
      invariant 0 <= i <= |rs|
      invariant signatures == Signatures(rs[..i]) && serials == Serials(rs[..i])
    {
      assert rs[..i + 1][..i] == rs[..i];
      var cam := rs[i];
      var sig := (OrEmpty(cam.vendorId), OrEmpty(cam.productId));
      if sig != ("", "") {
        signatures := signatures + {(Lower(sig.0), Lower(sig.1))};
      }
      if OrEmpty(cam.serialNumber) != "" {
        serials := serials + {cam.serialNumber.value};
      }
      i := i + 1;
    }
    assert rs[..|rs|] == rs;
  }

  /** `_detect_opencv` called with the signatures and serials of the RealSense devices `rs`. */
  method DetectExcluding(rs: seq<CameraDevice>, cv2Available: bool, cams: seq<EnumCam>, probed: seq<bool>)
    returns (devices: seq<CameraDevice>, ghost from: seq<nat>)
    ensures !cv2Available ==> devices == []
    ensures DistinctIds(devices)
    ensures forall k :: 0 <= k < |devices| ==> devices[k].kind == "opencv" && StartsWith(devices[k].id, "opencv:")
    ensures cv2Available && AllExcluded(cams, Signatures(rs), Serials(rs)) ==> devices == FallbackDevices(probed)
    ensures OpenCVDetected(cv2Available, cams, Signatures(rs), Serials(rs), probed, devices, from)
  {
    var signatures, serials := CollectExclusions(rs);
    devices, from := DetectOpenCV(cv2Available, cams, signatures, serials, probed);
  }

  /**
   * The filing half of `_detect_devices`: the RealSense devices `rs`, then
   * the OpenCV devices `found`, each under its id.
   */
  method FileDetected(rs: seq<CameraDevice>, found: seq<CameraDevice>) returns (devices: map<string, CameraDevice>)
    requires forall k :: 0 <= k < |rs| ==> rs[k].kind == "realsense" && StartsWith(rs[k].id, "realsense:")
    requires forall k :: 0 <= k < |found| ==> StartsWith(found[k].id, "opencv:")
    requires DistinctIds(found)
    ensures devices == InsertAll(InsertAll(map[], rs), found)
    ensures forall k :: 0 <= k < |found| ==> devices[found[k].id] == found[k]
    ensures forall k :: 0 <= k < |rs| ==> rs[k].id in devices && devices[rs[k].id].kind == "realsense"
    ensures forall id :: id in devices <==> id in Ids(rs) || id in Ids(found)
    ensures forall id :: id in devices ==> StartsWith(id, "realsense:") || StartsWith(id, "opencv:")
  {
    devices := FileAll(map[], rs);
    devices := FileAll(devices, found);
    MergedDevices(rs, found);
  }

  /**
   * `_detect_devices`: RealSense devices are filed first, then the OpenCV
   * devices found while excluding the RealSense signatures and serials. An
   * OpenCV device never replaces a RealSense one: their id prefixes differ.
   * `opencv` is what `_detect_opencv` found, and `from` its cameras.
   */
  method DetectDevices(infos: seq<RealsenseInfo>, cv2Available: bool, cams: seq<EnumCam>, probed: seq<bool>)
    returns (devices: map<string, CameraDevice>, ghost opencv: seq<CameraDevice>, ghost from: seq<nat>)
    ensures var rs := RealsenseDevices(infos);
            devices == InsertAll(InsertAll(map[], rs), opencv)
            && (forall k :: 0 <= k < |opencv| ==> devices[opencv[k].id] == opencv[k])
            && (forall k :: 0 <= k < |rs| ==> rs[k].id in devices && devices[rs[k].id].kind == "realsense")
            && (forall id :: id in devices <==> id in Ids(rs) || id in Ids(opencv))
            && (forall k :: 0 <= k < |opencv| ==> StartsWith(opencv[k].id, "opencv:"))
    ensures forall id :: id in devices ==> StartsWith(id, "realsense:") || StartsWith(id, "opencv:")
    ensures !cv2Available ==> devices == InsertAll(map[], RealsenseDevices(infos))
    ensures var rs := RealsenseDevices(infos);
            DistinctIds(opencv)
            && OpenCVDetected(cv2Available, cams, Signatures(rs), Serials(rs), probed, opencv, from)
    ensures var rs := RealsenseDevices(infos);
            cv2Available && AllExcluded(cams, Signatures(rs), Serials(rs)) ==>
              devices == InsertAll(InsertAll(map[], rs), FallbackDevices(probed))
  {
    var rs := RealsenseDevices(infos);
    var found: seq<CameraDevice>;
    found, from := DetectExcluding(rs, cv2Available, cams, probed);
    opencv := found;
    devices := FileDetected(rs, found);
  }

  /** The last position at or after `k` whose device has the id `id`. */
  function LastWithId(ds: seq<CameraDevice>, id: string, k: nat): (j: nat)
    requires k < |ds| && ds[k].id == id
    ensures k <= j < |ds| && ds[j].id == id
    ensures forall i :: j < i < |ds| ==> ds[i].id != id
    decreases |ds| - k
  {
    if exists i :: k < i < |ds| && ds[i].id == id then
      var i :| k < i < |ds| && ds[i].id == id;
      LastWithId(ds, id, i)
    else k
  }

  // ----------------------------------------------------------- _open_capture

  /** What `cv2.VideoCapture` is asked to open: a device path or an index. */
  datatype Target = PathTarget(path: string) | IndexTarget(index: int)

  /**
   * Whether an enumerated camera is the device being probed: vid and pid
   * both equal ignoring case, or paths equal ignoring case (absent values
   * compare as "").
   */
  predicate CamMatches(cam: EnumCam, device: CameraDevice) {
    (Lower(cam.vid) == Lower(OrEmpty(device.vendorId)) && Lower(cam.pid) == Lower(OrEmpty(device.productId)))
    || Lower(cam.path) == Lower(OrEmpty(device.path))
  }

  /** A device without vendor and product ids matches any camera that reports neither. */
  lemma BlankIdsMatch(cam: EnumCam, device: CameraDevice)
    requires cam.vid == "" && cam.pid == "" && device.vendorId.None? && device.productId.None?
    ensures CamMatches(cam, device)
  {
  }

  /** The index of the first enumerated camera matching `device`, if any. */
  function FirstMatch(cams: seq<EnumCam>, device: CameraDevice): (r: Option<int>)
    ensures r.Some? ==> exists j :: 0 <= j < |cams| && CamMatches(cams[j], device) && cams[j].index == r.value
    ensures r.None? <==> forall j :: 0 <= j < |cams| ==> !CamMatches(cams[j], device)
  {
    if cams == [] then None
    else if CamMatches(cams[0], device) then Some(cams[0].index)
    else
      var r := FirstMatch(cams[1..], device);
      assert forall j :: 1 <= j < |cams| ==> cams[j] == cams[1..][j - 1];
      r
  }

  /**
   * The matching loop of `_open_capture`: the index of the first matching
   * camera; None when the enumeration is unavailable (`cams` is None).
   */
  method MatchIndex(cams: Option<seq<EnumCam>>, device: CameraDevice) returns (matched: Option<int>)
    ensures cams.None? ==> matched.None?
    ensures cams.Some? ==> matched == FirstMatch(cams.value, device)
  {
    if cams.None? {
      return None;
    }
    var cs := cams.value;
    var i := 0;
    while i < |cs|
      invariant 0 <= i <= |cs|
      invariant FirstMatch(cs, device) == FirstMatch(cs[i..], device)
    {
      assert cs[i..][1..] == cs[i + 1..];
      if CamMatches(cs[i], device) {
        return Some(cs[i].index);
      }
      i := i + 1;
    }
    return None;
  }

  /** The four backends tried for one target, the device's own backend at `ownAt`. */
  function TargetAttempts(target: Target, own: Option<string>, ownFirst: bool): seq<(Target, Option<string>)> {
    if ownFirst then [(target, own), (target, Some("dshow")), (target, Some("msmf")), (target, Some("any"))]
    else [(target, Some("dshow")), (target, own), (target, Some("msmf")), (target, Some("any"))]
  }

  /**
   * The attempt list of `_open_capture`: the device's path (when it has a
   * non-empty one), then the matched index, then the device's own index.
   */
  function Attempts(device: CameraDevice, matched: Option<int>): (attempts: seq<(Target, Option<string>)>)
    ensures |attempts| == 4 * ((if OrEmpty(device.path) != "" then 1 else 0)
                               + (if matched.Some? then 1 else 0) + (if device.index.Some? then 1 else 0))
    ensures forall a, b :: 0 <= a < b < |attempts| && attempts[b].0.PathTarget? ==> attempts[a].0.PathTarget?
  {
    (if OrEmpty(device.path) != "" then TargetAttempts(PathTarget(device.path.value), device.backend, false) else [])
    + (if matched.Some? then TargetAttempts(IndexTarget(matched.value), device.backend, true) else [])
    + (if device.index.Some? then TargetAttempts(IndexTarget(device.index.value), device.backend, true) else [])
  }

  /** What `cv2.VideoCapture` is called with for an attempt. */
  function Call(attempt: (Target, Option<string>)): (Target, Option<Backend>) {
    (attempt.0, BackendFlag(attempt.1))
  }

  /** The position of the first attempt whose capture opens, per the oracle `opens`. */
  function FirstOpen(attempts: seq<(Target, Option<string>)>, opens: ((Target, Option<Backend>)) -> bool): (r: Option<nat>)
    ensures r.Some? ==> r.value < |attempts| && opens(Call(attempts[r.value]))
    ensures forall j :: 0 <= j < |attempts| && (r.None? || j < r.value) ==> !opens(Call(attempts[j]))
  {
    if attempts == [] then None
    else if opens(Call(attempts[0])) then Some(0)
    else match FirstOpen(attempts[1..], opens)
      case None => None
      case Some(i) => Some(i + 1)
  }

  /**
   * `_open_capture`: tries the attempts in order, skipping a (target, backend)
   * pair already tried, and returns the call that probed; None without OpenCV
   * or when nothing opens. Skipping repeats never changes which call opens first.
   */
  method OpenCapture(cv2Available: bool, device: CameraDevice, cams: Option<seq<EnumCam>>,
                     opens: ((Target, Option<Backend>)) -> bool)
    returns (cap: Option<(Target, Option<Backend>)>)
    ensures !cv2Available ==> cap.None?
    ensures cv2Available ==>
              var attempts := Attempts(device, if cams.Some? then FirstMatch(cams.value, device) else None);
              var first := FirstOpen(attempts, opens);
              cap == if first.Some? then Some(Call(attempts[first.value])) else None
  {
    if !cv2Available {
      return None;
    }
    var matched := MatchIndex(cams, device);
    var attempts := Attempts(device, matched);
    var seen: set<(Target, Option<string>)> := {};
    var i := 0;
    while i < |attempts|
      invariant 0 <= i <= |attempts|
      invariant forall key :: key in seen <==> exists j :: 0 <= j < i && attempts[j] == key
      invariant forall j :: 0 <= j < i ==> !opens(Call(attempts[j]))
    {
      var key := attempts[i];
      if key !in seen {
        seen := seen + {key};
        if opens(Call(key)) {
          assert FirstOpen(attempts, opens) == Some(i);
          return Some(Call(key));
        }
      }
      i := i + 1;
    }
    assert FirstOpen(attempts, opens).None?;
    return None;
  }

  // ------------------------------------------------------------- the monitor

  /** What `probe_modes` and `capture_frame` do with a device id. */
  datatype Dispatch = UnknownDevice | UseRealsense(device: CameraDevice) | UseOpenCV(device: CameraDevice)

  /** CameraMonitor: the latest device map. */
  class Monitor {
    var devices: map<string, CameraDevice>

    constructor ()
      ensures devices == map[]
    {
      devices := map[];
    }

    /** `get`: the device filed under `id`. */
    function Get(id: string): (r: Option<CameraDevice>)
      reads this
      ensures r.Some? <==> id in devices
      ensures r.Some? ==> r.value == devices[id]
    {
      if id in devices then Some(devices[id]) else None
    }

    /**
     * The device lookup `probe_modes` and `capture_frame` start with: an
     * unknown id answers (None, [], None) and None respectively without
     * touching hardware; otherwise the RealSense or OpenCV path is taken by kind.
     */
    function Route(id: string): (r: Dispatch)
      reads this
      ensures r.UnknownDevice? <==> id !in devices
      ensures id in devices && devices[id].kind == "realsense" ==> r == UseRealsense(devices[id])
      ensures id in devices && devices[id].kind != "realsense" ==> r == UseOpenCV(devices[id])
    {
      match Get(id)
      case None => UnknownDevice
      case Some(d) => if d.kind == "realsense" then UseRealsense(d) else UseOpenCV(d)
    }

    /** One pass of `_run`: the detected map replaces the old one entirely. */
    method Poll(infos: seq<RealsenseInfo>, cv2Available: bool, cams: seq<EnumCam>, probed: seq<bool>)
      returns (ghost opencv: seq<CameraDevice>, ghost from: seq<nat>)
      modifies this
      ensures var rs := RealsenseDevices(infos);
              devices == InsertAll(InsertAll(map[], rs), opencv)
              && DistinctIds(opencv)
              && OpenCVDetected(cv2Available, cams, Signatures(rs), Serials(rs), probed, opencv, from)
      ensures forall id :: id in devices ==> StartsWith(id, "realsense:") || StartsWith(id, "opencv:")
      ensures var rs := RealsenseDevices(infos);
              forall k :: 0 <= k < |rs| ==> rs[k].id in devices && devices[rs[k].id].kind == "realsense"
    {
      var detected: map<string, CameraDevice>;
      detected, opencv, from := DetectDevices(infos, cv2Available, cams, probed);
      devices := detected;
    }
  }
}
