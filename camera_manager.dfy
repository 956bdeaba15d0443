/** The camera manager of the 3D browser: the list of pinhole cameras, filled from the
    5x3 blocks of `bundle.out`, and the bulk operations the user interface applies to all
    of them (image scale, pyramid and cone visibility). */
module CameraManagement {
  import opened RealMath
  import opened Optional
  import opened Pinhole
  import opened Geometry

  /** `np.sum(C)`: the entries of a block added up. */
  function BlockSum(b: seq<real>): real
  {
    if b == [] then 0.0 else b[0] + BlockSum(b[1..])
  }

  /** For each block, whether `load_key_cams` builds a camera from it: its entries do
      not sum to zero. */
  function Mask(bs: seq<seq<real>>): (keep: seq<bool>)
    ensures |keep| == |bs|
  {
    if bs == [] then []
    else Mask(bs[..|bs| - 1]) + [BlockSum(bs[|bs| - 1]) != 0.0]
  }

  /** Block `k` is kept exactly when its entries do not sum to zero. */
  lemma {:induction false} MaskMarks(bs: seq<seq<real>>)
    ensures forall k | 0 <= k < |bs| :: Mask(bs)[k] <==> BlockSum(bs[k]) != 0.0
  {
    if bs != [] {
      MaskMarks(bs[..|bs| - 1]);
    }
  }

  /** The positions, among the first `n`, that `keep` marks, in increasing order. */
  function Kept(keep: seq<bool>, n: nat): (ks: seq<nat>)
    requires n <= |keep|
    ensures forall k | 0 <= k < |ks| :: ks[k] < n && keep[ks[k]]
  {
    if n == 0 then []
    else Kept(keep, n - 1) + (if keep[n - 1] then [n - 1] else [])
  }

  /** Exactly the marked positions are kept, each once, in input order. */
  lemma {:induction false} KeptExact(keep: seq<bool>, n: nat)
    requires n <= |keep|
    ensures forall k, l | 0 <= k < l < |Kept(keep, n)| :: Kept(keep, n)[k] < Kept(keep, n)[l]
    ensures forall i | 0 <= i < n :: i in Kept(keep, n) <==> keep[i]
  {
    if n > 0 {
      KeptExact(keep, n - 1);
      var prev := Kept(keep, n - 1);
      var ks := Kept(keep, n);
      assert ks[..|prev|] == prev;
      forall i | 0 <= i < n - 1
        ensures i in ks <==> i in prev
      {
        if i in prev {
          var k :| 0 <= k < |prev| && prev[k] == i;
          assert ks[k] == prev[k];
        }
      }
    }
  }

  /** With every position marked, the first `n` positions are all kept, in order. */
  lemma {:induction false} KeptAll(keep: seq<bool>, n: nat)
    requires n <= |keep| && forall k | 0 <= k < n :: keep[k]
    ensures Kept(keep, n) == seq(n, k => k)
  {
    if n > 0 {
      KeptAll(keep, n - 1);
    }
  }

  /** `k` zeros. */
  function ZeroBlock(k: nat): (z: seq<real>)
    ensures |z| == k
  {
    if k == 0 then [] else [0.0] + ZeroBlock(k - 1)
  }

  lemma {:induction false} ZeroBlockSum(k: nat)
    ensures BlockSum(ZeroBlock(k)) == 0.0
  {
    if k > 0 {
      assert ZeroBlock(k)[1..] == ZeroBlock(k - 1);
      ZeroBlockSum(k - 1);
    }
  }

  /** The test looks at the sum and not at the entries: a block with non-zero entries
      that cancel out is dropped like an all-zero one. */
  lemma CancellingBlockDropped()
    ensures exists b: seq<real> :: |b| == 15 && b[0] != 0.0 && Kept(Mask([b]), 1) == []
  {
    var b := [1.0, -1.0] + ZeroBlock(13);
    assert b[1..] == [-1.0] + ZeroBlock(13);
    assert b[1..][1..] == ZeroBlock(13);
    ZeroBlockSum(13);
    assert BlockSum(b) == 0.0;
    assert Kept(Mask([b]), 1) == Kept(Mask([b]), 0) + [];
  }

  /** The contents of the blocks `bs`. */
  function Contents(bs: seq<array<real>>): (r: seq<seq<real>>)
    reads set k | 0 <= k < |bs| :: bs[k]
    ensures |r| == |bs| && forall k | 0 <= k < |bs| :: r[k] == bs[k][..]
  {
    if bs == [] then [] else Contents(bs[..|bs| - 1]) + [bs[|bs| - 1][..]]
  }

  /** A camera as `Camera(C, img=img, frame_num=frame)` leaves it for a block that held
      `b`: its pose is what the constructor's flips leave, both focal lengths are the
      block's first entry, and every other field has the constructor's initial value. */
  ghost predicate Built(cam: Camera, b: seq<real>, img: Option<Image>, frame: int)
    reads cam
  {
    && cam.Valid()
    && |b| == 15
    && cam.R == Rot(Constructed(b)) && cam.t == Trans(Constructed(b)) && cam.RGl == GlLayout(cam.R)
    && cam.img == img && cam.frameNum == Some(frame) && cam.keyframe
    && cam.fx == b[0] && cam.fy == b[0] && cam.imgScale == 0.00001
    && cam.P == None && cam.eye == None && cam.c == None && cam.f == None && cam.wS == None
    && cam.imgW == None && cam.imgH == None && cam.imgZ == None && cam.imgOrigin == None
    && cam.pyramidShow && !cam.coneShow && cam.pyramid == None && cam.a == None
    && cam.insideCone == [] && cam.coneLen == 0.0
    && cam.eyePoint == None && cam.RCone == None && cam.RConeGl == None
  }

  /** A camera freshly built from the block `blk` that held `b`: it is `Built` from
      `b`, keeps the block, and the constructor has flipped the block in place. */
  ghost predicate Loaded(cam: Camera, blk: array<real>, b: seq<real>, img: Option<Image>, frame: int)
    reads cam, blk
  {
    Built(cam, b, img, frame) && cam.C == blk && blk[..] == Constructed(b)
  }

  /** What `_set_img_scale(value)` leaves on a camera whose pyramid was rebuilt: the
      scale, and for its image's frustum at that scale the depth `Z`, the gaze vertex,
      `R_cone` (negated in place) with its OpenGL layout, and the pyramid. */
  ghost predicate Rebuilt(cam: Camera, m: MathLib, value: real)
    reads cam, if cam.RCone.Some? then {cam.RCone.value} else {}
  {
    && cam.imgScale == value && cam.Rebuildable(m, value)
    && var fr := FrustumOf(m, cam.img.value, value, cam.fx).value;
    && cam.imgZ == Some(fr.z)
    && GazeStored(m, fr, cam.eye, cam.R, cam.t, cam.eyePoint, cam.RConeGl, true)
    && (cam.eye.Some? ==> cam.RCone.Some? && cam.RCone.value[..] == ConeStorage(m, fr, cam.eye.value))
    && cam.HoldsPyramid(fr)
  }

  /** What `_set_img_scale(value)` leaves on a camera whose rebuild raised: the scale is
      stored, the camera is not `Rebuildable`, `R_cone` and the pyramid are kept, and
      when the frustum exists (so the gaze failed) `Z` and the gaze vertex are stored
      before the raise; without a frustum they are kept too. */
  twostate predicate RebuildFailed(cam: Camera, m: MathLib, value: real)
    reads cam
  {
    && cam.imgScale == value && !cam.Rebuildable(m, value)
    && unchanged(cam`RCone, cam`RConeGl, cam`pyramid, cam`imgOrigin, cam`imgW, cam`imgH)
    && unchanged(cam`a, cam`up, cam`f, cam`c)
    && var fr := if cam.img.Some? then FrustumOf(m, cam.img.value, value, cam.fx) else None;
    && (fr.None? ==> unchanged(cam`imgZ, cam`eyePoint))
    && (fr.Some? ==>
          && cam.imgZ == Some(fr.value.z)
          && GazeStored(m, fr.value, cam.eye, cam.R, cam.t, cam.eyePoint, cam.RConeGl, false))
  }

  /** The number of entries `zip` produces for three lists. */
  function Zip3(a: nat, b: nat, c: nat): (n: nat)
    ensures n <= a && n <= b && n <= c && (n == a || n == b || n == c)
  {
    if a <= b && a <= c then a else if b <= c then b else c
  }

  /** The entries of `s` at positions `ks`, in the order of `ks`. */
  function Picked<T>(s: seq<T>, ks: seq<nat>): (r: seq<T>)
    requires forall k | 0 <= k < |ks| :: ks[k] < |s|
    ensures |r| == |ks| && forall k | 0 <= k < |ks| :: r[k] == s[ks[k]]
  {
    seq(|ks|, k requires 0 <= k < |ks| => s[ks[k]])
  }

  /** Blocks picked at increasing positions from distinct blocks are distinct, and a
      block at a position not picked is none of them. */
  lemma PickedDistinct(bs: seq<array<real>>, ks: seq<nat>)
    requires forall k, l | 0 <= k < l < |bs| :: bs[k] != bs[l]
    requires forall k | 0 <= k < |ks| :: ks[k] < |bs|
    requires forall k, l | 0 <= k < l < |ks| :: ks[k] < ks[l]
    ensures forall k, l | 0 <= k < l < |ks| :: Picked(bs, ks)[k] != Picked(bs, ks)[l]
    ensures forall k | 0 <= k < |bs| && k !in ks :: bs[k] !in Picked(bs, ks)
  {
    var kbs := Picked(bs, ks);
    forall k | 0 <= k < |bs| && k !in ks
      ensures bs[k] !in kbs
    {
      forall m | 0 <= m < |kbs|
        ensures kbs[m] != bs[k]
      {
        assert ks[m] != k;
      }
    }
  }

  class CameraManager {
    var cameras: seq<Camera>

    ghost predicate Valid()
      reads this, cameras`RCone
    {
      forall c | c in cameras :: c.Valid()
    }

    constructor ()
      ensures Valid() && cameras == []
    {
      cameras := [];
    }

    /** `add_cam(camera_object, image_object)`: the image is ignored. */
    method AddCam(cam: Camera, image: Option<Image>)
      requires Valid() && cam.Valid()
      modifies this`cameras
      ensures Valid()
      ensures cameras == old(cameras) + [cam]
    {
      cameras := cameras + [cam];
    }

    /** `self.cameras.append(Camera(C, img=img, frame_num=k))`, as both loaders do it:
        the new camera flips the block `C` in place and keeps it. */
    method AppendCamera(blk: array<real>, img: Option<Image>, frame: int, isKeyframe: bool)
      returns (ghost cam: Camera)
      requires blk.Length == 15
      modifies this`cameras, blk
      ensures cameras == old(cameras) + [cam]
      ensures fresh(cam) && Loaded(cam, blk, old(blk[..]), img, frame)
    {
      var c := new Camera(blk, img, Some(frame), isKeyframe, None, None, None);
      cameras := cameras + [c];
      cam := c;
    }

    /** `load_other_cams(C_matrices, img_list, frames)`: one new camera per entry of the
        zipped lists, in order, unfiltered. The blocks are the distinct rows of one
        array, so each is flipped by its own camera; an image may be `None`, as
        `load_images` gives for a missing frame; blocks past the shortest list are not
        touched. */
    method LoadOtherCams(bs: seq<array<real>>, imgs: seq<Option<Image>>, frames: seq<int>)
      requires Valid()
      requires forall k | 0 <= k < |bs| :: bs[k].Length == 15
      requires forall k, l | 0 <= k < l < |bs| :: bs[k] != bs[l]
      modifies this`cameras, set k | 0 <= k < |bs| :: bs[k]
      ensures Valid()
      ensures var n := Zip3(|bs|, |imgs|, |frames|);
        && |cameras| == |old(cameras)| + n
        && cameras[..|old(cameras)|] == old(cameras)
        && (forall k | 0 <= k < n ::
              fresh(cameras[|old(cameras)| + k])
              && Loaded(cameras[|old(cameras)| + k], bs[k], old(bs[k][..]), imgs[k], frames[k]))
        && (forall k | n <= k < |bs| :: bs[k][..] == old(bs[k][..]))
    {
      var n := Zip3(|bs|, |imgs|, |frames|);
      for i := 0 to n
        invariant Valid()
        invariant |cameras| == |old(cameras)| + i
        invariant cameras[..|old(cameras)|] == old(cameras)
        invariant forall k | 0 <= k < i ::
          fresh(cameras[|old(cameras)| + k]) && Loaded(cameras[|old(cameras)| + k], bs[k], old(bs[k][..]), imgs[k], frames[k])
        invariant forall k | i <= k < |bs| :: bs[k][..] == old(bs[k][..])
      {
        ghost var prev := cameras;
        ghost var cam := AppendCamera(bs[i], imgs[i], frames[i], false);
        assert forall k | 0 <= k < |prev| :: cameras[k] == prev[k];
      }
    }

    /** `load_key_cams(C_matrices, img_list, frames)`: like `load_other_cams`, but a
        block whose entries sum to zero (a frame Bundler rejected) gets no camera and is
        left as it is. The sum of a block is read before any later block is flipped, and
        flipping one block changes no other, so the kept entries are chosen first and
        then loaded in order. */
    method LoadKeyCams(bs: seq<array<real>>, imgs: seq<Option<Image>>, frames: seq<int>)
      requires Valid()
      requires forall k | 0 <= k < |bs| :: bs[k].Length == 15
      requires forall k, l | 0 <= k < l < |bs| :: bs[k] != bs[l]
      modifies this`cameras, set k | 0 <= k < |bs| :: bs[k]
      ensures Valid()
      ensures var ks := Kept(Mask(old(Contents(bs))), Zip3(|bs|, |imgs|, |frames|));
        && |cameras| == |old(cameras)| + |ks|
        && cameras[..|old(cameras)|] == old(cameras)
        && (forall k | 0 <= k < |ks| ::
              fresh(cameras[|old(cameras)| + k])
              && Loaded(cameras[|old(cameras)| + k], bs[ks[k]], old(bs[ks[k]][..]), imgs[ks[k]], frames[ks[k]]))
        && (forall k | 0 <= k < |bs| && k !in ks :: bs[k][..] == old(bs[k][..]))
    {
      var n := Zip3(|bs|, |imgs|, |frames|);
      var ks := Kept(Mask(Contents(bs)), n);
      KeptExact(Mask(Contents(bs)), n);
      LoadPicked(bs, ks, imgs, frames);
    }

    /** The cameras of the entries at the increasing positions `ks`, loaded in order;
        the blocks at other positions are not touched. `load_key_cams` passes
        `is_keyframe=True`, which the constructor ignores, so the picked entries are
        loaded as `load_other_cams` loads its entries. */
    method LoadPicked(bs: seq<array<real>>, ks: seq<nat>, imgs: seq<Option<Image>>, frames: seq<int>)
      requires Valid()
      requires forall k | 0 <= k < |bs| :: bs[k].Length == 15
      requires forall k, l | 0 <= k < l < |bs| :: bs[k] != bs[l]
      requires forall k | 0 <= k < |ks| :: ks[k] < |bs| && ks[k] < |imgs| && ks[k] < |frames|
      requires forall k, l | 0 <= k < l < |ks| :: ks[k] < ks[l]
      modifies this`cameras, set k | 0 <= k < |bs| :: bs[k]
      ensures Valid()
      ensures |cameras| == |old(cameras)| + |ks|
      ensures cameras[..|old(cameras)|] == old(cameras)
      ensures forall k | 0 <= k < |ks| ::
        fresh(cameras[|old(cameras)| + k])
        && Loaded(cameras[|old(cameras)| + k], bs[ks[k]], old(bs[ks[k]][..]), imgs[ks[k]], frames[ks[k]])
      ensures forall k | 0 <= k < |bs| && k !in ks :: bs[k][..] == old(bs[k][..])
    {
      PickedDistinct(bs, ks);
      var kbs, kimgs, kframes := Picked(bs, ks), Picked(imgs, ks), Picked(frames, ks);
      LoadOtherCams(kbs, kimgs, kframes);
      forall k | 0 <= k < |bs| && k !in ks
        ensures bs[k][..] == old(bs[k][..])
      {
        assert bs[k] !in set m | 0 <= m < |kbs| :: kbs[m];
      }
    }

    /** `get_num_cams()`. */
    function NumCams(): (n: nat)
      reads this
      ensures n == |cameras|
    {
      |cameras|
    }

    /** `get_img_scale()`: the scale of the first camera; `None` where the source
        raises `IndexError` on an empty list. */
    function GetImgScale(): (s: Option<real>)
      reads this, cameras
      ensures s.None? <==> cameras == []
      ensures s.Some? ==> s.value == cameras[0].imgScale
    {
      if cameras == [] then None else Some(cameras[0].GetImgScale())
    }

    /** `set_img_scale(value)`: each camera in turn stores the scale and rebuilds its
        pyramid. A camera whose pyramid cannot be built raises, and the cameras after it
        are not reached: `done` cameras succeeded, and when `ok` is false camera `done`
        is the one that raised, its image, frustum or gaze failing `Rebuildable`. Each
        camera that succeeded holds the gaze, `R_cone` and pyramid of its frustum at the new
        scale; the one that raised keeps what `RebuildFailed` says. */
    method SetImgScale(m: MathLib, value: real) returns (ok: bool, done: nat)
      requires Valid()
      modifies cameras
      ensures Valid()
      ensures done <= |cameras| && (ok <==> done == |cameras|)
      ensures forall j | 0 <= j < done :: Rebuilt(cameras[j], m, value)
      ensures !ok ==> RebuildFailed(cameras[done], m, value)
      ensures !ok ==> forall c | c in cameras && c !in cameras[..done + 1] :: unchanged(c)
    {
      done := 0;
      while done < |cameras|
        invariant done <= |cameras|
        invariant Valid()
        invariant forall j | 0 <= j < done :: Rebuilt(cameras[j], m, value)
        invariant forall c | c in cameras && c !in cameras[..done] :: unchanged(c)
        decreases |cameras| - done
      {
        assert cameras[..done + 1] == cameras[..done] + [cameras[done]];
        assert cameras[done] !in cameras[..done] ==> unchanged(cameras[done]);
        var r := RebuildAt(m, value, done);
        if !r {
          ok := false;
          return;
        }
        done := done + 1;
      }
      ok := true;
    }

    /** One step of `set_img_scale`: camera `i` stores the scale and rebuilds its
        pyramid; the cameras before it keep theirs (one listed twice rebuilds the same
        pyramid again) and no other camera changes. */
    method RebuildAt(m: MathLib, value: real, i: nat) returns (r: bool)
      requires Valid() && i < |cameras|
      requires forall j | 0 <= j < i :: Rebuilt(cameras[j], m, value)
      modifies cameras[i]
      ensures Valid()
      ensures forall j | 0 <= j < i :: Rebuilt(cameras[j], m, value)
      ensures r ==> Rebuilt(cameras[i], m, value)
      ensures !r ==> RebuildFailed(cameras[i], m, value) && cameras[i] !in cameras[..i]
      ensures forall c | c in cameras && c != cameras[i] :: unchanged(c)
    {
      var c := cameras[i];
      label before:
      r := c.SetImgScale(m, value);
      forall j | 0 <= j < i
        ensures Rebuilt(cameras[j], m, value)
      {
        if cameras[j] != c {
          assert old@before(Rebuilt(cameras[j], m, value));
        } else {
          // the camera already rebuilt at this scale, so the call succeeded again
          assert old@before(c.Rebuildable(m, value));
        }
      }
      if !r {
        // a camera listed earlier is rebuilt, so the failing one is not among them
        forall j | 0 <= j < i
          ensures cameras[j] != c
        {
          assert cameras[j].Rebuildable(m, value);
        }
      }
    }

    /** `pyramid_show()`: every camera shows its pyramid; nothing else changes. */
    method PyramidShow()
      modifies cameras`pyramidShow
      ensures forall c | c in cameras :: c.pyramidShow
    {
      for i := 0 to |cameras|
        invariant forall j | 0 <= j < i :: cameras[j].pyramidShow
      {
        cameras[i].pyramidShow := true;
      }
    }

    /** `pyramid_hide()`: no camera shows its pyramid; nothing else changes. */
    method PyramidHide()
      modifies cameras`pyramidShow
      ensures forall c | c in cameras :: !c.pyramidShow
    {
      for i := 0 to |cameras|
        invariant forall j | 0 <= j < i :: !cameras[j].pyramidShow
      {
        cameras[i].pyramidShow := false;
      }
    }

    /** `cone_show()`: every camera shows its gaze cone; nothing else changes. */
    method ConeShow()
      modifies cameras`coneShow
      ensures forall c | c in cameras :: c.coneShow
    {
      for i := 0 to |cameras|
        invariant forall j | 0 <= j < i :: cameras[j].coneShow
      {
        cameras[i].coneShow := true;
      }
    }

    /** `cone_hide()`: no camera shows its gaze cone; nothing else changes. */
    method ConeHide()
      modifies cameras`coneShow
      ensures forall c | c in cameras :: !c.coneShow
    {
      for i := 0 to |cameras|
        invariant forall j | 0 <= j < i :: !cameras[j].coneShow
      {
        cameras[i].coneShow := false;
      }
    }
  }
}
