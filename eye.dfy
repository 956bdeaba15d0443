/** The scene camera of the 3D browser (`eye.py`): the `gluLookAt` parameters, which the
    viewer can snap onto one of the reconstructed cameras, shifted by the point-cloud
    offset `pt_avg`. The vector helpers it defines are the ones of `Vectors`. */
module EyeView {
  import opened RealMath
  import opened Vectors
  import opened Geometry
  import opened Optional
  import opened Pinhole

  class Eye {
    var center: Vec3
    var focus: Vec3
    var up: Vec3
    /** The vertical field of view, in degrees. */
    var aperture: real
    var zoom: real
    var near: real
    var far: real
    /** The offset added to every camera position; `None` until it is set. */
    var ptAvg: Option<Vec3>
    var show: bool
    /** The index of the camera the eye was last snapped to. */
    var id: int
    var cams: Option<seq<Camera>>

    /** `Eye(center, focus, up, aperture)`; the defaults of the source are
        `(0, 0, -1)`, the origin, `(0, 1, 0)` and 35. */
    constructor (center: Vec3, focus: Vec3, up: Vec3, aperture: real)
      ensures this.center == center && this.focus == focus && this.up == up
      ensures this.aperture == aperture
      ensures zoom == 1.0 && near == 0.01 && far == 100.0
      ensures ptAvg == None && !show && id == 0 && cams == None
    {
      this.center := center;
      this.focus := focus;
      this.up := up;
      this.aperture := aperture;
      zoom := 1.0;
      near := 0.1;
      far := 100.0;
      ptAvg := None;
      near := 0.01;
      far := 100.0;
      show := false;
      id := 0;
      cams := None;
    }

    /** `_set_up(values)`: the normalised vector, so a unit vector whenever `values` has
        non-zero length; the zero vector is stored as it is. */
    method SetUp(m: MathLib, values: Vec3)
      modifies this`up
      ensures up == Normalize(m, values)
      ensures SqrtLaws(m) && Length(m, values) != 0.0 ==> Dot(up, up) == 1.0
      ensures Length(m, values) == 0.0 ==> up == values
    {
      up := Normalize(m, values);
      if SqrtLaws(m) {
        NormalizeUnit(m, values);
      }
    }

    /** `_set_cams(cams)`. */
    method SetCams(cams: Option<seq<Camera>>)
      modifies this`cams
      ensures this.cams == cams
    {
      this.cams := cams;
    }

    /** `_set_pt_avg(value)`. */
    method SetPtAvg(value: Option<Vec3>)
      modifies this`ptAvg
      ensures ptAvg == value
    {
      ptAvg := value;
    }

    /** The state `_set_current(value)` leaves, and whether it returns without raising.
        Camera `i = int(value)` is used only when the cameras are set and `i` is a
        position of the list; otherwise nothing changes. The source then assigns the
        aperture, the centre, the focus, the up vector and the index in that order, and
        a missing field (`a`, `c` or `f` of the camera, or `pt_avg`) raises `TypeError`
        with the earlier assignments kept. */
    twostate predicate CurrentSet(value: real, ok: bool)
      reads this, if cams.Some? then set k | 0 <= k < |cams.value| :: cams.value[k] else {}
    {
      var i := Trunc(value);
      && unchanged(`zoom, `near, `far, `ptAvg, `show, `cams)
      && (cams.None? || !(0 <= i < |cams.value|) ==> ok && unchanged(this))
      && (cams.Some? && 0 <= i < |cams.value| ==>
            var cam := cams.value[i];
            && (ok <==> cam.a.Some? && cam.c.Some? && cam.f.Some? && ptAvg.Some?)
            && (cam.a.None? ==> unchanged(this))
            && (cam.a.Some? ==> aperture == 2.0 * Degrees(cam.a.value))
            && (cam.c.None? || ptAvg.None? ==> unchanged(`center, `focus, `up, `id))
            && (cam.a.Some? && cam.c.Some? && ptAvg.Some? ==> center == Add(cam.c.value, ptAvg.value))
            && (cam.f.None? ==> unchanged(`focus, `up, `id))
            && (ok ==>
                  && focus == Add(cam.f.value, ptAvg.value)
                  && up == Sub(cam.up, cam.c.value)
                  && id == i
                  // the offset moves the camera without turning it
                  && Sub(focus, center) == Sub(cam.f.value, cam.c.value)))
    }

    /** `_set_current(value)`; `ok` is false where the source raises. */
    method SetCurrent(value: real) returns (ok: bool)
      modifies this`aperture, this`center, this`focus, this`up, this`id
      ensures CurrentSet(value, ok)
    {
      var i := Trunc(value);
      if cams.None? || !(0 <= i < |cams.value|) {
        return true;
      }
      var cam := cams.value[i];
      if cam.a.None? {
        return false;
      }
      aperture := 2.0 * Degrees(cam.a.value);
      if cam.c.None? || ptAvg.None? {
        return false;
      }
      center := Add(cam.c.value, ptAvg.value);
      if cam.f.None? {
        return false;
      }
      focus := Add(cam.f.value, ptAvg.value);
      up := Sub(cam.up, cam.c.value);
      id := i;
      AddSub(cam.f.value, ptAvg.value);
      return true;
    }

    /** `_show()`: snaps again onto the current camera, then shows the eye; when the
        snap raises, `show` is not reached and the assignments the snap made before
        raising are kept. */
    method Show() returns (ok: bool)
      modifies this`aperture, this`center, this`focus, this`up, this`id, this`show
      ensures ok ==> show
      ensures !ok ==> show == old(show)
      ensures var i := old(id);
        && (cams.None? || !(0 <= i < |cams.value|) ==> ok && unchanged(`aperture, `center, `focus, `up, `id))
        && (cams.Some? && 0 <= i < |cams.value| ==>
              var cam := cams.value[i];
              && (ok <==> cam.a.Some? && cam.c.Some? && cam.f.Some? && ptAvg.Some?)
              && (cam.a.None? ==> unchanged(`aperture, `center, `focus, `up, `id))
              && (cam.a.Some? ==> aperture == 2.0 * Degrees(cam.a.value))
              && (cam.c.None? || ptAvg.None? ==> unchanged(`center, `focus, `up, `id))
              && (cam.a.Some? && cam.c.Some? && ptAvg.Some? ==> center == Add(cam.c.value, ptAvg.value))
              && (cam.f.None? ==> unchanged(`focus, `up, `id))
              && (ok ==>
                    && focus == Add(cam.f.value, ptAvg.value)
                    && up == Sub(cam.up, cam.c.value)
                    && id == i))
    {
      ok := SetCurrent(id as real);
      if ok {
        show := true;
      }
    }

    /** `_hide()`: only the flag changes. */
    method Hide()
      modifies this`show
      ensures !show
    {
      show := false;
    }
  }

  /** A camera that has built its pyramid stores `c = t R`, `f = (0, 0, -Z) R + t R` and
      `up = (0, 1, 0) R + t R`, so the eye snapped onto it looks down the camera's
      optical axis (the third row of `R`, reversed) from the shifted centre, with the
      camera's own up direction (the second row of `R`). */
  lemma SnapFollowsCameraAxes(fr: Frustum, rot: Mat3, t: Vec3, pt: Vec3)
    ensures var c := RowTimes(t, rot);
      var f := ToWorld(Vec3(0.0, 0.0, -fr.z), rot, t);
      && Sub(Add(f, pt), Add(c, pt)) == Scale(rot.r2, -fr.z)
      && Sub(ToWorld(UpNormal, rot, t), c) == rot.r1
  {
  }
}
