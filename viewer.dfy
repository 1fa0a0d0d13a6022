/**
 * The page controller: the shared `state` object (selected colour, selected
 * texture, model registry, active model name), the camera position and the
 * orbit controls' zoom bounds, and the handlers that change them:
 * `updateModel` (swatch click), `swapModel` (model option click), `setModel`
 * (a model finished loading) and the camera floor of `animate`.
 *
 * The rendering library's objects are reduced to plain records: a camera
 * position of exact reals, the controls' `minDistance`/`maxDistance`, and a
 * fragment per loaded model (module Scene). Texture fetches the controller
 * starts are recorded in `requested`, in order.
 */
module Viewer {
  import opened Options
  import opened CssUrl
  import opened Scene

  datatype Vec3 = Vec3(x: real, y: real, z: real)

  /** An orbit-controls distance bound; the controls start with no upper bound. */
  datatype Distance = Finite(d: real) | Infinity

  /** A camera framing policy: initial position and zoom bounds for a model variant. */
  datatype Framing = Framing(position: Vec3, minDistance: real, maxDistance: real)

  /** The camera position with the orbit controls' zoom bounds. */
  datatype Pose = Pose(camera: Vec3, minDistance: real, maxDistance: Distance)

  /** The pose after a swap to `v` from pose `p`: the framing of `v` when it has one, else `p` unchanged. */
  function Framed(p: Pose, v: string): (r: Pose)
    ensures FramingFor(v).None? ==> r == p
    ensures FramingFor(v).Some? ==>
      r.camera == FramingFor(v).value.position && r.minDistance == FramingFor(v).value.minDistance
      && r.maxDistance == Finite(FramingFor(v).value.maxDistance)
  {
    match FramingFor(v)
    case None => p
    case Some(f) => Pose(f.position, f.minDistance, Finite(f.maxDistance))
  }

  /** What the swatch handler reads from `getComputedStyle(event.target)`. */
  datatype Style = Style(backgroundImage: string, backgroundColor: string)

  /** The appearance half of `state`: `state.color` and `state.texture`. */
  datatype Appearance = Appearance(color: Option<string>, texture: Option<string>)

  /** The framing table of `swapModel`: two predefined variants, none for any other name. */
  function FramingFor(v: string): (r: Option<Framing>)
    ensures r.Some? <==> v == "mclaren" || v == "porsche"
    ensures r.Some? ==> 0.0 < r.value.minDistance < r.value.maxDistance
    ensures r.Some? ==> r.value.position.x == 0.0 && r.value.position.y == r.value.position.z > 0.0
  {
    if v == "mclaren" then Some(Framing(Vec3(0.0, 3.0, 3.0), 5.0, 30.0))
    else if v == "porsche" then Some(Framing(Vec3(0.0, 15.0, 15.0), 20.0, 50.0))
    else None
  }

  /** The state a swatch click leaves: a texture when the swatch has a background image, else its colour. */
  function Selected(style: Style): (a: Appearance)
    ensures !(a.color.Some? && a.texture.Some?)
    ensures a.texture.Some? <==> style.backgroundImage != "none"
    ensures a.texture.Some? ==> a.texture.value == style.backgroundImage
    ensures a.color.Some? <==> style.backgroundImage == "none"
    ensures a.color.Some? ==> a.color.value == style.backgroundColor
  {
    if style.backgroundImage != "none" then Appearance(None, Some(style.backgroundImage))
    else Appearance(Some(style.backgroundColor), None)
  }

  /** The visibility flags `swapModel(v)` leaves on a registry whose flags were `vis`. */
  function Swapped(vis: map<string, bool>, v: string): (r: map<string, bool>)
    ensures r.Keys == vis.Keys
    ensures forall k :: k in r ==> (r[k] <==> k == v)
  {
    map k | k in vis :: k == v
  }

  /** The names whose models are shown. */
  function Shown(vis: map<string, bool>): (r: set<string>) {
    set k | k in vis && vis[k]
  }

  /** After a swap exactly the model registered under the selected name is shown, or none when there is no such model. */
  lemma SwapShowsOnlySelected(vis: map<string, bool>, v: string)
    ensures Swapped(vis, v).Keys == vis.Keys
    ensures Shown(Swapped(vis, v)) == if v in vis then {v} else {}
    ensures |Shown(Swapped(vis, v))| == if v in vis then 1 else 0
  {
    var r := Swapped(vis, v);
    if v in vis {
      assert v in Shown(r);
      assert Shown(r) == {v};
    } else {
      assert Shown(r) == {};
    }
  }

  /** What a swap shows does not depend on what was shown before it; in particular swapping twice is swapping once. */
  lemma SwapForgetsPrior(vis: map<string, bool>, vis': map<string, bool>, v: string)
    requires vis.Keys == vis'.Keys
    ensures Swapped(vis, v) == Swapped(vis', v)
    ensures Swapped(Swapped(vis, v), v) == Swapped(vis, v)
  {
    assert Swapped(vis, v).Keys == vis.Keys;
  }

  /** The floor `animate` keeps the camera above: its height is at least 1, and raised to exactly 1 when below. */
  function FloorClamp(p: Vec3): (q: Vec3)
    ensures q.y >= 1.0 && q.x == p.x && q.z == p.z
    ensures p.y >= 1.0 ==> q == p
    ensures p.y < 1.0 ==> q.y == 1.0
  {
    if p.y < 1.0 then p.(y := 1.0) else p
  }

  /** The colour argument `setModel` passes on: `state.color` when it is truthy. */
  function TruthyColor(c: Option<string>): (r: Option<Color>)
    ensures r.Some? <==> c.Some? && c.value != ""
    ensures r.Some? ==> r.value.css == c.value
  {
    if c.Some? && c.value != "" then Some(Color(c.value)) else None
  }

  /**
   * The URL inside a selected `background-image` value, if any. With no
   * texture selected there is no URL: `extractUrl` is not applied to the
   * null `state.texture`, on which it would throw.
   */
  function TextureUrl(t: Option<string>): (r: Option<string>)
    ensures t.None? ==> r.None?
    ensures t.Some? ==> r == ExtractUrl(t.value)
    ensures r.Some? ==> r.value != ""
  {
    if t.Some? then ExtractUrl(t.value) else None
  }

  /** The requests a call may add to the log. */
  function Issued(q: Option<TextureRequest>): (r: seq<TextureRequest>) {
    if q.Some? then [q.value] else []
  }

  /** No fragment is registered under two names. */
  predicate Distinct(m: map<string, Fragment>) {
    forall j, k :: j in m && k in m && j != k ==> m[j] != m[k]
  }

  class ViewerState {
    var color: Option<string>
    var texture: Option<string>
    var models: map<string, Fragment>
    var name: string
    var camera: Vec3
    var minDistance: real
    var maxDistance: Distance
    var requested: seq<TextureRequest>

    /** Colour and texture are never both selected; distinct names hold distinct fragments. */
    ghost predicate Valid()
      reads this
    {
      !(color.Some? && texture.Some?) && Distinct(models)
    }

    function Look(): (r: Appearance)
      reads this
    {
      Appearance(color, texture)
    }

    function CurrentPose(): (r: Pose)
      reads this
    {
      Pose(camera, minDistance, maxDistance)
    }

    /** The fragments of the registry. */
    function Fragments(): (r: set<Fragment>)
      reads this
    {
      models.Values
    }

    /** The visibility flag of every registered model. */
    function Visibility(): (r: map<string, bool>)
      reads this, Fragments()
    {
      map k | k in models :: models[k].visible
    }

    /** `state.models.get(state.name)`: the active model, or None for `undefined`. */
    function Active(): (r: Option<Fragment>)
      reads this
      ensures r.Some? <==> name in models
      ensures r.Some? ==> r.value == models[name]
    {
      if name in models then Some(models[name]) else None
    }

    /** The node array of the active model, as a frame. */
    function ActiveNodes(): (r: set<array<SceneNode>>)
      reads this
    {
      if name in models then {models[name].nodes} else {}
    }

    /** The page's start-up state: nothing selected, nothing loaded, camera at (0, 5, 10), unbounded zoom. */
    constructor ()
      ensures Valid()
      ensures Look() == Appearance(None, None) && models == map[] && name == ""
      ensures camera == Vec3(0.0, 5.0, 10.0) && minDistance == 0.0 && maxDistance == Infinity
      ensures requested == []
    {
      color, texture := None, None;
      models := map[];
      name := "";
      camera := Vec3(0.0, 5.0, 10.0);
      minDistance, maxDistance := 0.0, Infinity;
      requested := [];
    }

    /**
     * One frame of `animate`: the orbit controls' update step leaves the
     * camera at `orbited` (the library's computation, taken as input), and
     * the camera is then kept above the floor.
     */
    method Frame(orbited: Vec3)
      modifies this`camera
      ensures camera == FloorClamp(orbited)
    {
      camera := orbited;
      if camera.y < 1.0 {
        camera := camera.(y := 1.0);
      }
    }

    /**
     * `updateModel`: the swatch's style replaces the selection, then the
     * active model is recoloured at once, or a fetch of the texture's URL is
     * started. Returns whether the handler throws (a colour swatch while no
     * model is active); the state has been updated by then.
     */
    method UpdateModel(style: Style) returns (threw: bool)
      requires Valid()
      modifies this, ActiveNodes()
      ensures Valid()
      ensures Look() == Selected(style)
      ensures models == old(models) && name == old(name)
      ensures camera == old(camera) && minDistance == old(minDistance) && maxDistance == old(maxDistance)
      ensures style.backgroundImage != "none" ==>
        !threw && requested == old(requested) + Issued(UpdateModelTexture(old(Active()), ExtractUrl(style.backgroundImage)))
      ensures style.backgroundImage != "none" && name in models ==>
        models[name].nodes[..] == old(models[name].nodes[..])
      ensures style.backgroundImage == "none" ==>
        requested == old(requested) && (threw <==> name !in models)
      ensures style.backgroundImage == "none" && name in models ==>
        models[name].nodes[..] == PaintAll(old(models[name].nodes[..]), Color(style.backgroundColor))
    {
      threw := false;
      if style.backgroundImage != "none" {
        texture := Some(style.backgroundImage);
        color := None;
        var request := UpdateModelTexture(Active(), ExtractUrl(texture.value));
        requested := requested + Issued(request);
      } else {
        color := Some(style.backgroundColor);
        texture := None;
        threw := UpdateModelColor(Active(), Some(Color(color.value)));
      }
    }

    /**
     * The callback `swapModel` hands to `forEach`, for the entry `key` with
     * fragment `model`: show or hide it, apply the framing of `v`, record `v`.
     */
    method SwapEntry(model: Fragment, key: string, v: string)
      modifies model, this`name, this`camera, this`minDistance, this`maxDistance
      ensures model.visible == (key == v)
      ensures name == v && CurrentPose() == Framed(old(CurrentPose()), v)
    {
      model.visible := key == v;
      var framing := FramingFor(v);
      if framing.Some? {
        camera := framing.value.position;
        minDistance, maxDistance := framing.value.minDistance, Finite(framing.value.maxDistance);
      }
      name := v;
    }

    /**
     * `swapModel` for the option naming `v`: one pass over the registry that
     * shows the model under `v` and hides every other, applies the framing
     * of `v` and records `v` as the active name. The framing and the name are
     * written inside the pass, so on an empty registry neither happens.
     */
    method SwapModel(v: string)
      requires Valid()
      modifies this, Fragments()
      ensures Valid()
      ensures models == old(models) && Look() == old(Look()) && requested == old(requested)
      ensures Visibility() == Swapped(old(Visibility()), v)
      ensures old(models) == map[] ==> name == old(name) && CurrentPose() == old(CurrentPose())
      ensures old(models) != map[] ==> name == v && CurrentPose() == Framed(old(CurrentPose()), v)
    {
      ghost var shown := Visibility();
      ghost var before := CurrentPose();
      var registry := models;
      var todo := registry.Keys;
      while todo != {}
        invariant todo <= registry.Keys && Distinct(registry)
        invariant forall k :: k in registry ==> registry[k].visible == if k in todo then shown[k] else k == v
        invariant todo == registry.Keys ==> name == old(name) && CurrentPose() == before
        invariant todo != registry.Keys ==> name == v && CurrentPose() == Framed(before, v)
        modifies Fragments(), this`name, this`camera, this`minDistance, this`maxDistance
        decreases todo
      {
        var key :| key in todo;
        SwapEntry(registry[key], key, v);
        todo := todo - {key};
      }
    }

    /** The first half of `setModel`: register the loaded fragment under `name`, hidden. */
    method Register(gltf: Fragment, name: string)
      requires Valid()
      requires forall k :: k in models ==> models[k] != gltf
      modifies this`models, gltf
      ensures Valid()
      ensures models == old(models)[name := gltf]
      ensures Visibility() == old(Visibility())[name := false]
    {
      ghost var shown := Visibility();
      models := models[name := gltf];
      gltf.visible := false;
      assert forall k :: k in models && k != name ==> models[k].visible == shown[k];
    }

    /**
     * `setModel(gltf, name)` as written: the loaded fragment is registered
     * under `name` and hidden, then handed on as if it were the loader
     * result. So a truthy selected colour throws a TypeError (and the rest is
     * skipped); otherwise a selected texture is requested with its raw
     * `url("...")` text for a target without a `.scene`, and one frame runs.
     * Returns whether it throws.
     */
    method SetModel(gltf: Fragment, name: string, orbited: Vec3) returns (threw: bool)
      requires Valid()
      requires forall k :: k in models ==> models[k] != gltf
      modifies this, gltf
      ensures Valid()
      ensures models == old(models)[name := gltf]
      ensures Visibility() == old(Visibility())[name := false]
      ensures Look() == old(Look()) && this.name == old(this.name)
      ensures minDistance == old(minDistance) && maxDistance == old(maxDistance)
      ensures threw <==> TruthyColor(old(color)).Some?
      ensures threw ==> requested == old(requested) && camera == old(camera)
      ensures !threw ==> requested == old(requested) + Issued(UpdateModelTexture(None, old(texture)))
      ensures !threw ==> camera == FloorClamp(orbited)
    {
      Register(gltf, name);
      threw := UpdateModelColor(None, TruthyColor(color));
      if !threw {
        requested := requested + Issued(UpdateModelTexture(None, texture));
        Frame(orbited);
      }
    }

    /**
     * `setModel` as evidently intended: the loader result itself is handed
     * to the updaters, and a selected texture goes through `extractUrl`
     * first, as the swatch handler does; with none selected no fetch starts.
     * A model that finishes loading after a selection then shows that
     * selection.
     */
    method SetModelIntended(gltf: Fragment, name: string, orbited: Vec3)
      requires Valid()
      requires forall k :: k in models ==> models[k] != gltf
      modifies this, gltf, gltf.nodes
      ensures Valid()
      ensures models == old(models)[name := gltf]
      ensures Visibility() == old(Visibility())[name := false]
      ensures Look() == old(Look()) && this.name == old(this.name)
      ensures minDistance == old(minDistance) && maxDistance == old(maxDistance)
      ensures TruthyColor(old(color)).Some? ==>
        gltf.nodes[..] == PaintAll(old(gltf.nodes[..]), TruthyColor(old(color)).value)
      ensures TruthyColor(old(color)).None? ==> gltf.nodes[..] == old(gltf.nodes[..])
      ensures requested == old(requested) + Issued(UpdateModelTexture(Some(gltf), TextureUrl(old(texture))))
      ensures camera == FloorClamp(orbited)
    {
      Register(gltf, name);
      var _ := UpdateModelColor(Some(gltf), TruthyColor(color));
      requested := requested + Issued(UpdateModelTexture(Some(gltf), TextureUrl(texture)));
      Frame(orbited);
    }
  }
}
