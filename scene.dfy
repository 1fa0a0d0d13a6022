/**
 * The appearance updaters of the page controller: `updateModelColor`, the
 * request half of `updateModelTexture`, and the body of the texture-load
 * callback.
 *
 * A loaded model's scene graph is reduced to its nodes in traversal order:
 * an array of records, each saying whether the node is a mesh and what its
 * material holds. `traverse` visits every node once, so a traversal is a
 * loop over that array that rewrites the material of each mesh in place.
 */
module Scene {
  import opened Options

  /** A decoded texture, identified by the URL it was fetched from. */
  datatype Texture = Texture(url: string)

  /** A colour value, identified by the CSS text it was built from. */
  datatype Color = Color(css: string)

  /** The material fields the controller touches: `map`, `color` and `needsUpdate`. */
  datatype Material = Material(textureMap: Option<Texture>, color: Color, needsUpdate: bool)

  datatype SceneNode = SceneNode(isMesh: bool, material: Material)

  /** The scene-graph fragment of one loaded model (`gltf.scene`). */
  class Fragment {
    var visible: bool
    const nodes: array<SceneNode>

    /** A freshly loaded fragment is visible, as every new scene object is. */
    constructor (nodes: array<SceneNode>)
      ensures this.nodes == nodes && visible
    {
      this.nodes := nodes;
      visible := true;
    }
  }

  /** A texture fetch started by `updateModelTexture`: the URL handed to the loader and the `model` its callback will traverse. */
  datatype TextureRequest = TextureRequest(url: string, target: Option<Fragment>)

  /** The effect of the colour traversal on one node. */
  function Paint(n: SceneNode, c: Color): (r: SceneNode)
    ensures r.isMesh == n.isMesh
    ensures n.isMesh ==> r.material == Material(None, c, n.material.needsUpdate)
    ensures !n.isMesh ==> r == n
  {
    if n.isMesh then n.(material := n.material.(textureMap := None, color := c)) else n
  }

  /** The colour traversal over a whole fragment. */
  function PaintAll(ns: seq<SceneNode>, c: Color): (r: seq<SceneNode>)
    ensures |r| == |ns|
    ensures forall k :: 0 <= k < |r| ==> r[k].isMesh == ns[k].isMesh
  {
    if ns == [] then [] else [Paint(ns[0], c)] + PaintAll(ns[1..], c)
  }

  /** The effect of the texture callback on one node. */
  function Dress(n: SceneNode, t: Texture): (r: SceneNode)
    ensures r.isMesh == n.isMesh
    ensures n.isMesh ==> r.material == Material(Some(t), n.material.color, true)
    ensures !n.isMesh ==> r == n
  {
    if n.isMesh then n.(material := n.material.(textureMap := Some(t), needsUpdate := true)) else n
  }

  /** The texture traversal over a whole fragment. */
  function DressAll(ns: seq<SceneNode>, t: Texture): (r: seq<SceneNode>)
    ensures |r| == |ns|
    ensures forall k :: 0 <= k < |r| ==> r[k].isMesh == ns[k].isMesh
  {
    if ns == [] then [] else [Dress(ns[0], t)] + DressAll(ns[1..], t)
  }

  /**
   * After the colour traversal every mesh has no texture map and the given
   * colour (its `needsUpdate` flag untouched), and every other node is as it was.
   */
  lemma {:induction false} PaintAllAt(ns: seq<SceneNode>, c: Color, k: nat)
    requires k < |ns|
    ensures |PaintAll(ns, c)| == |ns|
    ensures ns[k].isMesh ==> PaintAll(ns, c)[k] == ns[k].(material := Material(None, c, ns[k].material.needsUpdate))
    ensures !ns[k].isMesh ==> PaintAll(ns, c)[k] == ns[k]
  {
    if k > 0 {
      PaintAllAt(ns[1..], c, k - 1);
    } else if |ns| > 1 {
      PaintAllAt(ns[1..], c, 0);
    }
  }

  /** Picking the same colour twice looks the same as picking it once. */
  lemma {:induction false} PaintAllIdempotent(ns: seq<SceneNode>, c: Color)
    ensures PaintAll(PaintAll(ns, c), c) == PaintAll(ns, c)
  {
    if ns != [] {
      PaintAllIdempotent(ns[1..], c);
      assert PaintAll(ns, c)[1..] == PaintAll(ns[1..], c);
    }
  }

  /**
   * After the texture callback every mesh shows the texture and is marked for
   * re-upload, its colour untouched, and every other node is as it was.
   */
  lemma {:induction false} DressAllAt(ns: seq<SceneNode>, t: Texture, k: nat)
    requires k < |ns|
    ensures |DressAll(ns, t)| == |ns|
    ensures ns[k].isMesh ==> DressAll(ns, t)[k] == ns[k].(material := Material(Some(t), ns[k].material.color, true))
    ensures !ns[k].isMesh ==> DressAll(ns, t)[k] == ns[k]
  {
    if k > 0 {
      DressAllAt(ns[1..], t, k - 1);
    } else if |ns| > 1 {
      DressAllAt(ns[1..], t, 0);
    }
  }

  /**
   * Picking a colour after a texture has loaded leaves the same materials as
   * picking the colour alone, apart from the re-upload flag the texture set.
   */
  lemma {:induction false} PaintAfterDress(ns: seq<SceneNode>, t: Texture, c: Color, k: nat)
    requires k < |ns|
    ensures |PaintAll(DressAll(ns, t), c)| == |PaintAll(ns, c)| == |ns|
    ensures PaintAll(DressAll(ns, t), c)[k].material.textureMap == PaintAll(ns, c)[k].material.textureMap
    ensures PaintAll(DressAll(ns, t), c)[k].material.color == PaintAll(ns, c)[k].material.color
  {
    DressAllAt(ns, t, k);
    PaintAllAt(ns, c, k);
    PaintAllAt(DressAll(ns, t), c, k);
  }

  /** `traverse` with the colour callback, in place. */
  method PaintMeshes(a: array<SceneNode>, c: Color)
    modifies a
    ensures a[..] == PaintAll(old(a[..]), c)
  {
    var i := 0;
    while i < a.Length
      invariant 0 <= i <= a.Length
      invariant forall k :: 0 <= k < i ==> a[k] == Paint(old(a[k]), c)
      invariant forall k :: i <= k < a.Length ==> a[k] == old(a[k])
    {
      if a[i].isMesh {
        a[i] := a[i].(material := a[i].material.(textureMap := None, color := c));
      }
      i := i + 1;
    }
    forall k | 0 <= k < a.Length
      ensures |PaintAll(old(a[..]), c)| == a.Length && a[k] == PaintAll(old(a[..]), c)[k]
    {
      PaintAllAt(old(a[..]), c, k);
    }
  }

  /** `traverse` with the texture callback, in place. */
  method DressMeshes(a: array<SceneNode>, t: Texture)
    modifies a
    ensures a[..] == DressAll(old(a[..]), t)
  {
    var i := 0;
    while i < a.Length
      invariant 0 <= i <= a.Length
      invariant forall k :: 0 <= k < i ==> a[k] == Dress(old(a[k]), t)
      invariant forall k :: i <= k < a.Length ==> a[k] == old(a[k])
    {
      if a[i].isMesh {
        a[i] := a[i].(material := a[i].material.(textureMap := Some(t), needsUpdate := true));
      }
      i := i + 1;
    }
    forall k | 0 <= k < a.Length
      ensures |DressAll(old(a[..]), t)| == a.Length && a[k] == DressAll(old(a[..]), t)[k]
    {
      DressAllAt(old(a[..]), t, k);
    }
  }

  /**
   * `updateModelColor(model, color)`. A `model` of Some(f) is a value whose
   * `.scene` is the fragment f; None is a value without a `.scene` (the
   * `undefined` of a registry miss, or a fragment passed where its loader
   * result was expected), whose dereference throws a TypeError. A `color` of
   * None is a falsy argument. Returns whether the call throws.
   */
  method UpdateModelColor(model: Option<Fragment>, color: Option<Color>) returns (threw: bool)
    modifies if model.Some? && color.Some? then {model.value.nodes} else {}
    ensures threw <==> color.Some? && model.None?
    ensures model.Some? && color.Some? ==> model.value.nodes[..] == PaintAll(old(model.value.nodes[..]), color.value)
    ensures model.Some? && color.None? ==> model.value.nodes[..] == old(model.value.nodes[..])
  {
    threw := false;
    if color.Some? {
      if model.None? {
        threw := true;
      } else {
        PaintMeshes(model.value.nodes, color.value);
      }
    }
  }

  /**
   * The fetch `updateModelTexture(model, textureURL)` starts: one for a
   * truthy (non-empty) URL, none otherwise. Nothing is dereferenced before
   * the fetch completes.
   */
  function UpdateModelTexture(model: Option<Fragment>, textureUrl: Option<string>): (r: Option<TextureRequest>)
    ensures r.Some? <==> textureUrl.Some? && textureUrl.value != ""
    ensures r.Some? ==> r.value.url == textureUrl.value && r.value.target == model
  {
    if textureUrl.Some? && textureUrl.value != "" then Some(TextureRequest(textureUrl.value, model)) else None
  }

  /**
   * The loader's callback for a completed fetch: dresses every mesh of the
   * target with the texture decoded from the requested URL, or throws a
   * TypeError when the target has no `.scene`. Returns whether it throws.
   */
  method TextureLoaded(request: TextureRequest) returns (threw: bool)
    modifies if request.target.Some? then {request.target.value.nodes} else {}
    ensures threw <==> request.target.None?
    ensures request.target.Some? ==>
      request.target.value.nodes[..] == DressAll(old(request.target.value.nodes[..]), Texture(request.url))
  {
    match request.target
    case None =>
      threw := true;
    case Some(f) =>
      DressMeshes(f.nodes, Texture(request.url));
      threw := false;
  }
}
