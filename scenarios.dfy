/**
 * Client code driving the controller through the interactions the page
 * supports, and what the model lets a caller conclude about each.
 */
module Scenarios {
  import opened Options
  import opened CssUrl
  import opened Scene
  import opened Viewer

  /** The paint of a freshly loaded car body: a texture from the model file on a white base. */
  const Factory: Material := Material(Some(Texture("body.png")), Color("#ffffff"), false)

  /** A freshly loaded fragment, still visible: a group node holding one mesh. */
  method LoadedFragment() returns (f: Fragment)
    ensures fresh(f) && fresh(f.nodes) && f.visible
    ensures f.nodes[..] == [SceneNode(false, Factory), SceneNode(true, Factory)]
  {
    var nodes := new SceneNode[2];
    nodes[0], nodes[1] := SceneNode(false, Factory), SceneNode(true, Factory);
    f := new Fragment(nodes);
  }

  /**
   * Both cars are loaded and the porsche option is clicked: only the porsche
   * is shown, and the camera takes the porsche framing.
   */
  method SelectPorsche() returns (mclarenShown: bool, porscheShown: bool, pose: Pose)
    ensures !mclarenShown && porscheShown
    ensures pose == Pose(Vec3(0.0, 15.0, 15.0), 20.0, Finite(50.0))
  {
    var viewer := new ViewerState();
    var mclaren := LoadedFragment();
    var porsche := LoadedFragment();
    var _ := viewer.SetModel(mclaren, "mclaren", Vec3(0.0, 5.0, 10.0));
    var _ := viewer.SetModel(porsche, "porsche", Vec3(0.0, 5.0, 10.0));
    viewer.SwapModel("porsche");
    assert viewer.Visibility()["mclaren"] == mclaren.visible;
    assert viewer.Visibility()["porsche"] == porsche.visible;
    mclarenShown, porscheShown := mclaren.visible, porsche.visible;
    pose := viewer.CurrentPose();
  }

  /**
   * Both cars are loaded and the mclaren option is clicked: only the mclaren
   * is shown, and the camera takes the mclaren framing.
   */
  method SelectMclaren() returns (mclarenShown: bool, porscheShown: bool, pose: Pose)
    ensures mclarenShown && !porscheShown
    ensures pose == Pose(Vec3(0.0, 3.0, 3.0), 5.0, Finite(30.0))
  {
    var viewer := new ViewerState();
    var mclaren := LoadedFragment();
    var porsche := LoadedFragment();
    var _ := viewer.SetModel(mclaren, "mclaren", Vec3(0.0, 5.0, 10.0));
    var _ := viewer.SetModel(porsche, "porsche", Vec3(0.0, 5.0, 10.0));
    viewer.SwapModel("mclaren");
    assert viewer.Visibility()["mclaren"] == mclaren.visible;
    assert viewer.Visibility()["porsche"] == porsche.visible;
    mclarenShown, porscheShown := mclaren.visible, porsche.visible;
    pose := viewer.CurrentPose();
  }

  /** A car finishes loading: the load handler keeps it hidden until its option is clicked. */
  method LoadHides() returns (shown: bool)
    ensures !shown
  {
    var viewer := new ViewerState();
    var porsche := LoadedFragment();
    var _ := viewer.SetModel(porsche, "porsche", Vec3(0.0, 5.0, 10.0));
    assert viewer.Visibility()["porsche"] == porsche.visible;
    shown := porsche.visible;
  }

  /** An option clicked before any model has loaded changes neither the active name nor the camera. */
  method SelectBeforeLoad() returns (name: string, pose: Pose)
    ensures name == ""
    ensures pose == Pose(Vec3(0.0, 5.0, 10.0), 0.0, Infinity)
  {
    var viewer := new ViewerState();
    viewer.SwapModel("mclaren");
    name, pose := viewer.name, viewer.CurrentPose();
  }

  /** A texture swatch on the shown car: a fetch of the URL inside the style is started for that car. */
  method TextureSwatch() returns (request: TextureRequest, forMclaren: bool)
    ensures request.url == "carbon.jpg" && forMclaren
  {
    var viewer := new ViewerState();
    var mclaren := LoadedFragment();
    var _ := viewer.SetModel(mclaren, "mclaren", Vec3(0.0, 5.0, 10.0));
    assert "mclaren" in viewer.models;
    viewer.SwapModel("mclaren");
    assert viewer.Active() == Some(mclaren);
    ExtractUrlOfComputedStyle();
    var _ := viewer.UpdateModel(Style("url(\"carbon.jpg\")", "rgba(0, 0, 0, 0)"));
    request := viewer.requested[0];
    forMclaren := request.target == Some(mclaren);
  }

  /** The fetch completes: the mesh shows the texture on its base colour and is marked for re-upload. */
  method TextureArrives() returns (body: Material)
    ensures body == Material(Some(Texture("carbon.jpg")), Color("#ffffff"), true)
  {
    var mclaren := LoadedFragment();
    var _ := TextureLoaded(TextureRequest("carbon.jpg", Some(mclaren)));
    DressAllAt([SceneNode(false, Factory), SceneNode(true, Factory)], Texture("carbon.jpg"), 1);
    assert mclaren.nodes[..][1] == mclaren.nodes[1];
    body := mclaren.nodes[1].material;
  }

  /**
   * The texture swatch is clicked on the shown car and its fetch completes;
   * then the colour swatch `#ff0000` is clicked. The selection switches from
   * texture to colour, and the mesh loses the loaded texture and takes the colour.
   */
  method ColourSwatch() returns (look: Appearance, body: Material)
    ensures look == Appearance(Some("#ff0000"), None)
    ensures body == Material(None, Color("#ff0000"), true)
  {
    var viewer := new ViewerState();
    var mclaren := LoadedFragment();
    var _ := viewer.SetModel(mclaren, "mclaren", Vec3(0.0, 5.0, 10.0));
    assert "mclaren" in viewer.models;
    viewer.SwapModel("mclaren");
    assert viewer.Active() == Some(mclaren);
    ExtractUrlOfComputedStyle();
    var _ := viewer.UpdateModel(Style("url(\"carbon.jpg\")", "rgba(0, 0, 0, 0)"));
    var request := viewer.requested[|viewer.requested| - 1];
    assert request == TextureRequest("carbon.jpg", Some(mclaren));
    var _ := TextureLoaded(request);
    ghost var dressed := DressAll([SceneNode(false, Factory), SceneNode(true, Factory)], Texture("carbon.jpg"));
    assert mclaren.nodes[..] == dressed;
    var _ := viewer.UpdateModel(Style("none", "#ff0000"));
    DressAllAt([SceneNode(false, Factory), SceneNode(true, Factory)], Texture("carbon.jpg"), 1);
    PaintAllAt(dressed, Color("#ff0000"), 1);
    assert mclaren.nodes[..][1] == mclaren.nodes[1];
    look, body := viewer.Look(), mclaren.nodes[1].material;
  }

  /**
   * A colour is picked, then the porsche finishes loading. As written, the
   * load handler throws and the porsche keeps its factory paint.
   */
  method ColourBeforeLoad() returns (threw: bool, body: Material)
    ensures threw && body == Factory
  {
    var viewer := new ViewerState();
    var _ := viewer.UpdateModel(Style("none", "rgb(255, 0, 0)"));
    var porsche := LoadedFragment();
    threw := viewer.SetModel(porsche, "porsche", Vec3(0.0, 5.0, 10.0));
    body := porsche.nodes[1].material;
  }

  /** The same with the intended load handler: the porsche is painted in the picked colour. */
  method ColourBeforeLoadIntended() returns (body: Material)
    ensures body == Material(None, Color("rgb(255, 0, 0)"), false)
  {
    var viewer := new ViewerState();
    var _ := viewer.UpdateModel(Style("none", "rgb(255, 0, 0)"));
    var porsche := LoadedFragment();
    viewer.SetModelIntended(porsche, "porsche", Vec3(0.0, 5.0, 10.0));
    PaintAllAt([SceneNode(false, Factory), SceneNode(true, Factory)], Color("rgb(255, 0, 0)"), 1);
    body := porsche.nodes[1].material;
  }

  /**
   * A texture is picked, then the porsche finishes loading. As written, the
   * fetch goes to the raw `url("...")` text, for a target without a `.scene`.
   */
  method TextureBeforeLoad() returns (request: TextureRequest)
    ensures request == TextureRequest("url(\"carbon.jpg\")", None)
  {
    var viewer := new ViewerState();
    var _ := viewer.UpdateModel(Style("url(\"carbon.jpg\")", "rgba(0, 0, 0, 0)"));
    var porsche := LoadedFragment();
    var _ := viewer.SetModel(porsche, "porsche", Vec3(0.0, 5.0, 10.0));
    request := viewer.requested[|viewer.requested| - 1];
  }

  /** The same with the intended load handler: the fetch goes to the URL inside, for the porsche. */
  method TextureBeforeLoadIntended() returns (url: string, forPorsche: bool)
    ensures url == "carbon.jpg" && forPorsche
  {
    var viewer := new ViewerState();
    ExtractUrlOfComputedStyle();
    var _ := viewer.UpdateModel(Style("url(\"carbon.jpg\")", "rgba(0, 0, 0, 0)"));
    var porsche := LoadedFragment();
    viewer.SetModelIntended(porsche, "porsche", Vec3(0.0, 5.0, 10.0));
    var request := viewer.requested[|viewer.requested| - 1];
    url, forPorsche := request.url, request.target == Some(porsche);
  }
}
