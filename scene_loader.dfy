/** `xml_parser`: a left-to-right pass over the document's nodes in pre-order that
    threads the output name, the camera parameters, the last material and the growing
    world, and aborts on the first missing or malformed attribute. The XML text itself
    is not parsed here: the input is the node sequence `descendants()` yields. */
module SceneLoader {
  import opened Wrappers
  import opened SceneTypes
  import opened ValueParser

  /** A document node: an element (local tag name and attributes), a text node, or any
      other kind (the root, a comment, a processing instruction). */
  datatype Node = Element(tag: string, attrs: map<string, string>) | Text | Other

  type Attrs = map<string, string>

  /** Number parsing (`str::parse::<f64>`), a partial function. */
  type NumberParser = string -> Option<real>

  /** One reason per `panic!`/`expect` of the loader. */
  datatype LoadError =
    | MissingLookFrom
    | MissingLookAt
    | MissingUp
    | MissingAperture
    | BadAperture
    | MissingMaterialType
    | UnknownMaterial(name: string)
    | MissingFuzz
    | BadFuzz
    | MissingRefractiveIndex
    | BadRefractiveIndex
    | MissingCenter
    | MissingRadius
    | BadRadius
    | BadTriple(reason: TripleError)

  const VFov: real := 20.0
  const AspectRatio: real := 3.0 / 2.0
  const FocusDist: real := 10.0
  const DefaultImageName: string := "default.ppm"

  /** The sphere every world starts with. */
  const GroundSphere: Sphere := Sphere(Vec3(0.0, -1000.0, 0.0), 1000.0, Lambertian(Vec3(0.5, 0.5, 0.5)))

  /** The material objects get before any `material` element. */
  const DefaultMaterial: Material := Lambertian(Zero)

  /** The mutable locals of the loader. */
  datatype LoaderState = LoaderState(
    imageName: string,
    lookFrom: Vec3,
    lookAt: Vec3,
    vup: Vec3,
    aperture: real,
    lastMat: Material,
    world: seq<Sphere>)

  const Initial: LoaderState := LoaderState("", Zero, Zero, Zero, 0.0, DefaultMaterial, [GroundSphere])

  predicate IsTag(node: Node, tag: string) {
    node.Element? && node.tag == tag
  }

  /** A required attribute holding three numbers. */
  function TripleAttr(a: Attrs, key: string, missing: LoadError, parse: NumberParser): Result<Vec3, LoadError> {
    if key in a then
      match ParseTriple(a[key], parse)
      case Success(v) => Success(v)
      case Failure(e) => Failure(BadTriple(e))
    else Failure(missing)
  }

  /** A required attribute holding one number. */
  function NumberAttr(a: Attrs, key: string, missing: LoadError, bad: LoadError, parse: NumberParser): Result<real, LoadError> {
    if key in a then
      match parse(a[key])
      case Some(v) => Success(v)
      case None => Failure(bad)
    else Failure(missing)
  }

  /** The name a `film` element sets: its `filename`, or `default.ppm` without one. */
  function FilmName(a: Attrs): (name: string)
    ensures "filename" in a ==> name == a["filename"]
    ensures "filename" !in a ==> name == "default.ppm"
  {
    if "filename" in a then a["filename"] else DefaultImageName
  }

  /** A `camera` element: all four attributes are required, checked in the order
      `look_from`, `look_at`, `up`, `aperture`; nothing but the camera changes. */
  function CameraStep(st: LoaderState, a: Attrs, parse: NumberParser): (r: Result<LoaderState, LoadError>)
    ensures "look_from" !in a ==> r == Failure(MissingLookFrom)
    ensures r.Success? <==>
      && HasTriple(a, "look_from", parse) && HasTriple(a, "look_at", parse)
      && HasTriple(a, "up", parse) && HasNumber(a, "aperture", parse)
    ensures r.Success? ==> CameraFrom(r.value, Some(a), parse)
    ensures r.Success? ==>
      r.value.imageName == st.imageName && r.value.lastMat == st.lastMat && r.value.world == st.world
  {
    var from :- TripleAttr(a, "look_from", MissingLookFrom, parse);
    var at :- TripleAttr(a, "look_at", MissingLookAt, parse);
    var up :- TripleAttr(a, "up", MissingUp, parse);
    var ap :- NumberAttr(a, "aperture", MissingAperture, BadAperture, parse);
    Success(st.(lookFrom := from, lookAt := at, vup := up, aperture := ap))
  }

  /** The optional `color` attribute of a material. */
  function MaterialColor(a: Attrs, parse: NumberParser): Result<Vec3, LoadError> {
    if "color" in a then
      match ParseTriple(a["color"], parse)
      case Success(v) => Success(v)
      case Failure(e) => Failure(BadTriple(e))
    else Success(Zero)
  }

  /** The material a `material` element describes. The type is checked for presence
      first, then the colour is parsed, and only then is the type dispatched on. */
  function BuildMaterial(a: Attrs, parse: NumberParser): (r: Result<Material, LoadError>)
    ensures "type" !in a ==> r == Failure(MissingMaterialType)
    ensures r.Success? ==> a["type"] in {"lambertian", "metal", "dielectric"}
    ensures r.Success? ==> (r.value.Metal? <==> a["type"] == "metal")
    ensures r.Success? ==> (r.value.Dielectric? <==> a["type"] == "dielectric")
    ensures r.Success? && "color" in a ==> ParseTriple(a["color"], parse).Success?
    ensures r.Success? && !r.value.Dielectric? ==>
      if "color" in a then ParseTriple(a["color"], parse) == Success(r.value.albedo) else r.value.albedo == Zero
    ensures r.Success? && r.value.Metal? ==> "fuzz" in a && parse(a["fuzz"]) == Some(r.value.fuzz)
    ensures r.Success? && r.value.Dielectric? ==>
      "refrect_idx" in a && parse(a["refrect_idx"]) == Some(r.value.refractiveIndex)
  {
    if "type" !in a then Failure(MissingMaterialType)
    else
      var color :- MaterialColor(a, parse);
      var kind := a["type"];
      if kind == "lambertian" then
        Success(Lambertian(color))
      else if kind == "metal" then
        var fuzz :- NumberAttr(a, "fuzz", MissingFuzz, BadFuzz, parse);
        Success(Metal(color, fuzz))
      else if kind == "dielectric" then
        var index :- NumberAttr(a, "refrect_idx", MissingRefractiveIndex, BadRefractiveIndex, parse);
        Success(Dielectric(index))
      else
        Failure(UnknownMaterial(kind))
  }

  /** The sphere an `object` element describes, with the given material. */
  function BuildSphere(a: Attrs, mat: Material, parse: NumberParser): (r: Result<Sphere, LoadError>)
    ensures "center" !in a ==> r == Failure(MissingCenter)
    ensures r.Success? <==> HasTriple(a, "center", parse) && HasNumber(a, "radius", parse)
    ensures r.Success? ==>
      && ParseTriple(a["center"], parse) == Success(r.value.center)
      && parse(a["radius"]) == Some(r.value.radius)
      && r.value.mat == mat
  {
    var center :- TripleAttr(a, "center", MissingCenter, parse);
    var radius :- NumberAttr(a, "radius", MissingRadius, BadRadius, parse);
    Success(Sphere(center, radius, mat))
  }

  /** The effect of one node on the loader's state. */
  function Step(st: LoaderState, node: Node, parse: NumberParser): (r: Result<LoaderState, LoadError>)
    ensures !node.Element? ==> r == Success(st)
    ensures r.Success? ==>
      && st.world <= r.value.world
      && |r.value.world| == |st.world| + (if IsTag(node, "object") then 1 else 0)
    ensures r.Success? && !IsTag(node, "film") ==> r.value.imageName == st.imageName
    ensures r.Success? && !IsTag(node, "material") ==> r.value.lastMat == st.lastMat
    ensures r.Success? && !IsTag(node, "camera") ==>
      && r.value.lookFrom == st.lookFrom && r.value.lookAt == st.lookAt
      && r.value.vup == st.vup && r.value.aperture == st.aperture
  {
    match node
    case Element(tag, a) =>
      if tag == "film" then
        Success(st.(imageName := FilmName(a)))
      else if tag == "camera" then
        CameraStep(st, a, parse)
      else if tag == "material" then
        var m :- BuildMaterial(a, parse);
        Success(st.(lastMat := m))
      else if tag == "object" then
        var s :- BuildSphere(a, st.lastMat, parse);
        Success(st.(world := st.world + [s]))
      else
        Success(st)
    case _ => Success(st)
  }

  /** The state after the nodes, left to right, from `Initial`; the first failing
      node ends the pass. */
  function Run(nodes: seq<Node>, parse: NumberParser): (r: Result<LoaderState, LoadError>)
    ensures nodes == [] ==> r == Success(Initial)
    ensures r.Success? ==>
      && 1 <= |r.value.world| <= 1 + |nodes|
      && r.value.world[0] == GroundSphere
    decreases |nodes|
  {
    if nodes == [] then Success(Initial)
    else
      var st :- Run(nodes[..|nodes| - 1], parse);
      Step(st, nodes[|nodes| - 1], parse)
  }

  /** The result of `xml_parser`: name, world and the camera, whose field of view,
      aspect ratio and focus distance are fixed. */
  function LoadScene(nodes: seq<Node>, parse: NumberParser): (r: Result<Scene, LoadError>)
    ensures r.Success? <==> Run(nodes, parse).Success?
    ensures r.Success? ==>
      var st := Run(nodes, parse).value;
      && r.value.imageName == st.imageName
      && r.value.world == st.world
      && r.value.camera.lookFrom == st.lookFrom
      && r.value.camera.lookAt == st.lookAt
      && r.value.camera.vup == st.vup
      && r.value.camera.aperture == st.aperture
    ensures r.Success? ==>
      && r.value.camera.vfov == 20.0
      && r.value.camera.aspectRatio == 1.5
      && r.value.camera.focusDist == 10.0
  {
    var st :- Run(nodes, parse);
    Success(Scene(st.imageName, st.world,
      Camera(st.lookFrom, st.lookAt, st.vup, VFov, AspectRatio, st.aperture, FocusDist)))
  }

  /** `xml_parser`, as the source writes it: a loop over the nodes that reassigns the
      loader's locals and pushes spheres onto the world, returning early on an abort. */
  method XmlParser(nodes: seq<Node>, parse: NumberParser) returns (r: Result<Scene, LoadError>)
    ensures r == LoadScene(nodes, parse)
  {
    var imageName := "";
    var lookFrom, lookAt, vup := Zero, Zero, Zero;
    var aperture := 0.0;
    var world := [GroundSphere];
    var lastMat := DefaultMaterial;

    for k := 0 to |nodes|
      invariant Run(nodes[..k], parse)
        == Success(LoaderState(imageName, lookFrom, lookAt, vup, aperture, lastMat, world))
    {
      assert nodes[..k + 1][..k] == nodes[..k];
      var node := nodes[k];
      ghost var st := LoaderState(imageName, lookFrom, lookAt, vup, aperture, lastMat, world);
      assert Run(nodes[..k + 1], parse) == Step(st, node, parse);
      if node.Element? {
        var a := node.attrs;
        var tag := node.tag;
        if tag == "film" {
          if "filename" in a {
            imageName := a["filename"];
          } else {
            imageName := DefaultImageName;
          }
        } else if tag == "camera" {
          if "look_from" in a {
            var v := ParseTriple(a["look_from"], parse);
            if v.Failure? {
              r := Abort(nodes, k + 1, parse, BadTriple(v.error));
              return;
            }
            lookFrom := v.value;
          } else {
            r := Abort(nodes, k + 1, parse, MissingLookFrom);
            return;
          }
          if "look_at" in a {
            var v := ParseTriple(a["look_at"], parse);
            if v.Failure? {
              r := Abort(nodes, k + 1, parse, BadTriple(v.error));
              return;
            }
            lookAt := v.value;
          } else {
            r := Abort(nodes, k + 1, parse, MissingLookAt);
            return;
          }
          if "up" in a {
            var v := ParseTriple(a["up"], parse);
            if v.Failure? {
              r := Abort(nodes, k + 1, parse, BadTriple(v.error));
              return;
            }
            vup := v.value;
          } else {
            r := Abort(nodes, k + 1, parse, MissingUp);
            return;
          }
          if "aperture" in a {
            var v := parse(a["aperture"]);
            if v.None? {
              r := Abort(nodes, k + 1, parse, BadAperture);
              return;
            }
            aperture := v.value;
          } else {
            r := Abort(nodes, k + 1, parse, MissingAperture);
            return;
          }
        } else if tag == "material" {
          var kind: string;
          var color := Zero;
          if "type" in a {
            kind := a["type"];
          } else {
            r := Abort(nodes, k + 1, parse, MissingMaterialType);
            return;
          }
          if "color" in a {
            var v := ParseTriple(a["color"], parse);
            if v.Failure? {
              r := Abort(nodes, k + 1, parse, BadTriple(v.error));
              return;
            }
            color := v.value;
          }
          if kind == "lambertian" {
            lastMat := Lambertian(color);
          } else if kind == "metal" {
            if "fuzz" in a {
              var v := parse(a["fuzz"]);
              if v.None? {
                r := Abort(nodes, k + 1, parse, BadFuzz);
                return;
              }
              lastMat := Metal(color, v.value);
            } else {
              r := Abort(nodes, k + 1, parse, MissingFuzz);
              return;
            }
          } else if kind == "dielectric" {
            if "refrect_idx" in a {
              var v := parse(a["refrect_idx"]);
              if v.None? {
                r := Abort(nodes, k + 1, parse, BadRefractiveIndex);
                return;
              }
              lastMat := Dielectric(v.value);
            } else {
              r := Abort(nodes, k + 1, parse, MissingRefractiveIndex);
              return;
            }
          } else {
            r := Abort(nodes, k + 1, parse, UnknownMaterial(kind));
            return;
          }
        } else if tag == "object" {
          var center: Vec3;
          var radius: real;
          if "center" in a {
            var v := ParseTriple(a["center"], parse);
            if v.Failure? {
              r := Abort(nodes, k + 1, parse, BadTriple(v.error));
              return;
            }
            center := v.value;
          } else {
            r := Abort(nodes, k + 1, parse, MissingCenter);
            return;
          }
          if "radius" in a {
            var v := parse(a["radius"]);
            if v.None? {
              r := Abort(nodes, k + 1, parse, BadRadius);
              return;
            }
            radius := v.value;
          } else {
            r := Abort(nodes, k + 1, parse, MissingRadius);
            return;
          }
          world := world + [Sphere(center, radius, lastMat)];
        }
      }
    }
    assert nodes[..|nodes|] == nodes;
    r := Success(Scene(imageName, world,
      Camera(lookFrom, lookAt, vup, VFov, AspectRatio, aperture, FocusDist)));
  }

  /** The failure result once the first `k` nodes have aborted with `e`. */
  function Abort(nodes: seq<Node>, k: nat, parse: NumberParser, e: LoadError): (r: Result<Scene, LoadError>)
    requires k <= |nodes| && Run(nodes[..k], parse) == Failure(e)
    ensures r == Failure(e) && r == LoadScene(nodes, parse)
  {
    AbortIsFinal(nodes, k, parse);
    Failure(e)
  }

  /** An abort is final: once a prefix of the nodes has failed, whatever follows
      does not change the result. */
  lemma {:induction false} AbortIsFinal(nodes: seq<Node>, k: nat, parse: NumberParser)
    requires k <= |nodes| && Run(nodes[..k], parse).Failure?
    ensures Run(nodes, parse) == Run(nodes[..k], parse)
    decreases |nodes|
  {
    if k == |nodes| {
      assert nodes[..k] == nodes;
    } else {
      var init := nodes[..|nodes| - 1];
      assert init[..k] == nodes[..k];
      AbortIsFinal(init, k, parse);
    }
  }

  // ---------------------------------------------------------------------------
  // What a document must satisfy for the loader to succeed

  predicate HasTriple(a: Attrs, key: string, parse: NumberParser) {
    key in a && ValidTriple(a[key], parse)
  }

  predicate HasNumber(a: Attrs, key: string, parse: NumberParser) {
    key in a && parse(a[key]).Some?
  }

  /** The attributes each element kind needs; `film`, unknown tags and non-element
      nodes need nothing. */
  predicate WellFormed(node: Node, parse: NumberParser) {
    match node
    case Element(tag, a) =>
      && (tag == "camera" ==>
            && HasTriple(a, "look_from", parse)
            && HasTriple(a, "look_at", parse)
            && HasTriple(a, "up", parse)
            && HasNumber(a, "aperture", parse))
      && (tag == "material" ==>
            && "type" in a
            && ("color" in a ==> ValidTriple(a["color"], parse))
            && (|| a["type"] == "lambertian"
                || (a["type"] == "metal" && HasNumber(a, "fuzz", parse))
                || (a["type"] == "dielectric" && HasNumber(a, "refrect_idx", parse))))
      && (tag == "object" ==>
            && HasTriple(a, "center", parse)
            && HasNumber(a, "radius", parse))
    case _ => true
  }

  /** Whether a node aborts the loader depends on the node alone, never on the state. */
  lemma StepSucceedsIff(st: LoaderState, node: Node, parse: NumberParser)
    ensures Step(st, node, parse).Success? <==> WellFormed(node, parse)
  {
  }

  /** The loader succeeds exactly when every node is well formed. */
  lemma {:induction false} RunSucceedsIff(nodes: seq<Node>, parse: NumberParser)
    ensures Run(nodes, parse).Success? <==> forall k :: 0 <= k < |nodes| ==> WellFormed(nodes[k], parse)
    decreases |nodes|
  {
    if nodes != [] {
      var init := nodes[..|nodes| - 1];
      RunSucceedsIff(init, parse);
      assert forall k :: 0 <= k < |init| ==> init[k] == nodes[k];
      if Run(init, parse).Success? {
        StepSucceedsIff(Run(init, parse).value, nodes[|nodes| - 1], parse);
      }
    }
  }

  // ---------------------------------------------------------------------------
  // Reference definitions over the node sequence

  /** The number of elements with the given tag. */
  function CountTag(nodes: seq<Node>, tag: string): (n: nat)
    ensures n <= |nodes|
    decreases |nodes|
  {
    if nodes == [] then 0
    else CountTag(nodes[..|nodes| - 1], tag) + (if IsTag(nodes[|nodes| - 1], tag) then 1 else 0)
  }

  /** The position of the last element with the given tag, if there is one. */
  function LastTagged(nodes: seq<Node>, tag: string): (r: Option<nat>)
    ensures r.Some? ==>
      && r.value < |nodes|
      && IsTag(nodes[r.value], tag)
      && forall k :: r.value < k < |nodes| ==> !IsTag(nodes[k], tag)
    ensures r.None? ==> forall k :: 0 <= k < |nodes| ==> !IsTag(nodes[k], tag)
    decreases |nodes|
  {
    if nodes == [] then None
    else if IsTag(nodes[|nodes| - 1], tag) then Some(|nodes| - 1)
    else LastTagged(nodes[..|nodes| - 1], tag)
  }

  /** The material of the most recent `material` element, or the default one. The
      last fallback is for a material element that does not build; on a successful
      load every one does, so it is never taken there. */
  function MaterialBefore(nodes: seq<Node>, parse: NumberParser): Material {
    match LastTagged(nodes, "material")
    case None => DefaultMaterial
    case Some(i) =>
      var m := BuildMaterial(nodes[i].attrs, parse);
      if m.Success? then m.value else DefaultMaterial
  }

  // ---------------------------------------------------------------------------
  // Properties of a successful load

  /** The world only grows: the world after any prefix of the nodes is a prefix of
      the final world. */
  lemma {:induction false} WorldGrows(nodes: seq<Node>, j: nat, parse: NumberParser)
    requires j <= |nodes| && Run(nodes, parse).Success?
    ensures Run(nodes[..j], parse).Success?
    ensures Run(nodes[..j], parse).value.world <= Run(nodes, parse).value.world
    decreases |nodes|
  {
    if j == |nodes| {
      assert nodes[..j] == nodes;
    } else {
      var init := nodes[..|nodes| - 1];
      assert init[..j] == nodes[..j];
      WorldGrows(init, j, parse);
    }
  }

  /** The world is the ground sphere followed by one sphere per `object` element. */
  lemma {:induction false} WorldShape(nodes: seq<Node>, parse: NumberParser)
    requires Run(nodes, parse).Success?
    ensures |Run(nodes, parse).value.world| == 1 + CountTag(nodes, "object")
    ensures Run(nodes, parse).value.world[0] == GroundSphere
    decreases |nodes|
  {
    if nodes != [] {
      WorldShape(nodes[..|nodes| - 1], parse);
    }
  }

  /** The output name comes from the last `film` element; it is empty without one. */
  lemma {:induction false} OutputName(nodes: seq<Node>, parse: NumberParser)
    requires Run(nodes, parse).Success?
    ensures Run(nodes, parse).value.imageName ==
      match LastTagged(nodes, "film")
      case None => ""
      case Some(i) =>
        if "filename" in nodes[i].attrs then nodes[i].attrs["filename"] else "default.ppm"
    decreases |nodes|
  {
    if nodes != [] {
      var init := nodes[..|nodes| - 1];
      var last := nodes[|nodes| - 1];
      OutputName(init, parse);
      var st := Run(init, parse).value;
      assert Run(nodes, parse) == Step(st, last, parse);
      if !IsTag(last, "film") {
        var i := LastTagged(init, "film");
        assert LastTagged(nodes, "film") == i;
        if i.Some? {
          assert init[i.value] == nodes[i.value];
        }
        assert Run(nodes, parse).value.imageName == st.imageName;
      }
    }
  }

  /** The camera parameters a state holds, given the last `camera` element (if any). */
  predicate CameraFrom(st: LoaderState, last: Option<Attrs>, parse: NumberParser) {
    match last
    case None =>
      st.lookFrom == Zero && st.lookAt == Zero && st.vup == Zero && st.aperture == 0.0
    case Some(a) =>
      && "look_from" in a && ParseTriple(a["look_from"], parse) == Success(st.lookFrom)
      && "look_at" in a && ParseTriple(a["look_at"], parse) == Success(st.lookAt)
      && "up" in a && ParseTriple(a["up"], parse) == Success(st.vup)
      && "aperture" in a && parse(a["aperture"]) == Some(st.aperture)
  }

  function LastAttrs(nodes: seq<Node>, tag: string): Option<Attrs> {
    match LastTagged(nodes, tag)
    case None => None
    case Some(i) => Some(nodes[i].attrs)
  }

  /** The camera comes from the last `camera` element; without one, the eye, target
      and up vector are zero and the aperture is 0. */
  lemma {:induction false} CameraSettings(nodes: seq<Node>, parse: NumberParser)
    requires Run(nodes, parse).Success?
    ensures CameraFrom(Run(nodes, parse).value, LastAttrs(nodes, "camera"), parse)
    decreases |nodes|
  {
    if nodes != [] {
      var init := nodes[..|nodes| - 1];
      var last := nodes[|nodes| - 1];
      CameraSettings(init, parse);
      var st := Run(init, parse).value;
      assert Run(nodes, parse) == Step(st, last, parse);
      if IsTag(last, "camera") {
        assert LastAttrs(nodes, "camera") == Some(last.attrs);
      } else {
        var i := LastTagged(init, "camera");
        assert LastTagged(nodes, "camera") == i;
        if i.Some? {
          assert init[i.value] == nodes[i.value];
        }
        assert LastAttrs(nodes, "camera") == LastAttrs(init, "camera");
      }
    }
  }

  /** The current material is that of the most recent `material` element. */
  lemma {:induction false} CurrentMaterial(nodes: seq<Node>, parse: NumberParser)
    requires Run(nodes, parse).Success?
    ensures Run(nodes, parse).value.lastMat == MaterialBefore(nodes, parse)
    decreases |nodes|
  {
    if nodes != [] {
      var init := nodes[..|nodes| - 1];
      var last := nodes[|nodes| - 1];
      CurrentMaterial(init, parse);
      var st := Run(init, parse).value;
      assert Run(nodes, parse) == Step(st, last, parse);
      if !IsTag(last, "material") {
        var i := LastTagged(init, "material");
        assert LastTagged(nodes, "material") == i;
        if i.Some? {
          assert init[i.value] == nodes[i.value];
        }
        assert Run(nodes, parse).value.lastMat == st.lastMat;
      }
    }
  }

  /** The `object` element at position `k` contributes the sphere at position
      1 + (number of earlier `object` elements), with its parsed centre and radius and
      the material of the most recent `material` element before it. */
  lemma ObjectSpheres(nodes: seq<Node>, k: nat, parse: NumberParser)
    requires Run(nodes, parse).Success?
    requires k < |nodes| && IsTag(nodes[k], "object")
    ensures 1 + CountTag(nodes[..k], "object") < |Run(nodes, parse).value.world|
    ensures
      var a := nodes[k].attrs;
      && "center" in a && "radius" in a
      && ParseTriple(a["center"], parse).Success? && parse(a["radius"]).Some?
      && Run(nodes, parse).value.world[1 + CountTag(nodes[..k], "object")]
         == Sphere(ParseTriple(a["center"], parse).value, parse(a["radius"]).value,
                   MaterialBefore(nodes[..k], parse))
  {
    WorldGrows(nodes, k + 1, parse);
    var pre := nodes[..k + 1];
    assert pre[..k] == nodes[..k];
    var before := Run(nodes[..k], parse).value;
    WorldShape(nodes[..k], parse);
    CurrentMaterial(nodes[..k], parse);
    assert Run(pre, parse) == Step(before, nodes[k], parse);
  }
}
