/** The scene data model the loader produces: vectors, materials, spheres and the
    camera parameters. Their constructors (`Vec3::new`, `Sphere::new`, `Lambertian::new`,
    `Metal::new`, `Dielectric::new`, `Camera::new`) are plain record constructors here;
    floating-point numbers are `real`, because the loader only copies them. */
module SceneTypes {

  /** A point, a direction or an RGB colour. */
  datatype Vec3 = Vec3(x: real, y: real, z: real)

  const Zero: Vec3 := Vec3(0.0, 0.0, 0.0)

  /** The three scattering models. */
  datatype Material =
    | Lambertian(albedo: Vec3)
    | Metal(albedo: Vec3, fuzz: real)
    | Dielectric(refractiveIndex: real)

  datatype Sphere = Sphere(center: Vec3, radius: real, mat: Material)

  /** The arguments handed to `Camera::new`. */
  datatype Camera = Camera(
    lookFrom: Vec3,
    lookAt: Vec3,
    vup: Vec3,
    vfov: real,
    aspectRatio: real,
    aperture: real,
    focusDist: real)

  /** What the loader returns: output file name, world and camera. */
  datatype Scene = Scene(imageName: string, world: seq<Sphere>, camera: Camera)
}
