/**
 * Triangle meshes (src/renderables/mesh.rs): a bounding box test followed by
 * a linear scan for the nearest triangle hit.
 */
module Meshes {
  import opened Numbers
  import opened Options
  import opened Vectors
  import opened Rays
  import opened Materials
  import opened Triangles
  import opened BoundingBoxes

  datatype Mesh = Mesh(material: Option<Material>, triangles: seq<Triangle>, bbox: BBox, name: string) {

    /** `get_material` */
    function GetMaterial(): Option<Material> {
      material
    }

    /** `get_normal`: not yet computed by the source, which returns the zero vector for every hit point. */
    function GetNormal(hit: Vector3): Vector3 {
      Vector3(0.0, 0.0, 0.0)
    }
  }

  /** `Mesh::new`: the triangles are kept as given and the box is computed from them. */
  function New(material: Option<Material>, triangles: seq<Triangle>, name: string): (m: Mesh)
    ensures m.bbox == FromTriangles(triangles)
    ensures m.triangles == triangles && m.material == material && m.name == name
  {
    Mesh(material, triangles, FromTriangles(triangles), name)
  }

  /** Triangle tri reports a hit at distance d, below the scan's starting sentinel `f32::MAX`. */
  predicate ReportsBelowMax(tri: Triangle, ray: Ray, d: real) {
    tri.Intersects(ray) == Some(d) && d < F32_MAX
  }

  /**
   * `intersects`: None unless the ray's line meets the box; otherwise the
   * smallest distance reported by any triangle, if one is below `f32::MAX`.
   */
  method Intersects(mesh: Mesh, ray: Ray) returns (r: Option<real>)
    requires Oblique(ray)
    ensures !LineMeets(mesh.bbox, ray) ==> r == None
    ensures r.Some? ==> exists i :: 0 <= i < |mesh.triangles| && ReportsBelowMax(mesh.triangles[i], ray, r.value)
    ensures r.Some? ==> forall i :: 0 <= i < |mesh.triangles| && mesh.triangles[i].Intersects(ray).Some?
                          ==> r.value <= mesh.triangles[i].Intersects(ray).value
    ensures r.None? <==> !LineMeets(mesh.bbox, ray)
                         || forall i, d :: 0 <= i < |mesh.triangles| ==> !ReportsBelowMax(mesh.triangles[i], ray, d)
  {
    var boxHit := RayIntersectBox(mesh.bbox, ray);
    if !boxHit {
      return None;
    }

    var minDistance := F32_MAX;
    var isIntersecting := false;

    for i := 0 to |mesh.triangles|
      invariant isIntersecting ==> exists k :: 0 <= k < i && ReportsBelowMax(mesh.triangles[k], ray, minDistance)
      invariant !isIntersecting ==> minDistance == F32_MAX
      invariant forall k :: 0 <= k < i && mesh.triangles[k].Intersects(ray).Some?
                  ==> minDistance <= mesh.triangles[k].Intersects(ray).value
    {
      match mesh.triangles[i].Intersects(ray) {
        case Some(distance) =>
          if minDistance > distance {
            isIntersecting := true;
            minDistance := distance;
          }
        case None =>
      }
    }

    if !isIntersecting {
      return None;
    }
    return Some(minDistance);
  }

  /** `get_normal` ignores the hit point. */
  lemma GetNormalIsZero(m: Mesh, hit: Vector3)
    ensures m.GetNormal(hit) == Vector3(0.0, 0.0, 0.0)
  {
  }

  /** A mesh built by `new` hands back the material it was given. */
  lemma NewGetMaterial(material: Option<Material>, triangles: seq<Triangle>, name: string)
    ensures New(material, triangles, name).GetMaterial() == material
  {
  }
}
