/** Small value types shared by every component of the converter. */
module Common {

  /** An optional value; `None` stands for the NaN the source stores for "unset". */
  datatype Option<+T> = None | Some(value: T)

  /** A value or the error the source raises instead of returning one. */
  datatype Result<+R, +E> = Success(value: R) | Failure(error: E)

  /** A point or direction in detector coordinates (y is the cylinder axis). */
  datatype Vec3 = Vec3(x: real, y: real, z: real)

  /** The two PMT classes of the detector; each has its own trigger numbering. */
  datatype Stream = PMT20 | PMT3

  function Add(a: Vec3, b: Vec3): Vec3 {
    Vec3(a.x + b.x, a.y + b.y, a.z + b.z)
  }

  function Scale(a: Vec3, k: real): Vec3 {
    Vec3(a.x * k, a.y * k, a.z * k)
  }

  /** Squared Euclidean distance between two points. */
  function SqDist(p: Vec3, q: Vec3): (d: real)
    ensures d >= 0.0
    ensures p == q ==> d == 0.0
  {
    (p.x - q.x) * (p.x - q.x) + (p.y - q.y) * (p.y - q.y) + (p.z - q.z) * (p.z - q.z)
  }
}
