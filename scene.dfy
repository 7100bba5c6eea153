/** The parts of a photogrammetry chunk that the alignment and filtering
    scripts read and write: its labelled markers, its scene transform, its
    reconstruction region, its sparse tie points and its cameras. */
module Scene {
  import opened Geometry

  /** A labelled fiducial located by the photogrammetry engine; `name` is its label. */
  datatype Marker = Marker(name: string, position: Vec3)

  /** An oriented box: `rot` is its rotation, `center` its center and
      `size` its extent along its three local axes. */
  datatype Region = Region(center: Vec3, size: Vec3, rot: Mat3)

  /** The chunk's 4x4 homogeneous transform
        | rotation    translation |
        | 0  0  0     1           |
      kept as its upper-left 3x3 block and its last column. */
  datatype Transform = Transform(rotation: Mat3, translation: Vec3)

  /** A sparse reconstruction point and its selection flag (selected points
      are handed to the engine for removal). */
  class TiePoint {
    const coord: Vec3
    var selected: bool

    constructor (coord: Vec3, selected: bool)
      ensures this.coord == coord && this.selected == selected
    {
      this.coord := coord;
      this.selected := selected;
    }
  }

  class Chunk {
    const markers: seq<Marker>
    const tiePoints: array<TiePoint>
    const cameras: seq<string>
    var transform: Transform
    var region: Region

    constructor (markers: seq<Marker>, tiePoints: array<TiePoint>, cameras: seq<string>,
                 transform: Transform, region: Region)
      ensures this.markers == markers && this.tiePoints == tiePoints && this.cameras == cameras
      ensures this.transform == transform && this.region == region
    {
      this.markers := markers;
      this.tiePoints := tiePoints;
      this.cameras := cameras;
      this.transform := transform;
      this.region := region;
    }

    /** The tie point objects, which the filtering methods update. */
    function Points(): set<TiePoint>
      reads this, tiePoints
    {
      set i | 0 <= i < tiePoints.Length :: tiePoints[i]
    }
  }
}
