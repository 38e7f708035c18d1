/** Point clouds (`pcl::PointCloud<ouster_ros::Point>`) and the messages published from them. */
module Clouds {
  import opened Wrappers
  import opened LidarScans

  /** Cartesian coordinates; produced by lookup-table code outside the model and treated as opaque. */
  datatype Xyz = Xyz(x: real, y: real, z: real)

  /**
   * `ouster_ros::Point`, field by field in declaration order after the
   * coordinates. The fourth coordinate of `PCL_ADD_POINT4D` is always the
   * constant `1.0`, so it is left out.
   */
  datatype Point = Point(
    xyz: Xyz,
    intensity: int,
    t: int,
    reflectivity: int,
    ring: nat,
    ambient: int,
    range: int)

  const ZeroPoint := Point(Xyz(0.0, 0.0, 0.0), 0, 0, 0, 0, 0, 0)

  /** An organised cloud, overwritten in place frame after frame. */
  class Cloud {
    const width: nat
    const height: nat
    var points: seq<Point>

    /** `Cloud(width, height)`: `width * height` default points. */
    constructor (width: nat, height: nat)
      ensures this.width == width && this.height == height
      ensures points == seq(width * height, _ => ZeroPoint)
    {
      this.width, this.height := width, height;
      points := seq(width * height, _ => ZeroPoint);
    }
  }

  /**
   * What `ros2_ouster::toMsg` is given for a point cloud: the points, the
   * frame stamp, the frame label and, where the call passes one, the
   * `override_ts` argument.
   */
  datatype CloudMessage = CloudMessage(points: seq<Point>, stamp: int, frame: string, overrideTs: Option<uint64>)
}
