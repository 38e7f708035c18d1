# ros2_ouster packet-to-frame pipeline, modelled in Dafny

This project models the part of the ros2_ouster driver that turns the stream of
raw lidar packets into published frames:

- `sensor::LidarscanPreprocessor`: an activation and readiness state machine over
  one batcher and one scan buffer that is reused for every frame. The first
  readiness query activates it for good. Until then every packet is dropped.
  After that, each packet first clears readiness and is then batched. A
  completed revolution is stamped with the first non-zero column timestamp and
  marked ready. `getData`/`getTimestamp` refuse to answer when it is not ready.
- `sensor::PreprocessorManager`: forwards each packet to its single preprocessor
  and hands that same instance to every consumer.
- `sensor::PointcloudProcessor`: a consumer that asks the shared preprocessor for
  readiness, which activates it, and builds and publishes a cloud only when a
  frame is ready.
- `sensor::ScanProcessor`: picks the beam closest to the horizon when it is
  built. It has its own batcher, and it publishes a laser scan for each
  completed revolution that has a stamped column.
- `OS1::PointcloudProcessor`: the older self-contained cloud publisher.
  `scan_to_cloud` writes cloud cell `(v, u)` from data row `u * w + v`.

Layout: `wrappers.dfy` (Option/Result), `lidar_scan.dfy` (packets, the scan
buffer, the stamp search, and the batcher as an oracle), `lidarscan_preprocessor.dfy`,
`preprocessor_manager.dfy`, `cloud.dfy` (points, clouds and cloud messages),
`pointcloud_processor.dfy`, `scan_processor.dfy`, `os1_pointcloud_processor.dfy`.

Each object the C++ updates in place is a Dafny class. Its methods carry
`modifies` clauses and `ensures` that give the whole new state. The
preprocessor's state is abstracted as a `PreState` value. Its methods are proved
to follow the specification functions `Queried`, `Handled` and `Preprocessed`.
The lemmas about those functions cover a single packet (`PreprocessCycle`) and
any sequence of queries and packets (`Replay`).

Library code outside the modelled headers (the ouster client, pcl,
`conversions.hpp`) becomes a function-valued constant, fixed when the object is
built:
- `ouster::ScanBatcher::operator()` is `BatchStep`. It acts on a private cursor
  and the scan's contents, and reports completion. The one assumption about it
  is `KeepsShape`: it never changes the scan's shape.
- `ros2_ouster::toCloud` is `CloudBuilder`.
- A row of `ouster::cartesian(ls, xyz_lut)` is `CartesianRows`.
- Each publisher is a `published` sequence of the arguments passed to
  `ros2_ouster::toMsg`.

Assumptions about initial values:
- `_dataReady` and `_activated` have no initialiser in the C++
  (`lidarscan_preprocessor.hpp:122-123`). The model starts both as `false`.
- `_timestamp` is never initialised. The model takes its starting value as a
  constructor parameter, `initialTimestamp`.
- The code of `ouster::LidarScan{w, h}` is not part of this model. The model
  assumes it starts with zeroed column headers and zeroed data rows. No proof
  depends on this.

Notes on the code:
- `handle` sets readiness on every completed revolution, even when no column
  has a non-zero timestamp (`lidarscan_preprocessor.hpp:114-117`). In that case
  `getTimestamp` returns the previous stamp, or the uninitialised one (see
  `PreprocessCycle`).
- The manager holds exactly one preprocessor.

## Model

| member | source | states |
|---|---|---|
| `LidarScans.LidarScan.constructor` | ros2_ouster/include/ros2_ouster/preprocessors/lidarscan_preprocessor.hpp:45-47 | the scan buffer is allocated with `columns_per_frame` headers and `w * h` zeroed data rows |
| `LidarScans.FirstNonZero` | ros2_ouster/include/ros2_ouster/preprocessors/lidarscan_preprocessor.hpp:110-113 | the result is the index of the first header with a non-zero timestamp (all earlier ones are zero), or the end index when there is none |
| `LidarScans.FindFirstNonZero` | ros2_ouster/include/ros2_ouster/preprocessors/lidarscan_preprocessor.hpp:110-114 | the `find_if` linear search returns exactly that first stamped index, or the end |
| `LidarScans.FrameStampIsFirstStampedColumn` | ros2_ouster/include/ros2_ouster/preprocessors/lidarscan_preprocessor.hpp:110-116 | a frame stamp exists if and only if some column is stamped; it is then non-zero and is the time of a column preceded only by unstamped columns |
| `LidarScans.FrameStampExample` | ros2_ouster/include/ros2_ouster/preprocessors/lidarscan_preprocessor.hpp:110-116 | headers with times `[0, 0, 1000, 2000, 0]` give the stamp 1000 |
| `Batchers.ScanBatcher.constructor` | ros2_ouster/include/ros2_ouster/preprocessors/lidarscan_preprocessor.hpp:44 | the batcher is built for the scan's shape with the given behaviour |
| `Batchers.ScanBatcher.Batch` | ros2_ouster/include/ros2_ouster/preprocessors/lidarscan_preprocessor.hpp:109 | one batcher call changes only the batcher's cursor and the scan, which keeps its shape; the completion flag and new contents are the batcher's outcome for that packet |
| `LidarscanPreprocessors.LidarscanPreprocessor.constructor` | ros2_ouster/include/ros2_ouster/preprocessors/lidarscan_preprocessor.hpp:39-48 | a fresh batcher and a fresh scan; inactive, not ready, stamp equal to the initial value |
| `LidarscanPreprocessors.LidarscanPreprocessor.IsDataReady` | ros2_ouster/include/ros2_ouster/preprocessors/lidarscan_preprocessor.hpp:53-57 | returns the current readiness, sets `activated`, and changes nothing else |
| `LidarscanPreprocessors.LidarscanPreprocessor.GetData` | ros2_ouster/include/ros2_ouster/preprocessors/lidarscan_preprocessor.hpp:63-70 | fails with NotReady exactly when not ready; otherwise returns the one scan object allocated at construction; changes nothing |
| `LidarscanPreprocessors.LidarscanPreprocessor.GetTimestamp` | ros2_ouster/include/ros2_ouster/preprocessors/lidarscan_preprocessor.hpp:76-83 | fails with NotReady exactly when not ready; otherwise returns the stored stamp; changes nothing |
| `LidarscanPreprocessors.LidarscanPreprocessor.Preprocess` | ros2_ouster/include/ros2_ouster/preprocessors/lidarscan_preprocessor.hpp:88-100 | always returns true; the new state is `Preprocessed` of the old one (dropped when inactive, else cleared and handled) |
| `LidarscanPreprocessors.LidarscanPreprocessor.Handle` | ros2_ouster/include/ros2_ouster/preprocessors/lidarscan_preprocessor.hpp:107-120 | always returns true; the new state is `Handled` of the old one: batched, and on completion stamped and ready |
| `LidarscanPreprocessors.PreprocessCycle` | ros2_ouster/include/ros2_ouster/preprocessors/lidarscan_preprocessor.hpp:88-120 | one packet never changes activation; when inactive it changes nothing; when active, readiness equals the batcher's completion flag whatever it was before; on completion the stamp is the first non-zero column time when one exists, and otherwise the old stamp is kept |
| `LidarscanPreprocessors.UnqueriedPacketsAreDropped` | ros2_ouster/include/ros2_ouster/preprocessors/lidarscan_preprocessor.hpp:90-92 | any number of packets before the first readiness query leave the whole state, scan buffer included, unchanged |
| `LidarscanPreprocessors.ActivatedIffQueried` | ros2_ouster/include/ros2_ouster/preprocessors/lidarscan_preprocessor.hpp:53-57 | after any events the preprocessor is active if and only if it was already or a query occurred; it is never deactivated |
| `LidarscanPreprocessors.OverrideHasNoEffect` | ros2_ouster/include/ros2_ouster/preprocessors/lidarscan_preprocessor.hpp:88-120 | event sequences that differ only in `override_ts` lead to the same state |
| `LidarscanPreprocessors.RepeatedQueryIsIdempotent` | ros2_ouster/include/ros2_ouster/preprocessors/lidarscan_preprocessor.hpp:53-57 | two readiness queries in a row act exactly like one, in any context |
| `LidarscanPreprocessors.LastPacketDecidesReadiness` | ros2_ouster/include/ros2_ouster/preprocessors/lidarscan_preprocessor.hpp:94-118 | once a query has happened, readiness after a packet is that packet's completion flag; the previous cycle's readiness never carries over |
| `PreprocessorManagers.PreprocessorManager.constructor` | ros2_ouster/include/ros2_ouster/preprocessors/preprocessor_manager.hpp:49-54 | creates one fresh, inactive, not-ready lidar-scan preprocessor |
| `PreprocessorManagers.PreprocessorManager.Preprocess` | ros2_ouster/include/ros2_ouster/preprocessors/preprocessor_manager.hpp:59-62 | the preprocessor's new state is that of one forwarded `preprocess` call with the same packet; activation is untouched; before activation nothing changes |
| `PreprocessorManagers.PreprocessorManager.GetLidarscanPreprocessor` | ros2_ouster/include/ros2_ouster/preprocessors/preprocessor_manager.hpp:67-70 | returns the instance created by the constructor, on every call |
| `Clouds.Cloud.constructor` | ros2_ouster/include/ros2_ouster/processors/pointcloud_processor.hpp:66 | a `Cloud(width, height)` holds `width * height` default points and its shape is fixed (the OS1 processor allocates its cloud the same way, `OS1/processors/pointcloud_processor.hpp:65`) |
| `PointcloudProcessors.PointcloudProcessor.constructor` | ros2_ouster/include/ros2_ouster/processors/pointcloud_processor.hpp:53-69 | holds the manager's own preprocessor (shared, not copied) and a fresh `width x height` cloud |
| `PointcloudProcessors.PointcloudProcessor.Handler` | ros2_ouster/include/ros2_ouster/processors/pointcloud_processor.hpp:75-88 | the preprocessor ends up activated and otherwise unchanged; when it was not ready, the cloud and the publications are untouched; when ready, the cloud is rebuilt from the stamp and scan, and one message is published with the same stamp, the frame id and `override_ts` |
| `PointcloudProcessors.PointcloudProcessor.Process` | ros2_ouster/include/ros2_ouster/processors/pointcloud_processor.hpp:102-106 | the handler's effect, and the result is always true |
| `PointcloudProcessors.SharedPreprocessorActivation` | ros2_ouster/include/ros2_ouster/preprocessors/preprocessor_manager.hpp:59-73 | with one preprocessor shared by the manager and a consumer, a dispatch before the consumer runs changes nothing; after the consumer's readiness query, the next dispatch batches the packet and readiness becomes that packet's completion flag |
| `ScanProcessors.SelectRing` | ros2_ouster/include/ros2_ouster/processors/scan_processor.hpp:67-74 | the ring is the smallest index of least absolute beam altitude among the beams below 9999; ties go to the earliest index; it is 0 when the list is empty or no beam is below 9999 |
| `ScanProcessors.ScanProcessor.constructor` | ros2_ouster/include/ros2_ouster/processors/scan_processor.hpp:49-75 | its own fresh batcher and scan, with the ring chosen by that nearest-to-horizon rule |
| `ScanProcessors.ScanProcessor.Handler` | ros2_ouster/include/ros2_ouster/processors/scan_processor.hpp:89-103 | the packet is batched; exactly one message is published when the revolution completes and some column is stamped, carrying the first stamped time, the ring and `override_ts`; otherwise nothing is published |
| `ScanProcessors.ScanProcessor.Process` | ros2_ouster/include/ros2_ouster/processors/scan_processor.hpp:109-113 | the handler's effect, and the result is always true |
| `OS1PointcloudProcessors.CellIndexLayout` | ros2_ouster/include/ros2_ouster/OS1/processors/pointcloud_processor.hpp:83-85 | a grid position `u < h`, `v < w` maps to a cell below `w * h` from which the quotient and remainder by `w` recover `u` and `v` |
| `OS1PointcloudProcessors.CellIndexOnto` | ros2_ouster/include/ros2_ouster/OS1/processors/pointcloud_processor.hpp:83-85 | every cell below `w * h` is the image of the grid position given by its quotient and remainder |
| `OS1PointcloudProcessors.CellIndexBijection` | ros2_ouster/include/ros2_ouster/OS1/processors/pointcloud_processor.hpp:83-88 | `(v, u) -> u * w + v` is a bijection from the `h x w` grid onto `[0, w * h)`, with `(Row, Col)` as its inverse |
| `OS1PointcloudProcessors.CloudOf` | ros2_ouster/include/ros2_ouster/OS1/processors/pointcloud_processor.hpp:80-99 | the built cloud has exactly `w * h` points |
| `OS1PointcloudProcessors.CloudCell` | ros2_ouster/include/ros2_ouster/OS1/processors/pointcloud_processor.hpp:83-96 | cell `(v, u)` has the coordinates of data row `u * w + v`; its intensity, reflectivity and ambient come from that row's pixel; reflectivity also fills the last field; its ring is `u`; its time is the column-`v` header time minus `scan_ts` |
| `OS1PointcloudProcessors.CloudTimeIsPerColumn` | ros2_ouster/include/ros2_ouster/OS1/processors/pointcloud_processor.hpp:87-92 | a point's time depends only on its column, and is 0 in the first stamped column when that column's time is the scan stamp |
| `OS1PointcloudProcessors.Resized` | ros2_ouster/include/ros2_ouster/OS1/processors/pointcloud_processor.hpp:80 | resizing gives exactly the requested number of points, keeps the existing prefix and fills the rest with default points |
| `OS1PointcloudProcessors.ScanToCloud` | ros2_ouster/include/ros2_ouster/OS1/processors/pointcloud_processor.hpp:77-99 | the cloud's points become exactly `CloudOf` the scan, whatever they were before, so two builds from the same scan give the same cloud |
| `OS1PointcloudProcessors.PointcloudProcessor.constructor` | ros2_ouster/include/ros2_ouster/OS1/processors/pointcloud_processor.hpp:52-68 | its own fresh batcher, scan and `width x height` cloud |
| `OS1PointcloudProcessors.PointcloudProcessor.LidarHandler` | ros2_ouster/include/ros2_ouster/OS1/processors/pointcloud_processor.hpp:101-112 | the packet is batched. When the revolution completes and some column is stamped, the cloud becomes `CloudOf` the scan with the first stamped time as `scan_ts`, and one message with that stamp is published. Otherwise the cloud and the publications are untouched |
| `OS1PointcloudProcessors.PointcloudProcessor.Process` | ros2_ouster/include/ros2_ouster/OS1/processors/pointcloud_processor.hpp:128-132 | the handler's effect, the same for every `override_ts`, and the result is always true |

## Left out

- `ouster::ScanBatcher` internals: the wraparound detection, the column writes and packet-size checks. Its code is not part of this model, so it is an oracle (`BatchStep`). So "the batcher returns true exactly once per revolution" and "malformed packets are dropped" are properties of that code, and they are not stated.
- `ouster::cartesian`, `ouster::make_xyz_lut`, `ros2_ouster::toCloud` and `ros2_ouster::toMsg` are not part of this model. Coordinates are opaque oracle outputs. So the geometry round-trip (range times unit vector) and the "zero range gives the invalid point" properties are not stated. Nor is how `toMsg` applies `override_ts`; the model only records the arguments passed to it.
- `OS1PointcloudProcessors.ScanToCloud`: does not model the narrowing casts. These are `static_cast<float>` of coordinates and intensity, `uint32_t` of a possibly negative time delta, `uint16_t` of reflectivity and ambient, and `uint8_t` of the ring. Fields hold the unbounded integer values.
- `OS1PointcloudProcessors.ScanToCloud`: pcl's `resize` and `operator()(column, row)` are modelled as "the cloud becomes `w * h` points and cell `(v, u)` is point `u * w + v`". pcl's own width/height bookkeeping is not part of this model. Point field names follow `ouster_ros::Point`, whose declaration is not part of this model either.
- `ScanProcessors.SelectRing`: does not model the `uint8_t` truncation of the chosen index, which matters only with more than 256 beams. Angles are real numbers, and `fabs` on doubles is the exact absolute value.
- ROS plumbing is not modelled: publishers, QoS, lifecycle `onActivate`/`onDeactivate`, node handles, destructors, and `shared_ptr`/`unique_ptr`/raw-pointer ownership. Sharing is modelled by object identity.
- `ScanProcessor`'s unused `_cloud`, `_xyz_lut` and packet format, and the sensor metadata beyond the frame shape and beam altitudes.
- `ros2_ouster/src/OS1/OS1_sensor.cpp` is not modelled: network client, polling and metadata fetch are I/O.
- `ros2_ouster/include/ros2_ouster/interfaces/data_preprocessor_interface.hpp` is not modelled separately; it only declares the signatures that the preprocessor class implements.
- Fan-out independence across several preprocessors: the manager holds exactly one, and `preprocess` reports no failure.
- Concurrency: everything is single-threaded and runs in call order.
