/** The record the detector hands to the rest of the pipeline, one per
    recognised object in a frame. */
module Detections {

  /** A detection: the class name reported by the model, the bounding box
      (x1, y1, x2, y2), its centre point (cx, cy) and the pixel height of the
      resized frame it was found in. */
  datatype Detection = Detection(
    cls: string,
    bbox: (int, int, int, int),
    center: (int, int),
    frameHeight: int)

  /** All detections of one video frame, in the detector's order. */
  type Frame = seq<Detection>
}
