/**
 * One tracked facial point as delivered by the landmark detector: x and y are
 * normalized to the image (0 at the left/top edge, 1 at the right/bottom edge)
 * and z is a relative depth (negative is toward the camera). The index of a
 * landmark in its frame carries its anatomical meaning.
 */
module Landmarks {
  datatype Landmark = Landmark(x: real, y: real, z: real)
}
