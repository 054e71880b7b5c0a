/** The value types shared between the revolver and its callers. */
module Interfaces {

  /** What one trigger pull produced: a live round or an empty chamber. */
  datatype FireResult = Bullet | Blank
}
