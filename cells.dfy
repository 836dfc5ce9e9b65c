/** The state of one grid vertex, named after the `make_*` calls the search makes on it. */
module Cells {
  datatype State = Default | Start | Destination | Wall | Visiting | Visited | Path
}
