/** The exceptions the parser raises, as values. */
module Outcomes {

  /** Why rendering, reshaping or detection stopped. */
  datatype ParseError =
    | FileNotFound    // the PDF path does not exist
    | NoPages         // the document has zero pages
    | ReshapeFailed   // the pixel buffer does not fit the (height, stride) or (height, width, n) shape
    | InvalidImage    // the array handed to room detection is not H x W x 3 or H x W x 4

  datatype Result<+T> = Ok(value: T) | Err(error: ParseError)
}
