/** Images as the pipeline sees them: opaque pixel data with a size. */
module Imaging {
  import opened Clr

  /** A decoded image (`System.Drawing.Bitmap` or WPF `BitmapSource`). The pipeline never
      looks at the pixels; it only reads the pixel width and height and moves images around. */
  datatype Image = Image(width: Int32, height: Int32, pixels: seq<int>)
}
