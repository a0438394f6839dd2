/** The two sentinel errors of Go's `os` package that the form data manager returns. */
module Os {
  datatype Error =
    | ErrInvalid   // os.ErrInvalid: an empty form ID (or file name) was passed
    | ErrNotExist  // os.ErrNotExist: no form entry or no file info for the name
}
