/** What a page asks its QR component to draw. The symbol itself is drawn by
    a library and is not part of this model. */
module Qr {
  /** The payload text, the size in pixels and the error-correction level. */
  datatype QrRequest = QrRequest(value: string, size: nat, level: char)

  /** Every QR code of the application: 256 pixels at level H (about 30%
      of the symbol may be damaged and still be read). */
  function HighQr(value: string): QrRequest
  {
    QrRequest(value, 256, 'H')
  }
}
