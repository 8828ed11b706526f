/** Image handles and the two upload slots shared by the uploader, the
    dashboard and the comparison view.

    An image handle is opaque: a data URL produced by the browser's file
    reader, or a remote URL for the sample pair. A slot holds `null` (None)
    or a handle. */
module Images {

  datatype Option<+T> = None | Some(value: T)

  /** The two named slots an image can be uploaded into. */
  datatype Slot = Before | After

  /** JavaScript truthiness of a slot: `null` and the empty string are both
      false, so an image counts as present only when its handle is non-empty. */
  predicate Present(img: Option<string>)
  {
    img.Some? && img.value != ""
  }

  /** What `{img && <img src={img} />}` draws: the handle itself when the
      image is present, nothing otherwise. */
  function Shown(img: Option<string>): (r: Option<string>)
    ensures r.Some? <==> Present(img)
    ensures r.Some? ==> r == img
  {
    if Present(img) then img else None
  }
}
