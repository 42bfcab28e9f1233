/** The collaborators the widget calls but does not implement: the settings
    store, pixmap loading and cropping, and font metrics. Each is a plain value
    or a total function handed to the model, so nothing about it is assumed
    beyond what the widget itself relies on. */
module Foreign {

  datatype Option<+T> = None | Some(value: T)

  /** One ARGB32 pixel. */
  datatype Argb = Argb(alpha: nat, red: nat, green: nat, blue: nat)

  /** A pixmap: Qt's null pixmap (what a failed load gives), or an image. */
  datatype Pixmap = NullPixmap | Image(width: nat, height: nat, pixels: seq<Argb>)

  predicate IsNull(p: Pixmap) {
    p.NullPixmap?
  }

  /** QPixmap::width(): a null pixmap is 0 wide. */
  function PixmapWidth(p: Pixmap): (w: nat)
    ensures IsNull(p) ==> w == 0
  {
    if p.NullPixmap? then 0 else p.width
  }

  /** What the widget reads from outside itself.
      - settings: the configuration, key to string value (Settings::has and
        Settings::get(...).toString());
      - load: QPixmap(path), NullPixmap when the file cannot be loaded;
      - crop: QPixmap::copy(0, 0, 15, 15), shown in the icon label;
      - regularWidth, boldWidth: QFontMetrics::width under the widget's font
        and under its bold variant;
      - unsetPixel: whatever an uninitialized one-pixel ARGB32 image holds. */
  datatype Environment = Environment(
    settings: map<string, string>,
    load: string -> Pixmap,
    crop: Pixmap -> Pixmap,
    regularWidth: string -> nat,
    boldWidth: string -> nat,
    unsetPixel: Argb)

  /** The placeholder built for an unresolvable icon: a 1x1 ARGB32 image whose
      buffer is never initialized. Filling it with white of alpha 0 under the
      default SourceOver composition leaves the pixel as it was, so the image
      is one pixel of whatever the buffer held; only its size and that it is
      not null are fixed. */
  function Placeholder(env: Environment): (p: Pixmap)
    ensures !IsNull(p) && p.width == 1 && p.height == 1 && |p.pixels| == 1
  {
    Image(1, 1, [env.unsetPixel])
  }

  /** The placeholder is not reliably transparent: an environment in which
      its pixel is fully opaque. */
  lemma PlaceholderMayBeOpaque()
    ensures exists env: Environment :: Placeholder(env).pixels[0].alpha == 255
  {
    var env := Environment(map[], _ => NullPixmap, p => p, _ => 0, _ => 0, Argb(255, 0, 0, 0));
    assert Placeholder(env).pixels[0].alpha == 255;
  }

  /** Settings::get(key).toString(); a key the store does not hold reads as
      the empty string. */
  function Setting(settings: map<string, string>, key: string): (s: string)
    ensures key in settings ==> s == settings[key]
    ensures key !in settings ==> s == ""
  {
    if key in settings then settings[key] else ""
  }
}
