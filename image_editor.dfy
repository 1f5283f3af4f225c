/** The image editor's session state (src/components/ImageEditor.tsx): the
    history of image locators with the original at index 0, the image shown
    and edited, the loading flag and the crop, resize and rotate settings,
    together with the parameters it sends to `editImage`.

    `editImage` is an external asynchronous service that may fail; each
    handler that calls it receives its outcome as the parameter `reply`
    (a fresh locator, or the error it threw) and returns the request it sent.
    The pixel transforms themselves are not part of this model. */
module ImageEditor {
  import opened Wrappers

  /** A reference to image bytes: an object URL or a data URL. */
  type Locator = string

  datatype Operation = Crop | Resize | Rotate | Flip

  datatype FlipDirection = Horizontal | Vertical

  /** The `options` object of a request, one shape per operation. */
  datatype EditOptions =
    | CropOptions(x: int, y: int, width: int, height: int)
    | ResizeOptions(width: int, height: int)
    | RotateOptions(degrees: int)
    | FlipOptions(direction: FlipDirection)

  /** `EditImageParams`: the request handed to `editImage`. */
  datatype EditImageParams = EditImageParams(imageUrl: Locator, operation: Operation, options: EditOptions)

  /** Crop sliders, in percent. */
  datatype CropSettings = CropSettings(x: int, y: int, width: int, height: int)

  /** Resize sliders, in pixels, and the "Maintain aspect ratio" checkbox. */
  datatype ResizeSettings = ResizeSettings(width: int, height: int, maintainAspectRatio: bool)

  /** The ranges the crop sliders produce: x and y in 0..100, width and
      height in 10..100. */
  predicate CropInRange(c: CropSettings) {
    0 <= c.x <= 100 && 0 <= c.y <= 100 && 10 <= c.width <= 100 && 10 <= c.height <= 100
  }

  /** The range the resize sliders produce: 64..1024 pixels. */
  predicate ResizeInRange(r: ResizeSettings) {
    64 <= r.width <= 1024 && 64 <= r.height <= 1024
  }

  /** `Math.round(p * 5.12)`: a crop position in percent converted to pixels
      of an assumed 512-pixel image. The result is the integer nearest to
      `p * 5.12`, halves rounded up, which is what `Math.round` returns. */
  function PercentToPixels(p: int): (r: int)
    ensures 512 * p - 50 < 100 * r <= 512 * p + 50
  {
    (256 * p + 25) / 50
  }

  /** `Math.round(p * 5.12 / 100)`: the conversion the source applies to the
      crop width and height, which divides by 100 once more than the
      position conversion. The result is the integer nearest to
      `p * 5.12 / 100`, halves rounded up. */
  function PercentToCropSize(p: int): (r: int)
    ensures 512 * p - 5000 < 10000 * r <= 512 * p + 5000
  {
    (256 * p + 2500) / 5000
  }

  /** A crop position from the slider range 0..100 lies within 0..512 pixels. */
  lemma CropPositionRange(p: int)
    requires 0 <= p <= 100
    ensures 0 <= PercentToPixels(p) <= 512
  {
  }

  /** A crop width or height from the slider range 10..100 comes out as
      1..5 pixels, not as a size in pixels of a 512-pixel image. */
  lemma CropSizeRange(p: int)
    requires 10 <= p <= 100
    ensures 1 <= PercentToCropSize(p) <= 5
  {
  }

  /** At 100 % the position conversion gives the whole 512-pixel side while
      the size conversion gives 5 pixels. */
  lemma FullCropSizeIsFivePixels()
    ensures PercentToPixels(100) == 512
    ensures PercentToCropSize(100) == 5
  {
  }

  /** The request `handleEditOperation` builds for `op` from the current
      image and settings: it always targets `imageUrl`, carries `op`, and
      options of the shape `op` calls for; a horizontal flip is the only flip
      it sends. */
  function BuildEditParams(imageUrl: Locator, op: Operation, crop: CropSettings,
                           resize: ResizeSettings, degrees: int): (p: EditImageParams)
    ensures p.imageUrl == imageUrl && p.operation == op
    ensures op == Crop ==>
      p.options == CropOptions(PercentToPixels(crop.x), PercentToPixels(crop.y),
                               PercentToCropSize(crop.width), PercentToCropSize(crop.height))
    ensures op == Crop && CropInRange(crop) ==>
      && 0 <= p.options.x <= 512 && 0 <= p.options.y <= 512
      && 1 <= p.options.width <= 5 && 1 <= p.options.height <= 5
    ensures op == Resize ==> p.options == ResizeOptions(resize.width, resize.height)
    ensures op == Rotate ==> p.options == RotateOptions(degrees)
    ensures op == Flip ==> p.options == FlipOptions(Horizontal)
  {
    var options :=
      match op
      case Crop =>
        CropOptions(PercentToPixels(crop.x), PercentToPixels(crop.y),
                    PercentToCropSize(crop.width), PercentToCropSize(crop.height))
      case Resize => ResizeOptions(resize.width, resize.height)
      case Rotate => RotateOptions(degrees)
      case Flip => FlipOptions(Horizontal);
    if op == Crop && CropInRange(crop) then
      CropPositionRange(crop.x);
      CropPositionRange(crop.y);
      CropSizeRange(crop.width);
      CropSizeRange(crop.height);
      EditImageParams(imageUrl, op, options)
    else
      EditImageParams(imageUrl, op, options)
  }

  /** The resize settings after the width slider moves to `w`: with the
      checkbox ticked the height is set to the same value. */
  function WithWidth(s: ResizeSettings, w: int): (r: ResizeSettings)
    ensures r.width == w && r.maintainAspectRatio == s.maintainAspectRatio
    ensures !s.maintainAspectRatio ==> r.height == s.height
  {
    ResizeSettings(w, if s.maintainAspectRatio then w else s.height, s.maintainAspectRatio)
  }

  /** The resize settings after the height slider moves to `h`: with the
      checkbox ticked the width is set to the same value. */
  function WithHeight(s: ResizeSettings, h: int): (r: ResizeSettings)
    ensures r.height == h && r.maintainAspectRatio == s.maintainAspectRatio
    ensures !s.maintainAspectRatio ==> r.width == s.width
  {
    ResizeSettings(if s.maintainAspectRatio then h else s.width, h, s.maintainAspectRatio)
  }

  /** The resize settings after the checkbox is set to `checked`. */
  function WithAspectLock(s: ResizeSettings, checked: bool): (r: ResizeSettings)
    ensures r.maintainAspectRatio == checked
    ensures r.width == s.width && r.height == s.height
  {
    s.(maintainAspectRatio := checked)
  }

  /** With the checkbox ticked, moving either slider makes the image square,
      whatever the previous proportions were: the lock copies the value, it
      does not keep the width-to-height ratio. */
  lemma AspectLockIsSquare(s: ResizeSettings, v: int)
    requires s.maintainAspectRatio
    ensures WithWidth(s, v).height == v
    ensures WithHeight(s, v).width == v
  {
  }

  /** An 800 x 400 setting with the checkbox ticked becomes 400 x 400 when
      the width is set to 400, not 400 x 200. */
  lemma AspectLockIgnoresProportions()
    ensures WithWidth(ResizeSettings(800, 400, true), 400) == ResizeSettings(400, 400, true)
  {
  }

  /** Moving a slider keeps the settings within the slider range. */
  lemma SliderKeepsResizeInRange(s: ResizeSettings, v: int)
    requires ResizeInRange(s) && 64 <= v <= 1024
    ensures ResizeInRange(WithWidth(s, v)) && ResizeInRange(WithHeight(s, v))
  {
  }

  /** One editor session, created when the editor opens on `imageUrl`. */
  class EditSession {
    var editedImageUrl: Locator
    var isLoading: bool
    var history: seq<Locator>
    var cropSettings: CropSettings
    var resizeSettings: ResizeSettings
    var rotateDegrees: int

    /** The history is never empty and its last entry is the image shown;
        the settings stay within the ranges their controls produce. */
    ghost predicate Valid()
      reads this
    {
      && |history| >= 1
      && editedImageUrl == history[|history| - 1]
      && CropInRange(cropSettings)
      && ResizeInRange(resizeSettings)
      && 0 <= rotateDegrees <= 360
    }

    constructor (imageUrl: Locator)
      ensures Valid()
      ensures history == [imageUrl] && editedImageUrl == imageUrl && !isLoading
      ensures cropSettings == CropSettings(0, 0, 100, 100)
      ensures resizeSettings == ResizeSettings(512, 512, true)
      ensures rotateDegrees == 0
    {
      editedImageUrl := imageUrl;
      isLoading := false;
      history := [imageUrl];
      cropSettings := CropSettings(0, 0, 100, 100);
      resizeSettings := ResizeSettings(512, 512, true);
      rotateDegrees := 0;
    }

    /** `handleEditOperation(op)`: sends the request built from the current
        image and settings; `reply` is what `editImage` returned for it. A
        new locator is appended to the history and shown; an error leaves
        history and image as they were. Loading ends on both paths. */
    method HandleEditOperation(op: Operation, reply: Result<Locator, string>) returns (sent: EditImageParams)
      requires Valid()
      modifies this`isLoading, this`editedImageUrl, this`history
      ensures Valid()
      ensures sent == BuildEditParams(old(editedImageUrl), op, cropSettings, resizeSettings, rotateDegrees)
      ensures reply.Success? ==> history == old(history) + [reply.value] && editedImageUrl == reply.value
      ensures reply.Failure? ==> history == old(history) && editedImageUrl == old(editedImageUrl)
      ensures !isLoading
    {
      isLoading := true;
      sent := BuildEditParams(editedImageUrl, op, cropSettings, resizeSettings, rotateDegrees);
      if reply.Success? {
        var newImageUrl := reply.value;
        editedImageUrl := newImageUrl;
        history := history + [newImageUrl];
      }
      isLoading := false;
    }

    /** `handleUndo`: with only the original left nothing happens; otherwise
        the last entry is dropped and the one before it is shown again. */
    method HandleUndo()
      requires Valid()
      modifies this`editedImageUrl, this`history
      ensures Valid()
      ensures |old(history)| <= 1 ==> history == old(history) && editedImageUrl == old(editedImageUrl)
      ensures |old(history)| > 1 ==> history == old(history)[..|old(history)| - 1]
    {
      if |history| <= 1 {
        return;
      }
      var newHistory := history[..|history| - 1];
      editedImageUrl := newHistory[|newHistory| - 1];
      history := newHistory;
    }

    /** `handleSave`: the locator handed to `onSave` is the newest entry of
        the history. */
    method HandleSave() returns (saved: Locator)
      requires Valid()
      ensures saved == history[|history| - 1]
    {
      saved := editedImageUrl;
    }

    /** The "Flip Vertically" button: it calls `editImage` directly, without
        touching the loading flag; a new locator is appended and shown, and
        on failure nothing changes. */
    method FlipVertically(reply: Result<Locator, string>) returns (sent: EditImageParams)
      requires Valid()
      modifies this`editedImageUrl, this`history
      ensures Valid()
      ensures sent == EditImageParams(old(editedImageUrl), Flip, FlipOptions(Vertical))
      ensures reply.Success? ==> history == old(history) + [reply.value] && editedImageUrl == reply.value
      ensures reply.Failure? ==> history == old(history) && editedImageUrl == old(editedImageUrl)
    {
      sent := EditImageParams(editedImageUrl, Flip, FlipOptions(Vertical));
      if reply.Success? {
        editedImageUrl := reply.value;
        history := history + [reply.value];
      }
    }

    /** The 90, 180, 270 and Reset buttons: they store `degrees` and call
        `handleEditOperation('rotate')` in the same handler, so the request
        still carries the angle the settings held before the click. */
    method RotatePreset(degrees: int, reply: Result<Locator, string>) returns (sent: EditImageParams)
      requires Valid()
      requires degrees == 0 || degrees == 90 || degrees == 180 || degrees == 270
      modifies this`isLoading, this`editedImageUrl, this`history, this`rotateDegrees
      ensures Valid()
      ensures rotateDegrees == degrees
      ensures sent == EditImageParams(old(editedImageUrl), Rotate, RotateOptions(old(rotateDegrees)))
      ensures reply.Success? ==> history == old(history) + [reply.value] && editedImageUrl == reply.value
      ensures reply.Failure? ==> history == old(history) && editedImageUrl == old(editedImageUrl)
      ensures !isLoading
    {
      sent := HandleEditOperation(Rotate, reply);
      rotateDegrees := degrees;
    }

    /** The crop X slider. */
    method SetCropX(v: int)
      requires Valid() && 0 <= v <= 100
      modifies this`cropSettings
      ensures Valid() && cropSettings == old(cropSettings).(x := v)
    {
      cropSettings := cropSettings.(x := v);
    }

    /** The crop Y slider. */
    method SetCropY(v: int)
      requires Valid() && 0 <= v <= 100
      modifies this`cropSettings
      ensures Valid() && cropSettings == old(cropSettings).(y := v)
    {
      cropSettings := cropSettings.(y := v);
    }

    /** The crop width slider. */
    method SetCropWidth(v: int)
      requires Valid() && 10 <= v <= 100
      modifies this`cropSettings
      ensures Valid() && cropSettings == old(cropSettings).(width := v)
    {
      cropSettings := cropSettings.(width := v);
    }

    /** The crop height slider. */
    method SetCropHeight(v: int)
      requires Valid() && 10 <= v <= 100
      modifies this`cropSettings
      ensures Valid() && cropSettings == old(cropSettings).(height := v)
    {
      cropSettings := cropSettings.(height := v);
    }

    /** The resize width slider. */
    method SetResizeWidth(w: int)
      requires Valid() && 64 <= w <= 1024
      modifies this`resizeSettings
      ensures Valid() && resizeSettings == WithWidth(old(resizeSettings), w)
    {
      SliderKeepsResizeInRange(resizeSettings, w);
      resizeSettings := WithWidth(resizeSettings, w);
    }

    /** The resize height slider. */
    method SetResizeHeight(h: int)
      requires Valid() && 64 <= h <= 1024
      modifies this`resizeSettings
      ensures Valid() && resizeSettings == WithHeight(old(resizeSettings), h)
    {
      SliderKeepsResizeInRange(resizeSettings, h);
      resizeSettings := WithHeight(resizeSettings, h);
    }

    /** The "Maintain aspect ratio" checkbox. */
    method SetMaintainAspectRatio(checked: bool)
      requires Valid()
      modifies this`resizeSettings
      ensures Valid() && resizeSettings == WithAspectLock(old(resizeSettings), checked)
    {
      resizeSettings := WithAspectLock(resizeSettings, checked);
    }

    /** The rotation slider. */
    method SetRotateDegrees(d: int)
      requires Valid() && 0 <= d <= 360
      modifies this`rotateDegrees
      ensures Valid() && rotateDegrees == d
    {
      rotateDegrees := d;
    }
  }

  /** A successful edit followed by an undo restores the history and the
      image shown. */
  method EditThenUndo(s: EditSession, op: Operation, result: Locator)
    requires s.Valid()
    modifies s
    ensures s.Valid()
    ensures s.history == old(s.history) && s.editedImageUrl == old(s.editedImageUrl)
  {
    var _ := s.HandleEditOperation(op, Success(result));
    s.HandleUndo();
  }

  /** Two edits and three undos: the history goes back to the original, and
      the third undo changes nothing. */
  method HistoryScenario(original: Locator, first: Locator, second: Locator)
  {
    var s := new EditSession(original);
    var _ := s.HandleEditOperation(Rotate, Success(first));
    var _ := s.HandleEditOperation(Crop, Success(second));
    assert s.history == [original, first, second] && s.editedImageUrl == second;
    s.HandleUndo();
    assert s.history == [original, first] && s.editedImageUrl == first;
    s.HandleUndo();
    assert s.history == [original] && s.editedImageUrl == original;
    s.HandleUndo();
    assert s.history == [original] && s.editedImageUrl == original;
  }
}
