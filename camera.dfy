/** The camera screen (screens/SuccessScreen.js): the camera settings and
    the buttons that change them, the permission gate, and the guards of
    taking and saving a picture. The device calls themselves (camera,
    media library, location) are replaced by parameters that carry their
    answers. */
module Camera {
  import opened Ui

  /** A value a toggle button stores into a setting: the buttons use both
      strings ('on', 'back', ...) and booleans. */
  datatype Setting = Text(s: string) | Flag(b: bool)

  /** The settings `toggleProperty` can address by name. */
  datatype Prop = Facing | Flash | AnimateShutter | EnableTorch

  /** `cameraProps`. */
  datatype CameraProps = CameraProps(
    zoom: real,
    facing: Setting,
    flash: Setting,
    animateShutter: Setting,
    enableTorch: Setting)

  const InitialCameraProps: CameraProps :=
    CameraProps(0.0, Text("back"), Text("on"), Flag(false), Flag(false))

  /** Amount added or removed by one press of a zoom button. Exact here;
      the source adds the floating-point number 0.1. */
  const ZoomStep: real := 0.1

  function Get(c: CameraProps, prop: Prop): Setting
  {
    match prop
    case Facing => c.facing
    case Flash => c.flash
    case AnimateShutter => c.animateShutter
    case EnableTorch => c.enableTorch
  }

  function Put(c: CameraProps, prop: Prop, v: Setting): CameraProps
  {
    match prop
    case Facing => c.(facing := v)
    case Flash => c.(flash := v)
    case AnimateShutter => c.(animateShutter := v)
    case EnableTorch => c.(enableTorch := v)
  }

  /** `toggleProperty(prop, option1, option2)`: the setting becomes
      `option2` when it currently equals `option1`, and `option1` in every
      other case; zoom and the other settings are not touched. */
  function ToggleProperty(c: CameraProps, prop: Prop, option1: Setting, option2: Setting): (r: CameraProps)
    ensures Get(c, prop) == option1 ==> Get(r, prop) == option2
    ensures Get(c, prop) != option1 ==> Get(r, prop) == option1
    ensures r.zoom == c.zoom
    ensures forall q :: q != prop ==> Get(r, q) == Get(c, q)
  {
    Put(c, prop, if Get(c, prop) == option1 then option2 else option1)
  }

  /** Pressing a toggle twice restores the setting when it held one of the
      two options; from any other value two presses end on `option2`. */
  lemma ToggleTwice(c: CameraProps, prop: Prop, option1: Setting, option2: Setting)
    ensures Get(c, prop) == option1 || Get(c, prop) == option2 ==>
      ToggleProperty(ToggleProperty(c, prop, option1, option2), prop, option1, option2) == c
    ensures Get(c, prop) != option1 && Get(c, prop) != option2 ==>
      Get(ToggleProperty(ToggleProperty(c, prop, option1, option2), prop, option1, option2), prop) == option2
  {
    var once := ToggleProperty(c, prop, option1, option2);
    var twice := ToggleProperty(once, prop, option1, option2);
    if Get(c, prop) == option1 || Get(c, prop) == option2 {
      match prop
      case Facing => assert twice.facing == c.facing;
      case Flash => assert twice.flash == c.flash;
      case AnimateShutter => assert twice.animateShutter == c.animateShutter;
      case EnableTorch => assert twice.enableTorch == c.enableTorch;
    }
  }

  /** `zoomIn`: one step up, but never past 1. Nothing else changes. */
  function ZoomIn(c: CameraProps): (r: CameraProps)
    ensures r.zoom <= 1.0 && r.zoom <= c.zoom + ZoomStep
    ensures r.zoom == 1.0 || r.zoom == c.zoom + ZoomStep
    ensures r == c.(zoom := r.zoom)
  {
    c.(zoom := if c.zoom + ZoomStep < 1.0 then c.zoom + ZoomStep else 1.0)
  }

  /** `zoomOut`: one step down, but never below 0. Nothing else changes. */
  function ZoomOut(c: CameraProps): (r: CameraProps)
    ensures r.zoom >= 0.0 && r.zoom >= c.zoom - ZoomStep
    ensures r.zoom == 0.0 || r.zoom == c.zoom - ZoomStep
    ensures r == c.(zoom := r.zoom)
  {
    c.(zoom := if c.zoom - ZoomStep > 0.0 then c.zoom - ZoomStep else 0.0)
  }

  /** A press of one of the screen's controls. */
  datatype Control =
    | Toggle(prop: Prop, option1: Setting, option2: Setting)
    | ZoomInButton
    | ZoomOutButton

  /** The four toggle buttons the screen renders, with the options each one
      passes to `toggleProperty`. */
  const FlashButton: Control := Toggle(Flash, Text("on"), Text("off"))
  const ShutterButton: Control := Toggle(AnimateShutter, Flag(true), Flag(false))
  const TorchButton: Control := Toggle(EnableTorch, Flag(true), Flag(false))
  const FlipButton: Control := Toggle(Facing, Text("front"), Text("back"))

  predicate ScreenControl(ctl: Control)
  {
    ctl == FlashButton || ctl == ShutterButton || ctl == TorchButton || ctl == FlipButton ||
    ctl == ZoomInButton || ctl == ZoomOutButton
  }

  /** The updater a control passes to `setCameraProps`. */
  function Apply(c: CameraProps, ctl: Control): CameraProps
  {
    match ctl
    case Toggle(prop, o1, o2) => ToggleProperty(c, prop, o1, o2)
    case ZoomInButton => ZoomIn(c)
    case ZoomOutButton => ZoomOut(c)
  }

  /** The settings after a sequence of presses, first press first. */
  function ApplyAll(c: CameraProps, ctls: seq<Control>): CameraProps
    decreases |ctls|
  {
    if ctls == [] then c else ApplyAll(Apply(c, ctls[0]), ctls[1..])
  }

  predicate ZoomInRange(c: CameraProps)
  {
    0.0 <= c.zoom <= 1.0
  }

  /** What the screen's own buttons keep true: zoom in [0, 1] and every
      toggled setting one of its button's two options. */
  predicate WellFormed(c: CameraProps)
  {
    ZoomInRange(c) &&
    (c.facing == Text("front") || c.facing == Text("back")) &&
    (c.flash == Text("on") || c.flash == Text("off")) &&
    c.animateShutter.Flag? && c.enableTorch.Flag?
  }

  /** Any control, with any options, keeps zoom in [0, 1]. */
  lemma {:induction false} ZoomStaysInRange(c: CameraProps, ctls: seq<Control>)
    requires ZoomInRange(c)
    ensures ZoomInRange(ApplyAll(c, ctls))
    decreases |ctls|
  {
    if ctls != [] {
      ZoomStaysInRange(Apply(c, ctls[0]), ctls[1..]);
    }
  }

  /** Starting from the initial settings, the screen's own buttons only ever
      produce well-formed settings. */
  lemma {:induction false} ButtonsKeepWellFormed(c: CameraProps, ctls: seq<Control>)
    requires WellFormed(c)
    requires forall i :: 0 <= i < |ctls| ==> ScreenControl(ctls[i])
    ensures WellFormed(ApplyAll(c, ctls))
    decreases |ctls|
  {
    if ctls != [] {
      assert ScreenControl(ctls[0]);
      ButtonsKeepWellFormed(Apply(c, ctls[0]), ctls[1..]);
    }
  }

  lemma InitialWellFormed()
    ensures WellFormed(InitialCameraProps)
    ensures ZoomIn(InitialCameraProps).zoom == ZoomStep
    ensures ZoomOut(InitialCameraProps) == InitialCameraProps
  {
  }

  /** The replies of the three permission requests. `None` stands for a
      missing reply, which optional chaining (`?.`) and `|| {}` turn into
      `undefined`. */
  datatype PermissionReplies = PermissionReplies(
    cameraGranted: Option<bool>,
    mediaLibraryStatus: Option<string>,
    locationStatus: Option<string>)

  /** `allGranted`: the camera permission is granted and both other
      statuses are exactly 'granted'. */
  function AllGranted(r: PermissionReplies): (b: bool)
    ensures b ==> r.cameraGranted == Some(true)
    ensures b ==> r.mediaLibraryStatus == Some("granted")
    ensures b ==> r.locationStatus == Some("granted")
    ensures (r.cameraGranted == Some(true) && r.mediaLibraryStatus == Some("granted") &&
             r.locationStatus == Some("granted")) ==> b
  {
    match (r.cameraGranted, r.mediaLibraryStatus, r.locationStatus)
    case (Some(true), Some("granted"), Some("granted")) => true
    case _ => false
  }

  const PermissionsRequired: Alert := Alert("Permissions Required",
    "This app needs camera, media library, and location permissions to function properly.")
  const PermissionRequestFailed: Alert := Alert("Error", "Failed to request necessary permissions")
  const PermissionsForPictures: Alert := Alert("Permissions Required",
    "Please grant all permissions to take pictures with location data.")
  const CaptureError: Alert := Alert("Error",
    "Failed to capture image or location data. Please ensure all permissions are granted.")
  const PhotoSaved: Alert := Alert("Photo saved!", "Redirecting to photo display...")
  const SaveError: Alert := Alert("Error", "Failed to save the picture")

  /** The album a saved picture with a location is added to. */
  const GeotaggedAlbum: string := "GeotaggedPhotos"

  /** A position fix returned by the location service. */
  datatype Fix = Fix(latitude: real, longitude: real)

  /** What a press of the shutter button did. */
  datatype CaptureOutcome =
    | Refused(alert: Alert)         // permissions missing: nothing captured
    | NoCamera                      // the camera view is not mounted
    | Captured                      // picture and position stored
    | CaptureFailed(alert: Alert)   // the device call threw

  /** `navigation.navigate('PhotoDisplay', { imageUri, location })`. */
  datatype PhotoDisplay = PhotoDisplay(imageUri: string, location: Option<Fix>)

  /** What a press of the save button did. `album` is the album the new
      asset was also added to, if any; `next` is the navigation that the OK
      button of `alert` performs when the user presses it. */
  datatype SaveOutcome =
    | NothingToSave
    | Saved(album: Option<string>, alert: Alert, next: PhotoDisplay)
    | SaveFailed(alert: Alert)

  /** The screen's state fields. */
  class CameraScreen {
    var hasAllPermissions: bool
    var cameraProps: CameraProps
    var image: Option<string>
    var location: Option<Fix>

    /** The settings are well formed: what the screen's own buttons keep. */
    ghost predicate Valid()
      reads this
    {
      WellFormed(cameraProps)
    }

    constructor ()
      ensures Valid()
      ensures !hasAllPermissions && cameraProps == InitialCameraProps
      ensures image == None && location == None
    {
      hasAllPermissions := false;
      cameraProps := InitialCameraProps;
      InitialWellFormed();
      image := None;
      location := None;
    }

    /** `requestPermissions`, given the replies of the three requests, or
        `None` when one of them threw. The flag records `allGranted`; an
        alert is returned when something is missing or failed. Fetching the
        last saved image afterwards is device I/O and not modelled. */
    method RequestPermissions(replies: Option<PermissionReplies>) returns (alert: Option<Alert>)
      modifies this
      ensures replies.None? ==> hasAllPermissions == old(hasAllPermissions) &&
                                alert == Some(PermissionRequestFailed)
      ensures replies.Some? ==> hasAllPermissions == AllGranted(replies.value) &&
                                alert == (if hasAllPermissions then None else Some(PermissionsRequired))
      ensures cameraProps == old(cameraProps) && image == old(image) && location == old(location)
    {
      if replies.None? {
        alert := Some(PermissionRequestFailed);
      } else {
        hasAllPermissions := AllGranted(replies.value);
        alert := if hasAllPermissions then None else Some(PermissionsRequired);
      }
    }

    /** A press of one of the camera controls; a press of one of the
        screen's own buttons keeps the settings well formed. */
    method Press(ctl: Control)
      modifies this
      ensures old(Valid()) && ScreenControl(ctl) ==> Valid()
      ensures cameraProps == Apply(old(cameraProps), ctl)
      ensures hasAllPermissions == old(hasAllPermissions)
      ensures image == old(image) && location == old(location)
    {
      if Valid() && ScreenControl(ctl) {
        ButtonsKeepWellFormed(cameraProps, [ctl]);
        assert ApplyAll(Apply(cameraProps, ctl), []) == Apply(cameraProps, ctl);
      }
      cameraProps := Apply(cameraProps, ctl);
    }

    /** `takePicture`. `cameraMounted` is whether `cameraRef.current` is
        set; `shot` is the picture's URI and the position fix returned by
        the device, or `None` when either call threw. Without all
        permissions nothing is captured and nothing changes. */
    method TakePicture(cameraMounted: bool, shot: Option<(string, Fix)>) returns (outcome: CaptureOutcome)
      modifies this
      ensures !hasAllPermissions ==> outcome == Refused(PermissionsForPictures)
      ensures outcome == Captured <==> hasAllPermissions && cameraMounted && shot.Some?
      ensures outcome == Captured ==> image == Some(shot.value.0) && location == Some(shot.value.1)
      ensures outcome != Captured ==> image == old(image) && location == old(location)
      ensures hasAllPermissions && !cameraMounted ==> outcome == NoCamera
      ensures hasAllPermissions && cameraMounted && shot.None? ==> outcome == CaptureFailed(CaptureError)
      ensures hasAllPermissions == old(hasAllPermissions) && cameraProps == old(cameraProps)
    {
      if !hasAllPermissions {
        return Refused(PermissionsForPictures);
      }
      if !cameraMounted {
        return NoCamera;
      }
      if shot.None? {
        return CaptureFailed(CaptureError);
      }
      image := Some(shot.value.0);
      location := Some(shot.value.1);
      outcome := Captured;
    }

    /** `savePicture`. `stored` is whether the media-library calls
        succeeded. Without an image nothing happens. After a successful save
        the asset is added to the geotagged album when a location is known,
        the image and location are cleared, and the 'Photo saved!' alert is
        returned together with, as `next`, the PhotoDisplay navigation its
        OK button performs with the image and location as they were. */
    method SavePicture(stored: bool) returns (outcome: SaveOutcome)
      modifies this
      ensures !TruthyOption(old(image)) ==> outcome == NothingToSave
      ensures outcome.Saved? <==> TruthyOption(old(image)) && stored
      ensures outcome.Saved? ==>
        outcome == Saved(if old(location).Some? then Some(GeotaggedAlbum) else None,
                         PhotoSaved, PhotoDisplay(old(image).value, old(location))) &&
        image == None && location == None
      ensures !outcome.Saved? ==> image == old(image) && location == old(location)
      ensures TruthyOption(old(image)) && !stored ==> outcome == SaveFailed(SaveError)
      ensures hasAllPermissions == old(hasAllPermissions) && cameraProps == old(cameraProps)
    {
      if !TruthyOption(image) {
        return NothingToSave;
      }
      if !stored {
        return SaveFailed(SaveError);
      }
      var album := if location.Some? then Some(GeotaggedAlbum) else None;
      outcome := Saved(album, PhotoSaved, PhotoDisplay(image.value, location));
      image := None;
      location := None;
    }
  }
}
