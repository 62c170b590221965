/** The preference record every form reads and updates in place. */
module Settings {
  import opened Forms

  /** A user-defined capture size; the source never changes one after creating it. */
  datatype CustomSize = CustomSize(width: int, height: int, name: string)

  const DefaultCaptureWidth := 1024
  const DefaultCaptureHeight := 1024

  /** The defined fields of the application's settings object and their defaults.
      Loading and saving the JSON file are outside the model. */
  class AppSettings {
    var hotkeyKey: KeyCode
    var hotkeyModifiers: KeyCode
    var captureWidth: int
    var captureHeight: int
    var outputFolder: string
    var customSizes: seq<CustomSize>
    var windowWidth: int
    var windowHeight: int
    var windowX: int
    var windowY: int
    var stayOnTop: bool

    /** A fresh object with the declared defaults; the default output folder
        depends on the user's Pictures folder and is passed in. */
    constructor (defaultOutputFolder: string)
      ensures hotkeyKey == KeyC && hotkeyModifiers == Control | Shift
      ensures captureWidth == DefaultCaptureWidth && captureHeight == DefaultCaptureHeight
      ensures outputFolder == defaultOutputFolder && customSizes == []
      ensures windowWidth == 600 && windowHeight == 400
      ensures windowX == -1 && windowY == -1 && !stayOnTop
    {
      hotkeyKey := KeyC;
      hotkeyModifiers := Control | Shift;
      captureWidth := DefaultCaptureWidth;
      captureHeight := DefaultCaptureHeight;
      outputFolder := defaultOutputFolder;
      customSizes := [];
      windowWidth := 600;
      windowHeight := 400;
      windowX := -1;
      windowY := -1;
      stayOnTop := false;
    }
  }
}
