# Cropalicious, modelled in Dafny

Cropalicious is a Windows screenshot tool. Its main window offers five
preset capture sizes and any number of user-defined custom sizes. It also
shows the output folder and the global hotkey. Choosing a size opens a
transparent overlay that covers the whole virtual screen. There, a green
frame with white corner markers follows the cursor, and the frame is
clamped to the monitor under the cursor.

This project models these parts of the program:

- **Overlay geometry** (`overlay_window.dfy`, module `Overlay`):
  - where the capture rectangle lands for a cursor position and a monitor;
  - how the four border strips and eight corner segments are laid out around that rectangle;
  - how the overlay window's sprites are kept showing it as the cursor moves.
- **Main window** (`main_window.dfy`, module `Main`):
  - the three-column grid that places the preset and custom buttons;
  - adding and deleting custom sizes;
  - the size, stay-on-top, folder, hotkey and window-state handlers;
  - path shortening for the output label and the hotkey label text.
- **Settings dialog** (`settings_form.dfy`, module `SettingsDialog`):
  - the modifier labels and their `Keys` values, in both directions;
  - the key list;
  - the private copy of the settings the dialog edits, and what OK writes back into it;
  - the OK button's own `DialogResult.OK`, which closes the form with OK even when the folder is unusable (see Findings).
- **Custom-size dialog** (`custom_size_dialog.dfy`, module `CustomSizeDialogs`):
  - the 100..4000 bounds of the two numeric boxes, whose `decimal` values keep a typed fraction that the `(int)` cast then drops;
  - the OK handler, which refuses a blank name and trims the name;
  - the OK button's own `DialogResult.OK`, which closes the dialog with OK even after the handler refuses (see Findings).
- **Global hotkey** (`global_hotkey.dfy`, module `Hotkey`):
  - translating WinForms modifier flags into the `fsModifiers` mask of `RegisterHotKey`;
  - idempotent disposal, which unregisters exactly once.
- Shared support:
  - `forms.dfy` (`Forms`): `Keys` values as 32-bit vectors, `Option`, and dialog results;
  - `strings.dfy` (`Strings`): the .NET `char.IsWhiteSpace`, `Trim`, `Split` and `string.Join` the core relies on;
  - `app_settings.dfy` (`Settings`): the settings record and its defaults.

Some source behaviour is written out explicitly:

- C#'s `int` division truncates toward zero, so `CaptureWidth / 2` is `Overlay.Half`.
- `Rectangle.Right` and `Bottom` are exclusive.
- `String.Split` keeps empty pieces.
- The mouse position, the monitor bounds, the overlay's client origin,
  message-box answers, folder-dialog outcomes, whether a directory exists
  or can be created, and whether `RegisterHotKey` succeeds are all
  parameters.

Two quirks of the code are modelled as written and stated by lemmas:

- The bottom-right vertical corner segment is offset by the corner length
  (10) rather than its thickness (2), so it ends 8 pixels left of the
  frame's right edge (`Overlay.CornerSegmentsPlacement`).
- The Win bit of the hotkey mask tests the key code `Keys.LWin` (0x5B)
  against the modifiers rather than a modifier flag. No modifier set the
  settings dialog can produce has any of those bits
  (`Hotkey.NoWinBitFromSettings`).

## Model

| member | source | states |
|---|---|---|
| Overlay.Half | OverlayWindow.cs:377-378 | `n / 2` truncated toward zero: twice the result is `n` or one less for non-negative `n`, and `n` or one more for negative `n`. |
| Overlay.ClampAxis | OverlayWindow.cs:383-386 | The start never lies before `lo`. It is `lo` when the cursor is less than half a size past `lo` or when the range is narrower than the size. It centres the size on the cursor when the cursor is at least half a size inside both ends. When the cursor is past `hi` minus half a size and the rounded-down size fits, it starts at `hi` minus twice the half size. For an even size that is flush with `hi`; an odd size then ends one pixel past `hi`. |
| Overlay.CaptureRect | OverlayWindow.cs:375-389 | The rectangle has the configured size. It never starts left of or above the monitor. It is centred on the cursor when the cursor is at least half a size from both edges. It is flush with the left or top edge when the cursor is within half a size of that edge or the size exceeds the monitor. When the cursor is within half a size of the right or bottom edge and the rounded-down size fits, it starts twice the half size before that edge. An even size is then flush with the edge; an odd size ends one pixel past it. |
| Overlay.CaptureInsideScreen | OverlayWindow.cs:375-389 | For an even, non-negative size no larger than the monitor, the whole capture rectangle lies on that monitor. |
| Overlay.CaptureMonotone | OverlayWindow.cs:375-389 | Moving the cursor right or down never moves the capture rectangle left or up. |
| Overlay.ClientCaptureRect | OverlayWindow.cs:255-267 | The position computed from the cursor and monitor in client coordinates is the capture rectangle moved by minus the window's client origin. |
| Overlay.PointToClient | OverlayWindow.cs:255 | The cursor in client coordinates, moved back by the client origin, is the screen point. |
| Overlay.RectangleToClient | OverlayWindow.cs:262 | The monitor bounds in client coordinates keep their size, and moved back by the client origin they are the screen bounds. |
| Overlay.ClampAxisTranslate | OverlayWindow.cs:253-267 | Clamping in client coordinates gives the screen-coordinate clamp shifted by the window origin. So the overlay draws exactly the rectangle the capture computes. |
| Overlay.BorderStrips | OverlayWindow.cs:274-287 | Four strips: top and bottom as wide as the frame and 3 high, left and right as high as the frame and 3 wide. |
| Overlay.CornerSegments | OverlayWindow.cs:291-312 | Eight segments: the even ones horizontal (10 wide, 2 high), the odd ones vertical (2 wide, 10 high). |
| Overlay.BorderStripsFlush | OverlayWindow.cs:274-287 | Each green strip is flush with its own edge and spans it fully. All four lie inside the frame once it is at least 3 by 3. |
| Overlay.CornerSegmentsPlacement | OverlayWindow.cs:288-312 | Segments 0 to 6 touch their corner of the frame. Segment 7 reaches the bottom edge but its right edge is 8 pixels short. All eight are inside a frame of at least 10 by 10. |
| Overlay.OverlayWindow.constructor | OverlayWindow.cs:134-166 | The overlay covers the virtual screen, so its client origin is the virtual screen's corner. It starts with no compositor and with twelve distinct sprites. |
| Overlay.OverlayWindow.InitializeComposition | OverlayWindow.cs:174-228 | Afterwards the compositor exists and the current cursor position is remembered. The sprites stay distinct. |
| Overlay.OverlayWindow.UpdateOverlayDisplay | OverlayWindow.cs:250-313 | With a compositor, the four border sprites and eight corner sprites show the border strips and corner segments of the capture rectangle, converted to client coordinates. Without one, no sprite changes. |
| Overlay.OverlayWindow.PlaceBorders | OverlayWindow.cs:272-286 | The four border sprites get the offsets and sizes of the four strips. |
| Overlay.OverlayWindow.PlaceCorners | OverlayWindow.cs:288-312 | Corner sprite k gets the offset and size of corner segment k. |
| Overlay.OverlayWindow.OnMouseMove | OverlayWindow.cs:239-248 | A cursor position different from the last one is remembered and the frame is redrawn around it. An unchanged position leaves every sprite as it was. |
| Overlay.OverlayWindow.UpdateScreenBounds | OverlayWindow.cs:391-395 | The overlay moves to the new virtual screen and redraws the frame relative to its new origin. Without a compositor no sprite changes. |
| Settings.AppSettings.constructor | AppSettings.cs:11-21 | The defaults: Ctrl+Shift+C, 1024 by 1024, no custom sizes, a 600 by 400 window at (-1, -1), not on top. |
| Strings.IsWhiteSpace | CustomSizeDialog.cs:103 | On ASCII characters, white space is exactly the space and U+0009..U+000D. |
| Strings.IsNullOrWhiteSpace | CustomSizeDialog.cs:103 | A text is blank exactly when removing its leading white space leaves nothing. |
| Strings.TrimStart | CustomSizeDialog.cs:110 | The leading part of `Trim`: the result is no longer than the text and does not start with white space. |
| Strings.TrimEnd | CustomSizeDialog.cs:110 | The trailing part of `Trim`: the result is no longer than the text and does not end with white space. |
| Strings.TrimStartIsSuffix | CustomSizeDialog.cs:110 | Removing leading white space keeps a suffix of the text and drops only white space. |
| Strings.TrimEndIsPrefix | CustomSizeDialog.cs:110 | Removing trailing white space keeps a prefix of the text and drops only white space. |
| Strings.Trim | CustomSizeDialog.cs:110 | The result is empty exactly when the text is blank. Otherwise it starts and ends with a non-whitespace character. |
| Strings.TrimIsInfix | CustomSizeDialog.cs:110 | The trimmed name is a contiguous part of the typed text, and only whitespace is removed on either side. |
| Strings.TrimIdempotent | CustomSizeDialog.cs:110 | Trimming a trimmed name changes nothing. |
| Strings.Split | MainWindow.cs:500 | There is one more piece than separators, and no piece contains a separator. |
| Strings.JoinSplit | MainWindow.cs:500 | Joining the pieces with one of the separators gives the text back with every separator replaced by that one; with a single separator character it gives the text back exactly. |
| Strings.SplitFirst | MainWindow.cs:504 | The first piece is the text before the first separator, and a separator follows it when there is more than one piece. |
| Strings.SplitLast | MainWindow.cs:505 | The last piece is the text after the last separator, and a separator precedes it when there is more than one piece. |
| Strings.SplitJoin | MainWindow.cs:491 | Joining pieces that do not contain the separator, then splitting at it, gives the pieces back. |
| Strings.Join | MainWindow.cs:491 | An empty list joins to the empty text. Its other properties are the three lemmas `JoinEndsWithLast`, `SplitJoin` and `JoinSplit`. |
| Strings.JoinEndsWithLast | MainWindow.cs:491 | A joined text ends with its last piece. |
| CustomSizeDialogs.Constrain | CustomSizeDialog.cs:51-74 | A numeric box always holds a `decimal` value in 100..4000. It keeps values already in range, fractions included, and pins others to the nearer bound. |
| CustomSizeDialogs.Truncate | CustomSizeDialog.cs:111-112 | The `(int)` cast drops the fraction toward zero: for a non-negative value the result is the largest whole number not above it. |
| CustomSizeDialogs.TruncateWhole | CustomSizeDialog.cs:111-112 | A whole box value is handed back unchanged. |
| CustomSizeDialogs.TruncateInBounds | CustomSizeDialog.cs:111-112 | A box value in 100..4000 truncates to a whole number in 100..4000. |
| CustomSizeDialogs.FractionDropped | CustomSizeDialog.cs:111-112 | A typed 150.6 stays in the box as 150.6, and the dialog hands back 150. |
| CustomSizeDialogs.CustomSizeDialog.constructor | CustomSizeDialog.cs:9-74 | The dialog opens with an empty name, 1024 in both boxes, zero result properties and no result. |
| CustomSizeDialogs.CustomSizeDialog.Edit | CustomSizeDialog.cs:51-74 | The name box takes the typed text, and the typed values, fractions included, are constrained to the boxes' bounds. |
| CustomSizeDialogs.TrimmedSizeAcceptable | CustomSizeDialog.cs:110-112 | A non-blank name, trimmed, with both sizes in 100..4000 makes an acceptable size: a non-empty name that trimming leaves unchanged. |
| CustomSizeDialogs.CustomSizeDialog.OnOK | CustomSizeDialog.cs:101-116 | The click handler alone. A blank name is refused and nothing changes. Otherwise the result fields get the trimmed name and the two box values truncated to whole numbers, the result becomes OK, and the size is acceptable. |
| CustomSizeDialogs.CustomSizeDialog.ClickOK | CustomSizeDialog.cs:76-83 | A click on OK: the form's result is OK afterwards whatever the name. A blank name leaves the result fields as they were. Otherwise they hold the trimmed name and the truncated box values and are acceptable. |
| CustomSizeDialogs.CustomSizeDialog.ClickOKCorrected | CustomSizeDialog.cs:101-116 | The click with the refusal keeping the dialog open: the result is OK exactly when the name is not blank, and an OK result always carries an acceptable size. A blank name leaves the result fields as they were; otherwise they hold the trimmed name and the truncated box values. |
| CustomSizeDialogs.CustomSizeDialog.ClickCancel | CustomSizeDialog.cs:85-88 | A click on Cancel closes the dialog with Cancel. |
| CustomSizeDialogs.ShowAsWritten | CustomSizeDialog.cs:76-116 | Filling in the dialog and clicking OK always reports OK. A blank name hands back a 0 by 0 size with an empty name, which is not acceptable. Any other name hands back the trimmed name with the constrained sizes truncated to whole numbers. |
| CustomSizeDialogs.BlankNameClosesWithOK | CustomSizeDialog.cs:103-108 | A name of one space reports OK with the unacceptable 0 by 0 size. |
| CustomSizeDialogs.ShowCorrected | CustomSizeDialog.cs:101-116 | With the refusal keeping the dialog open, OK is reported exactly for a non-blank name, and then with an acceptable size built from the trimmed name and the constrained, truncated sizes. |
| SettingsDialog.GetModifierText | SettingsForm.cs:242-255 | The label is one of the five combo items. It is Ctrl+Shift when both are held or when neither Ctrl nor Alt is. It is Ctrl+Alt exactly when Ctrl and Alt are held without Shift, and Alt+Shift exactly when Alt and Shift are held without Ctrl. It is Ctrl (or Alt) exactly when that is the only one of Ctrl, Alt and Shift held. |
| SettingsDialog.GetModifierKeys | SettingsForm.cs:257-268 | The value is one of the five modifier sets, is Ctrl+Shift for an unknown label, and is a non-empty set of Ctrl, Alt and Shift only. |
| SettingsDialog.ModifierTextRoundTrip | SettingsForm.cs:242-268 | Every combo label survives the trip to flags and back. |
| SettingsDialog.ModifierKeysRoundTrip | SettingsForm.cs:242-268 | Every expressible modifier set survives the trip to a label and back. |
| SettingsDialog.ModifierNormalisation | SettingsForm.cs:242-268 | Going through a label maps any modifier set to an expressible one, and repeating the trip changes nothing more. |
| SettingsDialog.ParseKey | SettingsForm.cs:288-289 | A selected key item always parses, to the `Keys` value it names: the item at position i gives the value at position i of the aligned value table (C to `Keys.C`, …, F4 to `Keys.F4`). No selection does not parse. |
| SettingsDialog.KeySelectionFor | SettingsForm.cs:226 | A key selects an item exactly when it is one of the ten listed keys, and that item parses back to the key. |
| SettingsDialog.KeyItemRoundTrip | SettingsForm.cs:79 | Parsing a key item and then selecting the parsed key selects the same item again. |
| SettingsDialog.SettingsForm.constructor | SettingsForm.cs:28-50 | The form edits a fresh copy. Key, modifiers, capture size and folder are copied and everything else keeps its default. The combos show the modifiers' label and the key's item, and the text box shows the folder. |
| SettingsDialog.SettingsForm.Select | SettingsForm.cs:69-79 | Only combo items, or no item, can be selected. |
| SettingsDialog.SettingsForm.OnBrowseFolder | SettingsForm.cs:270-282 | A confirmed folder replaces the text box. A cancelled browse leaves it unchanged. |
| SettingsDialog.SettingsForm.OnOK | SettingsForm.cs:284-323 | The copy gets the selected label's modifiers (Ctrl+Shift when nothing is selected), the parsed key (or the old key), and the text box's folder. Every other field is unchanged. The handler sets the result to OK when the folder exists or can be created, and otherwise leaves the result as it was. |
| SettingsDialog.SettingsForm.ClickOK | SettingsForm.cs:182-189 | A click on OK: the form's result is OK afterwards whatever the folder, with the same writes into the copy as the handler: the normalised modifiers, the key when the selection parses (otherwise the old key), and the folder text. Every other field of the copy keeps its value. |
| SettingsDialog.SettingsForm.ClickOKCorrected | SettingsForm.cs:284-323 | The click with the folder failure keeping the form open: the result is OK exactly when the folder exists or can be created. The copy gets the normalised modifiers, the key when the selection parses (otherwise the old key) and the folder text, and every other field keeps its value. |
| SettingsDialog.SettingsForm.ClickCancel | SettingsForm.cs:191-194 | A click on Cancel closes the form with Cancel. |
| SettingsDialog.ShowAsWritten | SettingsForm.cs:182-189 | Opening the form and clicking OK always reports OK, and the copy's modifiers are the current ones normalised through their label. |
| SettingsDialog.InvalidFolderClosesWithOK | SettingsForm.cs:306-316 | A folder that neither exists nor can be created still closes the form with OK. |
| SettingsDialog.ShowCorrected | SettingsForm.cs:284-323 | With the folder failure keeping the form open, OK is reported exactly when the folder exists or can be created. |
| Hotkey.ModifierMask | GlobalHotkey.cs:26-30 | The Ctrl, Alt and Shift bits (2, 1, 4) are set exactly when the matching flag is held. The Win bit (8) is set exactly when the modifiers share a bit with `Keys.LWin`. No other bit is set. |
| Hotkey.NoWinBitFromSettings | GlobalHotkey.cs:30 | No modifier set from the settings dialog requests the Win bit. |
| Hotkey.GlobalHotkey.Registered | GlobalHotkey.cs:21-36 | A new hotkey is registered and not disposed, and nothing has been unregistered. |
| Hotkey.Create | GlobalHotkey.cs:21-36 | A hotkey object results exactly when registration succeeds. It is registered with the translated mask and the key. |
| Hotkey.GlobalHotkey.Dispose | GlobalHotkey.cs:38-46 | Afterwards the hotkey is disposed and unregistered. The first call unregisters once and later calls change nothing. |
| Hotkey.DisposeTwice | GlobalHotkey.cs:38-46 | Disposing twice unregisters exactly once. |
| Main.TruncatePath | MainWindow.cs:494-511 | A path no longer than the limit, or an empty path, is kept. No result exceeds the limit. |
| Main.TruncatePathLong | MainWindow.cs:494-511 | A long path is cut to exactly the limit, ending in "...", unless it has more than two components and `first\...\last` fits. That form is strictly shorter than the limit. |
| Main.PathComponents | MainWindow.cs:500-505 | For a path with a separator, the kept first component is the text before its first separator and the kept last component is the text after its last one. |
| Main.ModifierNames | MainWindow.cs:483-487 | The list of modifier names holds at most three; which ones and in which order is stated by the two lemmas below. |
| Main.ModifierNamesExact | MainWindow.cs:483-487 | At most three names, each Ctrl, Alt or Shift, and each present exactly when its flag is held. |
| Main.ModifierNamesOrdered | MainWindow.cs:483-487 | The names come in the order Ctrl, Alt, Shift, so none repeats. |
| Main.HotkeyTextParts | MainWindow.cs:481-492 | The label names the held modifiers in the order Ctrl, Alt, Shift, then the key. Splitting the text at '+' gives those parts back when the key name has no '+'. |
| Main.GridCell | MainWindow.cs:124-125 | For a non-negative index the column is in 0..2, the row is non-negative, and three times the row plus the column is the index. |
| Main.GridCellInjective | MainWindow.cs:123-125 | Different list positions get different grid cells. |
| Main.PresetCellsDistinct | MainWindow.cs:119-157 | The five presets occupy five different cells of the 3-by-2 preset table, none of them the Add Custom cell (2, 1). |
| Main.RowCountIsLeast | MainWindow.cs:171-172 | `(n + 2) / 3` rows hold all n custom buttons, and the last button sits in the last row. |
| Main.RemoveAt | MainWindow.cs:237 | Removing position i drops exactly that element and keeps the others in order. |
| Main.MainWindow.constructor | MainWindow.cs:30-40 | The window shows the presets and the current custom sizes. The output label shows the folder shortened to 50 characters, the hotkey label shows the hotkey text, and TopMost follows the setting. |
| Main.MainWindow.CreatePresetButtons | MainWindow.cs:119-157 | Preset i sits at column i % 3, row i / 3, tagged with its size and captioned with its name. Add Custom sits at (2, 1). |
| Main.MainWindow.CreateCustomButtons | MainWindow.cs:159-222 | One panel per custom size, in list order, at column i % 3, row i / 3. Each is tagged with its size and its delete button with i. Rows are `(n + 2) / 3`. An empty list hides the table and leaves its row count as it was. |
| Main.MainWindow.GetHotkeyText | MainWindow.cs:481-492 | The text is the held modifiers' names and the key name joined by '+', and it ends with the key name. |
| Main.MainWindow.OnDeleteCustomClick | MainWindow.cs:224-242 | Answering Yes removes exactly the size at the delete button's tag and rebuilds the table. Any other answer changes nothing. |
| Main.MainWindow.OnAddCustomClick | MainWindow.cs:361-378 | A dialog reporting OK has its three result fields appended as a size and the table rebuilt. Any other result changes nothing. When the dialog reports OK only with an acceptable size, a list of acceptable sizes stays acceptable. |
| Main.MainWindow.AddCustomSizeAsWritten | MainWindow.cs:361-378 | Adding through the dialog as written always appends one size: the 0 by 0 size with an empty name for a blank name, otherwise the trimmed name with the constrained, truncated sizes. |
| Main.MainWindow.AddCustomSize | MainWindow.cs:361-378 | Adding through the corrected dialog appends nothing for a blank name and the trimmed name with the constrained, truncated sizes otherwise, so a list of acceptable sizes stays acceptable. |
| Main.MainWindow.OnPresetButtonClick | MainWindow.cs:351-359 | The clicked preset's or custom size's tag becomes the capture size. |
| Main.MainWindow.OnStayOnTopChanged | MainWindow.cs:341-349 | The setting and TopMost both follow the checkbox. |
| Main.MainWindow.OnChangeFolderClick | MainWindow.cs:420-434 | A confirmed folder becomes the output folder and the label shows it shortened. A cancelled choice changes neither. |
| Main.MainWindow.OnChangeHotkeyClick | MainWindow.cs:436-445 | After OK the form's key and modifiers replace the current ones. Otherwise they stay. The hotkey label is not refreshed. |
| Main.MainWindow.SaveWindowState | MainWindow.cs:469-479 | Only a normal window records its size and position. Otherwise the settings are unchanged. |

## Left out

- Everything that talks to the operating system is outside the model:
  - DirectComposition and WinRT interop, and brushes and colours;
  - window styles and hit testing (`CreateParams`, `WndProc`, `DwmFlush`);
  - the hidden hotkey window and its message handling;
  - taking the screenshot (`ScreenCapture`, `TakeScreenshot`, `HandleMouseClick`, `OnKeyDown`).
  These are foreign calls whose effect is only pixels or OS state.
- Loading and saving the JSON settings file (`AppSettings.Load` and `Save`) are left out because they are file I/O. Each handler's `Save()` call is omitted.
- The tray application, the single-instance mutex, theming and the custom-drawn buttons and confirmation dialog are left out. They are not part of the modelled core.
- `StartCapture` and `OnOverlayScreenshotTaken` are left out. They create and show the overlay and minimise or restore the window, which is only window management. `OnOpenFolderClick` is left out because it launches Explorer.
- The settings dialog's hotkey-mode, fixed-size, snap-mode, tray, continuous-capture, notification and theme fields are left out. `AppSettings` does not declare them, so their copy and write-back have no defined meaning. The same goes for `OnHotkeyModeChanged`.
- A dialog refused by its OK handler is modelled as one click; the user's later edits and clicks on a dialog that stays open (in the corrected versions) are further calls of `Edit` and the click methods.
- CustomSizeDialogs.Constrain: the boxes' `decimal` is modelled as an exact `real`; .NET's 28-digit precision, and parsing the typed text into a number, are not modelled.
- SettingsDialog.ParseKey: models `Enum.TryParse<Keys>` only on the key combo's own items, which are the only strings it is given.
- The overlay's sprites exist from construction, while in the source they are created by `InitializeComposition`. The `composed` flag stands for the compositor and root visual being non-null.
- Button text formatting for custom sizes (name plus `W×H`), fonts, sizes, margins and tooltips are left out as presentation only.
- Main.TruncatePath: requires a limit of at least 3, which both callers (MainWindow.cs:274 and MainWindow.cs:517, each passing 50) meet. A smaller limit would make `Substring` throw in the source. Lengths, the cut and the limit are counted in Unicode scalar values (a Dafny `string`), not in the UTF-16 code units of .NET's `Length` and `Substring`; a path holding characters outside the Basic Multilingual Plane is measured shorter here than in the source, and the source's cut may split a surrogate pair, which the model cannot express.
- Main.TruncatePathLong: "exactly the limit" is in Unicode scalar values, for the reason given on the line above; for a path of Basic Multilingual Plane characters only, the two measures agree.
- Overlay.CaptureRect: C# `int` overflow is not modelled; integers are unbounded. Screen coordinates and capture sizes are far below 2^31.
- Hotkey.Create: a failed registration throws in the source and leaves the hidden window undisposed. The model only reports that no hotkey results.

## Findings

| source | as written | input that shows it | evidently intended | confidence | as-written member | corrected member |
|---|---|---|---|---|---|---|
| CustomSizeDialog.cs:79 | The OK button's `DialogResult = OK` is copied to the form before `OnOK` runs, so the early `return` after the blank-name message still closes the dialog with OK, and `OnAddCustomClick` appends a 0 by 0 size with an empty name. | a name of one space, then OK | A refused name keeps the dialog open (result `None`), and only acceptable sizes are added. | not executed | CustomSizeDialogs.BlankNameClosesWithOK | CustomSizeDialogs.ShowCorrected |
| SettingsForm.cs:185 | The OK button's `DialogResult = OK` closes the form with OK even when `OnOK` reports an invalid folder and returns, so the caller applies the new hotkey anyway. | a folder that does not exist and cannot be created, then OK | The form stays open (result `None`) until the folder is usable. | not executed | SettingsDialog.InvalidFolderClosesWithOK | SettingsDialog.ShowCorrected |
