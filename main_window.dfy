/** The main window: preset and custom-size buttons on a three-column grid,
    adding and deleting custom sizes, and the output-folder and hotkey labels. */
module Main {
  import opened Forms
  import opened Strings
  import opened Settings
  import opened CustomSizeDialogs
  import SettingsDialog

  // ---------------------------------------------------------------- paths

  const DirectorySeparatorChar := '\\'
  const AltDirectorySeparatorChar := '/'
  const Separators: set<char> := {DirectorySeparatorChar, AltDirectorySeparatorChar}
  const Ellipsis := "..."
  /** The width the output label allows the folder path. */
  const OutputPathLength := 50

  /** `TruncatePath`: a path no longer than `maxLength` is kept; otherwise it
      becomes `first\...\last` when that is short enough and has at least
      three components, else the first `maxLength - 3` characters and "...". */
  function TruncatePath(path: string, maxLength: int): (r: string)
    requires 3 <= maxLength
    ensures path == [] || |path| <= maxLength ==> r == path
    ensures |r| <= maxLength
  {
    if path == [] || |path| <= maxLength then path
    else
      var parts := Split(path, Separators);
      if |parts| <= 2 then path[..maxLength - 3] + Ellipsis
      else
        var drive := parts[0] + [DirectorySeparatorChar];
        var lastPart := parts[|parts| - 1];
        if |drive| + 4 + |lastPart| >= maxLength then path[..maxLength - 3] + Ellipsis
        else drive + Ellipsis + [DirectorySeparatorChar] + lastPart
  }

  /** The first and last components of a path, as `TruncatePath` splits it. */
  function FirstComponent(path: string): string {
    Split(path, Separators)[0]
  }

  function LastComponent(path: string): string {
    var parts := Split(path, Separators);
    parts[|parts| - 1]
  }

  /** Whether a long path is shown as `first\...\last`: it has more than two
      components, and that form is shorter than the limit. */
  predicate KeepsEnds(path: string, maxLength: int) {
    |Split(path, Separators)| > 2 && |FirstComponent(path)| + 5 + |LastComponent(path)| < maxLength
  }

  /** What a long path is shortened to: cut to exactly `maxLength`
      characters ending in "...", unless it keeps its ends, in which case it
      is `first\...\last`, strictly shorter than `maxLength`. */
  lemma TruncatePathLong(path: string, maxLength: int)
    requires 3 <= maxLength < |path|
    ensures !KeepsEnds(path, maxLength) ==>
              var r := TruncatePath(path, maxLength);
              |r| == maxLength && r == path[..maxLength - 3] + "..."
    ensures KeepsEnds(path, maxLength) ==>
              var r := TruncatePath(path, maxLength);
              |r| < maxLength && r == FirstComponent(path) + "\\...\\" + LastComponent(path)
  {
    if KeepsEnds(path, maxLength) {
      assert TruncatePath(path, maxLength)
          == FirstComponent(path) + [DirectorySeparatorChar] + Ellipsis + [DirectorySeparatorChar] + LastComponent(path);
    }
  }

  /** The components a shortened path keeps: the first is the text before
      the path's first separator, the last the text after its last separator
      (empty for a trailing separator). */
  lemma PathComponents(path: string)
    requires |Split(path, Separators)| > 1
    ensures var first := FirstComponent(path);
            |first| < |path| && path[..|first|] == first && path[|first|] in Separators
    ensures var last := LastComponent(path);
            |last| < |path| && path[|path| - |last|..] == last && path[|path| - |last| - 1] in Separators
  {
    SplitFirst(path, Separators);
    SplitLast(path, Separators);
    assert |FirstComponent(path)| < |path| by {
      if |FirstComponent(path)| == |path| {
        CountInNone(path, Separators);
      }
    }
    assert |LastComponent(path)| < |path| by {
      if |LastComponent(path)| == |path| {
        CountInNone(path, Separators);
      }
    }
  }

  // ---------------------------------------------------------------- hotkey label

  /** The modifier names shown for a modifier set, in the fixed order Ctrl, Alt, Shift. */
  function ModifierNames(modifiers: KeyCode): (r: seq<string>)
    ensures |r| <= 3
  {
    (if Has(modifiers, Control) then ["Ctrl"] else [])
    + (if Has(modifiers, Alt) then ["Alt"] else [])
    + (if Has(modifiers, Shift) then ["Shift"] else [])
  }

  function Rank(name: string): int {
    if name == "Ctrl" then 0 else if name == "Alt" then 1 else 2
  }

  /** The names are exactly those of the set modifier flags, at most three. */
  lemma ModifierNamesExact(modifiers: KeyCode)
    ensures var names := ModifierNames(modifiers);
            && |names| <= 3 && (forall k :: 0 <= k < |names| ==> names[k] in ["Ctrl", "Alt", "Shift"])
            && ("Ctrl" in names <==> Has(modifiers, Control))
            && ("Alt" in names <==> Has(modifiers, Alt))
            && ("Shift" in names <==> Has(modifiers, Shift))
  {
  }

  /** No modifier name contains the '+' that joins them. */
  lemma ModifierNameHasNoPlus(name: string)
    requires name in ["Ctrl", "Alt", "Shift"]
    ensures forall i :: 0 <= i < |name| ==> name[i] != '+'
  {
  }

  /** The modifier names come in the order Ctrl, Alt, Shift, so none repeats. */
  lemma ModifierNamesOrdered(modifiers: KeyCode)
    ensures var names := ModifierNames(modifiers);
            forall i, j :: 0 <= i < j < |names| ==> Rank(names[i]) < Rank(names[j])
  {
    var names := ModifierNames(modifiers);
    var ranks := (if Has(modifiers, Control) then [0] else [])
                 + (if Has(modifiers, Alt) then [1] else [])
                 + (if Has(modifiers, Shift) then [2] else []);
    assert |ranks| == |names| && forall k :: 0 <= k < |names| ==> Rank(names[k]) == ranks[k];
  }

  /** The hotkey text lists the set modifiers in the order Ctrl, Alt, Shift,
      then the key; splitting it at '+' gives those parts back when the key
      name has no '+'. */
  lemma HotkeyTextParts(modifiers: KeyCode, keyName: string)
    requires forall i :: 0 <= i < |keyName| ==> keyName[i] != '+'
    ensures var names := ModifierNames(modifiers);
            && (forall i, j :: 0 <= i < j < |names| ==> Rank(names[i]) < Rank(names[j]))
            && Split(Join("+", names + [keyName]), {'+'}) == names + [keyName]
  {
    ModifierNamesOrdered(modifiers);
    var names := ModifierNames(modifiers);
    var parts := names + [keyName];
    forall k, i | 0 <= k < |parts| && 0 <= i < |parts[k]| ensures parts[k][i] != '+' {
      if k < |names| {
        ModifierNameHasNoPlus(names[k]);
      } else {
        assert parts[k] == keyName;
      }
    }
    SplitJoin('+', parts);
  }

  // ---------------------------------------------------------------- grid

  datatype Cell = Cell(column: int, row: int)

  /** Button `i` of a three-column table. */
  function GridCell(i: int): (c: Cell)
    ensures 0 <= i ==> 0 <= c.column < 3 && 0 <= c.row && i == 3 * c.row + c.column
  {
    Cell(i % 3, i / 3)
  }

  /** Where the "Add Custom" button goes in the preset table. */
  const AddCustomCell := Cell(2, 1)

  /** Different positions in the list get different cells. */
  lemma GridCellInjective(i: int, j: int)
    requires 0 <= i && 0 <= j && i != j
    ensures GridCell(i) != GridCell(j)
  {
    assert i == 3 * (i / 3) + i % 3;
    assert j == 3 * (j / 3) + j % 3;
  }

  /** The five preset buttons get five different cells of the three-column,
      two-row preset table, none of them the "Add Custom" cell. */
  lemma PresetCellsDistinct()
    ensures forall i, j :: 0 <= i < j < |Presets| ==> GridCell(i) != GridCell(j)
    ensures forall i :: 0 <= i < |Presets| ==> GridCell(i) != AddCustomCell
    ensures forall i :: 0 <= i < |Presets| ==> 0 <= GridCell(i).column < 3 && 0 <= GridCell(i).row < 2
  {
    forall i, j | 0 <= i < j < |Presets| ensures GridCell(i) != GridCell(j) {
      GridCellInjective(i, j);
    }
  }

  /** `(n + 2) / 3` rows hold `n` buttons, and no fewer would: the last button
      sits in the last row. */
  lemma RowCountIsLeast(n: int)
    requires n > 0
    ensures forall i :: 0 <= i < n ==> 0 <= GridCell(i).row < (n + 2) / 3
    ensures GridCell(n - 1).row == (n + 2) / 3 - 1
  {
  }

  datatype Preset = Preset(width: int, height: int, name: string)

  const Presets: seq<Preset> := [
    Preset(1024, 1024, "1024\U{00D7}1024\nSquare"),
    Preset(1216, 832, "1216\U{00D7}832\nWide"),
    Preset(832, 1216, "832\U{00D7}1216\nTall"),
    Preset(1344, 768, "1344\U{00D7}768\nUltrawide"),
    Preset(768, 1344, "768\U{00D7}1344\nUltra Tall")
  ]

  /** A preset button: its cell, its `(width, height)` tag and its caption. */
  datatype PresetButton = PresetButton(cell: Cell, width: int, height: int, text: string)

  /** A custom-size panel: its cell, the size button's `(width, height)` tag,
      the name it shows and the delete button's index tag. */
  datatype CustomButton = CustomButton(cell: Cell, width: int, height: int, name: string, deleteTag: int)

  function CustomButtonAt(i: int, c: CustomSize): CustomButton {
    CustomButton(GridCell(i), c.width, c.height, c.name, i)
  }

  /** `RemoveAt`: the element at `i` is gone and the others keep their order. */
  function RemoveAt<T>(s: seq<T>, i: int): (r: seq<T>)
    requires 0 <= i < |s|
    ensures |r| == |s| - 1
    ensures forall k :: 0 <= k < i ==> r[k] == s[k]
    ensures forall k :: i <= k < |r| ==> r[k] == s[k + 1]
  {
    s[..i] + s[i + 1..]
  }

  /** A button the size-button handler can be clicked from. */
  datatype SizeButton = PresetAt(index: int) | CustomAt(index: int)

  class MainWindow {
    const settings: AppSettings
    var presetButtons: seq<PresetButton>
    var addCustomButtonCell: Cell
    var customTableVisible: bool
    var customRowCount: int
    var customButtons: seq<CustomButton>
    var outputLabelText: string
    var hotkeyLabelText: string
    var topMost: bool

    /** The custom table shows the current custom sizes, one panel per size in list order. */
    ghost predicate ShowsCustomSizes()
      reads this`customTableVisible, this`customRowCount, this`customButtons, settings
    {
      var sizes := settings.customSizes;
      && customTableVisible == (|sizes| > 0)
      && (|sizes| > 0 ==> customRowCount == (|sizes| + 2) / 3)
      && |customButtons| == |sizes|
      && forall i :: 0 <= i < |sizes| ==> customButtons[i] == CustomButtonAt(i, sizes[i])
    }

    ghost predicate ShowsPresets()
      reads this`presetButtons, this`addCustomButtonCell
    {
      && |presetButtons| == |Presets|
      && (forall i :: 0 <= i < |Presets| ==>
            presetButtons[i] == PresetButton(GridCell(i), Presets[i].width, Presets[i].height, Presets[i].name))
      && addCustomButtonCell == AddCustomCell
    }

    ghost predicate Valid()
      reads this, settings
    {
      ShowsPresets() && ShowsCustomSizes()
    }

    /** Builds the preset and custom tables and the two labels; the key's
        display name is passed in. */
    constructor (settings: AppSettings, hotkeyKeyName: string)
      ensures Valid() && this.settings == settings && topMost == settings.stayOnTop
      ensures outputLabelText == "Output: " + TruncatePath(settings.outputFolder, OutputPathLength)
      ensures hotkeyLabelText == "Global Hotkey: " + Join("+", ModifierNames(settings.hotkeyModifiers) + [hotkeyKeyName])
    {
      this.settings := settings;
      presetButtons := [];
      addCustomButtonCell := Cell(0, 0);
      customTableVisible := false;
      customRowCount := 0;
      customButtons := [];
      var output := "Output: " + TruncatePath(settings.outputFolder, OutputPathLength);
      outputLabelText := output;
      hotkeyLabelText := [];
      topMost := settings.stayOnTop;
      new;
      CreatePresetButtons();
      CreateCustomButtons();
      assert ShowsPresets();
      assert outputLabelText == output && topMost == settings.stayOnTop;
      var text := GetHotkeyText(hotkeyKeyName);
      hotkeyLabelText := "Global Hotkey: " + text;
    }

    /** `CreatePresetButtons`: preset `i` at column `i % 3`, row `i / 3`, then
        "Add Custom" at column 2, row 1. */
    method CreatePresetButtons()
      modifies this`presetButtons, this`addCustomButtonCell
      ensures ShowsPresets()
    {
      presetButtons := [];
      for i := 0 to |Presets|
        invariant |presetButtons| == i
        invariant forall k :: 0 <= k < i ==>
                    presetButtons[k] == PresetButton(GridCell(k), Presets[k].width, Presets[k].height, Presets[k].name)
      {
        var preset := Presets[i];
        var col := i % 3;
        var row := i / 3;
        presetButtons := presetButtons + [PresetButton(Cell(col, row), preset.width, preset.height, preset.name)];
      }
      addCustomButtonCell := Cell(2, 1);
    }

    /** `CreateCustomButtons`: an empty list hides the table (its row count
        is left as it was); otherwise size `i` goes to column `i % 3`, row
        `i / 3`, and its delete button is tagged `i`. */
    method CreateCustomButtons()
      modifies this`customButtons, this`customTableVisible, this`customRowCount
      ensures ShowsCustomSizes()
      ensures settings.customSizes == [] ==> customRowCount == old(customRowCount)
    {
      customButtons := [];
      var sizes := settings.customSizes;
      if |sizes| == 0 {
        customTableVisible := false;
        return;
      }
      customTableVisible := true;
      var rows := (|sizes| + 2) / 3;
      customRowCount := rows;
      for i := 0 to |sizes|
        invariant customTableVisible && customRowCount == rows
        invariant |customButtons| == i
        invariant forall k :: 0 <= k < i ==> customButtons[k] == CustomButtonAt(k, sizes[k])
      {
        var custom := sizes[i];
        var col := i % 3;
        var row := i / 3;
        var index := i;
        customButtons := customButtons + [CustomButton(Cell(col, row), custom.width, custom.height, custom.name, index)];
      }
    }

    /** `GetHotkeyText`: the set modifiers, then the key name, joined by '+'. */
    method GetHotkeyText(keyName: string) returns (text: string)
      ensures text == Join("+", ModifierNames(settings.hotkeyModifiers) + [keyName])
      ensures |keyName| <= |text| && text[|text| - |keyName|..] == keyName
    {
      var modifiers := settings.hotkeyModifiers;
      var parts: seq<string> := [];
      if Has(modifiers, Control) { parts := parts + ["Ctrl"]; }
      if Has(modifiers, Alt) { parts := parts + ["Alt"]; }
      if Has(modifiers, Shift) { parts := parts + ["Shift"]; }
      assert parts == ModifierNames(modifiers);
      parts := parts + [keyName];
      text := Join("+", parts);
      JoinEndsWithLast("+", parts);
    }

    /** `OnDeleteCustomClick` on the delete button of panel `button`: when the
        user answers Yes, the size at the button's tag is removed and the table rebuilt. */
    method OnDeleteCustomClick(button: int, answer: DialogResult)
      requires Valid() && 0 <= button < |customButtons|
      modifies settings`customSizes, this`customButtons, this`customTableVisible, this`customRowCount
      ensures Valid()
      ensures answer == Yes ==> settings.customSizes == RemoveAt(old(settings.customSizes), button)
      ensures answer != Yes ==> settings.customSizes == old(settings.customSizes) && customButtons == old(customButtons)
    {
      var index := customButtons[button].deleteTag;
      if answer == Yes {
        settings.customSizes := settings.customSizes[..index] + settings.customSizes[index + 1..];
        CreateCustomButtons();
      }
    }

    /** `OnAddCustomClick`: when the dialog reports OK its three result
        fields are appended as a custom size and the table rebuilt; any other
        result changes nothing. A dialog that reports OK only with an
        acceptable size keeps a list of acceptable sizes so. */
    method OnAddCustomClick(dialog: CustomSizeDialog)
      requires Valid() && dialog.Valid()
      modifies settings`customSizes, this`customButtons, this`customTableVisible, this`customRowCount
      ensures Valid()
      ensures dialog.dialogResult == OK ==>
                settings.customSizes == old(settings.customSizes)
                                        + [CustomSize(dialog.customWidth, dialog.customHeight, dialog.customName)]
      ensures dialog.dialogResult != OK ==> settings.customSizes == old(settings.customSizes) && customButtons == old(customButtons)
      ensures dialog.Consistent() && (forall c :: c in old(settings.customSizes) ==> Acceptable(c)) ==>
                forall c :: c in settings.customSizes ==> Acceptable(c)
    {
      if dialog.dialogResult == OK {
        var customSize := CustomSize(dialog.customWidth, dialog.customHeight, dialog.customName);
        settings.customSizes := settings.customSizes + [customSize];
        CreateCustomButtons();
      }
    }

    /** "Add Custom" as written: a fresh dialog is filled in and confirmed
        with OK, and since it always reports OK, a blank name appends the
        dialog's untouched 0 by 0 size with an empty name. */
    method AddCustomSizeAsWritten(name: string, width: real, height: real)
      requires Valid()
      modifies settings`customSizes, this`customButtons, this`customTableVisible, this`customRowCount
      ensures Valid()
      ensures settings.customSizes == old(settings.customSizes)
                + [if IsNullOrWhiteSpace(name) then CustomSize(0, 0, [])
                   else CustomSize(Truncate(Constrain(width)), Truncate(Constrain(height)), Trim(name))]
    {
      var dialog := new CustomSizeDialog();
      dialog.Edit(name, width, height);
      dialog.ClickOK();
      OnAddCustomClick(dialog);
    }

    /** "Add Custom" with the dialog's refusal keeping it open: a blank name
        adds nothing, any other adds the trimmed name with the constrained
        sizes, and a list of acceptable sizes stays so. */
    method AddCustomSize(name: string, width: real, height: real)
      requires Valid()
      modifies settings`customSizes, this`customButtons, this`customTableVisible, this`customRowCount
      ensures Valid()
      ensures IsNullOrWhiteSpace(name) ==> settings.customSizes == old(settings.customSizes)
      ensures !IsNullOrWhiteSpace(name) ==>
                settings.customSizes == old(settings.customSizes) + [CustomSize(Truncate(Constrain(width)), Truncate(Constrain(height)), Trim(name))]
      ensures (forall c :: c in old(settings.customSizes) ==> Acceptable(c)) ==>
                forall c :: c in settings.customSizes ==> Acceptable(c)
    {
      var dialog := new CustomSizeDialog();
      dialog.Edit(name, width, height);
      dialog.ClickOKCorrected();
      OnAddCustomClick(dialog);
    }

    /** `OnPresetButtonClick`: the clicked button's tag becomes the capture size. */
    method OnPresetButtonClick(clicked: SizeButton)
      requires Valid()
      requires clicked.PresetAt? ==> 0 <= clicked.index < |presetButtons|
      requires clicked.CustomAt? ==> 0 <= clicked.index < |customButtons|
      modifies settings`captureWidth, settings`captureHeight
      ensures Valid()
      ensures clicked.PresetAt? ==>
                && settings.captureWidth == Presets[clicked.index].width
                && settings.captureHeight == Presets[clicked.index].height
      ensures clicked.CustomAt? ==>
                && settings.captureWidth == settings.customSizes[clicked.index].width
                && settings.captureHeight == settings.customSizes[clicked.index].height
    {
      var width, height;
      match clicked {
        case PresetAt(i) => width, height := presetButtons[i].width, presetButtons[i].height;
        case CustomAt(i) => width, height := customButtons[i].width, customButtons[i].height;
      }
      settings.captureWidth := width;
      settings.captureHeight := height;
    }

    /** `OnStayOnTopChanged`. */
    method OnStayOnTopChanged(checked: bool)
      requires Valid()
      modifies settings`stayOnTop, this`topMost
      ensures Valid() && settings.stayOnTop == checked && topMost == checked
    {
      settings.stayOnTop := checked;
      topMost := checked;
    }

    /** `OnChangeFolderClick`: a confirmed folder becomes the output folder
        and the label shows it shortened. */
    method OnChangeFolderClick(chosen: Option<string>)
      requires Valid()
      modifies settings`outputFolder, this`outputLabelText
      ensures Valid()
      ensures chosen.Some? ==>
                && settings.outputFolder == chosen.value
                && outputLabelText == "Output: " + TruncatePath(chosen.value, OutputPathLength)
      ensures chosen.None? ==>
                && settings.outputFolder == old(settings.outputFolder)
                && outputLabelText == old(outputLabelText)
    {
      if chosen.Some? {
        settings.outputFolder := chosen.value;
        outputLabelText := "Output: " + TruncatePath(settings.outputFolder, OutputPathLength);
      }
    }

    /** `OnChangeHotkeyClick`: after OK the form's key and modifiers replace
        the current ones. The hotkey label is not refreshed. */
    method OnChangeHotkeyClick(form: SettingsDialog.SettingsForm)
      requires Valid() && form.settings != settings
      modifies settings`hotkeyKey, settings`hotkeyModifiers
      ensures Valid() && hotkeyLabelText == old(hotkeyLabelText)
      ensures form.dialogResult == OK ==>
                && settings.hotkeyKey == form.settings.hotkeyKey
                && settings.hotkeyModifiers == form.settings.hotkeyModifiers
      ensures form.dialogResult != OK ==>
                && settings.hotkeyKey == old(settings.hotkeyKey)
                && settings.hotkeyModifiers == old(settings.hotkeyModifiers)
    {
      if form.dialogResult == OK {
        settings.hotkeyKey := form.settings.hotkeyKey;
        settings.hotkeyModifiers := form.settings.hotkeyModifiers;
      }
    }

    /** `SaveWindowState`: only a normal (neither minimised nor maximised)
        window records its size and position. */
    method SaveWindowState(state: FormWindowState, width: int, height: int, x: int, y: int)
      requires Valid()
      modifies settings`windowWidth, settings`windowHeight, settings`windowX, settings`windowY
      ensures Valid()
      ensures state == Normal ==>
                && settings.windowWidth == width && settings.windowHeight == height
                && settings.windowX == x && settings.windowY == y
      ensures state != Normal ==> unchanged(settings)
    {
      if state == Normal {
        settings.windowWidth := width;
        settings.windowHeight := height;
        settings.windowX := x;
        settings.windowY := y;
      }
    }
  }
}
