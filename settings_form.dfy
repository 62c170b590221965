/** The settings dialog: the modifier combo box's labels and their `Keys`
    values, the working copy of the settings it edits, and what OK writes. */
module SettingsDialog {
  import opened Forms
  import opened Settings

  /** The items of the modifier combo box, in display order. */
  const ModifierItems: seq<string> := ["Ctrl+Shift", "Ctrl+Alt", "Alt+Shift", "Ctrl", "Alt"]

  /** The five modifier sets the combo box can express, in the same order. */
  const ModifierSets: seq<KeyCode> := [Control | Shift, Control | Alt, Alt | Shift, Control, Alt]

  /** The items of the key combo box, in display order. */
  const KeyItems: seq<string> := ["C", "X", "S", "A", "Q", "Z", "F1", "F2", "F3", "F4"]

  /** The `Keys` value each key item names. */
  const KeyItemValues: seq<KeyCode> := [KeyC, KeyX, KeyS, KeyA, KeyQ, KeyZ, KeyF1, KeyF2, KeyF3, KeyF4]

  /** The combo label for a modifier set: the first of Ctrl+Shift, Ctrl+Alt,
      Alt+Shift, Ctrl, Alt whose flags are all present, Ctrl+Shift otherwise. */
  function GetModifierText(modifiers: KeyCode): (r: string)
    ensures r in ModifierItems
    ensures Has(modifiers, Control) && Has(modifiers, Shift) ==> r == "Ctrl+Shift"
    ensures !Has(modifiers, Control) && !Has(modifiers, Alt) ==> r == "Ctrl+Shift"
    ensures r == "Ctrl+Alt" <==> Has(modifiers, Control) && Has(modifiers, Alt) && !Has(modifiers, Shift)
    ensures r == "Alt+Shift" <==> Has(modifiers, Alt) && Has(modifiers, Shift) && !Has(modifiers, Control)
    ensures r == "Ctrl" <==> Has(modifiers, Control) && !Has(modifiers, Shift) && !Has(modifiers, Alt)
    ensures r == "Alt" <==> Has(modifiers, Alt) && !Has(modifiers, Control) && !Has(modifiers, Shift)
  {
    if Has(modifiers, Control) && Has(modifiers, Shift) then "Ctrl+Shift"
    else if Has(modifiers, Control) && Has(modifiers, Alt) then "Ctrl+Alt"
    else if Has(modifiers, Alt) && Has(modifiers, Shift) then "Alt+Shift"
    else if Has(modifiers, Control) then "Ctrl"
    else if Has(modifiers, Alt) then "Alt"
    else "Ctrl+Shift"
  }

  /** The modifier set for a combo label; anything else means Ctrl+Shift. */
  function GetModifierKeys(modifierText: string): (r: KeyCode)
    ensures r in ModifierSets
    ensures modifierText !in ModifierItems ==> r == Control | Shift
    ensures r & !(Control | Shift | Alt) == 0 && r != 0
  {
    match modifierText
    case "Ctrl+Shift" => Control | Shift
    case "Ctrl+Alt" => Control | Alt
    case "Alt+Shift" => Alt | Shift
    case "Ctrl" => Control
    case "Alt" => Alt
    case _ => Control | Shift
  }

  /** Each label survives the trip to flags and back. */
  lemma ModifierTextRoundTrip(s: string)
    requires s in ModifierItems
    ensures GetModifierText(GetModifierKeys(s)) == s
  {
  }

  /** Each expressible modifier set survives the trip to a label and back. */
  lemma ModifierKeysRoundTrip(m: KeyCode)
    requires m in ModifierSets
    ensures GetModifierKeys(GetModifierText(m)) == m
  {
  }

  /** Going through a label maps every modifier set to an expressible one,
      and doing so twice changes nothing more. */
  lemma ModifierNormalisation(m: KeyCode)
    ensures GetModifierKeys(GetModifierText(m)) in ModifierSets
    ensures var n := GetModifierKeys(GetModifierText(m));
            GetModifierKeys(GetModifierText(n)) == n
  {
    ModifierKeysRoundTrip(GetModifierKeys(GetModifierText(m)));
  }

  /** `Enum.TryParse<Keys>` applied to the key combo's selection, which is one
      of its items or nothing. */
  function ParseKey(selected: Option<string>): (r: Option<KeyCode>)
    requires selected.Some? ==> selected.value in KeyItems
    ensures r.Some? <==> selected.Some?
    ensures r.Some? ==> r.value in KeyItemValues
    ensures selected.Some? ==>
              forall i :: 0 <= i < |KeyItems| && selected.value == KeyItems[i] ==> r == Some(KeyItemValues[i])
  {
    match selected
    case None => None
    case Some(name) =>
      if name == "C" then Some(KeyC)
      else if name == "X" then Some(KeyX)
      else if name == "S" then Some(KeyS)
      else if name == "A" then Some(KeyA)
      else if name == "Q" then Some(KeyQ)
      else if name == "Z" then Some(KeyZ)
      else if name == "F1" then Some(KeyF1)
      else if name == "F2" then Some(KeyF2)
      else if name == "F3" then Some(KeyF3)
      else Some(KeyF4)
  }

  /** The key combo's selection after `SelectedItem = key.ToString()`: the item
      naming `key`, or nothing when no item does. */
  function KeySelectionFor(key: KeyCode): (r: Option<string>)
    ensures r.Some? <==> key in KeyItemValues
    ensures r.Some? ==> r.value in KeyItems && ParseKey(r) == Some(key)
  {
    if key == KeyC then Some("C")
    else if key == KeyX then Some("X")
    else if key == KeyS then Some("S")
    else if key == KeyA then Some("A")
    else if key == KeyQ then Some("Q")
    else if key == KeyZ then Some("Z")
    else if key == KeyF1 then Some("F1")
    else if key == KeyF2 then Some("F2")
    else if key == KeyF3 then Some("F3")
    else if key == KeyF4 then Some("F4")
    else None
  }

  /** Parsing a key item and selecting the parsed key selects that item again. */
  lemma KeyItemRoundTrip(name: string)
    requires name in KeyItems
    ensures ParseKey(Some(name)).Some? && KeySelectionFor(ParseKey(Some(name)).value) == Some(name)
  {
  }

  class SettingsForm {
    /** The form's own copy of the settings; the caller's object is never written. */
    const settings: AppSettings
    /** The modifier and key combos' selected items and the folder text box. */
    var modifierSelection: Option<string>
    var keySelection: Option<string>
    var outputFolderText: string
    var dialogResult: DialogResult

    ghost predicate Valid()
      reads this
    {
      && (modifierSelection.Some? ==> modifierSelection.value in ModifierItems)
      && (keySelection.Some? ==> keySelection.value in KeyItems)
    }

    /** Copies the defined fields into a fresh settings object (the others keep
        their defaults) and loads the hotkey and folder into the controls. */
    constructor (current: AppSettings)
      ensures Valid() && fresh(settings)
      ensures settings.hotkeyKey == current.hotkeyKey
      ensures settings.hotkeyModifiers == current.hotkeyModifiers
      ensures settings.captureWidth == current.captureWidth
      ensures settings.captureHeight == current.captureHeight
      ensures settings.outputFolder == current.outputFolder
      ensures settings.customSizes == [] && !settings.stayOnTop
      ensures settings.windowWidth == 600 && settings.windowHeight == 400
      ensures settings.windowX == -1 && settings.windowY == -1
      ensures modifierSelection == Some(GetModifierText(current.hotkeyModifiers))
      ensures keySelection == KeySelectionFor(current.hotkeyKey)
      ensures outputFolderText == current.outputFolder
      ensures dialogResult == NoResult
    {
      var copy := new AppSettings(current.outputFolder);
      copy.hotkeyKey := current.hotkeyKey;
      copy.hotkeyModifiers := current.hotkeyModifiers;
      copy.captureWidth := current.captureWidth;
      copy.captureHeight := current.captureHeight;
      copy.outputFolder := current.outputFolder;
      settings := copy;
      modifierSelection := Some(GetModifierText(current.hotkeyModifiers));
      keySelection := KeySelectionFor(current.hotkeyKey);
      outputFolderText := current.outputFolder;
      dialogResult := NoResult;
    }

    /** The user picks an item (or clears the selection) in the drop-down lists. */
    method Select(modifiers: Option<string>, key: Option<string>)
      requires modifiers.Some? ==> modifiers.value in ModifierItems
      requires key.Some? ==> key.value in KeyItems
      modifies this`modifierSelection, this`keySelection
      ensures Valid() && modifierSelection == modifiers && keySelection == key
    {
      modifierSelection := modifiers;
      keySelection := key;
    }

    /** `OnBrowseFolder`: a confirmed folder choice replaces the text box. */
    method OnBrowseFolder(chosen: Option<string>)
      modifies this`outputFolderText
      ensures outputFolderText == if chosen.Some? then chosen.value else old(outputFolderText)
    {
      if chosen.Some? {
        outputFolderText := chosen.value;
      }
    }

    /** `OnOK`: writes the modifiers, the key when the selection parses, and
        the folder into the copy; the form's result becomes OK unless the
        folder is missing and cannot be created. */
    method OnOK(folderExists: bool, folderCreated: bool)
      requires Valid()
      modifies settings, this`dialogResult
      ensures Valid()
      ensures settings.hotkeyModifiers == GetModifierKeys(modifierSelection.GetOr("Ctrl+Shift"))
      ensures settings.hotkeyKey == (match ParseKey(keySelection)
                                     case Some(k) => k
                                     case None => old(settings.hotkeyKey))
      ensures settings.outputFolder == outputFolderText
      ensures settings.captureWidth == old(settings.captureWidth)
      ensures settings.captureHeight == old(settings.captureHeight)
      ensures settings.customSizes == old(settings.customSizes)
      ensures settings.stayOnTop == old(settings.stayOnTop)
      ensures settings.windowWidth == old(settings.windowWidth)
      ensures settings.windowHeight == old(settings.windowHeight)
      ensures settings.windowX == old(settings.windowX) && settings.windowY == old(settings.windowY)
      ensures dialogResult == if folderExists || folderCreated then OK else old(dialogResult)
    {
      settings.hotkeyModifiers := GetModifierKeys(modifierSelection.GetOr("Ctrl+Shift"));
      var key := ParseKey(keySelection);
      if key.Some? {
        settings.hotkeyKey := key.value;
      }
      settings.outputFolder := outputFolderText;
      if !folderExists {
        if !folderCreated {
          return;
        }
      }
      dialogResult := OK;
    }

    /** A click on OK: the button's `DialogResult.OK` is copied to the form,
        then `OnOK` runs. A folder that is missing and cannot be created is
        reported by the handler, yet the form still closes with OK. */
    method ClickOK(folderExists: bool, folderCreated: bool)
      requires Valid()
      modifies settings, this`dialogResult
      ensures Valid() && dialogResult == OK
      ensures settings.hotkeyModifiers == GetModifierKeys(modifierSelection.GetOr("Ctrl+Shift"))
      ensures settings.hotkeyKey == (match ParseKey(keySelection)
                                     case Some(k) => k
                                     case None => old(settings.hotkeyKey))
      ensures settings.outputFolder == outputFolderText
      ensures settings.captureWidth == old(settings.captureWidth)
      ensures settings.captureHeight == old(settings.captureHeight)
      ensures settings.customSizes == old(settings.customSizes)
      ensures settings.stayOnTop == old(settings.stayOnTop)
      ensures settings.windowWidth == old(settings.windowWidth)
      ensures settings.windowHeight == old(settings.windowHeight)
      ensures settings.windowX == old(settings.windowX) && settings.windowY == old(settings.windowY)
    {
      dialogResult := OK;
      OnOK(folderExists, folderCreated);
    }

    /** A click on OK where the folder failure resets the form's result to
        `DialogResult.None`, keeping the form open: OK is reported exactly
        when the folder exists or could be created. */
    method ClickOKCorrected(folderExists: bool, folderCreated: bool)
      requires Valid()
      modifies settings, this`dialogResult
      ensures Valid()
      ensures dialogResult == OK <==> folderExists || folderCreated
      ensures settings.hotkeyModifiers == GetModifierKeys(modifierSelection.GetOr("Ctrl+Shift"))
      ensures settings.hotkeyKey == (match ParseKey(keySelection)
                                     case Some(k) => k
                                     case None => old(settings.hotkeyKey))
      ensures settings.outputFolder == outputFolderText
      ensures settings.captureWidth == old(settings.captureWidth)
      ensures settings.captureHeight == old(settings.captureHeight)
      ensures settings.customSizes == old(settings.customSizes)
      ensures settings.stayOnTop == old(settings.stayOnTop)
      ensures settings.windowWidth == old(settings.windowWidth)
      ensures settings.windowHeight == old(settings.windowHeight)
      ensures settings.windowX == old(settings.windowX) && settings.windowY == old(settings.windowY)
    {
      dialogResult := OK;
      OnOK(folderExists, folderCreated);
      if !folderExists && !folderCreated {
        dialogResult := NoResult;
      }
    }

    /** A click on Cancel: the button's `DialogResult.Cancel` closes the form. */
    method ClickCancel()
      modifies this`dialogResult
      ensures dialogResult == Cancel
    {
      dialogResult := Cancel;
    }
  }

  /** The form as written, opened on `current` and confirmed with OK unchanged:
      it reports OK whatever the folder, with the normalised modifiers. */
  method ShowAsWritten(current: AppSettings, folderExists: bool, folderCreated: bool)
    returns (result: DialogResult, modifiers: KeyCode)
    ensures result == OK
    ensures modifiers == GetModifierKeys(GetModifierText(current.hotkeyModifiers))
  {
    var form := new SettingsForm(current);
    form.ClickOK(folderExists, folderCreated);
    result := form.dialogResult;
    modifiers := form.settings.hotkeyModifiers;
  }

  /** A folder that neither exists nor can be created still closes the form
      with OK. */
  method InvalidFolderClosesWithOK(current: AppSettings) returns (result: DialogResult)
    ensures result == OK
  {
    var modifiers;
    result, modifiers := ShowAsWritten(current, false, false);
  }

  /** The form with the folder failure keeping it open: it reports OK exactly
      when the folder exists or could be created. */
  method ShowCorrected(current: AppSettings, folderExists: bool, folderCreated: bool)
    returns (result: DialogResult, modifiers: KeyCode)
    ensures result == OK <==> folderExists || folderCreated
    ensures modifiers == GetModifierKeys(GetModifierText(current.hotkeyModifiers))
  {
    var form := new SettingsForm(current);
    form.ClickOKCorrected(folderExists, folderCreated);
    result := form.dialogResult;
    modifiers := form.settings.hotkeyModifiers;
  }
}
