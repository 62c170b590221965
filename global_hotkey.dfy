/** The system-wide hotkey: WinForms modifier flags become the `fsModifiers`
    mask of Win32 `RegisterHotKey`, and disposing unregisters exactly once.
    The operating system's side is ghost state. */
module Hotkey {
  import opened Forms
  import SettingsDialog

  /** The `fsModifiers` bits of `RegisterHotKey`. */
  const ModAlt: bv32 := 0x0001
  const ModControl: bv32 := 0x0002
  const ModShift: bv32 := 0x0004
  const ModWin: bv32 := 0x0008

  /** Builds the Win32 mask one flag at a time. The Win bit tests the
      left-Windows key code `0x5B` against the modifiers, as the source does. */
  method ModifierMask(modifiers: KeyCode) returns (mod: bv32)
    ensures Has(mod, ModControl) <==> Has(modifiers, Control)
    ensures Has(mod, ModAlt) <==> Has(modifiers, Alt)
    ensures Has(mod, ModShift) <==> Has(modifiers, Shift)
    ensures Has(mod, ModWin) <==> Has(modifiers, LWin)
    ensures mod & !(ModAlt | ModControl | ModShift | ModWin) == 0 && mod < 16
  {
    mod := 0;
    if Has(modifiers, Control) { mod := mod | ModControl; }
    if Has(modifiers, Alt) { mod := mod | ModAlt; }
    if Has(modifiers, Shift) { mod := mod | ModShift; }
    if Has(modifiers, LWin) { mod := mod | ModWin; }
  }

  /** No modifier set chosen in the settings dialog carries a bit of the
      left-Windows key code, so the Win bit is never requested for them. */
  lemma NoWinBitFromSettings(text: string)
    ensures !Has(SettingsDialog.GetModifierKeys(text), LWin)
  {
  }

  class GlobalHotkey {
    /** What was registered with the operating system. */
    ghost const registeredMask: bv32
    ghost const registeredKey: KeyCode
    /** Whether the registration is still in force, and how often the
        unregister and window-dispose effects have happened. */
    ghost var registered: bool
    ghost var unregisterCalls: nat
    ghost var windowDisposals: nat
    var disposed: bool

    ghost predicate Valid()
      reads this
    {
      && registered == !disposed
      && unregisterCalls == (if disposed then 1 else 0)
      && windowDisposals == unregisterCalls
    }

    constructor Registered(mask: bv32, key: KeyCode)
      ensures Valid() && !disposed && registered
      ensures registeredMask == mask && registeredKey == key
      ensures unregisterCalls == 0 && windowDisposals == 0
    {
      registeredMask := mask;
      registeredKey := key;
      registered := true;
      unregisterCalls := 0;
      windowDisposals := 0;
      disposed := false;
    }

    /** `Dispose`: the first call unregisters and disposes the hidden window;
        later calls do nothing. */
    method Dispose()
      requires Valid()
      modifies this
      ensures Valid() && disposed && !registered
      ensures old(disposed) ==> unchanged(this)
      ensures unregisterCalls == old(unregisterCalls) + (if old(disposed) then 0 else 1)
    {
      if !disposed {
        registered := false;
        unregisterCalls := unregisterCalls + 1;
        windowDisposals := windowDisposals + 1;
        disposed := true;
      }
    }
  }

  /** The constructor: translates the modifiers and registers the hotkey;
      when the operating system refuses, no hotkey object results. */
  method Create(modifiers: KeyCode, key: KeyCode, registrationSucceeds: bool)
    returns (r: Option<GlobalHotkey>)
    ensures r.Some? <==> registrationSucceeds
    ensures r.Some? ==> fresh(r.value) && r.value.Valid() && !r.value.disposed
    ensures r.Some? ==> r.value.registeredKey == key && r.value.unregisterCalls == 0
    ensures r.Some? ==> var mask := r.value.registeredMask;
                        && (Has(mask, ModControl) <==> Has(modifiers, Control))
                        && (Has(mask, ModAlt) <==> Has(modifiers, Alt))
                        && (Has(mask, ModShift) <==> Has(modifiers, Shift))
                        && (Has(mask, ModWin) <==> Has(modifiers, LWin))
                        && mask < 16
  {
    var mod := ModifierMask(modifiers);
    if !registrationSucceeds {
      return None;
    }
    var h := new GlobalHotkey.Registered(mod, key);
    return Some(h);
  }

  /** Disposing twice unregisters once. */
  method DisposeTwice(h: GlobalHotkey)
    requires h.Valid() && !h.disposed
    modifies h
    ensures h.Valid() && h.disposed && h.unregisterCalls == 1
  {
    h.Dispose();
    h.Dispose();
  }
}
