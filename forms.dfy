/** The small part of the WinForms surface the application relies on:
    `System.Windows.Forms.Keys` values, dialog results and window states. */
module Forms {

  /** `Keys` is an `int`-backed flags enum; bit operations need a bit-vector. */
  type KeyCode = bv32

  const Shift: KeyCode := 0x10000
  const Control: KeyCode := 0x20000
  const Alt: KeyCode := 0x40000
  /** The virtual-key code of the left Windows key (a key, not a modifier flag). */
  const LWin: KeyCode := 0x5B

  const KeyA: KeyCode := 0x41
  const KeyC: KeyCode := 0x43
  const KeyQ: KeyCode := 0x51
  const KeyS: KeyCode := 0x53
  const KeyX: KeyCode := 0x58
  const KeyZ: KeyCode := 0x5A
  const KeyF1: KeyCode := 0x70
  const KeyF2: KeyCode := 0x71
  const KeyF3: KeyCode := 0x72
  const KeyF4: KeyCode := 0x73

  /** `(value & flag) != 0`, the test the source writes for every flag. */
  predicate Has(value: KeyCode, flag: KeyCode) {
    value & flag != 0
  }

  datatype Option<T> = None | Some(value: T) {
    function GetOr(default: T): T {
      match this
      case Some(v) => v
      case None => default
    }
  }

  /** `DialogResult` of a form; `NoResult` is WinForms' `DialogResult.None`. */
  datatype DialogResult = NoResult | OK | Cancel | Yes | No

  datatype FormWindowState = Normal | Minimized | Maximized
}
