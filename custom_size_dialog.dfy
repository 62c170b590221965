/** The "Add Custom Size" dialog: a name box and two numeric boxes bounded to
    100..4000. The OK button carries `DialogResult.OK`, which the form takes
    on before the button's click handler runs; the handler takes the trimmed
    name and the box values unless the name is blank. */
module CustomSizeDialogs {
  import opened Forms
  import opened Strings
  import opened Settings

  const MinimumSize := 100
  const MaximumSize := 4000
  const InitialSize := 1024

  /** What an accepted dialog hands back: a trimmed, non-empty name and a
      width and height within the numeric boxes' bounds. */
  predicate Acceptable(c: CustomSize) {
    && c.name != [] && Trim(c.name) == c.name
    && MinimumSize <= c.width <= MaximumSize
    && MinimumSize <= c.height <= MaximumSize
  }

  /** A `NumericUpDown` keeps its `decimal` value between its minimum and
      maximum; with no decimal places shown it still keeps a typed fraction. */
  function Constrain(v: real): (r: real)
    ensures MinimumSize as real <= r <= MaximumSize as real
    ensures MinimumSize as real <= v <= MaximumSize as real ==> r == v
    ensures v < MinimumSize as real ==> r == MinimumSize as real
    ensures v > MaximumSize as real ==> r == MaximumSize as real
  {
    if v < MinimumSize as real then MinimumSize as real
    else if v > MaximumSize as real then MaximumSize as real
    else v
  }

  /** C#'s `(int)` cast of a `decimal`, which drops the fraction toward zero. */
  function Truncate(v: real): (r: int)
    ensures v >= 0.0 ==> r as real <= v < r as real + 1.0
    ensures v <= 0.0 ==> r as real - 1.0 < v <= r as real
  {
    if v >= 0.0 then v.Floor else -((-v).Floor)
  }

  /** A whole box value is taken as it is. */
  lemma TruncateWhole(n: int)
    ensures Truncate(n as real) == n
  {
  }

  /** A box value within the bounds truncates to a whole number within them,
      since both bounds are whole. */
  lemma TruncateInBounds(v: real)
    requires MinimumSize as real <= v <= MaximumSize as real
    ensures MinimumSize <= Truncate(v) <= MaximumSize
  {
  }

  /** A typed 150.6 stays in the box as it is (shown rounded, as 151), and
      the dialog hands back 150. */
  lemma FractionDropped()
    ensures Constrain(150.6) == 150.6 && Truncate(Constrain(150.6)) == 150
  {
  }

  /** A non-blank name, trimmed, with sizes inside the bounds is acceptable. */
  lemma TrimmedSizeAcceptable(name: string, width: int, height: int)
    requires !IsNullOrWhiteSpace(name)
    requires MinimumSize <= width <= MaximumSize && MinimumSize <= height <= MaximumSize
    ensures Acceptable(CustomSize(width, height, Trim(name)))
  {
    TrimIdempotent(name);
  }

  class CustomSizeDialog {
    var customWidth: int
    var customHeight: int
    var customName: string
    var dialogResult: DialogResult
    /** The contents of the name box and the values of the two numeric boxes. */
    var nameText: string
    var widthValue: real
    var heightValue: real

    ghost predicate Valid()
      reads this
    {
      && MinimumSize as real <= widthValue <= MaximumSize as real
      && MinimumSize as real <= heightValue <= MaximumSize as real
    }

    /** A dialog that reports OK hands back an acceptable size. */
    ghost predicate Consistent()
      reads this
    {
      dialogResult == OK ==> Acceptable(CustomSize(customWidth, customHeight, customName))
    }

    /** The dialog as it opens: empty name, 1024 by 1024 in the boxes, no result. */
    constructor ()
      ensures Valid() && Consistent()
      ensures customName == [] && customWidth == 0 && customHeight == 0
      ensures nameText == [] && widthValue == InitialSize as real && heightValue == InitialSize as real
      ensures dialogResult == NoResult
    {
      customWidth := 0;
      customHeight := 0;
      customName := [];
      dialogResult := NoResult;
      nameText := [];
      widthValue := InitialSize as real;
      heightValue := InitialSize as real;
    }

    /** The user types into the boxes; the numeric boxes constrain what they get. */
    method Edit(name: string, width: real, height: real)
      requires Valid()
      modifies this`nameText, this`widthValue, this`heightValue
      ensures Valid()
      ensures nameText == name && widthValue == Constrain(width) && heightValue == Constrain(height)
    {
      nameText := name;
      widthValue := Constrain(width);
      heightValue := Constrain(height);
    }

    /** `OnOK`, the OK button's click handler: a blank name is refused and
        changes nothing; otherwise the trimmed name and the two box values
        become the result, which is then acceptable. */
    method OnOK()
      requires Valid()
      modifies this`customName, this`customWidth, this`customHeight, this`dialogResult
      ensures Valid()
      ensures IsNullOrWhiteSpace(nameText) ==> unchanged(this)
      ensures !IsNullOrWhiteSpace(nameText) ==>
                && customName == Trim(nameText)
                && customWidth == Truncate(widthValue) && customHeight == Truncate(heightValue)
                && dialogResult == OK && Consistent()
    {
      var text, width, height := nameText, widthValue, heightValue;
      if IsNullOrWhiteSpace(text) {
        return;
      }
      var name := Trim(text);
      TruncateInBounds(width);
      TruncateInBounds(height);
      TrimmedSizeAcceptable(text, Truncate(width), Truncate(height));
      customName, customWidth, customHeight, dialogResult := name, Truncate(width), Truncate(height), OK;
      assert nameText == text && widthValue == width && heightValue == height;
    }

    /** A click on OK: the button's `DialogResult.OK` is copied to the form,
        then `OnOK` runs. A blank name is refused by the handler, yet the
        dialog still closes with OK and the result fields keep their values. */
    method ClickOK()
      requires Valid()
      modifies this`customName, this`customWidth, this`customHeight, this`dialogResult
      ensures Valid() && dialogResult == OK
      ensures IsNullOrWhiteSpace(nameText) ==>
                && customName == old(customName)
                && customWidth == old(customWidth) && customHeight == old(customHeight)
      ensures !IsNullOrWhiteSpace(nameText) ==>
                && customName == Trim(nameText)
                && customWidth == Truncate(widthValue) && customHeight == Truncate(heightValue)
                && Consistent()
    {
      dialogResult := OK;
      OnOK();
    }

    /** A click on OK where a refusal resets the form's result to
        `DialogResult.None`, keeping the dialog open: OK is reported exactly
        when the name is not blank, and then with an acceptable size. */
    method ClickOKCorrected()
      requires Valid()
      modifies this`customName, this`customWidth, this`customHeight, this`dialogResult
      ensures Valid() && Consistent()
      ensures dialogResult == OK <==> !IsNullOrWhiteSpace(nameText)
      ensures IsNullOrWhiteSpace(nameText) ==>
                && customName == old(customName)
                && customWidth == old(customWidth) && customHeight == old(customHeight)
      ensures !IsNullOrWhiteSpace(nameText) ==>
                && customName == Trim(nameText)
                && customWidth == Truncate(widthValue) && customHeight == Truncate(heightValue)
    {
      dialogResult := OK;
      OnOK();
      if IsNullOrWhiteSpace(nameText) {
        dialogResult := NoResult;
      }
    }

    /** A click on Cancel: the button's `DialogResult.Cancel` closes the dialog. */
    method ClickCancel()
      modifies this`dialogResult
      ensures dialogResult == Cancel
    {
      dialogResult := Cancel;
    }
  }

  /** The dialog as written, opened, filled in and confirmed with OK: the
      result is always OK, and a blank name hands back the untouched
      0 by 0 size with an empty name. */
  method ShowAsWritten(name: string, width: real, height: real) returns (result: DialogResult, size: CustomSize)
    ensures result == OK
    ensures IsNullOrWhiteSpace(name) ==> size == CustomSize(0, 0, []) && !Acceptable(size)
    ensures !IsNullOrWhiteSpace(name) ==>
              size == CustomSize(Truncate(Constrain(width)), Truncate(Constrain(height)), Trim(name)) && Acceptable(size)
  {
    var dialog := new CustomSizeDialog();
    dialog.Edit(name, width, height);
    dialog.ClickOK();
    result := dialog.dialogResult;
    size := CustomSize(dialog.customWidth, dialog.customHeight, dialog.customName);
  }

  /** A name of one space is refused by the handler, and the dialog still
      reports OK with a size that is not acceptable. */
  method BlankNameClosesWithOK() returns (result: DialogResult, size: CustomSize)
    ensures result == OK && size == CustomSize(0, 0, []) && !Acceptable(size)
  {
    assert IsNullOrWhiteSpace(" ");
    result, size := ShowAsWritten(" ", InitialSize as real, InitialSize as real);
  }

  /** The dialog with the refusal keeping it open: it reports OK exactly when
      the name is not blank, and then hands back an acceptable size built from
      the trimmed name and the constrained box values. */
  method ShowCorrected(name: string, width: real, height: real) returns (result: DialogResult, size: CustomSize)
    ensures result == OK <==> !IsNullOrWhiteSpace(name)
    ensures result == OK ==>
              size == CustomSize(Truncate(Constrain(width)), Truncate(Constrain(height)), Trim(name)) && Acceptable(size)
  {
    var dialog := new CustomSizeDialog();
    dialog.Edit(name, width, height);
    dialog.ClickOKCorrected();
    result := dialog.dialogResult;
    size := CustomSize(dialog.customWidth, dialog.customHeight, dialog.customName);
  }
}
