/**
 * The colour picker (components/color-picker.tsx): the hex-colour check,
 * the normalisation of a picked colour, and the popover's state machine
 * (the parent's value, the working colour, the text in the hex input and
 * whether the popover is open).
 */
module ColorPicker {
  import opened Types

  predicate IsHexDigit(c: char)
  {
    ('0' <= c <= '9') || ('a' <= c <= 'f') || ('A' <= c <= 'F')
  }

  predicate AllHex(s: string)
  {
    forall i :: 0 <= i < |s| ==> IsHexDigit(s[i])
  }

  /** `s` is exactly `n` back-to-back groups `[0-9A-F]{3}`, case-insensitively. */
  predicate Groups(s: string, n: nat)
  {
    if n == 0 then s == []
    else |s| >= 3 && IsHexDigit(s[0]) && IsHexDigit(s[1]) && IsHexDigit(s[2]) && Groups(s[3..], n - 1)
  }

  /** `/^#([0-9A-F]{3}){1,2}$/i`: a hash, then one or two groups of three hex digits. */
  predicate IsValidHexColor(color: string)
    ensures IsValidHexColor(color) ==> |color| > 0 && color[0] == '#' && (|color| == 4 || |color| == 7)
  {
    |color| > 0 && color[0] == '#' &&
    (GroupsShape(color[1..], 1); GroupsShape(color[1..], 2);
     Groups(color[1..], 1) || Groups(color[1..], 2))
  }

  /** `replace(/[^0-9A-F]/gi, '')`: the hex digits of `s`, in order. */
  function HexOnly(s: string): (r: string)
    ensures AllHex(r) && |r| <= |s|
    ensures forall c :: c in r ==> c in s
    ensures AllHex(s) ==> r == s
  {
    if s == [] then []
    else (if IsHexDigit(s[0]) then [s[0]] else []) + HexOnly(s[1..])
  }

  /** `#${color.replace(/[^0-9A-F]/gi, '').slice(0, 6)}`. */
  function Normalize(color: string): (r: string)
    ensures |r| > 0 && r[0] == '#' && AllHex(r[1..])
    ensures |r| == 1 + (if |HexOnly(color)| < 6 then |HexOnly(color)| else 6)
    ensures r[1..] == HexOnly(color)[..|r| - 1]
  {
    var digits := HexOnly(color);
    "#" + (if |digits| < 6 then digits else digits[..6])
  }

  /** `handleColorSelect`: a colour that starts with `#` is kept verbatim, anything else is normalised. */
  function Selected(color: string): (r: string)
    ensures |color| > 0 && color[0] == '#' ==> r == color
    ensures (|color| == 0 || color[0] != '#') ==> r == Normalize(color)
  {
    if |color| > 0 && color[0] == '#' then color else Normalize(color)
  }

  /** The message under the hex input: shown for non-empty text that fails the check. */
  predicate ShowsError(inputValue: string)
  {
    !IsValidHexColor(inputValue) && inputValue != ""
  }

  /** The working colour and the hex text agree unless the text fails the check. */
  predicate Coherent(internalColor: string, inputValue: string)
  {
    inputValue == internalColor || !IsValidHexColor(inputValue)
  }

  /** The sixteen swatches (`PREDEFINED_COLORS`), by value. */
  const Swatches: seq<string> := [
    "#ef4444", "#f97316", "#f59e0b", "#eab308", "#84cc16", "#22c55e", "#10b981", "#14b8a6",
    "#06b6d4", "#3b82f6", "#6366f1", "#8b5cf6", "#a855f7", "#d946ef", "#ec4899", "#f43f5e"]

  // ---------------------------------------------------------------- lemmas

  lemma {:induction false} GroupsShape(s: string, n: nat)
    ensures Groups(s, n) <==> |s| == 3 * n && AllHex(s)
  {
    if n > 0 && |s| >= 3 {
      GroupsShape(s[3..], n - 1);
      if |s| == 3 * n && AllHex(s) {
        assert AllHex(s[3..]);
      }
      if Groups(s, n) {
        forall i | 0 <= i < |s| ensures IsHexDigit(s[i]) {
          if i >= 3 { assert s[i] == s[3..][i - 3]; }
        }
      }
    }
  }

  /** The check accepts exactly a hash followed by three or six hex digits, in either case. */
  lemma HexColorShape(color: string)
    ensures IsValidHexColor(color) <==>
      |color| > 0 && color[0] == '#' && (|color| == 4 || |color| == 7) && AllHex(color[1..])
  {
    if |color| > 0 {
      GroupsShape(color[1..], 1);
      GroupsShape(color[1..], 2);
    }
  }

  /** Examples at the edges of the pattern: case-insensitive, no 4- or 5-digit forms, hash required. */
  lemma HexColorExamples()
    ensures IsValidHexColor("#fff") && IsValidHexColor("#3B82F6")
    ensures !IsValidHexColor("#ffff") && !IsValidHexColor("#fffff")
    ensures !IsValidHexColor("3b82f6") && !IsValidHexColor("#") && !IsValidHexColor("")
    ensures !IsValidHexColor("#ggg")
  {
    HexColorShape("#ffff");
    HexColorShape("#fffff");
    HexColorShape("#");
    assert !IsHexDigit('g');
  }

  /** A normalised colour passes the check exactly when three, or six or more, hex digits survive. */
  lemma NormalizeValid(color: string)
    ensures IsValidHexColor(Normalize(color)) <==> |HexOnly(color)| == 3 || |HexOnly(color)| >= 6
  {
    HexColorShape(Normalize(color));
  }

  /** The filter keeps one character exactly when it is a hex digit. */
  lemma HexOnlyChar(c: char)
    ensures HexOnly([c]) == if IsHexDigit(c) then [c] else []
  {
    assert [c][1..] == [];
  }

  /** The filter works character by character: it distributes over concatenation. */
  lemma {:induction false} HexOnlyAppend(a: string, b: string)
    ensures HexOnly(a + b) == HexOnly(a) + HexOnly(b)
  {
    if a == [] {
      assert a + b == b;
    } else {
      assert (a + b)[0] == a[0] && (a + b)[1..] == a[1..] + b;
      HexOnlyAppend(a[1..], b);
    }
  }

  /** Selecting a normalised colour keeps it verbatim. */
  lemma SelectKeepsNormalized(color: string)
    ensures Selected(Normalize(color)) == Normalize(color)
  {
  }

  /** Normalising a normalised colour changes nothing. */
  lemma NormalizeIdempotent(color: string)
    ensures Normalize(Normalize(color)) == Normalize(color)
  {
    var n := Normalize(color);
    var d := n[1..];
    assert n == "#" + d;
    HexOnlyAppend("#", d);
    HexOnlyChar('#');
    assert HexOnly(n) == d;
    assert |d| <= 6;
    if |d| == 6 {
      assert d[..6] == d;
    }
  }

  /** Every swatch passes the check and is selected verbatim. */
  lemma SwatchesValid(i: nat)
    requires i < |Swatches|
    ensures IsValidHexColor(Swatches[i])
    ensures Selected(Swatches[i]) == Swatches[i]
  {
    var c := Swatches[i];
    assert |c| == 7 && c[0] == '#';
    assert AllHex(c[1..]);
    HexColorShape(c);
  }

  /** With no error shown and some text in the input, Apply uses exactly that text. */
  lemma CoherentNoError(internalColor: string, inputValue: string)
    requires Coherent(internalColor, inputValue) && !ShowsError(inputValue) && inputValue != ""
    ensures internalColor == inputValue
    ensures IsValidHexColor(internalColor)
  {
  }

  /** The popover's state; `value` is the parent's colour, passed in as a prop. */
  class Picker {
    var value: string
    var internalColor: string
    var inputValue: string
    var isOpen: bool

    ghost predicate Valid()
      reads this
    {
      Coherent(internalColor, inputValue)
    }

    constructor(initial: string)
      ensures Valid() && !isOpen
      ensures value == initial && internalColor == initial && inputValue == initial
    {
      value := initial;
      internalColor := initial;
      inputValue := initial;
      isOpen := false;
    }

    /** The trigger button's `onClick`, and the popover's `onOpenChange`. */
    method SetOpen(open: bool)
      requires Valid()
      modifies this
      ensures Valid() && isOpen == open
      ensures value == old(value) && internalColor == old(internalColor) && inputValue == old(inputValue)
    {
      isOpen := open;
    }

    /**
     * A new `value` prop from the parent. The effect on `[value]` runs only
     * when the prop differs from the previous one; it then resets the working
     * colour and the text.
     */
    method SyncValue(v: string)
      requires Valid()
      modifies this
      ensures Valid() && isOpen == old(isOpen) && value == v
      ensures v != old(value) ==> internalColor == v && inputValue == v
      ensures v == old(value) ==> internalColor == old(internalColor) && inputValue == old(inputValue)
    {
      if v != value {
        value := v;
        internalColor := v;
        inputValue := v;
      }
    }

    /** `handleColorSelect`, from a swatch or the native colour input. */
    method SelectColor(color: string)
      requires Valid()
      modifies this
      ensures Valid() && isOpen == old(isOpen) && value == old(value)
      ensures internalColor == Selected(color) && inputValue == Selected(color)
    {
      var c := Selected(color);
      internalColor := c;
      inputValue := c;
    }

    /** `handleInputChange`: the text always follows, the working colour only when the text passes. */
    method InputChange(text: string)
      requires Valid()
      modifies this
      ensures Valid() && isOpen == old(isOpen) && value == old(value)
      ensures inputValue == text
      ensures internalColor == (if IsValidHexColor(text) then text else old(internalColor))
    {
      inputValue := text;
      if IsValidHexColor(text) {
        internalColor := text;
      }
    }

    /** `handleApply`: report the working colour when it differs from the parent's, then close. */
    method Apply() returns (emitted: Option<string>)
      requires Valid()
      modifies this
      ensures Valid() && !isOpen
      ensures value == old(value) && internalColor == old(internalColor) && inputValue == old(inputValue)
      ensures emitted == (if internalColor != value then Some(internalColor) else None)
    {
      if internalColor != value {
        emitted := Some(internalColor);
      } else {
        emitted := None;
      }
      isOpen := false;
    }

    /** The Apply button, disabled while the working colour fails the check. */
    method ClickApply() returns (emitted: Option<string>)
      requires Valid()
      modifies this
      ensures Valid() && value == old(value)
      ensures emitted.Some? ==> IsValidHexColor(emitted.value) && emitted.value != old(value)
      ensures !IsValidHexColor(old(internalColor)) ==>
        emitted.None? && isOpen == old(isOpen) && internalColor == old(internalColor)
        && inputValue == old(inputValue)
      ensures IsValidHexColor(old(internalColor)) ==>
        !isOpen && internalColor == old(internalColor) && inputValue == old(inputValue)
        && emitted == (if old(internalColor) != old(value) then Some(old(internalColor)) else None)
    {
      if IsValidHexColor(internalColor) {
        emitted := Apply();
      } else {
        emitted := None;
      }
    }

    /** The Cancel button: restore the parent's colour and close. */
    method Cancel()
      requires Valid()
      modifies this
      ensures Valid() && !isOpen && value == old(value)
      ensures internalColor == value && inputValue == value
    {
      internalColor := value;
      inputValue := value;
      isOpen := false;
    }

    /** `handleKeyDown`: Enter applies a valid working colour, Escape cancels, other keys do nothing. */
    method KeyDown(key: string) returns (emitted: Option<string>)
      requires Valid()
      modifies this
      ensures Valid() && value == old(value)
      ensures emitted.Some? ==> IsValidHexColor(emitted.value) && emitted.value != old(value)
      ensures key == "Enter" && IsValidHexColor(old(internalColor)) ==>
        !isOpen && internalColor == old(internalColor) && inputValue == old(inputValue)
        && emitted == (if old(internalColor) != old(value) then Some(old(internalColor)) else None)
      ensures key == "Enter" && !IsValidHexColor(old(internalColor)) ==>
        emitted.None? && isOpen == old(isOpen) && internalColor == old(internalColor)
        && inputValue == old(inputValue)
      ensures key == "Escape" ==> emitted.None? && !isOpen && internalColor == value && inputValue == value
      ensures key != "Enter" && key != "Escape" ==>
        emitted.None? && isOpen == old(isOpen) && internalColor == old(internalColor)
        && inputValue == old(inputValue)
    {
      if key == "Enter" && IsValidHexColor(internalColor) {
        emitted := Apply();
      } else if key == "Escape" {
        Cancel();
        emitted := None;
      } else {
        emitted := None;
      }
    }
  }
}
