/** The colour field of the editor: a text box holding a `#RRGGBB` string
    next to a colour picker. Typed text is always kept; it becomes the colour
    only when it is a valid hex colour. A colour chosen in the picker is
    written back as upper-case hex.

    The picker's own colour is hue/saturation/brightness in floating point.
    This model keeps, in its place, the three 0-255 channels that colour is
    converted from and to. */
module ColorPickerField {
  import opened Common

  predicate IsHexDigit(c: char) {
    ('0' <= c <= '9') || ('a' <= c <= 'f') || ('A' <= c <= 'F')
  }

  function HexDigitValue(c: char): (v: nat)
    requires IsHexDigit(c)
    ensures v < 16
  {
    if '0' <= c <= '9' then c as int - '0' as int
    else if 'a' <= c <= 'f' then c as int - 'a' as int + 10
    else c as int - 'A' as int + 10
  }

  /** Every character is a hex digit (the `[0-9A-Fa-f]` class, repeated). */
  function AllHexDigits(s: string): (r: bool)
    ensures r <==> forall i :: 0 <= i < |s| ==> IsHexDigit(s[i])
  {
    s == [] || (IsHexDigit(s[0]) && AllHexDigits(s[1..]))
  }

  /** `/^#[0-9A-Fa-f]{6}$/.test(s)`. */
  function IsHexColor(s: string): (r: bool)
    ensures r <==> |s| == 7 && s[0] == '#' && forall i :: 1 <= i < 7 ==> IsHexDigit(s[i])
  {
    |s| == 7 && s[0] == '#' && AllHexDigits(s[1..])
  }

  /** The value of a string of hex digits, most significant first. */
  function HexValue(s: string): nat
    requires AllHexDigits(s)
  {
    if s == [] then 0 else 16 * HexValue(s[..|s| - 1]) + HexDigitValue(s[|s| - 1])
  }

  /** The longest prefix made of hex digits. */
  function HexPrefix(s: string): (r: string)
    ensures |r| <= |s| && r == s[..|r|] && AllHexDigits(r)
    ensures |r| < |s| ==> !IsHexDigit(s[|r|])
  {
    if s != [] && IsHexDigit(s[0]) then [s[0]] + HexPrefix(s[1..]) else []
  }

  /** `parseInt(s, 16)`: leading white space skipped, an optional sign, an
      optional `0x`/`0X`, then as many hex digits as there are; None stands
      for NaN (no digit at all). */
  function ParseInt16(s: string): Option<int> {
    ParseSigned(TrimStart(s))
  }

  /** `parseInt` past the white space: the sign, then the unsigned part. */
  function ParseSigned(t: string): Option<int> {
    if t != [] && t[0] == '-' then
      (match ParseUnsigned(t[1..]) case None => None case Some(v) => Some(0 - v))
    else if t != [] && t[0] == '+' then ParseUnsigned(t[1..])
    else ParseUnsigned(t)
  }

  /** `parseInt` past the sign: an optional `0x`/`0X`, then the digits. */
  function ParseUnsigned(u: string): Option<int> {
    var body := if |u| >= 2 && u[0] == '0' && (u[1] == 'x' || u[1] == 'X') then u[2..] else u;
    var digits := HexPrefix(body);
    if digits == [] then None else Some(HexValue(digits))
  }

  /** `s.slice(start, end)` for 0 <= start <= end: the bounds are clamped to
      the string. */
  function Slice(s: string, start: nat, end: nat): (r: string)
    requires start <= end
    ensures |r| <= end - start
    ensures end <= |s| ==> r == s[start..end]
    ensures start <= |s| <= end ==> r == s[start..]
    ensures |s| <= start ==> r == []
  {
    var a := if start < |s| then start else |s|;
    var b := if end < |s| then end else |s|;
    s[a..b]
  }

  datatype Rgb = Rgb(red: int, green: int, blue: int)

  predicate IsChannel(v: int) { 0 <= v < 256 }

  /** The integer part of `hexToHsb`: the red, green and blue channels read
      from characters 1-2, 3-4 and 5-6; None when one of them is NaN. */
  function Channels(hex: string): (c: Option<Rgb>)
    ensures |hex| <= 5 ==> c == None
  {
    ParseInt16Empty();
    var r, g, b := ParseInt16(Slice(hex, 1, 3)), ParseInt16(Slice(hex, 3, 5)), ParseInt16(Slice(hex, 5, 7));
    if r.Some? && g.Some? && b.Some? then Some(Rgb(r.value, g.value, b.value)) else None
  }

  /** The empty string is NaN. */
  lemma ParseInt16Empty()
    ensures ParseInt16([]) == None
  {
  }

  /** The value of the two hex digits `hi lo`. */
  function PairValue(hi: char, lo: char): (v: nat)
    requires IsHexDigit(hi) && IsHexDigit(lo)
    ensures IsChannel(v)
  {
    16 * HexDigitValue(hi) + HexDigitValue(lo)
  }

  lemma {:induction false} HexPrefixOfDigits(s: string)
    requires AllHexDigits(s)
    ensures HexPrefix(s) == s
  {
    if s != [] {
      HexPrefixOfDigits(s[1..]);
      assert [s[0]] + s[1..] == s;
    }
  }

  lemma HexValueOfPair(s: string)
    requires |s| == 2 && IsHexDigit(s[0]) && IsHexDigit(s[1])
    ensures HexValue(s) == PairValue(s[0], s[1])
  {
    var hi := s[..1];
    assert hi == [s[0]] && hi[..0] == [];
    assert HexValue(hi) == HexDigitValue(s[0]);
    assert s[..|s| - 1] == hi;
  }

  lemma ParseTwoHexDigits(s: string)
    requires |s| == 2 && IsHexDigit(s[0]) && IsHexDigit(s[1])
    ensures ParseInt16(s) == Some(PairValue(s[0], s[1]))
  {
    assert s[0] !in Whitespace;
    assert TrimStart(s) == s;
    HexPrefixOfDigits(s);
    HexValueOfPair(s);
  }

  /** The longest run of hex digits at the start of `d + rest`, when `d` is
      made of digits and `rest` does not start with one, is `d`. */
  lemma {:induction false} HexPrefixOfRun(d: string, rest: string)
    requires AllHexDigits(d) && (rest == [] || !IsHexDigit(rest[0]))
    ensures HexPrefix(d + rest) == d
  {
    if d != [] {
      HexPrefixOfRun(d[1..], rest);
      assert (d + rest)[1..] == d[1..] + rest;
      assert [d[0]] + d[1..] == d;
    }
  }

  /** A string that does not start with white space is parsed as it is. */
  lemma TrimStartKeeps(t: string)
    requires t == [] || t[0] !in Whitespace
    ensures ParseInt16(t) == ParseSigned(t)
  {
    StripLeadingRun([], t, Whitespace);
    assert [] + t == t;
  }

  /** `parseInt` skips the white space in front of the number. */
  lemma ParseInt16SkipsWhitespace(ws: string, t: string)
    requires IsBlank(ws) && (t == [] || t[0] !in Whitespace)
    ensures ParseInt16(ws + t) == ParseSigned(t)
  {
    StripLeadingRun(ws, t, Whitespace);
  }

  /** Without a sign the number is its unsigned part; a `+` in front changes
      nothing; a `-` negates it and leaves NaN as NaN. */
  lemma ParseSignedSign(t: string)
    requires t == [] || (t[0] != '-' && t[0] != '+')
    ensures ParseSigned(t) == ParseUnsigned(t)
    ensures ParseSigned("+" + t) == ParseUnsigned(t)
    ensures ParseSigned("-" + t) == if ParseUnsigned(t).Some? then Some(0 - ParseUnsigned(t).value) else None
  {
    assert ("+" + t)[1..] == t && ("-" + t)[1..] == t;
  }

  /** The digits read past an optional `0x` are the value. */
  lemma ParseUnsignedOfRun(u: string, d: string)
    requires d != []
    requires HexPrefix(if |u| >= 2 && u[0] == '0' && (u[1] == 'x' || u[1] == 'X') then u[2..] else u) == d
    ensures ParseUnsigned(u) == Some(HexValue(d))
  {
  }

  /** With the `0x`/`0X` prefix, the digits are read after it. */
  lemma ParseUnsignedAfterPrefix(u: string)
    requires |u| >= 2 && u[0] == '0' && (u[1] == 'x' || u[1] == 'X')
    ensures ParseUnsigned(u) == if HexPrefix(u[2..]) == [] then None else Some(HexValue(HexPrefix(u[2..])))
  {
  }

  /** After `0x` or `0X`, a run of hex digits reads as its value; whatever
      follows the run is ignored. */
  lemma ParseUnsignedPrefixed(x: char, d: string, rest: string)
    requires x == 'x' || x == 'X'
    requires d != [] && AllHexDigits(d) && (rest == [] || !IsHexDigit(rest[0]))
    ensures ParseUnsigned(['0', x] + (d + rest)) == Some(HexValue(d))
  {
    var u := ['0', x] + (d + rest);
    assert u[0] == '0' && u[1] == x && u[2..] == d + rest;
    HexPrefixOfRun(d, rest);
    ParseUnsignedAfterPrefix(u);
  }

  /** Without the prefix, a run of hex digits reads as its value too, unless
      it is a lone `0` followed by `x`, which is the prefix. */
  lemma ParseUnsignedBare(d: string, rest: string)
    requires d != [] && AllHexDigits(d) && (rest == [] || !IsHexDigit(rest[0]))
    requires |d| > 1 || d[0] != '0' || rest == [] || (rest[0] != 'x' && rest[0] != 'X')
    ensures ParseUnsigned(d + rest) == Some(HexValue(d))
  {
    HexPrefixOfRun(d, rest);
    assert IsHexDigit(d[0]) && (d + rest)[0] == d[0];
    if |d| > 1 {
      assert IsHexDigit(d[1]) && (d + rest)[1] == d[1];
    }
    ParseUnsignedOfRun(d + rest, d);
  }

  /** No hex digit where the number should start, with or without `0x`:
      NaN. */
  lemma ParseUnsignedNoDigits(t: string)
    requires t == [] || !IsHexDigit(t[0])
    ensures ParseUnsigned(t) == None
    ensures ParseUnsigned("0x" + t) == None
    ensures ParseUnsigned("0X" + t) == None
  {
    assert ("0x" + t)[2..] == t;
    assert ("0X" + t)[2..] == t;
  }

  /** Each channel of a valid hex colour is the value of its digit pair, and
      so lies in 0..255. */
  lemma ChannelsOfHexColor(s: string)
    requires IsHexColor(s)
    ensures Channels(s) == Some(Rgb(PairValue(s[1], s[2]), PairValue(s[3], s[4]), PairValue(s[5], s[6])))
  {
    assert Slice(s, 1, 3) == [s[1], s[2]];
    assert Slice(s, 3, 5) == [s[3], s[4]];
    assert Slice(s, 5, 7) == [s[5], s[6]];
    ParseTwoHexDigits(Slice(s, 1, 3));
    ParseTwoHexDigits(Slice(s, 3, 5));
    ParseTwoHexDigits(Slice(s, 5, 7));
  }

  function LowerHexDigit(d: nat): (c: char)
    requires d < 16
    ensures IsHexDigit(c) && HexDigitValue(c) == d && !('A' <= c <= 'F')
  {
    if d < 10 then (d + '0' as int) as char else (d - 10 + 'a' as int) as char
  }

  /** `n.toString(16)`: lower-case hex digits without leading zeros. */
  function ToBase16(n: nat): (r: string)
    ensures 1 <= |r| && AllHexDigits(r) && HexValue(r) == n
    ensures n < 16 <==> |r| == 1
    ensures n < 256 ==> |r| <= 2
    ensures forall i :: 0 <= i < |r| ==> !('A' <= r[i] <= 'F')
  {
    if n < 16 then [LowerHexDigit(n)]
    else
      var r := ToBase16(n / 16) + [LowerHexDigit(n % 16)];
      assert r[..|r| - 1] == ToBase16(n / 16);
      r
  }

  /** `toHex` inside `hsbToHex`: the channel in hex, padded with one '0' when
      it has a single digit. */
  function ToHex(n: nat): (r: string)
    ensures n < 256 ==> |r| == 2 && IsHexDigit(r[0]) && IsHexDigit(r[1]) && PairValue(r[0], r[1]) == n
  {
    var h := ToBase16(n);
    if |h| == 1 then "0" + h else h
  }

  function UpperChar(c: char): (u: char)
    ensures IsHexDigit(c) ==> IsHexDigit(u) && HexDigitValue(u) == HexDigitValue(c)
    ensures !('a' <= u <= 'z')
  {
    if 'a' <= c <= 'z' then (c as int - 32) as char else c
  }

  /** `s.toUpperCase()` for the ASCII text this component produces. */
  function ToUpper(s: string): (r: string)
    ensures |r| == |s| && forall i :: 0 <= i < |s| ==> r[i] == UpperChar(s[i])
  {
    seq(|s|, i requires 0 <= i < |s| => UpperChar(s[i]))
  }

  /** The integer part of `hsbToHex`: `#` and the three channels in hex,
      upper-cased. `HexOfChannelsReadsBack` states what it yields. */
  function HexOfChannels(c: Rgb): (r: string)
    requires IsChannel(c.red) && IsChannel(c.green) && IsChannel(c.blue)
    ensures |r| == 7 && r[0] == '#'
  {
    ToUpper("#" + ToHex(c.red) + ToHex(c.green) + ToHex(c.blue))
  }

  /** For channels in 0..255 the output is a valid hex colour with no
      lower-case letter, whose channels read back as the ones given. */
  lemma HexOfChannelsReadsBack(c: Rgb)
    requires IsChannel(c.red) && IsChannel(c.green) && IsChannel(c.blue)
    ensures var r := HexOfChannels(c);
      && IsHexColor(r)
      && (forall i :: 0 <= i < |r| ==> !('a' <= r[i] <= 'z'))
      && Channels(r) == Some(c)
  {
    var x, y, z := ToHex(c.red), ToHex(c.green), ToHex(c.blue);
    UpperHexColor(x, y, z);
    ChannelsOfHexColor(HexOfChannels(c));
  }

  /** Upper-casing `#` and three digit pairs keeps each pair's value. */
  lemma UpperHexColor(x: string, y: string, z: string)
    requires |x| == 2 && |y| == 2 && |z| == 2
    requires IsHexDigit(x[0]) && IsHexDigit(x[1]) && IsHexDigit(y[0]) && IsHexDigit(y[1])
    requires IsHexDigit(z[0]) && IsHexDigit(z[1])
    ensures var r := ToUpper("#" + x + y + z);
      && IsHexColor(r)
      && PairValue(r[1], r[2]) == PairValue(x[0], x[1])
      && PairValue(r[3], r[4]) == PairValue(y[0], y[1])
      && PairValue(r[5], r[6]) == PairValue(z[0], z[1])
  {
    var s := "#" + x + y + z;
    assert s == ['#', x[0], x[1], y[0], y[1], z[0], z[1]];
  }

  /** A channel triple is determined by the colour it is written as. */
  lemma HexOfChannelsInjective(c: Rgb, d: Rgb)
    requires IsChannel(c.red) && IsChannel(c.green) && IsChannel(c.blue)
    requires IsChannel(d.red) && IsChannel(d.green) && IsChannel(d.blue)
    requires HexOfChannels(c) == HexOfChannels(d)
    ensures c == d
  {
    HexOfChannelsReadsBack(c);
    HexOfChannelsReadsBack(d);
  }

  /** The state of one colour field: the text box, the picker's colour and
      whether the picker's popover is open. */
  datatype FieldState = FieldState(hexInput: string, color: Option<Rgb>, popoverActive: bool)

  /** Whenever the text box holds a valid colour, the picker shows it. */
  predicate Synced(st: FieldState) {
    IsHexColor(st.hexInput) ==> st.color == Channels(st.hexInput)
  }

  /** A state change and the value handed to `onChange`, if any. */
  datatype FieldUpdate = FieldUpdate(state: FieldState, reported: Option<string>)

  /** The first render: the text is the given value and the colour is read
      from it. */
  function InitialField(value: string): (st: FieldState)
    ensures st.hexInput == value && !st.popoverActive
    ensures Synced(st)
  {
    FieldState(value, Channels(value), false)
  }

  /** `handleColorPickerChange`: the picked colour is kept, the text becomes
      its upper-case hex, and that same text is reported. */
  function PickColor(st: FieldState, c: Rgb): (u: FieldUpdate)
    requires IsChannel(c.red) && IsChannel(c.green) && IsChannel(c.blue)
    ensures u.state.color == Some(c) && u.state.popoverActive == st.popoverActive
    ensures u.state.hexInput == HexOfChannels(c)
    ensures u.reported == Some(u.state.hexInput)
  {
    FieldUpdate(FieldState(HexOfChannels(c), Some(c), st.popoverActive), Some(HexOfChannels(c)))
  }

  /** After a pick the text is a valid hex colour that reads back as the
      picked colour, so the field is in sync. */
  lemma PickColorSynced(st: FieldState, c: Rgb)
    requires IsChannel(c.red) && IsChannel(c.green) && IsChannel(c.blue)
    ensures var u := PickColor(st, c);
      IsHexColor(u.state.hexInput) && Channels(u.state.hexInput) == Some(c) && Synced(u.state)
  {
    HexOfChannelsReadsBack(c);
  }

  /** `handleHexInputChange`: the typed text is always kept; the colour is
      taken and the text reported exactly when it is a valid hex colour. */
  function TypeHex(st: FieldState, inputValue: string): (u: FieldUpdate)
    ensures u.state.hexInput == inputValue && u.state.popoverActive == st.popoverActive
    ensures u.reported.Some? <==> IsHexColor(inputValue)
    ensures IsHexColor(inputValue) ==> u.state.color == Channels(inputValue) && u.reported == Some(inputValue)
    ensures !IsHexColor(inputValue) ==> u.state.color == st.color
    ensures Synced(u.state)
  {
    if IsHexColor(inputValue) then FieldUpdate(FieldState(inputValue, Channels(inputValue), st.popoverActive), Some(inputValue))
    else FieldUpdate(st.(hexInput := inputValue), None)
  }

  /** `togglePopover`: only the popover flag changes. */
  function FlipPopover(st: FieldState): (r: FieldState)
    ensures r.popoverActive == !st.popoverActive
    ensures r.hexInput == st.hexInput && r.color == st.color
    ensures Synced(r) <==> Synced(st)
  {
    st.(popoverActive := !st.popoverActive)
  }

  /** A value picked and then typed back in leaves the field as it was
      after the pick, and reports the same text again. */
  lemma TypingPickedHexKeepsColor(st: FieldState, c: Rgb)
    requires IsChannel(c.red) && IsChannel(c.green) && IsChannel(c.blue)
    ensures var picked := PickColor(st, c);
      TypeHex(picked.state, picked.state.hexInput) == picked
  {
    HexOfChannelsReadsBack(c);
  }

  /** Reported values as `onChange` receives them, oldest first. */
  function Reports(r: Option<string>): seq<string> {
    if r.Some? then [r.value] else []
  }

  /** One colour field, its state updated in place. */
  class ColorPicker {
    var hexInput: string
    var color: Option<Rgb>
    var popoverActive: bool
    /** The values handed to the `onChange` callback, oldest first. */
    var changes: seq<string>

    function State(): FieldState
      reads this
    {
      FieldState(hexInput, color, popoverActive)
    }

    constructor (value: string)
      ensures State() == InitialField(value) && changes == []
    {
      hexInput := value;
      color := Channels(value);
      popoverActive := false;
      changes := [];
    }

    /** The state moves as `PickColor` says. */
    method HandleColorPickerChange(c: Rgb)
      requires IsChannel(c.red) && IsChannel(c.green) && IsChannel(c.blue)
      modifies this
      ensures State() == PickColor(old(State()), c).state
      ensures changes == old(changes) + Reports(PickColor(old(State()), c).reported)
    {
      var u := PickColor(State(), c);
      color := u.state.color;
      hexInput := u.state.hexInput;
      changes := changes + Reports(u.reported);
    }

    /** The state moves as `TypeHex` says. */
    method HandleHexInputChange(inputValue: string)
      modifies this
      ensures State() == TypeHex(old(State()), inputValue).state
      ensures changes == old(changes) + Reports(TypeHex(old(State()), inputValue).reported)
    {
      var u := TypeHex(State(), inputValue);
      hexInput := u.state.hexInput;
      color := u.state.color;
      changes := changes + Reports(u.reported);
    }

    method TogglePopover()
      modifies this
      ensures State() == FlipPopover(old(State()))
      ensures changes == old(changes)
    {
      popoverActive := !popoverActive;
    }
  }
}
