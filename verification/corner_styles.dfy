/**
 `WindowCornerStyle` and the `cornerStyle` preference. The style is a
 closed table: each case has a raw `Int`, a display name, an optional
 detail label, a corner radius and an enabled flag. The preference stores
 only the raw value; reading it maps any unknown raw value to `toolbar`.
 */
module CornerStyles {
  /** Swift's `Optional`: `Nil` is `nil`, `Some` wraps a value. */
  datatype Optional<+T> = Nil | Some(value: T) {

    /** Swift's `??`: the wrapped value, or `default` when there is none. */
    function Coalesce(default: T): (r: T)
      ensures Some? ==> r == value
      ensures Nil? ==> r == default
    {
      match this
      case Some(v) => v
      case Nil => default
    }
  }

  /**
   The five styles, by raw value -1 to 3. `Square` is the source's `none`
   case, named after its display name "Square Corners" so that it does not
   read as a missing value.
   */
  datatype WindowCornerStyle = Off | Square | Titlebar | CompactToolbar | Toolbar

  /** `allCases`, in declaration order. */
  const AllCases: seq<WindowCornerStyle> := [Off, Square, Titlebar, CompactToolbar, Toolbar]

  /** `rawValue`: -1 for `off`, then 0 to 3 in declaration order. */
  function RawValue(s: WindowCornerStyle): (v: int)
    ensures -1 <= v <= 3
    ensures v < 0 <==> s == Off
  {
    match s
    case Off => -1
    case Square => 0
    case Titlebar => 1
    case CompactToolbar => 2
    case Toolbar => 3
  }

  /** The failable `init?(rawValue:)`. */
  function FromRaw(raw: int): (r: Optional<WindowCornerStyle>)
    ensures r.Some? <==> -1 <= raw <= 3
    ensures r.Some? ==> RawValue(r.value) == raw
  {
    if raw == -1 then Some(Off)
    else if raw == 0 then Some(Square)
    else if raw == 1 then Some(Titlebar)
    else if raw == 2 then Some(CompactToolbar)
    else if raw == 3 then Some(Toolbar)
    else Nil
  }

  /** `allCases` lists every style once, in raw-value order -1, 0, 1, 2, 3. */
  lemma AllCasesInRawOrder()
    ensures |AllCases| == 5
    ensures forall i :: 0 <= i < |AllCases| ==> RawValue(AllCases[i]) == i - 1
    ensures forall s :: s in AllCases
  {
    forall s ensures s in AllCases {
      assert AllCases[RawValue(s) + 1] == s;
    }
  }

  /** Distinct styles have distinct raw values. */
  lemma RawValueInjective(s: WindowCornerStyle, t: WindowCornerStyle)
    ensures RawValue(s) == RawValue(t) <==> s == t
  {
  }

  /** `WindowCornerStyle(rawValue: s.rawValue) == s`. */
  lemma RawRoundTrip(s: WindowCornerStyle)
    ensures FromRaw(RawValue(s)) == Some(s)
  {
  }

  /** `displayName`: the style's menu label, never empty. */
  function DisplayName(s: WindowCornerStyle): (name: string)
    ensures |name| > 0
  {
    match s
    case Off => "Disable Tekitou"
    case Square => "Square Corners"
    case Titlebar => "Titlebar"
    case CompactToolbar => "Compact Toolbar"
    case Toolbar => "Toolbar"
  }

  /** The corner radius in points, as a whole number. */
  function RadiusPoints(s: WindowCornerStyle): nat {
    match s
    case Off => 0
    case Square => 0
    case Titlebar => 16
    case CompactToolbar => 21
    case Toolbar => 26
  }

  /** `cornerRadius`: off and none draw no corner; the others follow window chrome. */
  function CornerRadius(s: WindowCornerStyle): (r: real)
    ensures r >= 0.0
    ensures r == 0.0 <==> s == Off || s == Square
  {
    RadiusPoints(s) as real
  }

  /** `isEnabled`: every style but `off`, so `none` is enabled with radius 0. */
  function IsEnabled(s: WindowCornerStyle): (b: bool)
    ensures b <==> RawValue(s) >= 0
  {
    s != Off
  }

  lemma SquareIsEnabledWithoutCorners()
    ensures IsEnabled(Square) && CornerRadius(Square) == 0.0
  {
  }

  /** `detail`: the menu's secondary label. */
  function Detail(s: WindowCornerStyle): (d: Optional<string>)
    ensures d.Nil? <==> s == Off
  {
    match s
    case Off => Nil
    case Square => Some("0px")
    case Titlebar => Some("16px")
    case CompactToolbar => Some("21px")
    case Toolbar => Some("26px")
  }

  function DigitChar(d: nat): char
    requires d < 10
  {
    "0123456789"[d]
  }

  /** The decimal numeral of `n`, without leading zeros. */
  function Decimal(n: nat): (s: string)
    ensures |s| >= 1
    ensures forall i :: 0 <= i < |s| ==> '0' <= s[i] <= '9'
    decreases n
  {
    if n < 10 then [DigitChar(n)] else Decimal(n / 10) + [DigitChar(n % 10)]
  }

  /** Every detail label but `off`'s is the radius in decimal followed by "px". */
  lemma DetailIsRadiusInPixels(s: WindowCornerStyle)
    requires s != Off
    ensures Detail(s) == Some(Decimal(RadiusPoints(s)) + "px")
    ensures (RadiusPoints(s) as real) == CornerRadius(s)
  {
    match s
    case Square =>
      assert Decimal(0) == "0";
      assert "0" + "px" == "0px";
    case Titlebar =>
      assert Decimal(1) == "1" && DigitChar(6) == '6';
      assert Decimal(16) == Decimal(16 / 10) + [DigitChar(16 % 10)] == "16";
      assert "16" + "px" == "16px";
    case CompactToolbar =>
      assert Decimal(2) == "2" && DigitChar(1) == '1';
      assert Decimal(21) == Decimal(21 / 10) + [DigitChar(21 % 10)] == "21";
      assert "21" + "px" == "21px";
    case Toolbar =>
      assert Decimal(2) == "2" && DigitChar(6) == '6';
      assert Decimal(26) == Decimal(26 / 10) + [DigitChar(26 % 10)] == "26";
      assert "26" + "px" == "26px";
  }

  /** The menu labels tell the styles apart. */
  lemma DisplayNamesDistinct(s: WindowCornerStyle, t: WindowCornerStyle)
    ensures DisplayName(s) == DisplayName(t) <==> s == t
  {
  }

  /** The stored preference: the `@AppStorage` raw integer, as a plain field. */
  datatype Preferences = Preferences(cornerStyleRaw: int)

  /** A fresh store holds `toolbar`'s raw value. */
  const DefaultPreferences: Preferences := Preferences(RawValue(Toolbar))

  /** The `cornerStyle` getter: the stored style, or `toolbar` for an unknown raw value. */
  function CornerStyle(p: Preferences): (s: WindowCornerStyle)
    ensures -1 <= p.cornerStyleRaw <= 3 ==> RawValue(s) == p.cornerStyleRaw
    ensures !(-1 <= p.cornerStyleRaw <= 3) ==> s == Toolbar
  {
    FromRaw(p.cornerStyleRaw).Coalesce(Toolbar)
  }

  /** The `cornerStyle` setter: stores the raw value of the new style. */
  function SetCornerStyle(p: Preferences, s: WindowCornerStyle): (p': Preferences)
    ensures CornerStyle(p') == s
  {
    p.(cornerStyleRaw := RawValue(s))
  }

  lemma DefaultIsToolbar()
    ensures CornerStyle(DefaultPreferences) == Toolbar
  {
  }

  /** Writing back what was read keeps the style, and turns an unknown raw value into `toolbar`'s. */
  lemma SetWhatWasRead(p: Preferences)
    ensures CornerStyle(SetCornerStyle(p, CornerStyle(p))) == CornerStyle(p)
    ensures SetCornerStyle(p, CornerStyle(p)).cornerStyleRaw
            == (if -1 <= p.cornerStyleRaw <= 3 then p.cornerStyleRaw else RawValue(Toolbar))
  {
  }

  /** The last write wins. */
  lemma SetTwice(p: Preferences, s: WindowCornerStyle, t: WindowCornerStyle)
    ensures SetCornerStyle(SetCornerStyle(p, s), t) == SetCornerStyle(p, t)
  {
  }
}
