/** The connect screen: the port text is read as a Java `int` and must lie in 1..65535;
    otherwise one of two error dialogs is shown and nothing is saved or launched. */
module Connect {
  import opened JavaLang
  import opened Shell

  /** The port offered when no port has been saved yet. */
  const DefaultPort: string := "5555"

  const InvalidPortTitle: string := "Invalid Port"
  const RangeMessage: string := "The port number must be between 1 and 65535"
  const IntegerMessage: string := "The port must be an integer"

  /** The outcome of checking the port text. */
  datatype PortCheck =
    | Accepted(port: int)
    | NotAnInteger
    | OutOfRange(value: Int32)

  /** The check in `onClick`: `Integer.parseInt`, then the range test. */
  function CheckPort(text: string): (r: PortCheck)
    ensures r.Accepted? <==> ParseInt(text).Some? && 1 <= ParseInt(text).value <= 65535
    ensures r.Accepted? ==> ParseInt(text) == Some(r.port)
    ensures r.NotAnInteger? <==> ParseInt(text).None?
    ensures r.OutOfRange? ==> ParseInt(text) == Some(r.value) && (r.value <= 0 || r.value > 65535)
  {
    match ParseInt(text)
    case None => NotAnInteger
    case Some(v) => if v <= 0 || v > 65535 then OutOfRange(v) else Accepted(v)
  }

  /** The message of the dialog shown for a rejected port. */
  function ErrorMessage(r: PortCheck): (m: string)
    requires !r.Accepted?
    ensures r.NotAnInteger? ==> m == IntegerMessage
    ensures r.OutOfRange? ==> m == RangeMessage
  {
    if r.NotAnInteger? then IntegerMessage else RangeMessage
  }

  // ---------------------------------------------------------------------------
  // Which texts are accepted

  /** The text of an accepted port is an optional `+`, then any number of zeros, then
      the port's shortest decimal text: never a minus sign, never other characters. */
  lemma AcceptedIsPaddedDecimal(text: string)
    requires CheckPort(text).Accepted?
    ensures var u := if text[0] == '+' then text[1..] else text;
      && text[0] != '-'
      && AllDigits(u)
      && u == Zeros(LeadingZeros(u)) + NatDigits(CheckPort(text).port)
  {
    var u := if text[0] == '+' then text[1..] else text;
    assert AllDigits(u) && DigitsValue(u) == CheckPort(text).port;
    LeadingZerosSplit(u);
    SplitLeadingZeros(u);
  }

  /** Zeros followed by the decimal text of `p` are digits worth `p`. */
  lemma PaddedValue(k: nat, p: nat)
    ensures var u := Zeros(k) + NatDigits(p);
      u != [] && AllDigits(u) && DigitsValue(u) == p
  {
    var digits := NatDigits(p);
    var u := Zeros(k) + digits;
    forall i | 0 <= i < |u| ensures IsDigit(u[i]) {
      if i >= k {
        assert u[i] == digits[i - k];
      }
    }
    DigitsValueOfPadded(k, digits);
    DigitsValueOfNatDigits(p);
  }

  /** A non-empty digit string, with or without a leading `+`, reads as its value. */
  lemma SignedValueOfUnsigned(sign: string, u: string)
    requires sign == "+" || sign == ""
    requires u != [] && AllDigits(u)
    ensures SignedValue(sign + u) == Some(DigitsValue(u))
  {
    var text := sign + u;
    if sign == "+" {
      assert text[0] == '+' && text[1..] == u;
    } else {
      assert text == u && IsDigit(text[0]);
    }
  }

  /** Conversely, every such text is accepted, with the port it spells. */
  lemma PaddedDecimalAccepted(plus: bool, k: nat, p: int)
    requires 1 <= p <= 65535
    ensures CheckPort((if plus then "+" else "") + Zeros(k) + NatDigits(p)) == Accepted(p)
  {
    var sign: string := if plus then "+" else "";
    var u := Zeros(k) + NatDigits(p);
    PaddedValue(k, p);
    SignedValueOfUnsigned(sign, u);
    assert sign + Zeros(k) + NatDigits(p) == sign + u;
    assert ParseInt(sign + u) == Some(p);
  }

  /** A digit string too large for an `int` is reported as "not an integer", not as out
      of range, however large its value. */
  lemma HugeNumberNotAnInteger(text: string)
    requires text != [] && AllDigits(text) && DigitsValue(text) > MaxInt
    ensures CheckPort(text) == NotAnInteger
  {
    assert IsDigit(text[0]);
  }

  /** Any character that is neither a digit nor a leading sign (a space, a letter, a
      second sign) makes the text "not an integer"; so does the empty text. */
  lemma StrayCharacterNotAnInteger(text: string, i: int)
    requires 0 <= i < |text| && !IsDigit(text[i])
    requires i > 0 || (text[0] != '+' && text[0] != '-')
    ensures CheckPort(text) == NotAnInteger
  {
    if i > 0 {
      assert text[1..][i - 1] == text[i];
    }
  }

  /** The empty text is "not an integer". */
  lemma EmptyNotAnInteger()
    ensures CheckPort("") == NotAnInteger
  {
  }

  /** Zero, negative ports and ports above 65535 that fit in an `int` are out of range. */
  lemma OutOfRangeExamples()
    ensures CheckPort("0") == OutOfRange(0)
    ensures CheckPort("-1") == OutOfRange(-1)
    ensures CheckPort("65536") == OutOfRange(65536)
  {
    assert "-1"[1..] == "1";
    assert "65536"[..4] == "6553" && "6553"[..3] == "655" && "655"[..2] == "65" && "65"[..1] == "6";
  }

  /** The default port is accepted as port 5555. */
  lemma DefaultPortAccepted()
    ensures CheckPort(DefaultPort) == Accepted(5555)
  {
    assert NatDigits(5555) == "5555" by {
      assert NatDigits(5) == "5";
      assert NatDigits(55) == NatDigits(5) + "5";
      assert NatDigits(555) == NatDigits(55) + "5";
    }
    PaddedDecimalAccepted(false, 0, 5555);
    assert Zeros(0) + "5555" == DefaultPort;
  }

  /** A signed, zero-padded spelling of a port is accepted as that port. */
  lemma PaddedPortAccepted()
    ensures CheckPort("+0080") == Accepted(80)
  {
    assert NatDigits(80) == "80" by {
      assert NatDigits(8) == "8";
    }
    PaddedDecimalAccepted(true, 2, 80);
    assert Zeros(2) == "00" by {
      assert Zeros(1) == "0";
    }
    assert "+" + Zeros(2) + NatDigits(80) == "+0080";
  }

  // ---------------------------------------------------------------------------
  // The screen

  /** A dialog shown to the user. */
  datatype Dialog = Dialog(title: string, message: string)

  class ConnectActivity {
    var ipField: string
    var portField: string
    /** The `"Port"` entry of the screen's preferences file, if one was ever saved. */
    var savedPort: Option<string>
    /** The shell screens launched, oldest first. */
    var launched: seq<ShellIntent>
    /** The dialogs shown, oldest first. */
    var dialogs: seq<Dialog>

    /** The screen, over a preferences file holding `savedPort`. */
    constructor (savedPort: Option<string>)
      ensures this.savedPort == savedPort
      ensures ipField == "" && portField == "" && launched == [] && dialogs == []
    {
      this.savedPort := savedPort;
      ipField := "";
      portField := "";
      launched := [];
      dialogs := [];
    }

    /** `loadPreferences`: the address field shows the device's own address (supplied by
        the caller) and the port field the saved port, or "5555" when none was saved. */
    method LoadPreferences(deviceIp: string)
      modifies this`ipField, this`portField
      ensures ipField == deviceIp
      ensures portField == if savedPort.Some? then savedPort.value else DefaultPort
    {
      ipField := deviceIp;
      portField := if savedPort.Some? then savedPort.value else DefaultPort;
    }

    /** `onClick`: an accepted port saves the raw port text and launches the shell screen
        with the address text and the parsed port; a rejected one shows the matching
        "Invalid Port" dialog and neither saves nor launches. */
    method OnClick()
      modifies this`savedPort, this`launched, this`dialogs
      ensures CheckPort(portField).Accepted? ==>
        && savedPort == Some(portField)
        && launched == old(launched) + [ShellIntent(Some(ipField), Some(CheckPort(portField).port as Int32))]
        && dialogs == old(dialogs)
      ensures !CheckPort(portField).Accepted? ==>
        && savedPort == old(savedPort)
        && launched == old(launched)
        && dialogs == old(dialogs) + [Dialog(InvalidPortTitle, ErrorMessage(CheckPort(portField)))]
    {
      var check := CheckPort(portField);
      match check
      case Accepted(p) =>
        savedPort := Some(portField);
        launched := launched + [ShellIntent(Some(ipField), Some(p as Int32))];
      case NotAnInteger =>
        dialogs := dialogs + [Dialog(InvalidPortTitle, IntegerMessage)];
      case OutOfRange(_) =>
        dialogs := dialogs + [Dialog(InvalidPortTitle, RangeMessage)];
    }
  }

  /** With nothing saved, the screen starts on the default port, and connecting saves it
      and launches the shell screen on port 5555. */
  method FirstConnectScenario() returns (intent: ShellIntent, saved: Option<string>)
    ensures intent == ShellIntent(Some("192.168.1.5"), Some(5555))
    ensures saved == Some("5555")
  {
    var screen := new ConnectActivity(None);
    screen.LoadPreferences("192.168.1.5");
    DefaultPortAccepted();
    screen.OnClick();
    intent := screen.launched[0];
    saved := screen.savedPort;
  }
}
