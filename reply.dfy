/**
 * Control-channel reply text of the FTP session: the line terminator added by
 * socket_send_message, the decimal rendering of a reply code (what an
 * ostringstream produces for an int), and the single-line "<code> <text>" and
 * continuation "<code>-<text>" shapes of section 4.2 of RFC 959.
 *
 * The partner of the formatters is ParseReplyLine, an independent reading of
 * a reply line as RFC 959 defines it; the lemmas show that every line the
 * session builds for a three-digit code reads back as that code and text.
 */
module Reply {
  import opened Wrappers

  const CRLF: string := "\r\n"

  predicate IsDigit(c: char) {
    '0' <= c <= '9'
  }

  predicate AllDigits(s: string) {
    forall i :: 0 <= i < |s| ==> IsDigit(s[i])
  }

  function DigitChar(d: nat): (c: char)
    requires d < 10
    ensures IsDigit(c) && c as int - '0' as int == d
  {
    ('0' as int + d) as char
  }

  function DigitValue(c: char): nat
    requires IsDigit(c)
  {
    c as int - '0' as int
  }

  /** Decimal digits of n, most significant first, without leading zeros. */
  function NatDigits(n: nat): (s: string)
    ensures |s| >= 1 && AllDigits(s)
    ensures (s[0] == '0') <==> n == 0
    ensures |s| == 1 <==> n < 10
  {
    if n < 10 then [DigitChar(n)] else NatDigits(n / 10) + [DigitChar(n % 10)]
  }

  /** What inserting the int n into an ostringstream yields. */
  function Decimal(n: int): string {
    if n < 0 then "-" + NatDigits(-n) else NatDigits(n)
  }

  /** Inverse reading of a non-empty digit string. */
  function ParseNat(s: string): nat
    requires |s| >= 1 && AllDigits(s)
  {
    if |s| == 1 then DigitValue(s[0])
    else ParseNat(s[..|s| - 1]) * 10 + DigitValue(s[|s| - 1])
  }

  /** Reads back an optionally signed decimal integer; None when malformed. */
  function ParseDecimal(s: string): Option<int> {
    if |s| == 0 then None
    else if s[0] == '-' then
      if |s| >= 2 && AllDigits(s[1..]) then Some(-(ParseNat(s[1..]) as int)) else None
    else if AllDigits(s) then Some(ParseNat(s))
    else None
  }

  lemma {:induction false} NatDigitsRoundTrip(n: nat)
    ensures ParseNat(NatDigits(n)) == n
  {
    if n >= 10 {
      var s := NatDigits(n);
      assert s[..|s| - 1] == NatDigits(n / 10);
      NatDigitsRoundTrip(n / 10);
    }
  }

  lemma ParseSigned(d: string)
    requires |d| >= 1 && AllDigits(d)
    ensures ParseDecimal(d) == Some(ParseNat(d) as int)
    ensures ParseDecimal("-" + d) == Some(-(ParseNat(d) as int))
  {
    assert d[0] != '-' by { assert IsDigit(d[0]); }
    assert ("-" + d)[1..] == d;
  }

  /** Decimal and ParseDecimal are inverse on every int. */
  lemma DecimalRoundTrip(n: int)
    ensures ParseDecimal(Decimal(n)) == Some(n)
  {
    var m: nat := if n < 0 then -n else n;
    var d := NatDigits(m);
    ParseSigned(d);
    NatDigitsRoundTrip(m);
  }

  /** Every reply code of RFC 959 has exactly three digits. */
  lemma {:induction false} ThreeDigitCode(code: int)
    requires 100 <= code <= 999
    ensures |Decimal(code)| == 3 && AllDigits(Decimal(code))
    ensures ParseNat(Decimal(code)) == code
  {
    assert NatDigits(code) == NatDigits(code / 10) + [DigitChar(code % 10)];
    assert NatDigits(code / 10) == NatDigits(code / 100) + [DigitChar(code / 10 % 10)];
    NatDigitsRoundTrip(code);
  }

  /** The bytes socket_send_message hands to send: the message and CRLF. */
  function Line(message: string): string {
    message + CRLF
  }

  /** The message send_code passes on: decimal code, one space, the text. */
  function CodeText(code: int, message: string): string {
    Decimal(code) + " " + message
  }

  /** The message send_multicode passes on: decimal code, '-', the text. */
  function MultiCodeText(code: int, message: string): string {
    Decimal(code) + "-" + message
  }

  /** A reply line as section 4.2 of RFC 959 reads it. */
  datatype ReplyLine = ReplyLine(code: nat, continued: bool, text: string)

  /** Text that stays on one line: it holds neither CR nor LF. */
  predicate SingleLine(s: string) {
    forall i :: 0 <= i < |s| ==> s[i] != '\r' && s[i] != '\n'
  }

  /**
   * Exactly one line: three digits, a space (last line) or a hyphen
   * (continuation), text without line breaks, and CRLF.
   */
  function ParseReplyLine(line: string): Option<ReplyLine> {
    if |line| >= 6 && line[|line| - 2..] == CRLF && AllDigits(line[..3])
       && (line[3] == ' ' || line[3] == '-') && SingleLine(line[4..|line| - 2])
    then Some(ReplyLine(ParseNat(line[..3]), line[3] == '-', line[4..|line| - 2]))
    else None
  }

  /** The line send_code puts on the wire reads back as a final reply. */
  lemma CodeLineRoundTrip(code: int, message: string)
    requires 100 <= code <= 999 && SingleLine(message)
    ensures ParseReplyLine(Line(CodeText(code, message))) == Some(ReplyLine(code, false, message))
  {
    ThreeDigitCode(code);
    var line := Line(CodeText(code, message));
    assert line[..3] == Decimal(code);
    assert line[4..|line| - 2] == message;
  }

  /** The line send_multicode puts on the wire reads back as a continuation. */
  lemma MultiCodeLineRoundTrip(code: int, message: string)
    requires 100 <= code <= 999 && SingleLine(message)
    ensures ParseReplyLine(Line(MultiCodeText(code, message))) == Some(ReplyLine(code, true, message))
  {
    ThreeDigitCode(code);
    var line := Line(MultiCodeText(code, message));
    assert line[..3] == Decimal(code);
    assert line[4..|line| - 2] == message;
  }

  /**
   * send_code and send_multicode pass the message on unchanged, so a
   * message holding CR or LF puts more than one line on the wire, and what
   * they send is then no single reply line.
   */
  lemma EmbeddedLineBreakRejected(code: int, message: string, k: nat)
    requires 100 <= code <= 999 && k < |message| && (message[k] == '\r' || message[k] == '\n')
    ensures ParseReplyLine(Line(CodeText(code, message))).None?
    ensures ParseReplyLine(Line(MultiCodeText(code, message))).None?
  {
    ThreeDigitCode(code);
    var line := Line(CodeText(code, message));
    assert line[4..|line| - 2] == message;
    assert !SingleLine(line[4..|line| - 2]);
    var multi := Line(MultiCodeText(code, message));
    assert multi[4..|multi| - 2] == message;
    assert !SingleLine(multi[4..|multi| - 2]);
  }

  /** The exact bytes of the fallback reply for an unknown verb. */
  lemma UnsupportedReplyText(cmd: string)
    ensures Line(CodeText(502, cmd + " not supported")) == "502 " + cmd + " not supported\r\n"
  {
    assert NatDigits(502) == NatDigits(50) + [DigitChar(2)];
    assert NatDigits(50) == NatDigits(5) + [DigitChar(0)];
    assert Decimal(502) == "502";
  }
}
