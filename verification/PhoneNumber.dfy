/** util/common/helpers.go: the in-place normalisation and validation of phone numbers. */
module PhoneNumber {
  import opened Model

  /** unicode.IsSpace */
  predicate IsSpace(c: char) {
    || c == '\t' || c == '\n' || c == '\U{0B}' || c == '\U{0C}' || c == '\r' || c == ' '
    || c == '\U{85}' || c == '\U{A0}' || c == '\U{1680}' || '\U{2000}' <= c <= '\U{200A}'
    || c == '\U{2028}' || c == '\U{2029}' || c == '\U{202F}' || c == '\U{205F}' || c == '\U{3000}'
  }

  predicate IsDigit(c: char) {
    '0' <= c <= '9'
  }

  function TrimLeft(s: string): string {
    if s != [] && IsSpace(s[0]) then TrimLeft(s[1..]) else s
  }

  function TrimRight(s: string): string {
    if s != [] && IsSpace(s[|s| - 1]) then TrimRight(s[..|s| - 1]) else s
  }

  /** strings.TrimSpace */
  function TrimSpace(s: string): string {
    TrimRight(TrimLeft(s))
  }

  predicate HasPrefix(s: string, prefix: string) {
    prefix <= s
  }

  predicate ValidPhone(s: string) {
    && |s| == 11
    && (HasPrefix(s, "010") || HasPrefix(s, "011") || HasPrefix(s, "012") || HasPrefix(s, "015"))
    && forall i :: 0 <= i < |s| ==> IsDigit(s[i])
  }

  /* ---------- What trimming and validation compute ---------- */

  predicate Blank(s: string) {
    forall i :: 0 <= i < |s| ==> IsSpace(s[i])
  }

  /** Among the ASCII characters the white space is space, tab, newline, vertical tab, form feed and return. */
  lemma AsciiSpaces(c: char)
    ensures IsSpace(' ') && IsSpace('\t') && IsSpace('\n') && IsSpace('\r')
    ensures c < '\U{7F}' ==> (IsSpace(c) <==> c == ' ' || '\U{09}' <= c <= '\U{0D}')
  {
  }

  /** t is s without the white space at both its ends. */
  predicate TrimmedBetween(s: string, u: string, t: string, v: string) {
    && s == u + t + v && Blank(u) && Blank(v)
    && (t != "" ==> !IsSpace(t[0]) && !IsSpace(t[|t| - 1]))
  }

  ghost predicate Trimmed(s: string, t: string) {
    exists u, v :: TrimmedBetween(s, u, t, v)
  }

  /** White space, one of the four prefixes, eight digits, white space. */
  predicate NumberBetween(s: string, u: string, prefix: string, digits: string, v: string) {
    && s == u + prefix + digits + v && Blank(u) && Blank(v)
    && (prefix == "010" || prefix == "011" || prefix == "012" || prefix == "015")
    && |digits| == 8 && forall i :: 0 <= i < 8 ==> '0' <= digits[i] <= '9'
  }

  ghost predicate PhoneText(s: string) {
    exists u, prefix, digits, v :: NumberBetween(s, u, prefix, digits, v)
  }

  lemma {:induction false} TrimLeftCuts(s: string) returns (u: string)
    ensures s == u + TrimLeft(s) && Blank(u)
    ensures TrimLeft(s) != [] ==> !IsSpace(TrimLeft(s)[0])
  {
    u := "";
    if s != [] && IsSpace(s[0]) {
      u := TrimLeftCuts(s[1..]);
      u := [s[0]] + u;
    }
  }

  lemma {:induction false} TrimRightCuts(s: string) returns (v: string)
    ensures s == TrimRight(s) + v && Blank(v)
    ensures TrimRight(s) != [] ==> !IsSpace(TrimRight(s)[|TrimRight(s)| - 1])
  {
    v := "";
    if s != [] && IsSpace(s[|s| - 1]) {
      v := TrimRightCuts(s[..|s| - 1]);
      v := v + [s[|s| - 1]];
    }
  }

  lemma {:induction false} TrimLeftSkips(u: string, t: string)
    requires Blank(u) && (t != "" ==> !IsSpace(t[0]))
    ensures TrimLeft(u + t) == t
  {
    if u == "" {
      assert u + t == t;
    } else {
      assert (u + t)[1..] == u[1..] + t;
      TrimLeftSkips(u[1..], t);
    }
  }

  lemma {:induction false} TrimRightSkips(t: string, v: string)
    requires Blank(v) && (t != "" ==> !IsSpace(t[|t| - 1]))
    ensures TrimRight(t + v) == t
  {
    if v == "" {
      assert t + v == t;
    } else {
      assert (t + v)[..|t + v| - 1] == t + v[..|v| - 1];
      TrimRightSkips(t, v[..|v| - 1]);
    }
  }

  lemma {:induction false} BlankVanishes(s: string)
    requires Blank(s)
    ensures TrimLeft(s) == ""
  {
    if s != "" {
      BlankVanishes(s[1..]);
    }
  }

  lemma TrimSpaceCuts(s: string) returns (u: string, v: string)
    ensures TrimmedBetween(s, u, TrimSpace(s), v)
  {
    u := TrimLeftCuts(s);
    v := TrimRightCuts(TrimLeft(s));
    if TrimSpace(s) != "" {
      assert TrimSpace(s)[0] == TrimLeft(s)[0];
    }
  }

  /** Trimming leaves the one text that white space and nothing but white space surrounds. */
  lemma TrimSpaceIff(s: string, t: string)
    ensures TrimSpace(s) == t <==> Trimmed(s, t)
  {
    if TrimSpace(s) == t {
      var u, v := TrimSpaceCuts(s);
    }
    if Trimmed(s, t) {
      var u, v :| TrimmedBetween(s, u, t, v);
      if t == "" {
        BlankVanishes(s);
      } else {
        assert s == u + (t + v) && (t + v)[0] == t[0];
        TrimLeftSkips(u, t + v);
        TrimRightSkips(t, v);
      }
    }
  }

  lemma AcceptedIsPhoneText(s: string)
    requires ValidPhone(TrimSpace(s))
    ensures PhoneText(s)
  {
    hide IsSpace, TrimSpace;
    var t := TrimSpace(s);
    var u, v := TrimSpaceCuts(s);
    var prefix, digits := t[..3], t[3..];
    assert prefix == "010" || prefix == "011" || prefix == "012" || prefix == "015";
    assert forall i :: 0 <= i < 8 ==> digits[i] == t[i + 3];
    assert s == u + prefix + digits + v;
    assert NumberBetween(s, u, prefix, digits, v);
  }

  lemma PhoneTextIsAccepted(s: string, u: string, prefix: string, digits: string, v: string)
    requires NumberBetween(s, u, prefix, digits, v)
    ensures ValidPhone(TrimSpace(s))
  {
    hide TrimSpace;
    var t := prefix + digits;
    assert s == u + t + v;
    assert t[0] == prefix[0] == '0' && t[|t| - 1] == digits[7];
    assert TrimmedBetween(s, u, t, v);
    TrimSpaceIff(s, t);
    assert t[..3] == prefix;
    forall i | 0 <= i < |t| ensures IsDigit(t[i]) {
      if i >= 3 { assert t[i] == digits[i - 3]; } else { assert t[i] == prefix[i]; }
    }
  }

  /** Accepted are exactly the inputs made of white space, a known prefix, eight digits and white space. */
  lemma AcceptedIff(s: string)
    ensures ValidPhone(TrimSpace(s)) <==> PhoneText(s)
  {
    if ValidPhone(TrimSpace(s)) {
      AcceptedIsPhoneText(s);
    }
    if PhoneText(s) {
      var u, prefix, digits, v :| NumberBetween(s, u, prefix, digits, v);
      PhoneTextIsAccepted(s, u, prefix, digits, v);
    }
  }

  /* ---------- The method ---------- */

  /** The string behind the pointer the handlers pass. */
  class StringCell {
    var text: string

    constructor (text: string)
      ensures this.text == text
    {
      this.text := text;
    }
  }

  /** Leaves behind the pointer the text without the white space around it, and accepts exactly the inputs that
      consist of white space, one of the four prefixes, eight digits, and white space. */
  method ValidatePhoneNumber(phoneNumber: StringCell) returns (err: Option<Error>)
    modifies phoneNumber
    ensures Trimmed(old(phoneNumber.text), phoneNumber.text)
    ensures err == if PhoneText(old(phoneNumber.text)) then None else Some(ErrInvalidPhoneNumber)
  {
    TrimSpaceIff(phoneNumber.text, TrimSpace(phoneNumber.text));
    AcceptedIff(phoneNumber.text);
    phoneNumber.text := TrimSpace(phoneNumber.text);
    var s := phoneNumber.text;
    if !(HasPrefix(s, "010") || HasPrefix(s, "011") || HasPrefix(s, "012") || HasPrefix(s, "015")) || |s| != 11 {
      return Some(ErrInvalidPhoneNumber);
    }
    for i := 0 to |s|
      invariant forall j :: 0 <= j < i ==> IsDigit(s[j])
    {
      var ch := s[i];
      if ch < '0' || ch > '9' {
        return Some(ErrInvalidPhoneNumber);
      }
    }
    return None;
  }

  /** The digits of a raw input, wherever they stand. */
  function Digits(s: string): string {
    if s == [] then [] else (if IsDigit(s[0]) then [s[0]] else []) + Digits(s[1..])
  }

  lemma {:induction false} DigitsConcat(a: string, b: string)
    ensures Digits(a + b) == Digits(a) + Digits(b)
  {
    hide IsDigit;
    if a == [] {
      assert a + b == b;
    } else {
      var rest := a[1..];
      assert (a + b)[1..] == rest + b;
      DigitsConcat(rest, b);
      var head := if IsDigit(a[0]) then [a[0]] else [];
      assert Digits(a + b) == head + Digits(rest + b);
      assert Digits(a) == head + Digits(rest);
    }
  }

  lemma {:induction false} DigitsTrimLeft(s: string)
    ensures Digits(TrimLeft(s)) == Digits(s)
  {
    if s != [] && IsSpace(s[0]) {
      DigitsTrimLeft(s[1..]);
    }
  }

  lemma {:induction false} DigitsTrimRight(s: string)
    ensures Digits(TrimRight(s)) == Digits(s)
  {
    if s != [] && IsSpace(s[|s| - 1]) {
      var n := |s| - 1;
      DigitsTrimRight(s[..n]);
      assert s == s[..n] + [s[n]];
      DigitsConcat(s[..n], [s[n]]);
      assert Digits([s[n]]) == [];
    }
  }

  lemma {:induction false} AllDigits(s: string)
    requires forall i :: 0 <= i < |s| ==> IsDigit(s[i])
    ensures Digits(s) == s
  {
    if s != [] {
      AllDigits(s[1..]);
    }
  }

  /** Two accepted inputs name the same number, digit for digit, if and only if their normalised texts are
      equal, so the service's test of sender against receiver catches every transfer to oneself. */
  lemma NormalisationIsCanonical(a: string, b: string)
    requires ValidPhone(TrimSpace(a)) && ValidPhone(TrimSpace(b))
    ensures TrimSpace(a) == TrimSpace(b) <==> Digits(a) == Digits(b)
  {
    DigitsTrimLeft(a);
    DigitsTrimRight(TrimLeft(a));
    AllDigits(TrimSpace(a));
    DigitsTrimLeft(b);
    DigitsTrimRight(TrimLeft(b));
    AllDigits(TrimSpace(b));
  }

  /** Normalising again changes nothing: a replayed request carries the same phone. */
  lemma TrimTwice(s: string)
    ensures TrimSpace(TrimSpace(s)) == TrimSpace(s)
  {
    var t := TrimSpace(s);
    var u, v := TrimSpaceCuts(s);
    assert t == "" + t + "";
    assert TrimmedBetween(t, "", t, "");
    TrimSpaceIff(t, t);
  }
}
