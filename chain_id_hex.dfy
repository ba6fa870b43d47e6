/**
  The chain id carried by a `wallet_switchEthereumChain` request (EIP-3326):
  the text "0x" followed by `chainId.toString(16)`, that is lower-case
  hexadecimal digits with no leading zeros ("0" for zero).
 */
module ChainIdHex {
  import opened Wrappers

  /** JSON-RPC method of the network switch request. */
  const SWITCH_METHOD := "wallet_switchEthereumChain"

  predicate IsLowerHexDigit(c: char) {
    '0' <= c <= '9' || 'a' <= c <= 'f'
  }

  /** Digits a hexadecimal parser accepts (either case). */
  predicate IsHexDigit(c: char) {
    IsLowerHexDigit(c) || 'A' <= c <= 'F'
  }

  predicate AllHexDigits(s: string) {
    forall i | 0 <= i < |s| :: IsHexDigit(s[i])
  }

  /** The form `Number.prototype.toString(16)` produces for a non-negative integer. */
  predicate IsCanonicalHex(s: string) {
    && |s| >= 1
    && (forall i | 0 <= i < |s| :: IsLowerHexDigit(s[i]))
    && (|s| > 1 ==> s[0] != '0')
  }

  function DigitChar(d: nat): (c: char)
    requires d < 16
    ensures IsLowerHexDigit(c)
  {
    if d < 10 then ('0' as int + d) as char else ('a' as int + d - 10) as char
  }

  function DigitValue(c: char): (d: nat)
    requires IsHexDigit(c)
    ensures d < 16
    ensures d == 0 <==> c == '0'
  {
    if '0' <= c <= '9' then c as int - '0' as int
    else if 'a' <= c <= 'f' then c as int - 'a' as int + 10
    else c as int - 'A' as int + 10
  }

  /** Lower-case hexadecimal of `n`, most significant digit first. */
  function ToHex(n: nat): (r: string)
    ensures IsCanonicalHex(r)
    ensures r[0] == '0' <==> n == 0
    decreases n
  {
    if n < 16 then [DigitChar(n)] else ToHex(n / 16) + [DigitChar(n % 16)]
  }

  /** Value of a string of hexadecimal digits, most significant digit first. */
  function HexValue(s: string): nat
    requires AllHexDigits(s)
  {
    if s == [] then 0 else HexValue(s[..|s| - 1]) * 16 + DigitValue(s[|s| - 1])
  }

  /** Parses a non-empty run of hexadecimal digits; anything else is rejected. */
  function ParseHex(s: string): Option<nat> {
    if s != [] && AllHexDigits(s) then Some(HexValue(s)) else None
  }

  /** The `chainId` parameter of the switch request for the given chain id. */
  function SwitchPayload(chainId: nat): (s: string)
    ensures |s| >= 3 && s[..2] == "0x"
  {
    "0x" + ToHex(chainId)
  }

  /** Reads a switch payload back: "0x" followed by hexadecimal digits. */
  function ParsePayload(s: string): Option<nat> {
    if |s| >= 2 && s[..2] == "0x" then ParseHex(s[2..]) else None
  }

  lemma DigitRoundTrip(d: nat)
    requires d < 16
    ensures DigitValue(DigitChar(d)) == d
  {
  }

  lemma CharRoundTrip(c: char)
    requires IsLowerHexDigit(c)
    ensures DigitChar(DigitValue(c)) == c
  {
  }

  /** Reading back the digits `ToHex` writes gives the number written. */
  lemma {:induction false} HexValueOfToHex(n: nat)
    ensures AllHexDigits(ToHex(n)) && HexValue(ToHex(n)) == n
    decreases n
  {
    var s := ToHex(n);
    if n < 16 {
      DigitRoundTrip(n);
      assert s[..|s| - 1] == [];
    } else {
      HexValueOfToHex(n / 16);
      DigitRoundTrip(n % 16);
      assert s[..|s| - 1] == ToHex(n / 16);
    }
  }

  lemma ParseToHex(n: nat)
    ensures ParseHex(ToHex(n)) == Some(n)
  {
    HexValueOfToHex(n);
  }

  /** A digit string that does not start with '0' has a positive value. */
  lemma {:induction false} LeadingDigitPositive(s: string)
    requires |s| >= 1 && AllHexDigits(s) && s[0] != '0'
    ensures HexValue(s) > 0
    decreases |s|
  {
    var p := s[..|s| - 1];
    if |s| > 1 {
      assert p[0] == s[0];
      LeadingDigitPositive(p);
    } else {
      assert p == [];
    }
  }

  lemma DivMod16(q: nat, d: nat)
    requires d < 16
    ensures (q * 16 + d) / 16 == q && (q * 16 + d) % 16 == d
  {
  }

  /** Every canonical digit string is what `ToHex` writes for its value. */
  lemma {:induction false} ToHexOfHexValue(s: string)
    requires IsCanonicalHex(s)
    ensures AllHexDigits(s) && ToHex(HexValue(s)) == s
    decreases |s|
  {
    var last := s[|s| - 1];
    var p := s[..|s| - 1];
    if |s| == 1 {
      assert p == [];
      CharRoundTrip(last);
      assert s == [last];
    } else {
      assert p[0] == s[0];
      ToHexOfHexValue(p);
      LeadingDigitPositive(p);
      var q, d := HexValue(p), DigitValue(last);
      DivMod16(q, d);
      CharRoundTrip(last);
      assert s == p + [last];
    }
  }

  /** The switch payload decodes to the chain id it was built from. */
  lemma PayloadRoundTrip(chainId: nat)
    ensures ParsePayload(SwitchPayload(chainId)) == Some(chainId)
  {
    var s := SwitchPayload(chainId);
    assert s[2..] == ToHex(chainId);
    ParseToHex(chainId);
  }

  /** Conversely, a payload whose digits are canonical is exactly the payload of the id it decodes to. */
  lemma PayloadOfParse(s: string)
    requires |s| >= 2 && s[..2] == "0x" && IsCanonicalHex(s[2..])
    ensures ParsePayload(s).Some? && SwitchPayload(ParsePayload(s).value) == s
  {
    ToHexOfHexValue(s[2..]);
    assert s == s[..2] + s[2..];
  }

  /** Distinct chain ids give distinct payloads. */
  lemma PayloadInjective(a: nat, b: nat)
    requires SwitchPayload(a) == SwitchPayload(b)
    ensures a == b
  {
    PayloadRoundTrip(a);
    PayloadRoundTrip(b);
  }

  /** The payloads of the two registry networks, 3 and 97. */
  lemma RegistryPayloads()
    ensures SwitchPayload(3) == "0x3"
    ensures SwitchPayload(97) == "0x61"
  {
    assert ToHex(97) == ToHex(6) + [DigitChar(1)];
  }
}
