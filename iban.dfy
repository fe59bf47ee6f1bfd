/**
 * IBAN string generation (pkg/services/ibanService.go). The seeded
 * math/rand generator is an oracle: `source(n)` stands for the value behind
 * the n-th call of Intn, which `Intn(m)` reduces below m. A call of rand.Intn
 * may consume more than one raw generator value (Int31n rejects values from
 * the uneven top of the range); that rejection loop is not modelled, so
 * `pos` counts Intn calls. The "check digits" are drawn like every other
 * digit; no ISO 7064 checksum is computed.
 */
module Iban {

  const Digits: string := "0123456789"

  predicate IsDigit(c: char) {
    '0' <= c <= '9'
  }

  /** The characters randomString produces when its Intn calls start at `pos`. */
  function RandomChars(source: nat -> nat, pos: nat, length: nat, charset: string): string
    requires length > 0 ==> |charset| > 0
  {
    seq(length, i requires 0 <= i < length => charset[source(pos + i) % |charset|])
  }

  /** What GenerateIBAN returns when its Intn calls start at `pos`. */
  function IbanFrom(source: nat -> nat, pos: nat, countryCode: string, bankCodeLen: nat, accountLen: nat): string {
    var checkDigits := RandomChars(source, pos, 2, Digits);
    var bankCode := RandomChars(source, pos + 2, bankCodeLen, Digits);
    var accountNumber := RandomChars(source, pos + 2 + bankCodeLen, accountLen, Digits);
    countryCode + checkDigits + bankCode + accountNumber
  }

  class IbanService {
    /** The values behind successive Intn calls, fixed by the seed. */
    const source: nat -> nat
    /** How many Intn calls have been made so far. */
    var pos: nat

    constructor (source: nat -> nat)
      ensures this.source == source && pos == 0
    {
      this.source := source;
      pos := 0;
    }

    /** rand.Intn: the value behind the next call, below n; Go panics when n <= 0. */
    method Intn(n: nat) returns (v: nat)
      requires n > 0
      modifies this
      ensures v < n && v == source(old(pos)) % n
      ensures pos == old(pos) + 1
    {
      v := source(pos) % n;
      pos := pos + 1;
    }

    /** Fill a buffer of `length` bytes, each picked from `charset` by one Intn call. */
    method RandomString(length: nat, charset: string) returns (s: string)
      requires length > 0 ==> |charset| > 0
      modifies this
      ensures s == RandomChars(source, old(pos), length, charset)
      ensures pos == old(pos) + length
    {
      var result := new char[length];
      for i := 0 to length
        invariant pos == old(pos) + i
        invariant forall j :: 0 <= j < i ==> result[j] == charset[source(old(pos) + j) % |charset|]
      {
        var index := Intn(|charset|);
        result[i] := charset[index];
      }
      s := result[..];
    }

    /** Country code, two check digits, the bank code and the account number, all digits drawn at random. */
    method GenerateIBAN(countryCode: string, bankCodeLen: nat, accountLen: nat) returns (iban: string)
      modifies this
      ensures iban == IbanFrom(source, old(pos), countryCode, bankCodeLen, accountLen)
      ensures pos == old(pos) + 2 + bankCodeLen + accountLen
    {
      var checkDigits := RandomString(2, Digits);
      var bankCode := RandomString(bankCodeLen, Digits);
      var accountNumber := RandomString(accountLen, Digits);
      iban := countryCode + checkDigits + bankCode + accountNumber;
    }
  }

  // ---------------------------------------------------------------------
  // Lemmas

  /** randomString returns exactly `length` characters, each one of `charset`. */
  lemma RandomCharsShape(source: nat -> nat, pos: nat, length: nat, charset: string)
    requires length > 0 ==> |charset| > 0
    ensures |RandomChars(source, pos, length, charset)| == length
    ensures forall i :: 0 <= i < length ==> RandomChars(source, pos, length, charset)[i] in charset
  {
  }

  /**
   * An IBAN is the country code followed by 2 + bankCodeLen + accountLen
   * decimal digits.
   */
  lemma IbanShape(source: nat -> nat, pos: nat, countryCode: string, bankCodeLen: nat, accountLen: nat)
    ensures var iban := IbanFrom(source, pos, countryCode, bankCodeLen, accountLen);
      && |iban| == |countryCode| + 2 + bankCodeLen + accountLen
      && iban[..|countryCode|] == countryCode
      && forall i :: |countryCode| <= i < |iban| ==> IsDigit(iban[i])
  {
    var iban := IbanFrom(source, pos, countryCode, bankCodeLen, accountLen);
    var digits := RandomChars(source, pos, 2, Digits) + RandomChars(source, pos + 2, bankCodeLen, Digits)
                  + RandomChars(source, pos + 2 + bankCodeLen, accountLen, Digits);
    assert iban == countryCode + digits;
    forall i | 0 <= i < |digits| ensures IsDigit(digits[i]) {
      assert digits[i] in Digits;
    }
  }

  /** The IBANs new accounts receive: "TR" and 23 digits, 25 characters in all. */
  lemma AccountIbanShape(source: nat -> nat, pos: nat)
    ensures var iban := IbanFrom(source, pos, "TR", 5, 16);
      && |iban| == 25
      && iban[..2] == "TR"
      && forall i :: 2 <= i < 25 ==> IsDigit(iban[i])
  {
    IbanShape(source, pos, "TR", 5, 16);
  }

  /**
   * Every digit string of the right length can come out, for some generator
   * stream: the check digits are not derived from the rest of the number.
   */
  lemma AnyDigitsCanBeDrawn(countryCode: string, bankCodeLen: nat, accountLen: nat, digits: string)
    requires |digits| == 2 + bankCodeLen + accountLen
    requires forall i :: 0 <= i < |digits| ==> IsDigit(digits[i])
    ensures exists source: nat -> nat :: IbanFrom(source, 0, countryCode, bankCodeLen, accountLen) == countryCode + digits
  {
    var source: nat -> nat :=
      (n: nat) => if n < |digits| && IsDigit(digits[n]) then (digits[n] as int - '0' as int) as nat else 0;
    var iban := IbanFrom(source, 0, countryCode, bankCodeLen, accountLen);
    var drawn := RandomChars(source, 0, 2, Digits) + RandomChars(source, 2, bankCodeLen, Digits)
                 + RandomChars(source, 2 + bankCodeLen, accountLen, Digits);
    forall i | 0 <= i < |digits| ensures drawn[i] == digits[i] {
      assert drawn[i] == Digits[source(i) % 10];
    }
    assert drawn == digits;
    assert iban == countryCode + digits;
  }
}
