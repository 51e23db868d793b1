/** The source of fresh session tokens.

    The bootstrap identity draws its token from `UUID.randomUUID().toString()`.
    Randomness is not modelled: the generator is an oracle that hands out its
    n-th value as `FreshToken(n)`. The only thing the rest of the model relies
    on is that no two draws give the same string, which is `FreshTokenInjective`.
 */
module TokenOracle {

  /** The value of a lower-case hexadecimal digit, or -1 for any other char. */
  function DigitValue(c: char): (v: int)
    ensures -1 <= v < 16
  {
    if '0' <= c <= '9' then c as int - '0' as int
    else if 'a' <= c <= 'f' then c as int - 'a' as int + 10
    else -1
  }

  /** The lower-case hexadecimal digit for `d`. */
  function HexDigit(d: nat): (c: char)
    requires d < 16
    ensures DigitValue(c) == d
  {
    if d < 10 then ('0' as int + d) as char else ('a' as int + d - 10) as char
  }

  /** `n` written in lower-case hexadecimal, most significant digit first, no leading zeros. */
  function Hex(n: nat): (s: string)
    ensures |s| >= 1
    ensures n < 16 <==> |s| == 1
    ensures DigitValue(s[|s| - 1]) == n % 16
    decreases n
  {
    if n < 16 then [HexDigit(n)] else Hex(n / 16) + [HexDigit(n % 16)]
  }

  /** The n-th value the generator hands out. */
  function FreshToken(n: nat): (t: string)
    ensures |t| >= 1
  {
    Hex(n)
  }

  lemma {:induction false} HexInjective(a: nat, b: nat)
    requires Hex(a) == Hex(b)
    ensures a == b
    decreases a
  {
    if a >= 16 && b >= 16 {
      var sa, sb := Hex(a), Hex(b);
      assert sa[..|sa| - 1] == Hex(a / 16);
      assert sb[..|sb| - 1] == Hex(b / 16);
      HexInjective(a / 16, b / 16);
    }
  }

  /** Two draws give the same token exactly when they are the same draw. */
  lemma FreshTokenInjective(a: nat, b: nat)
    ensures FreshToken(a) == FreshToken(b) <==> a == b
  {
    if FreshToken(a) == FreshToken(b) {
      HexInjective(a, b);
    }
  }
}
