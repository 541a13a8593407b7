/** Decimal text of unsigned integers, as big.Int.String writes it and big.Int.SetString(s, 10) reads it. */
module Decimal {
  import opened Words

  function Digit(d: nat): char
    requires d < 10
  {
    '0' + d as char
  }

  function Render(n: nat): (s: string)
    ensures s != [] && forall i :: 0 <= i < |s| ==> '0' <= s[i] <= '9'
  {
    if n < 10 then [Digit(n)] else Render(n / 10) + [Digit(n % 10)]
  }

  predicate AllDigits(s: string) { forall i :: 0 <= i < |s| ==> '0' <= s[i] <= '9' }

  function Value(s: string): nat
    requires AllDigits(s)
  {
    if s == [] then 0 else Value(s[..|s| - 1]) * 10 + (s[|s| - 1] - '0') as nat
  }

  function Opposite(n: int): int { -n }

  /** An optional sign and at least one digit; anything else is refused. */
  function Parse(s: string): Option<int> {
    var body := if s != [] && (s[0] == '-' || s[0] == '+') then s[1..] else s;
    if body == [] || !AllDigits(body) then None
    else if s[0] == '-' then Some(Opposite(Value(body))) else Some(Value(body))
  }

  lemma {:induction false} ValueOfRender(n: nat)
    ensures Value(Render(n)) == n
  {
    if n >= 10 {
      ValueOfRender(n / 10);
      assert Render(n)[..|Render(n)| - 1] == Render(n / 10);
    }
  }

  /** A negative number has its sign in front. */
  function Text(n: int): string { if n < 0 then "-" + Render(Magnitude(n)) else Render(n) }

  lemma ParseText(n: int)
    ensures Parse(Text(n)) == Some(n)
  {
    var r := Render(Magnitude(n));
    ValueOfRender(Magnitude(n));
    assert '0' <= r[0] <= '9';
    if n < 0 { assert Text(n)[1..] == r; }
  }
}
