// Numbers in headers: message and thread ids are printed in decimal and parsed back.
module Decimals {
  import opened Common
  import opened AccessIds

  predicate IsDigit(c: char) {
    '0' <= c <= '9'
  }

  predicate AllDigits(s: string) {
    forall i :: 0 <= i < |s| ==> IsDigit(s[i])
  }

  function Value(s: string): nat
    requires AllDigits(s)
  {
    if s == [] then 0 else 10 * Value(s[..|s| - 1]) + (s[|s| - 1] as int - '0' as int)
  }

  // std::format("{}", x)
  function Print(x: Int64): string {
    if x < 0 then "-" + Decimal(0 - x as int) else Decimal(x)
  }

  // -1 stands for everything that is not a decimal number of 64 bits, trailing characters included.
  function ParseI64(s: string): Int64 {
    var negative := s != [] && s[0] == '-';
    var digits := if negative then s[1..] else s;
    if digits == [] || !AllDigits(digits) then NO_ACCESS_ID
    else
      var value: int := if negative then 0 - Value(digits) as int else Value(digits) as int;
      if -RECEIVING_MASK <= value < RECEIVING_MASK then value else NO_ACCESS_ID
  }

  lemma {:induction false} DecimalReadsBack(n: nat)
    ensures Decimal(n) != [] && AllDigits(Decimal(n)) && Value(Decimal(n)) == n
  {
    var s := Decimal(n);
    if n >= 10 {
      DecimalReadsBack(n / 10);
    }
    assert s[..|s| - 1] == if n < 10 then [] else Decimal(n / 10);
    assert s[|s| - 1] == ('0' as int + n % 10) as char;
  }

  // Every 64-bit id survives its header, marked ids, which are negative, included.
  lemma ParseAfterPrint(x: Int64)
    ensures ParseI64(Print(x)) == x
  {
    var n: int := x;
    if n < 0 {
      DecimalReadsBack(-n);
      assert ("-" + Decimal(-n))[1..] == Decimal(-n);
    } else {
      DecimalReadsBack(n);
      assert IsDigit(Decimal(n)[0]);
    }
  }

  // Text that is a decimal number: digits, with a minus sign or without.
  ghost predicate Writes(s: string, value: int) {
    exists digits: string :: digits != [] && AllDigits(digits) &&
      ((s == digits && value == Value(digits)) || (s == "-" + digits && value == 0 - Value(digits) as int))
  }

  // Text is read as a number of 64 bits exactly when it is one, and as -1 otherwise.
  lemma ParseExactly(s: string, value: Int64)
    ensures value != NO_ACCESS_ID ==> (ParseI64(s) == value <==> Writes(s, value))
    ensures (forall v: Int64 :: Writes(s, v) ==> v == NO_ACCESS_ID) ==> ParseI64(s) == NO_ACCESS_ID
  {
    WritesExactly(s, value);
    WritesExactly(s, ParseI64(s));
    hide Writes, Value;
  }

  lemma WritesExactly(s: string, value: int)
    ensures var digits := if s != [] && s[0] == '-' then s[1..] else s;
            Writes(s, value) <==> digits != [] && AllDigits(digits)
                                  && value == if s[0] == '-' then 0 - Value(digits) as int else Value(digits)
  {
    var negative := s != [] && s[0] == '-';
    var digits := if negative then s[1..] else s;
    if negative {
      assert s == "-" + digits;
    }
    hide Value;
    if Writes(s, value) {
      var d: string :| d != [] && AllDigits(d) &&
        ((s == d && value == Value(d)) || (s == "-" + d && value == 0 - Value(d) as int));
      if s == d {
        assert IsDigit(s[0]);
      } else {
        assert s[1..] == d;
      }
    }
  }

  lemma {:induction false} LeadingZero(s: string)
    requires AllDigits(s)
    ensures AllDigits("0" + s) && Value("0" + s) == Value(s)
  {
    var t := "0" + s;
    if s == [] {
      assert t[..|t| - 1] == [];
    } else {
      LeadingZero(s[..|s| - 1]);
      assert t[..|t| - 1] == "0" + s[..|s| - 1];
    }
  }
}
