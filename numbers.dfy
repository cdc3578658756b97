/**
 * int(text) for the texts the OBJ reader hands it: an optional sign, then
 * decimal digits, where a single '_' may separate two digits. Leading zeros
 * are accepted. The text never holds whitespace here, since it comes from a token.
 */
module Numbers {
  import opened Results

  predicate IsDigit(c: char) {
    '0' <= c <= '9'
  }

  function DigitValue(c: char): (v: nat)
    requires IsDigit(c)
    ensures v < 10
  {
    c as int - '0' as int
  }

  function DigitChar(v: nat): (c: char)
    requires v < 10
    ensures IsDigit(c) && DigitValue(c) == v
  {
    ('0' as int + v) as char
  }

  /** The value of a digit string with optional single underscores between digits,
      or None when the text is not of that shape. */
  function DigitsValue(s: string): Option<nat>
    decreases |s|
  {
    if s == [] || !IsDigit(s[|s| - 1]) then None
    else
      var init := s[..|s| - 1];
      var d := DigitValue(s[|s| - 1]);
      if init == [] then Some(d)
      else
        var body := if init[|init| - 1] == '_' then init[..|init| - 1] else init;
        match DigitsValue(body)
        case None => None
        case Some(v) => Some(10 * v + d)
  }

  /** int(s): None stands for the ValueError Python raises. */
  function ParseInt(s: string): Option<int> {
    if s != [] && (s[0] == '+' || s[0] == '-') then
      match DigitsValue(s[1..])
      case None => None
      case Some(v) => Some(if s[0] == '-' then 0 - v as int else v as int)
    else
      match DigitsValue(s)
      case None => None
      case Some(v) => Some(v)
  }

  /** Position i of s holds a digit, or a '_' between two digits. */
  predicate Slot(s: string, i: int)
    requires 0 <= i < |s|
  {
    IsDigit(s[i]) || (s[i] == '_' && 0 < i < |s| - 1 && IsDigit(s[i - 1]) && IsDigit(s[i + 1]))
  }

  /** A run of digits in which each '_' stands between two digits. */
  predicate DigitsLiteral(s: string) {
    s != [] && forall i :: 0 <= i < |s| ==> Slot(s, i)
  }

  /** The texts int() accepts from a token: an optional sign, then digits
      separated by single underscores. */
  predicate IntLiteral(s: string) {
    if s != [] && (s[0] == '+' || s[0] == '-') then DigitsLiteral(s[1..]) else DigitsLiteral(s)
  }

  /** A position whose neighbours both lie in a prefix p of s is judged alike in p and s. */
  lemma SlotOfPrefix(p: string, s: string, i: int)
    requires |p| <= |s| && p == s[..|p|] && 0 <= i < |p| - 1
    ensures Slot(p, i) == Slot(s, i)
  {
    assert p[i] == s[i] && p[i + 1] == s[i + 1];
    if 0 < i {
      assert p[i - 1] == s[i - 1];
    }
  }

  /** DigitsValue reads exactly the digit runs. */
  lemma {:induction false} DigitsValueSpec(s: string)
    ensures DigitsValue(s).Some? <==> DigitsLiteral(s)
    decreases |s|
  {
    if s == [] {
    } else if !IsDigit(s[|s| - 1]) {
      assert !Slot(s, |s| - 1);
    } else {
      var last := |s| - 1;
      assert Slot(s, last);
      var init := s[..last];
      if init == [] {
        assert DigitsLiteral(s) by {
          forall i | 0 <= i < |s| ensures Slot(s, i) { assert i == last; }
        }
      } else if init[|init| - 1] == '_' {
        var body := init[..|init| - 1];
        var u := |s| - 2;
        DigitsValueSpec(body);
        assert body == s[..u];
        if body == [] {
          assert !Slot(s, u);
        } else {
          // The '_' at u is a slot exactly when the body ends in a digit.
          assert Slot(s, u) == IsDigit(body[|body| - 1]);
          // The body's last position is a slot exactly when it is a digit, in both texts.
          assert Slot(body, |body| - 1) == IsDigit(body[|body| - 1]);
          assert Slot(s, u - 1) == IsDigit(body[|body| - 1]);
          forall i | 0 <= i < |body| - 1 ensures Slot(body, i) == Slot(s, i) {
            SlotOfPrefix(body, s, i);
          }
          if DigitsLiteral(s) {
            assert forall i :: 0 <= i < |body| ==> Slot(body, i) by {
              forall i | 0 <= i < |body| ensures Slot(body, i) { assert Slot(s, i); }
            }
          }
          if DigitsLiteral(body) {
            forall i | 0 <= i < |s| ensures Slot(s, i) {
              if i < |body| { assert Slot(body, i); }
            }
          }
        }
      } else {
        DigitsValueSpec(init);
        // The last position of init holds a digit, a slot in both texts.
        assert Slot(init, |init| - 1) == IsDigit(init[|init| - 1]);
        assert IsDigit(s[last - 1]) ==> Slot(s, last - 1);
        forall i | 0 <= i < |init| - 1 ensures Slot(init, i) == Slot(s, i) {
          SlotOfPrefix(init, s, i);
        }
        if DigitsLiteral(s) {
          assert Slot(s, last - 1);
          assert forall i :: 0 <= i < |init| ==> Slot(init, i) by {
            forall i | 0 <= i < |init| ensures Slot(init, i) { assert Slot(s, i); }
          }
        }
        if DigitsLiteral(init) {
          forall i | 0 <= i < |s| ensures Slot(s, i) {
            if i < |init| { assert Slot(init, i); }
          }
        }
      }
    }
  }

  /** int() accepts a token exactly when it is an integer literal: "_1", "1_",
      "1__2", "+" and "" are all rejected. */
  lemma ParseIntSpec(s: string)
    ensures ParseInt(s).Some? <==> IntLiteral(s)
  {
    if s != [] && (s[0] == '+' || s[0] == '-') {
      DigitsValueSpec(s[1..]);
    } else {
      DigitsValueSpec(s);
    }
  }

  /** int() on a few tokens: misplaced or doubled underscores and a lone sign
      are rejected; leading zeros, an inner underscore and a signed zero are read. */
  lemma ParseIntExamples()
    ensures ParseInt("_1") == None && ParseInt("1_") == None && ParseInt("1__2") == None
    ensures ParseInt("+") == None && ParseInt("") == None
    ensures ParseInt("0_7") == Some(7) && ParseInt("-0") == Some(0) && ParseInt("+12") == Some(12)
  {
  }

  /** The decimal digits of n, most significant first, without leading zeros. */
  function NatDigits(n: nat): (s: string)
    ensures s != [] && forall i :: 0 <= i < |s| ==> IsDigit(s[i])
    decreases n
  {
    if n < 10 then [DigitChar(n)] else NatDigits(n / 10) + [DigitChar(n % 10)]
  }

  /** str(n), the inverse partner of ParseInt. */
  function Decimal(n: int): string {
    if n < 0 then "-" + NatDigits(-n) else NatDigits(n)
  }

  lemma {:induction false} NatDigitsValue(n: nat)
    ensures DigitsValue(NatDigits(n)) == Some(n)
    decreases n
  {
    if n >= 10 {
      var s := NatDigits(n);
      var init := NatDigits(n / 10);
      assert s[..|s| - 1] == init;
      assert IsDigit(init[|init| - 1]);
      NatDigitsValue(n / 10);
    }
  }

  /** Round trip: int(str(n)) == n. */
  lemma DecimalRoundTrip(n: int)
    ensures ParseInt(Decimal(n)) == Some(n)
  {
    if n < 0 {
      NatDigitsValue(-n);
      assert Decimal(n)[1..] == NatDigits(-n);
    } else {
      NatDigitsValue(n);
      assert IsDigit(Decimal(n)[0]);
    }
  }
}
