/** The signing clock's mark on disk: internal/gatewaystate/gatewaystate.go. */
module GatewayMark {
  import opened Base
  import opened Decimal
  import opened SigningClocks

  const MARK_MAX_BYTES := 64

  /** Unicode White_Space, as strings.TrimSpace trims it. */
  predicate IsSpace(c: char) {
    var u := c as int;
    || 0x09 <= u <= 0x0d || u == 0x20 || u == 0x85 || u == 0xa0 || u == 0x1680
    || 0x2000 <= u <= 0x200a || u == 0x2028 || u == 0x2029 || u == 0x202f || u == 0x205f || u == 0x3000
  }

  function TrimLeft(s: string): string {
    if s != [] && IsSpace(s[0]) then TrimLeft(s[1..]) else s
  }

  function TrimRight(s: string): string {
    if s != [] && IsSpace(s[|s| - 1]) then TrimRight(s[..|s| - 1]) else s
  }

  /** A mark's text: a non-negative decimal number, possibly with leading zeros,
      a leading '+' and surrounding white space, below the ceiling. */
  function ParseMark(body: string): (mark: Option<int>)
    ensures mark.Some? ==> MarkInRange(mark.value)
  {
    var trimmed := TrimRight(TrimLeft(body));
    var digits := if trimmed != [] && trimmed[0] == '+' then trimmed[1..] else trimmed;
    if digits == [] || exists c | c in digits :: !IsDigit(c) then None
    else if Value(digits) >= SIGNING_CEILING then None
    else Some(Value(digits))
  }

  predicate AllSpace(s: string) {
    forall c | c in s :: IsSpace(c)
  }

  /** The text `body`, in its parts: white space, a sign, digits, white space. */
  predicate Writes(body: string, left: string, sign: string, digits: string, right: string) {
    && body == left + sign + digits + right
    && AllSpace(left) && AllSpace(right) && (sign == "" || sign == "+")
    && digits != [] && forall c | c in digits :: IsDigit(c)
  }

  lemma {:induction false} TrimLeftOf(left: string, s: string)
    requires AllSpace(left) && s != [] && !IsSpace(s[0])
    ensures TrimLeft(left + s) == s
  {
    if left == [] {
      assert left + s == s;
    } else {
      assert (left + s)[0] == left[0] && left[0] in left && (left + s)[1..] == left[1..] + s;
      TrimLeftOf(left[1..], s);
    }
  }

  lemma {:induction false} TrimRightOf(s: string, right: string)
    requires AllSpace(right) && s != [] && !IsSpace(s[|s| - 1])
    ensures TrimRight(s + right) == s
  {
    var t := s + right;
    if right == [] {
      assert t == s;
    } else {
      assert t[|t| - 1] == Last(right) && Last(right) in right && t[..|t| - 1] == s + Front(right);
      TrimRightOf(s, Front(right));
    }
  }

  lemma {:induction false} TrimmedLeft(s: string) returns (left: string)
    ensures s == left + TrimLeft(s) && AllSpace(left)
  {
    left := [];
    if s != [] && IsSpace(s[0]) {
      var rest := TrimmedLeft(s[1..]);
      left := [s[0]] + rest;
    }
  }

  lemma {:induction false} TrimmedRight(s: string) returns (right: string)
    ensures s == TrimRight(s) + right && AllSpace(right)
  {
    right := [];
    if s != [] && IsSpace(s[|s| - 1]) {
      var rest := TrimmedRight(s[..|s| - 1]);
      right := rest + [s[|s| - 1]];
      assert s == s[..|s| - 1] + [s[|s| - 1]];
    }
  }

  /** Which texts are which mark: exactly the decimal digits of a number in range,
      with leading zeros, one '+' and surrounding white space allowed. */
  lemma ParsesExactly(body: string, mark: int)
    ensures ParseMark(body) == Some(mark) <==>
            && MarkInRange(mark)
            && exists left, sign, digits, right :: Writes(body, left, sign, digits, right) && Value(digits) == mark
  {
    hide ParseMark, Value;
    if ParseMark(body) == Some(mark) {
      var left, sign, digits, right := ParsedIsWritten(body, mark);
      assert Writes(body, left, sign, digits, right) && Value(digits) == mark;
    }
    if left, sign, digits, right :|
      Writes(body, left, sign, digits, right) && Value(digits) == mark && MarkInRange(mark)
    {
      WrittenParses(body, left, sign, digits, right);
    }
  }

  lemma Joined(body: string, left: string, rest: string, trimmed: string, sign: string, digits: string, right: string)
    requires body == left + rest && rest == trimmed + right && trimmed == sign + digits
    ensures body == left + sign + digits + right
  {
  }

  lemma ParsedIsWritten(body: string, mark: int)
    returns (left: string, sign: string, digits: string, right: string)
    requires ParseMark(body) == Some(mark)
    ensures MarkInRange(mark) && Writes(body, left, sign, digits, right) && Value(digits) == mark
  {
    left := TrimmedLeft(body);
    right := TrimmedRight(TrimLeft(body));
    var trimmed := TrimRight(TrimLeft(body));
    sign := if trimmed[0] == '+' then "+" else "";
    digits := if trimmed[0] == '+' then trimmed[1..] else trimmed;
    assert trimmed == sign + digits;
    Joined(body, left, TrimLeft(body), trimmed, sign, digits, right);
    hide TrimLeft, TrimRight, Value;
  }

  lemma WrittenParses(body: string, left: string, sign: string, digits: string, right: string)
    requires Writes(body, left, sign, digits, right) && MarkInRange(Value(digits))
    ensures ParseMark(body) == Some(Value(digits))
  {
    var text := sign + digits;
    assert digits[0] in digits && Last(digits) in digits && Last(digits) == text[|text| - 1];
    assert body == left + (text + right);
    TrimLeftOf(left, text + right);
    TrimRightOf(text, right);
    if sign == "+" {
      assert text[1..] == digits;
    } else {
      assert text == digits;
    }
  }

  function MarkText(mark: nat): string {
    Digits(mark) + "\n"
  }

  /** Every mark the gateway writes is short enough to be read and reads back as
      itself. */
  lemma MarkRoundTrip(mark: int)
    requires MarkInRange(mark)
    ensures |MarkText(mark)| <= MARK_MAX_BYTES && ParseMark(MarkText(mark)) == Some(mark)
  {
    var text, digits := MarkText(mark), Digits(mark);
    assert mark < Pow10(19) by {
      assert Pow10(4) == 10000;
      assert Pow10(8) == 100000000;
      assert Pow10(12) == 1000000000000;
      assert Pow10(16) == 10000000000000000;
    }
    DigitsAtMost(mark, 19);
    assert digits[0] in digits && Last(digits) in digits;
    assert TrimLeft(text) == text;
    assert text[..|text| - 1] == digits;
    assert TrimRight(text) == TrimRight(digits) == digits;
    ValueOfDigits(mark);
  }

  /** What the start reads from the mark file, if there is one. */
  datatype Read = NoMark | Found(mark: int) | Corrupt

  function ReadText(file: Option<string>): Read {
    if file.None? then NoMark
    else if |file.value| > MARK_MAX_BYTES then Corrupt
    else
      var mark := ParseMark(file.value);
      if mark.Some? then Found(mark.value) else Corrupt
  }

  /** The run's mark: the file, and the highest mark this run wrote. */
  class Mark {
    var file: Option<string>
    var persisted: int

    /** An atomic replacement of the file: a failure leaves the old text, or the
        new one when only the directory's sync failed. */
    method WriteAtomically(body: string) returns (ok: bool)
      modifies this`file
      ensures ok ==> file == Some(body)
      ensures !ok ==> file == old(file) || file == Some(body)
    {
      var staged: bool := *;
      if !staged {
        return false;
      }
      file := Some(body);
      ok := *;
    }

    /** Writes the mark unless one at or above it is already persisted. Whatever
        the outcome the file holds what it held or exactly this mark, so it never
        falls for a mark at or above the one it holds. */
    method Persist(mark: int) returns (ok: bool)
      modifies this
      ensures !MarkInRange(mark) ==> !ok && file == old(file)
      ensures MarkInRange(mark) && mark <= old(persisted) ==> ok && file == old(file)
      ensures file == old(file) || ReadText(file) == Found(mark)
      ensures ok ==> mark <= persisted
      ensures ok && mark > old(persisted) ==> ReadText(file) == Found(mark) && persisted == mark
      ensures !ok || mark <= old(persisted) ==> persisted == old(persisted)
      ensures ReadText(old(file)).Found? && ReadText(old(file)).mark <= mark ==>
                ReadText(file).Found? && ReadText(old(file)).mark <= ReadText(file).mark
    {
      if mark < 0 || mark >= SIGNING_CEILING {
        return false;
      }
      if mark <= persisted {
        return true;
      }
      MarkRoundTrip(mark);
      ok := WriteAtomically(Digits(mark) + "\n");
      if !ok {
        return false;
      }
      persisted := mark;
      return true;
    }
  }
}
