/** Models of the two Go `strconv` parsers that config/config.go calls.
    `ParseBool` is written out exactly. `ParseInt(s, 0, 0)` accepts a grammar
    with base prefixes, octal leading zeros and digit-separating underscores;
    instead of reimplementing it, `IsParseInt` states the part of its
    behaviour the configuration logic depends on, and any parser meeting it
    may be passed to the configuration model. */
module Strconv {
  import opened Wrappers
  import opened GoInt

  /** The strings `strconv.ParseBool` reads as true and as false. */
  const TrueStrings: set<string> := {"1", "t", "T", "TRUE", "true", "True"}
  const FalseStrings: set<string> := {"0", "f", "F", "FALSE", "false", "False"}

  /** `strconv.ParseBool`: `None` stands for its syntax error. */
  function ParseBool(s: string): (r: Option<bool>)
    ensures r == Some(true) <==> s in TrueStrings
    ensures r == Some(false) <==> s in FalseStrings
    ensures r == None <==> s !in TrueStrings && s !in FalseStrings
  {
    if s == "1" || s == "t" || s == "T" || s == "true" || s == "TRUE" || s == "True" then
      Some(true)
    else if s == "0" || s == "f" || s == "F" || s == "false" || s == "FALSE" || s == "False" then
      Some(false)
    else
      None
  }

  /** Every string ParseBool accepts is in exactly one of the two sets, and
      the empty string (an unset variable) is in neither. */
  lemma ParseBoolSetsDisjoint()
    ensures TrueStrings !! FalseStrings
    ensures "" !in TrueStrings && "" !in FalseStrings
    ensures ParseBool("") == None
  {
  }

  predicate IsDigit(c: char) {
    '0' <= c <= '9'
  }

  /** A non-empty run of decimal digits with no superfluous leading zero.
      The restriction matters: base 0 reads "010" as octal 8 and rejects "08". */
  predicate IsCanonicalDigits(s: string) {
    && |s| > 0
    && (forall i :: 0 <= i < |s| ==> IsDigit(s[i]))
    && (|s| == 1 || s[0] != '0')
  }

  /** An optional sign followed by canonical digits. */
  predicate IsCanonicalDecimal(s: string) {
    if |s| > 0 && (s[0] == '+' || s[0] == '-') then IsCanonicalDigits(s[1..])
    else IsCanonicalDigits(s)
  }

  /** The value of a run of decimal digits, most significant first. */
  function DigitsValue(s: string): (v: nat)
    requires forall i :: 0 <= i < |s| ==> IsDigit(s[i])
  {
    if |s| == 0 then 0
    else
      var last := s[|s| - 1];
      assert IsDigit(last);
      DigitsValue(s[..|s| - 1]) * 10 + (last as int - '0' as int)
  }

  /** Appending a digit shifts the value one decimal place. */
  lemma DigitsValueSnoc(s: string, c: char)
    requires forall i :: 0 <= i < |s| ==> IsDigit(s[i])
    requires IsDigit(c)
    ensures DigitsValue(s + [c]) == DigitsValue(s) * 10 + (c as int - '0' as int)
  {
    assert (s + [c])[..|s|] == s;
  }

  /** The value a canonical decimal denotes. */
  function DecimalValue(s: string): int
    requires IsCanonicalDecimal(s)
  {
    if |s| > 0 && s[0] == '-' then 0 - DigitsValue(s[1..]) as int
    else if |s| > 0 && s[0] == '+' then DigitsValue(s[1..])
    else DigitsValue(s)
  }

  /** What the configuration model relies on from `strconv.ParseInt(s, 0, 0)`
      (`None` standing for a non-nil error): the empty string is an error;
      every value returned fits in an `int64`; a canonical decimal yields its
      value, or a range error when that value does not fit. */
  ghost predicate IsParseInt(parseInt: string -> Option<int>)
    ensures IsParseInt(parseInt) ==> parseInt("0") == Some(0) && parseInt("-1") == Some(-1)
  {
    assert IsCanonicalDecimal("0") && DecimalValue("0") == 0 by {
      DigitsValueSnoc("", '0');
      assert "" + ['0'] == "0";
    }
    assert IsCanonicalDecimal("-1") && DecimalValue("-1") == -1 by {
      DigitsValueSnoc("", '1');
      assert "" + ['1'] == "1";
      assert "-1"[1..] == "1";
    }
    && parseInt("") == None
    && (forall s :: parseInt(s).Some? ==> IsInt64(parseInt(s).value))
    && (forall s :: IsCanonicalDecimal(s) ==>
          parseInt(s) == (if IsInt64(DecimalValue(s)) then Some(DecimalValue(s)) else None))
  }

  /** A parser for the canonical-decimal part of the grammar; it rejects
      everything else, including forms `strconv.ParseInt` accepts. */
  function DecimalParseInt(s: string): (r: Option<int>)
    ensures r.Some? ==> IsCanonicalDecimal(s) && r.value == DecimalValue(s) && IsInt64(r.value)
    ensures IsCanonicalDecimal(s) && IsInt64(DecimalValue(s)) ==> r.Some?
  {
    if IsCanonicalDecimal(s) && IsInt64(DecimalValue(s)) then Some(DecimalValue(s)) else None
  }

  /** The contract can be met, so results proved under it are not vacuous. */
  lemma DecimalParseIntIsParseInt()
    ensures IsParseInt(DecimalParseInt)
  {
  }

  /** The smallest number of seconds whose Duration overflows, spelled in
      decimal, denotes that number. */
  lemma OverflowingDecimalValue()
    ensures IsCanonicalDecimal("9223372037") && DecimalValue("9223372037") == 9_223_372_037
  {
    assert DigitsValue("9") == 9 by {
      DigitsValueSnoc("", '9');
      assert "" + ['9'] == "9";
    }
    assert DigitsValue("92") == 92 by {
      DigitsValueSnoc("9", '2');
      assert "9" + ['2'] == "92";
    }
    assert DigitsValue("922") == 922 by {
      DigitsValueSnoc("92", '2');
      assert "92" + ['2'] == "922";
    }
    assert DigitsValue("9223") == 9223 by {
      DigitsValueSnoc("922", '3');
      assert "922" + ['3'] == "9223";
    }
    assert DigitsValue("92233") == 92233 by {
      DigitsValueSnoc("9223", '3');
      assert "9223" + ['3'] == "92233";
    }
    assert DigitsValue("922337") == 922337 by {
      DigitsValueSnoc("92233", '7');
      assert "92233" + ['7'] == "922337";
    }
    assert DigitsValue("9223372") == 9223372 by {
      DigitsValueSnoc("922337", '2');
      assert "922337" + ['2'] == "9223372";
    }
    assert DigitsValue("92233720") == 92233720 by {
      DigitsValueSnoc("9223372", '0');
      assert "9223372" + ['0'] == "92233720";
    }
    assert DigitsValue("922337203") == 922337203 by {
      DigitsValueSnoc("92233720", '3');
      assert "92233720" + ['3'] == "922337203";
    }
    assert DigitsValue("9223372037") == 9223372037 by {
      DigitsValueSnoc("922337203", '7');
      assert "922337203" + ['7'] == "9223372037";
    }
  }

  /** A sign is part of a canonical decimal; a superfluous leading zero, the
      empty string and a lone sign lie outside the contract's decimal clause. */
  lemma DecimalExamples()
    ensures IsCanonicalDecimal("-3") && DecimalValue("-3") == -3
    ensures !IsCanonicalDecimal("010") && !IsCanonicalDecimal("") && !IsCanonicalDecimal("+")
  {
    DigitsValueSnoc("", '3');
    assert "" + ['3'] == "3";
    assert "-3"[1..] == "3";
  }
}
