/** analysis_mcp/analyzers.py: bounding and shaping the advice. */
module Advice {

  const MAX_ADVICE_CHARS := 200000
  const COUNT_SLACK := 8
  /** What is kept of a clipped text: the limit, less the marker for a count of one digit and the slack. */
  const BUDGET := 199971

  function Digit(d: nat): char
    requires d < 10
  {
    "0123456789"[d]
  }

  /** The decimal rendering of a count. */
  function Decimal(n: nat): (s: string)
    ensures s != ""
  {
    if n < 10 then [Digit(n)] else Decimal(n / 10) + [Digit(n % 10)]
  }

  function DecimalInt(n: int): string { if n < 0 then "-" + Decimal(-n) else Decimal(n) }

  function DigitValue(c: char): nat { if '0' <= c <= '9' then c as nat - '0' as nat else 0 }

  /** The count a reader takes a decimal rendering for. */
  function Value(s: string): nat {
    if s == "" then 0 else 10 * Value(s[..|s| - 1]) + DigitValue(s[|s| - 1])
  }

  lemma {:induction false} DecimalReadsBack(n: nat)
    ensures Value(Decimal(n)) == n
  {
    if n >= 10 {
      DecimalReadsBack(n / 10);
      assert Decimal(n)[..|Decimal(n)| - 1] == Decimal(n / 10);
    } else {
      assert Value(Decimal(n)[..0]) == 0;
    }
  }

  function Ten(k: nat): nat { if k == 0 then 1 else 10 * Ten(k - 1) }

  lemma {:induction false} DecimalLength(n: nat, k: nat)
    requires k > 0
    ensures |Decimal(n)| <= k <==> n < Ten(k)
  {
    if n < 10 {
      TenGrows(k - 1);
    } else if k == 1 {
      assert Ten(1) == 10 * Ten(0);
    } else {
      DecimalLength(n / 10, k - 1);
      assert n / 10 < Ten(k - 1) <==> n < 10 * Ten(k - 1);
    }
  }

  lemma TenGrows(k: nat)
    ensures Ten(k) >= 1
  {
  }

  lemma NineDigits(n: nat)
    ensures |Decimal(n)| <= 9 <==> n < 1000000000
  {
    DecimalLength(n, 9);
    assert Ten(9) == 10 * (10 * (10 * (10 * (10 * (10 * (10 * (10 * (10 * Ten(0)))))))));
  }

  const BEFORE_COUNT := "\n\U{2026}[truncated "
  const AFTER_COUNT := " chars]"

  function ClipMarker(dropped: nat): string { BEFORE_COUNT + Decimal(dropped) + AFTER_COUNT }

  /** `_bounded` */
  function Bounded(text: string): string {
    if |text| <= MAX_ADVICE_CHARS then text
    else text[..BUDGET] + ClipMarker(|text| - BUDGET)
  }

  lemma BudgetIs()
    ensures MAX_ADVICE_CHARS - |ClipMarker(0)| - COUNT_SLACK == BUDGET
    ensures |BEFORE_COUNT| == 13 && |AFTER_COUNT| == 7
  {
  }

  lemma ClippedShape(text: string)
    requires |text| > MAX_ADVICE_CHARS
    ensures Bounded(text) == text[..BUDGET] + ClipMarker(|text| - BUDGET)
  {
  }

  /** A clipped text keeps its head and says how much is missing: kept plus reported is the whole. */
  lemma ClippingIsAccountedFor(text: string)
    requires |text| > MAX_ADVICE_CHARS
    ensures exists dropped: nat ::
              Bounded(text) == text[..BUDGET] + ClipMarker(dropped) &&
              BUDGET + Value(Decimal(dropped)) == |text|
  {
    ClippedShape(text);
    DecimalReadsBack(|text| - BUDGET);
  }

  lemma {:induction false} FewDigits(d: nat)
    requires d >= 3
    ensures 20 + d < Ten(d - 1)
  {
    if d == 3 {
      assert Ten(2) == 10 * (10 * Ten(0));
    } else {
      FewDigits(d - 1);
    }
  }

  lemma LengthOfClipped(text: string)
    requires |text| > MAX_ADVICE_CHARS
    ensures |Bounded(text)| == BUDGET + 20 + |Decimal(|text| - BUDGET)|
  {
    BudgetIs();
  }

  /**
   * The bound holds, and bounding again changes nothing, exactly when the text fits or the number of
   * dropped characters has at most nine digits.
   */
  lemma BoundHoldsIff(text: string)
    ensures var fits := |text| <= MAX_ADVICE_CHARS || |text| - BUDGET < 1000000000;
            (|Bounded(text)| <= MAX_ADVICE_CHARS <==> fits) && (Bounded(Bounded(text)) == Bounded(text) <==> fits)
  {
    if |text| > MAX_ADVICE_CHARS {
      var digits := |Decimal(|text| - BUDGET)|;
      NineDigits(|text| - BUDGET);
      LengthOfClipped(text);
      if digits > 9 {
        LengthOfClipped(Bounded(text));
        FewDigits(digits);
        DecimalLength(20 + digits, digits - 1);
      }
    }
  }

  /** A text whose clipped form is over the limit. */
  lemma LongTextExceedsTheLimit()
    ensures exists text :: |text| == BUDGET + 1000000000 && |Bounded(text)| > MAX_ADVICE_CHARS
  {
    var text := seq(BUDGET + 1000000000, _ => 'a');
    BoundHoldsIff(text);
  }

  // ---- _finalize ----

  function ExitMarker(name: string, code: int): string {
    "[analyzer '" + name + "' exited " + DecimalInt(code) + "]\n"
  }

  function NoFindings(name: string): string {
    "[analyzer '" + name + "' ran successfully but produced no findings \U{2014} " +
    "likely no matching activity in this trace]"
  }

  /** `str.isspace`, as `strip` uses it. */
  predicate IsSpace(c: char) {
    '\t' <= c <= '\r' || '\U{1C}' <= c <= ' ' || '\U{2000}' <= c <= '\U{200A}' ||
    c in {'\U{85}', '\U{A0}', '\U{1680}', '\U{2028}', '\U{2029}', '\U{202F}', '\U{205F}', '\U{3000}'}
  }

  predicate Blank(s: string) { forall c :: c in s ==> IsSpace(c) }

  /** `_finalize`; `quiet` is the removal of a tool's noise lines from its output. */
  function Finalize(name: string, code: int, stdout: string, stderr: string, quiet: string -> string): string {
    if code != 0 then Bounded(ExitMarker(name, code) + (stderr + "\n---\n" + stdout))
    else
      var out := quiet(stdout);
      if Blank(out) then NoFindings(name) else Bounded(out)
  }

  /** However long the output, a failing tool's advice opens with its exit marker. */
  lemma FailureStaysVisible(name: string, code: int, stdout: string, stderr: string, quiet: string -> string)
    requires code != 0 && |ExitMarker(name, code)| <= BUDGET
    ensures ExitMarker(name, code) <= Finalize(name, code, stdout, stderr, quiet)
  {
  }

  /** A successful tool's advice is never blank. */
  lemma SuccessSaysSomething(name: string, stdout: string, stderr: string, quiet: string -> string)
    ensures !Blank(Finalize(name, 0, stdout, stderr, quiet))
  {
    BudgetIs();
    var out := quiet(stdout);
    if Blank(out) {
      assert NoFindings(name)[0] == '[' && '[' in NoFindings(name);
    } else if |out| > MAX_ADVICE_CHARS {
      assert Bounded(out)[BUDGET + 2] == BEFORE_COUNT[2] == '[';
      assert '[' in Bounded(out);
    }
  }

  // ---- what the advice says ----

  /** A failing tool's advice, in full where it fits: the marker, its errors, a line, its output. */
  lemma FailureAdviceInFull(name: string, code: int, stdout: string, stderr: string, quiet: string -> string)
    requires code != 0
    ensures var full := "[analyzer '" + name + "' exited " + DecimalInt(code) + "]\n" + stderr + "\n---\n" + stdout;
            Finalize(name, code, stdout, stderr, quiet) == Bounded(full) &&
            (|full| <= 200000 ==> Finalize(name, code, stdout, stderr, quiet) == full)
  {
    Regrouped("[analyzer '" + name + "' exited " + DecimalInt(code) + "]\n", stderr, "\n---\n", stdout);
  }

  lemma Regrouped(a: string, b: string, c: string, d: string)
    ensures a + (b + c + d) == a + b + c + d
  {
  }

  /** A successful tool's advice is its quieted output, in full where it fits. */
  lemma SuccessAdviceInFull(name: string, stdout: string, stderr: string, quiet: string -> string)
    requires exists i :: 0 <= i < |quiet(stdout)| && '!' <= quiet(stdout)[i] <= '~'
    ensures Finalize(name, 0, stdout, stderr, quiet) == Bounded(quiet(stdout))
    ensures |quiet(stdout)| <= 200000 ==> Finalize(name, 0, stdout, stderr, quiet) == quiet(stdout)
  {
    var out := quiet(stdout);
    var i :| 0 <= i < |out| && '!' <= out[i] <= '~';
    assert out[i] in out && !IsSpace(out[i]);
  }

  /** The characters that count as blank, by their code points. */
  lemma BlankCharacters(c: char)
    ensures IsSpace(c) <==>
            c as int in {9, 10, 11, 12, 13, 28, 29, 30, 31, 32, 133, 160, 5760, 8192, 8193, 8194, 8195, 8196, 8197,
                         8198, 8199, 8200, 8201, 8202, 8232, 8233, 8239, 8287, 12288}
  {
  }

  /** Output of blanks and line ends alone is no finding. */
  lemma BlankIsNoFinding(name: string, stdout: string, stderr: string, quiet: string -> string)
    requires forall i :: 0 <= i < |quiet(stdout)| ==> quiet(stdout)[i] in {' ', '\t', '\n', '\r'}
    ensures Finalize(name, 0, stdout, stderr, quiet) ==
            "[analyzer '" + name + "' ran successfully but produced no findings \U{2014} " +
            "likely no matching activity in this trace]"
  {
  }

  /** The text after the kept head of a clipped advice. */
  lemma ClipMarkerText(dropped: nat)
    ensures ClipMarker(dropped) == "\n\U{2026}[truncated " + Decimal(dropped) + " chars]"
  {
  }

  /** The exit code a reader takes the marker for. */
  function SignedValue(s: string): int { if s != "" && s[0] == '-' then 0 - Value(s[1..]) else Value(s) }

  lemma {:induction false} DecimalStartsWithADigit(n: nat)
    ensures Decimal(n)[0] != '-'
  {
    if n >= 10 { DecimalStartsWithADigit(n / 10); }
  }

  lemma ExitCodeReadsBack(code: int)
    ensures SignedValue(DecimalInt(code)) == code
  {
    if code < 0 { MinusReadsBack(-code); } else { PlainReadsBack(code); }
  }

  lemma PlainReadsBack(n: nat)
    ensures SignedValue(Decimal(n)) == n
  {
    DecimalReadsBack(n);
    DecimalStartsWithADigit(n);
  }

  lemma MinusReadsBack(n: nat)
    ensures SignedValue("-" + Decimal(n)) == 0 - n
  {
    DecimalReadsBack(n);
    assert ("-" + Decimal(n))[1..] == Decimal(n);
  }
}
