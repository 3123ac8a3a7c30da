/**
 * The experience heuristic: the sum of every whitespace-separated all-digit
 * token of every "Duration" string, and the three-way tier of that sum.
 * The numbers of a range are added: "2019 2021" counts as 4040 years.
 */
module Experience {
  import opened PyStr
  import opened ResumeData

  /** The value `int(word)` contributes when `word.isdigit()`, and 0 otherwise. */
  function TokenYears(w: string): nat {
    if IsDigitWord(w) then DigitsValue(w) else 0
  }

  /** `sum(int(word) for word in ws if word.isdigit())`. */
  function DigitTokenSum(ws: seq<string>): nat {
    if ws == [] then 0 else TokenYears(ws[0]) + DigitTokenSum(ws[1..])
  }

  /** The years one Duration string contributes. */
  function DurationYears(duration: string): nat {
    DigitTokenSum(Tokens(duration))
  }

  /** A Duration that `.split()` can be called on: absent, or a string. */
  predicate HasTextDuration(e: Entry) {
    "Duration" in e ==> e["Duration"].Text?
  }

  /** `exp.get("Duration", "0 years")`. */
  function Duration(e: Entry): string
    requires HasTextDuration(e)
  {
    if "Duration" in e then e["Duration"].s else "0 years"
  }

  function EntryYears(e: Entry): nat
    requires HasTextDuration(e)
  {
    DurationYears(Duration(e))
  }

  /** The total `calculate_experience` returns for a work-experience list. */
  function TotalExperience(es: seq<Entry>): nat
    requires forall k :: 0 <= k < |es| ==> HasTextDuration(es[k])
  {
    if es == [] then 0 else EntryYears(es[0]) + TotalExperience(es[1..])
  }

  /** `calculate_experience`: accumulates the years of each record in turn. */
  method CalculateExperience(workExperience: seq<Entry>) returns (total: nat)
    requires forall k :: 0 <= k < |workExperience| ==> HasTextDuration(workExperience[k])
    ensures total == TotalExperience(workExperience)
  {
    total := 0;
    for i := 0 to |workExperience|
      invariant total == TotalExperience(workExperience[..i])
    {
      var exp := workExperience[i];
      var duration := Duration(exp);
      var years := DurationYears(duration);
      TotalExperienceAppend(workExperience[..i], [exp]);
      assert workExperience[..i + 1] == workExperience[..i] + [exp];
      total := total + years;
    }
    assert workExperience[..|workExperience|] == workExperience;
  }

  lemma {:induction false} DigitTokenSumAppend(a: seq<string>, b: seq<string>)
    ensures DigitTokenSum(a + b) == DigitTokenSum(a) + DigitTokenSum(b)
  {
    if a == [] {
      assert a + b == b;
    } else {
      assert (a + b)[1..] == a[1..] + b;
      DigitTokenSumAppend(a[1..], b);
    }
  }

  /** The total is additive over concatenation of work-experience lists. */
  lemma {:induction false} TotalExperienceAppend(a: seq<Entry>, b: seq<Entry>)
    requires forall k :: 0 <= k < |a| ==> HasTextDuration(a[k])
    requires forall k :: 0 <= k < |b| ==> HasTextDuration(b[k])
    ensures TotalExperience(a + b) == TotalExperience(a) + TotalExperience(b)
  {
    if a == [] {
      assert a + b == b;
    } else {
      assert (a + b)[1..] == a[1..] + b;
      TotalExperienceAppend(a[1..], b);
    }
  }

  /** Durations joined by one whitespace character contribute the sum of what each contributes. */
  lemma DurationYearsOfSpaceJoin(d1: string, c: char, d2: string)
    requires IsSpace(c)
    ensures DurationYears(d1 + [c] + d2) == DurationYears(d1) + DurationYears(d2)
  {
    TokensOfSpaceJoin(d1, c, d2);
    DigitTokenSumAppend(Tokens(d1), Tokens(d2));
  }

  /** A single word without whitespace contributes its value when all digits, and nothing otherwise. */
  lemma DurationYearsOfWord(w: string)
    requires w != [] && NoSpace(w)
    ensures IsDigitWord(w) ==> DurationYears(w) == DigitsValue(w)
    ensures !IsDigitWord(w) ==> DurationYears(w) == 0
  {
    TokensOfWord(w);
    assert [w][1..] == [];
    assert DurationYears(w) == TokenYears(w) + DigitTokenSum([]);
  }

  /** The total of an empty list is zero. */
  lemma EmptyListHasNoExperience()
    ensures TotalExperience([]) == 0
  {
  }

  /** Two words joined by a space contribute what each word contributes. */
  lemma DurationYearsOfTwoWords(a: string, b: string)
    requires a != [] && NoSpace(a) && b != [] && NoSpace(b)
    ensures DurationYears(a + " " + b) == TokenYears(a) + TokenYears(b)
  {
    assert a + " " + b == a + [' '] + b;
    DurationYearsOfSpaceJoin(a, ' ', b);
    DurationYearsOfWord(a);
    DurationYearsOfWord(b);
  }

  /** A record without a Duration key counts as "0 years" and contributes nothing. */
  lemma MissingDurationContributesZero(e: Entry)
    requires "Duration" !in e
    ensures EntryYears(e) == 0
  {
    DurationYearsOfTwoWords("0", "years");
    assert "0" + " " + "years" == "0 years";
    assert !IsDigit("years"[0]);
    assert NatToString(0) == "0";
    DigitsValueOfNatToString(0);
  }

  /** The two years of the range "2019 2021" are both added, giving 4040. */
  lemma YearRangeIsAdded()
    ensures DurationYears("2019 2021") == 4040
  {
    DurationYearsOfTwoWords("2019", "2021");
    assert "2019" + " " + "2021" == "2019 2021";
    YearTokens();
  }

  lemma YearTokens()
    ensures TokenYears("2019") == 2019 && TokenYears("2021") == 2021
  {
    assert "2019" == ['2', '0', '1', '9'] && "2021" == ['2', '0', '2', '1'];
    FourDigitsValue('2', '0', '1', '9');
    FourDigitsValue('2', '0', '2', '1');
  }

  /** "3 years" contributes 3. */
  lemma NumberBeforeUnitCounts()
    ensures DurationYears("3 years") == 3
  {
    DurationYearsOfTwoWords("3", "years");
    assert "3" + " " + "years" == "3 years";
    assert !IsDigit("years"[0]);
    assert NatToString(3) == "3";
    DigitsValueOfNatToString(3);
  }

  /** A bare year such as "2021" counts as that many years. */
  lemma BareYearCounts()
    ensures DurationYears("2021") == 2021
  {
    DurationYearsOfWord("2021");
    YearTokens();
  }

  /** Tokens with any non-digit character contribute nothing: "3+" and "2019-2021". */
  lemma MixedTokensContributeZero()
    ensures DurationYears("3+") == 0
    ensures DurationYears("2019-2021") == 0
  {
    DurationYearsOfWord("3+");
    assert !IsDigit("3+"[1]);
    DurationYearsOfWord("2019-2021");
    assert !IsDigit("2019-2021"[4]);
  }

  /** The three experience tiers of `generate_interview_questions`. */
  datatype Tier = ZeroToOne | TwoToTen | TenPlus

  /** The tier label handed to the question prompt. */
  function Label(t: Tier): string {
    match t
    case ZeroToOne => "0-1 years"
    case TwoToTen => "2-10 years"
    case TenPlus => "10+ years"
  }

  /** The bucket of a total: at most 1; more than 1 and at most 10; more than 10. */
  function TierOf(total: int): (t: Tier)
    ensures t == ZeroToOne <==> total <= 1
    ensures t == TwoToTen <==> 1 < total <= 10
    ensures t == TenPlus <==> 10 < total
  {
    if total <= 1 then ZeroToOne else if total <= 10 then TwoToTen else TenPlus
  }

  function Rank(t: Tier): nat {
    match t
    case ZeroToOne => 0
    case TwoToTen => 1
    case TenPlus => 2
  }

  /** More experience never gives a lower tier. */
  lemma TierMonotone(a: int, b: int)
    requires a <= b
    ensures Rank(TierOf(a)) <= Rank(TierOf(b))
  {
  }

  /** The three labels are distinct, so the label determines the tier. */
  lemma LabelInjective(s: Tier, t: Tier)
    requires Label(s) == Label(t)
    ensures s == t
  {
    assert Label(ZeroToOne)[0] == '0' && Label(TwoToTen)[0] == '2' && Label(TenPlus)[0] == '1';
  }

  /** The total of two records is the sum of what each contributes. */
  lemma TotalOfTwo(e0: Entry, e1: Entry)
    requires HasTextDuration(e0) && HasTextDuration(e1)
    ensures TotalExperience([e0, e1]) == EntryYears(e0) + EntryYears(e1)
  {
    var es := [e0, e1];
    assert es[1..] == [e1];
    assert [e1][1..] == [];
    assert TotalExperience([e1]) == EntryYears(e1) + TotalExperience([]);
    assert TotalExperience(es) == EntryYears(e0) + TotalExperience([e1]);
  }

  /** Durations "3 years" and "2021" sum to 2024, which is in the top tier. */
  lemma NaiveSumExample(e0: Entry, e1: Entry)
    requires e0 == map["Duration" := Text("3 years")] && e1 == map["Duration" := Text("2021")]
    ensures TotalExperience([e0, e1]) == 2024
    ensures TierOf(TotalExperience([e0, e1])) == TenPlus
  {
    TotalOfTwo(e0, e1);
    assert Duration(e0) == "3 years" && Duration(e1) == "2021";
    NumberBeforeUnitCounts();
    BareYearCounts();
  }

  /** No work experience puts the candidate in the lowest tier. */
  lemma EmptyListIsLowestTier()
    ensures Label(TierOf(TotalExperience([]))) == "0-1 years"
  {
  }
}
