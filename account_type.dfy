/** The `company:tier` account selector
    (src/simulator/prop_account/account_type.rs). */
module AccountTypes {
  import opened Wrappers
  import opened Strings
  import F = FttAccounts
  import T = TopstepAccounts

  datatype AccountType = Ftt(ftt: F.FttAccountType) | TopStep(topstep: T.TopstepAccountType)

  const InvalidFormat: string := "Invalid account type format. Use 'company:account_type'."
  const UnknownCompany: string := "Unknown company"

  /** The canonical spelling of an account type, `company:tier`. */
  function Format(a: AccountType): string {
    match a
    case Ftt(t) => "ftt:" + F.Name(t)
    case TopStep(t) => "topstep:" + T.Name(t)
  }

  /** What `AccountType::from_str` does once the input has been split into a
      company and a tier: the company is matched case-insensitively and the
      tier parser's error is passed through unchanged. */
  function ParseCompanyTier(company: string, tier: string): (r: Result<AccountType, string>)
    ensures r == Failure(UnknownCompany) <==> ToLower(company) != "ftt" && ToLower(company) != "topstep"
    ensures ToLower(company) == "ftt" && r.Failure? ==> r.error == F.UnknownFttAccountType
    ensures ToLower(company) == "topstep" && r.Failure? ==> r.error == T.UnknownTopstepAccountType
    ensures r.Success? ==> Format(r.value) == ToLower(company) + [':'] + ToLower(tier)
  {
    var c := ToLower(company);
    if c == "ftt" then
      match F.FromStr(tier)
      case Success(t) => Success(Ftt(t))
      case Failure(e) => Failure(e)
    else if c == "topstep" then
      match T.FromStr(tier)
      case Success(t) => Success(TopStep(t))
      case Failure(e) => Failure(e)
    else
      Failure(UnknownCompany)
  }

  /** `AccountType::from_str`: input that does not split on ':' into exactly
      two parts is a format error, and only such input; every error is one of
      the four messages of the parsers involved. */
  function FromStr(s: string): (r: Result<AccountType, string>)
    ensures r == Failure(InvalidFormat) <==> Occurrences(s, ':') != 1
    ensures r.Failure? ==>
      r.error == InvalidFormat || r.error == UnknownCompany ||
      r.error == F.UnknownFttAccountType || r.error == T.UnknownTopstepAccountType
    ensures Occurrences(s, ':') == 1 ==>
      var company := ToLower(Split(s, ':')[0]);
      && (r == Failure(UnknownCompany) <==> company != "ftt" && company != "topstep")
      && (company == "ftt" && r.Failure? ==> r.error == F.UnknownFttAccountType)
      && (company == "topstep" && r.Failure? ==> r.error == T.UnknownTopstepAccountType)
  {
    var parts := Split(s, ':');
    if |parts| != 2 then Failure(InvalidFormat)
    else ParseCompanyTier(parts[0], parts[1])
  }

  /** Any input with exactly one ':' is a company and a tier joined by it,
      and parses as those two parts. */
  lemma FromStrParts(company: string, tier: string)
    requires ':' !in company && ':' !in tier
    ensures FromStr(company + [':'] + tier) == ParseCompanyTier(company, tier)
  {
    SplitAround(company, ':', tier);
  }

  /** The company is matched case-insensitively: "FTT:gt" parses as "ftt:gt". */
  lemma CompanyCaseInsensitive(company: string, company': string, tier: string)
    requires ':' !in company && ':' !in company' && ':' !in tier
    requires ToLower(company) == ToLower(company')
    ensures FromStr(company + [':'] + tier) == FromStr(company' + [':'] + tier)
  {
    FromStrParts(company, tier);
    FromStrParts(company', tier);
  }

  /** Every account type parses back from its canonical spelling. */
  lemma FromStrFormat(a: AccountType)
    ensures FromStr(Format(a)) == Success(a)
  {
    match a
    case Ftt(t) => FromStrFormatFtt(t);
    case TopStep(t) => FromStrFormatTopstep(t);
  }

  lemma FromStrFormatFtt(t: F.FttAccountType)
    ensures FromStr(Format(Ftt(t))) == Success(Ftt(t))
  {
    assert Format(Ftt(t)) == "ftt" + [':'] + F.Name(t);
    FromStrParts("ftt", F.Name(t));
    F.FromStrName(t);
  }

  lemma FromStrFormatTopstep(t: T.TopstepAccountType)
    ensures FromStr(Format(TopStep(t))) == Success(TopStep(t))
  {
    assert Format(TopStep(t)) == "topstep" + [':'] + T.Name(t);
    FromStrParts("topstep", T.Name(t));
    T.FromStrName(t);
  }

  /** Parsing undoes formatting in both directions: an input parses as `a`
      exactly when its lower-cased form is `a`'s canonical spelling. */
  lemma FromStrCanonical(s: string, a: AccountType)
    ensures FromStr(s) == Success(a) <==> Format(a) == ToLower(s)
  {
    if FromStr(s) == Success(a) {
      FromStrSpelling(s);
    }
    if Format(a) == ToLower(s) {
      FromStrOfSpelling(s, a);
    }
  }

  /** A parsed input, lower-cased, is the canonical spelling of its result. */
  lemma FromStrSpelling(s: string)
    requires FromStr(s).Success?
    ensures Format(FromStr(s).value) == ToLower(s)
  {
    var parts := Split(s, ':');
    SplitJoin(s, ':');
    ToLowerAppend(parts[0] + [':'], parts[1]);
    ToLowerAppend(parts[0], [':']);
  }

  /** An input whose lower-cased form is a canonical spelling parses as the
      account type it spells. */
  lemma FromStrOfSpelling(s: string, a: AccountType)
    requires Format(a) == ToLower(s)
    ensures FromStr(s) == Success(a)
  {
    match a
    case Ftt(t) =>
      assert Format(a) == "ftt" + [':'] + F.Name(t);
      SpellingParts(s, "ftt", F.Name(t));
      var tier := Split(s, ':')[1];
      F.FromStrName(t);
      var v := F.FromStr(tier);
      if v.Success? {
        F.FromStrName(v.value);
      }
    case TopStep(t) =>
      assert Format(a) == "topstep" + [':'] + T.Name(t);
      SpellingParts(s, "topstep", T.Name(t));
      var tier := Split(s, ':')[1];
      T.FromStrName(t);
      var v := T.FromStr(tier);
      if v.Success? {
        T.FromStrName(v.value);
      }
  }

  /** An input that lower-cases to `company:tier` splits into a company and
      a tier that lower-case to those two. */
  lemma SpellingParts(s: string, company: string, tier: string)
    requires ':' !in company && ':' !in tier
    requires ToLower(s) == company + [':'] + tier
    ensures Occurrences(s, ':') == 1
    ensures ToLower(Split(s, ':')[0]) == company && ToLower(Split(s, ':')[1]) == tier
    ensures FromStr(s) == ParseCompanyTier(Split(s, ':')[0], Split(s, ':')[1])
  {
    var spelled := company + [':'] + tier;
    SplitAround(company, ':', tier);
    assert Occurrences(spelled, ':') == 1 by {
      assert |Split(spelled, ':')| == 2;
    }
    OccurrencesLower(s, ':');
    var parts := Split(s, ':');
    SplitJoin(s, ':');
    var lowered0, lowered1 := ToLower(parts[0]), ToLower(parts[1]);
    assert ToLower(s) == lowered0 + [':'] + lowered1 by {
      ToLowerAppend(parts[0] + [':'], parts[1]);
      ToLowerAppend(parts[0], [':']);
      assert ToLower([':']) == [':'];
    }
    OccurrencesLower(parts[0], ':');
    OccurrencesLower(parts[1], ':');
    SplitAround(lowered0, ':', lowered1);
    assert [lowered0, lowered1] == [company, tier];
  }

  /** Inputs without exactly one ':' are rejected. */
  lemma FormatErrorExamples()
    ensures FromStr("ftt") == Failure(InvalidFormat)
    ensures FromStr("ftt:gt:x") == Failure(InvalidFormat)
  {
    assert Occurrences("ftt", ':') == 0;
    assert Occurrences("ftt:gt:x", ':') == 2;
  }

  lemma UpperCaseCompanyExample()
    ensures FromStr("FTT:gt") == Success(Ftt(F.GT))
  {
    assert "FTT:gt" == "FTT" + [':'] + "gt";
    FromStrParts("FTT", "gt");
    assert ToLower("FTT") == "ftt";
    ToLowerOfLower("gt");
  }

  lemma UnknownCompanyExample()
    ensures FromStr("apex:fifty") == Failure(UnknownCompany)
  {
    assert "apex:fifty" == "apex" + [':'] + "fifty";
    FromStrParts("apex", "fifty");
    ToLowerOfLower("apex");
  }

  /** A Topstep tier under the FTT company is the FTT parser's error. */
  lemma WrongCompanyTierExample()
    ensures FromStr("ftt:fifty") == Failure(F.UnknownFttAccountType)
  {
    assert "ftt:fifty" == "ftt" + [':'] + "fifty";
    FromStrParts("ftt", "fifty");
    ToLowerOfLower("ftt");
    FttRejectsFifty();
  }

  lemma FttRejectsFifty()
    ensures F.FromStr("fifty") == Failure(F.UnknownFttAccountType)
  {
    ToLowerOfLower("fifty");
  }
}
