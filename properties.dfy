/**
 * What the script's text layer guarantees: the article rule, the clock text,
 * the order in which the two templates embed their fields, and that a person's
 * paragraph determines the pronoun (the same one in both training sentences)
 * and both training flags.
 */
module TakecmdProperties {
  import opened Wrappers
  import opened Text
  import opened Takecmd

  // ---------------------------------------------------------------------------
  // Article
  // ---------------------------------------------------------------------------

  /** "an" exactly when the type starts with a vowel of either case; an empty
      type gets "a" because its first character is the empty string. */
  lemma ArticleChoice(t: string)
    ensures Article(t) == "an" <==> |t| > 0 && t[0] in "aeiouAEIOU"
    ensures Article(t) == "a" <==> !(|t| > 0 && t[0] in "aeiouAEIOU")
  {
    VowelPatternMatches(CharAt(t, 0));
  }

  /** /^[aeiou]$/i accepts exactly the one-character strings holding a vowel
      of either case. */
  lemma VowelPatternMatches(s: string)
    ensures MatchesVowelPattern(s) <==> |s| == 1 && s[0] in "aeiouAEIOU"
  {
    if |s| == 1 && s[0] in "aeiouAEIOU" {
      var c := s[0];
      var k := if c in "aA" then 0 else if c in "eE" then 1 else if c in "iI" then 2 else if c in "oO" then 3 else 4;
      assert Canonicalize(VowelClass[k]) == Canonicalize(c);
    }
  }

  /** Of the configured disaster types, exactly these four take "an". */
  lemma DisasterTypeArticles()
    ensures forall t :: t in DisasterTypes ==>
      (Article(t) == "an" <==> t in ["earthquake", "avalanche", "ice storm", "active shooting event"])
  {
    forall t | t in DisasterTypes
      ensures Article(t) == "an" <==> t in ["earthquake", "avalanche", "ice storm", "active shooting event"]
    {
      ArticleChoice(t);
    }
  }

  // ---------------------------------------------------------------------------
  // Clock text
  // ---------------------------------------------------------------------------

  /** For a drawn time in 0..2399 the clock text is four digits: the decimal
      form with '0's in front, denoting the same number. */
  lemma PadTimeInRange(n: int)
    requires MinRawTime <= n <= MaxRawTime
    ensures |PadTime(n)| == 4
    ensures AllDigits(PadTime(n))
    ensures PadTime(n) == Repeat('0', 4 - |NatToDecimal(n)|) + NatToDecimal(n)
    ensures DecimalValue(PadTime(n)) == n
  {
    var dec := NatToDecimal(n);
    assert Pow10(4) == 10000;
    DecimalLength(n, 4);
    LeadingZeros(4 - |dec|, dec);
    DecimalRoundTrip(n);
  }

  /** The padding does not keep the minutes below 60. */
  lemma PadTimeExamples()
    ensures PadTime(75) == "0075"
    ensures PadTime(0) == "0000"
    ensures PadTime(2399) == "2399"
  {
    assert NatToDecimal(75) == "75";
    assert NatToDecimal(2399) == "2399";
    assert Repeat('0', 2) == "00";
    assert Repeat('0', 3) == "000";
  }

  // ---------------------------------------------------------------------------
  // Scenario template
  // ---------------------------------------------------------------------------

  const ScenarioLits: seq<string> := [
    "At approximately ", " hours (", " minutes ago) ", " ", " occurred. You and ",
    " others are located at ", ", an estimated ", " mi from the disaster site."
  ]

  /** The scenario fields in the order the paragraph mentions them. */
  function ScenarioFields(s: Scenario, personnelCount: int): (r: seq<string>)
    ensures |r| + 1 == |ScenarioLits|
  {
    [s.time, IntToDecimal(s.timeAgo), Article(s.disasterType), s.disasterType,
     IntToDecimal(personnelCount), s.location, s.distance]
  }

  /** The scenario paragraph is the fixed text with time, minutes ago, article,
      type, head count, location and distance embedded in that order. */
  lemma ScenarioTemplate(s: Scenario, personnelCount: int)
    ensures ScenarioDescription(s, personnelCount) == Fill(ScenarioLits, ScenarioFields(s, personnelCount))
  {
    ScenarioShape(s.time, IntToDecimal(s.timeAgo), Article(s.disasterType), s.disasterType,
      IntToDecimal(personnelCount), s.location, s.distance);
  }

  /** The scenario concatenation, for arbitrary field texts, is the filled template. */
  lemma ScenarioShape(time: string, ago: string, article: string, kind: string,
                      count: string, location: string, distance: string)
    ensures "At approximately " + time + " hours (" +
      ago + " minutes ago) " + article + " " + kind +
      " occurred. You and " + count + " others are located at " +
      location + ", an estimated " + distance + " mi from the disaster site."
      == Fill(ScenarioLits, [time, ago, article, kind, count, location, distance])
  {
    FillSeven(ScenarioLits, [time, ago, article, kind, count, location, distance]);
  }

  /** A seven-field template written out. */
  lemma FillSeven(l: seq<string>, f: seq<string>)
    requires |l| == 8 && |f| == 7
    ensures Fill(l, f) == l[0] + f[0] + l[1] + f[1] + l[2] + f[2] + l[3] + f[3] + l[4] + f[4] + l[5] + f[5] + l[6] + f[6] + l[7]
  {
    assert FillUpTo(l, f, 1) == FillUpTo(l, f, 0) + f[0] + l[1];
    assert FillUpTo(l, f, 2) == FillUpTo(l, f, 1) + f[1] + l[2];
    assert FillUpTo(l, f, 3) == FillUpTo(l, f, 2) + f[2] + l[3];
    assert FillUpTo(l, f, 4) == FillUpTo(l, f, 3) + f[3] + l[4];
    assert FillUpTo(l, f, 5) == FillUpTo(l, f, 4) + f[4] + l[5];
    assert FillUpTo(l, f, 6) == FillUpTo(l, f, 5) + f[5] + l[6];
    assert FillUpTo(l, f, 7) == FillUpTo(l, f, 6) + f[6] + l[7];
  }

  /** Characters 17..20 of the scenario paragraph are the clock text: four
      digits denoting the drawn time. */
  lemma ScenarioTimeField(d: ScenarioDraw, personnelCount: int)
    requires MinRawTime <= d.rawTime <= MaxRawTime
    ensures |ScenarioDescription(MakeScenario(d), personnelCount)| >= 21
    ensures ScenarioDescription(MakeScenario(d), personnelCount)[..17] == "At approximately "
    ensures ScenarioDescription(MakeScenario(d), personnelCount)[17..21] == PadTime(d.rawTime)
    ensures AllDigits(ScenarioDescription(MakeScenario(d), personnelCount)[17..21])
    ensures DecimalValue(ScenarioDescription(MakeScenario(d), personnelCount)[17..21]) == d.rawTime
  {
    var s := MakeScenario(d);
    ScenarioTemplate(s, personnelCount);
    PadTimeInRange(d.rawTime);
    var l, f := ScenarioLits, ScenarioFields(s, personnelCount);
    FillField(l, f, 0);
    FillEnds(l, f);
    assert FieldOffset(l, f, 0) == 17;
  }

  /** With the minutes-ago draw in 10..45, characters 29..30 of the scenario
      paragraph are its two decimal digits, right after " hours (". */
  lemma ScenarioMinutesField(d: ScenarioDraw, personnelCount: int)
    requires MinRawTime <= d.rawTime <= MaxRawTime
    requires MinTimeAgo <= d.timeAgo <= MaxTimeAgo
    ensures var t := ScenarioDescription(MakeScenario(d), personnelCount);
      |t| >= 31 && t[21..29] == " hours (" && t[29..31] == IntToDecimal(d.timeAgo) &&
      AllDigits(t[29..31]) && DecimalValue(t[29..31]) == d.timeAgo
  {
    var s := MakeScenario(d);
    var l, f := ScenarioLits, ScenarioFields(s, personnelCount);
    ScenarioTemplate(s, personnelCount);
    PadTimeInRange(d.rawTime);
    TwoDigits(d.timeAgo);
    DecimalRoundTrip(d.timeAgo);
    SecondFieldAt(l, f);
  }

  lemma TwoDigits(n: int)
    requires 10 <= n < 100
    ensures |IntToDecimal(n)| == 2
  {
    assert NatToDecimal(n) == NatToDecimal(n / 10) + [DigitChar(n % 10)];
  }

  /** In a template whose first literal and field take 17 and 4 characters,
      the second literal starts at 21 and the second field right after it. */
  lemma SecondFieldAt(l: seq<string>, f: seq<string>)
    requires |l| == |f| + 1 && |f| >= 2
    requires |l[0]| == 17 && |f[0]| == 4 && |l[1]| == 8
    ensures |Fill(l, f)| >= 29 + |f[1]|
    ensures Fill(l, f)[21..29] == l[1]
    ensures Fill(l, f)[29..29 + |f[1]|] == f[1]
  {
    FillField(l, f, 1);
    FillPrefix(l, f, 1, |f|);
    var pre := FillUpTo(l, f, 1);
    assert pre == l[0] + f[0] + l[1];
    assert pre[21..29] == l[1];
  }

  /** The paragraph always opens and closes with the fixed text. */
  lemma ScenarioFrame(s: Scenario, personnelCount: int)
    ensures "At approximately " <= ScenarioDescription(s, personnelCount)
    ensures |ScenarioDescription(s, personnelCount)| >= 27
    ensures var t := ScenarioDescription(s, personnelCount);
      t[|t| - 27..] == " mi from the disaster site."
  {
    ScenarioTemplate(s, personnelCount);
    FillEnds(ScenarioLits, ScenarioFields(s, personnelCount));
  }

  // ---------------------------------------------------------------------------
  // Person template
  // ---------------------------------------------------------------------------

  const PersonLits: seq<string> := [
    "", " is a ", "-year-old ", " ", ". ", " ", " First Aid training. ", " ", " CPR training."
  ]

  /** The person fields in the order the paragraph mentions them. */
  function PersonFields(p: Person): (r: seq<string>)
    ensures |r| + 1 == |PersonLits|
  {
    [p.name, IntToDecimal(p.age), p.gender, p.job, Pronoun(p.gender),
     TrainingPhrase(p.hasFirstAidTraining), Pronoun(p.gender), TrainingPhrase(p.hasCprTraining)]
  }

  /** A person's paragraph embeds name, age, gender, job, pronoun, first-aid
      phrase, the same pronoun again and the CPR phrase, in that order. */
  lemma PersonTemplate(p: Person)
    ensures PersonDescription(p) == Fill(PersonLits, PersonFields(p))
  {
    var l, f := PersonLits, PersonFields(p);
    FillEight(l, f);
    assert "" + p.name == p.name;
  }

  /** An eight-field template written out. */
  lemma FillEight(l: seq<string>, f: seq<string>)
    requires |l| == 9 && |f| == 8
    ensures Fill(l, f) == l[0] + f[0] + l[1] + f[1] + l[2] + f[2] + l[3] + f[3] + l[4] + f[4] + l[5] + f[5] + l[6] + f[6] + l[7] + f[7] + l[8]
  {
    assert FillUpTo(l, f, 1) == FillUpTo(l, f, 0) + f[0] + l[1];
    assert FillUpTo(l, f, 2) == FillUpTo(l, f, 1) + f[1] + l[2];
    assert FillUpTo(l, f, 3) == FillUpTo(l, f, 2) + f[2] + l[3];
    assert FillUpTo(l, f, 4) == FillUpTo(l, f, 3) + f[3] + l[4];
    assert FillUpTo(l, f, 5) == FillUpTo(l, f, 4) + f[4] + l[5];
    assert FillUpTo(l, f, 6) == FillUpTo(l, f, 5) + f[5] + l[6];
    assert FillUpTo(l, f, 7) == FillUpTo(l, f, 6) + f[6] + l[7];
    assert FillUpTo(l, f, 8) == FillUpTo(l, f, 7) + f[7] + l[8];
  }

  /** Both pronoun slots of a person's paragraph hold the same text: the
      pronoun for the person's gender. */
  lemma SamePronounInParagraph(p: Person)
    ensures var t, pr := PersonDescription(p), Pronoun(p.gender);
      var o4, o6 := FieldOffset(PersonLits, PersonFields(p), 4), FieldOffset(PersonLits, PersonFields(p), 6);
      o4 + |pr| <= |t| && o6 + |pr| <= |t| && o4 < o6 &&
      t[o4..o4 + |pr|] == pr && t[o6..o6 + |pr|] == pr
  {
    PersonTemplate(p);
    FillField(PersonLits, PersonFields(p), 4);
    FillField(PersonLits, PersonFields(p), 6);
    FillPrefix(PersonLits, PersonFields(p), 5, 6);
  }

  // ---------------------------------------------------------------------------
  // Reading the training sentences back
  // ---------------------------------------------------------------------------

  /** What the two training sentences at the end of a paragraph say. */
  datatype TrainingTail = TrainingTail(
    head: string, firstAidPronoun: string, hasFirstAid: bool, cprPronoun: string, hasCpr: bool)

  function StripTrainingPhrase(s: string): Option<(string, bool)> {
    match StripSuffix(s, LacksTraining)
    case Some(rest) => Some((rest, false))
    case None =>
      match StripSuffix(s, HasTraining)
      case Some(rest) => Some((rest, true))
      case None => None
  }

  function StripPronoun(s: string): Option<(string, string)> {
    match StripSuffix(s, "She")
    case Some(rest) => Some((rest, "She"))
    case None =>
      match StripSuffix(s, "He")
      case Some(rest) => Some((rest, "He"))
      case None => None
  }

  /** Parses "<head>. <P> <has|does not have> First Aid training. <P> <has|does
      not have> CPR training." from the end of a paragraph. */
  function DecodeTrainingTail(s: string): Option<TrainingTail> {
    var a :- StripSuffix(s, " CPR training.");
    var b :- StripTrainingPhrase(a);
    var c :- StripSuffix(b.0, " ");
    var d :- StripPronoun(c);
    var e :- StripSuffix(d.0, " First Aid training. ");
    var f :- StripTrainingPhrase(e);
    var g :- StripSuffix(f.0, " ");
    var h :- StripPronoun(g);
    var head :- StripSuffix(h.0, ". ");
    Some(TrainingTail(head, h.1, f.1, d.1, b.1))
  }

  lemma StripTrainingPhraseAppended(a: string, trained: bool)
    ensures StripTrainingPhrase(a + TrainingPhrase(trained)) == Some((a, trained))
  {
    var s := a + TrainingPhrase(trained);
    if trained {
      if |LacksTraining| <= |s| {
        assert s[|s| - |LacksTraining|..][12] == s[|s| - 1] == 's';
      }
      StripAppended(a, HasTraining);
    } else {
      StripAppended(a, LacksTraining);
    }
  }

  lemma StripPronounAppended(a: string, gender: string)
    ensures StripPronoun(a + Pronoun(gender)) == Some((a, Pronoun(gender)))
  {
    var s := a + Pronoun(gender);
    if gender == "male" {
      if 3 <= |s| {
        assert s[|s| - 3..][1] == s[|s| - 2] == 'H';
      }
      StripAppended(a, "He");
    } else {
      StripAppended(a, "She");
    }
  }

  /** A person's paragraph determines both training flags, each from its own
      sentence, and carries the same pronoun in both sentences: "He" exactly
      when the gender is "male". */
  lemma TrainingTailRoundTrip(p: Person)
    ensures DecodeTrainingTail(PersonDescription(p)) == Some(TrainingTail(
      PersonHead(p),
      Pronoun(p.gender), p.hasFirstAidTraining, Pronoun(p.gender), p.hasCprTraining))
  {
    var pr := Pronoun(p.gender);
    var fa := TrainingPhrase(p.hasFirstAidTraining);
    var cpr := TrainingPhrase(p.hasCprTraining);
    var head := PersonHead(p);
    var x0 := head + ". ";
    var x1 := x0 + pr;
    var x2 := x1 + " ";
    var x3 := x2 + fa;
    var x4 := x3 + " First Aid training. ";
    var x5 := x4 + pr;
    var x6 := x5 + " ";
    var x7 := x6 + cpr;
    var x8 := x7 + " CPR training.";
    assert PersonDescription(p) == x8;
    StripAppended(x7, " CPR training.");
    StripTrainingPhraseAppended(x6, p.hasCprTraining);
    StripAppended(x5, " ");
    StripPronounAppended(x4, p.gender);
    StripAppended(x3, " First Aid training. ");
    StripTrainingPhraseAppended(x2, p.hasFirstAidTraining);
    StripAppended(x1, " ");
    StripPronounAppended(x0, p.gender);
    StripAppended(head, ". ");
  }

  /** Changing only the CPR flag changes the CPR flag read back and nothing
      else that is read back: head, first-aid flag and both pronouns stay. */
  lemma CprFlagIndependent(p: Person, q: Person)
    requires p.name == q.name && p.gender == q.gender && p.age == q.age && p.job == q.job
    requires p.hasFirstAidTraining == q.hasFirstAidTraining
    requires p.hasCprTraining != q.hasCprTraining
    ensures DecodeTrainingTail(PersonDescription(p)).Some?
    ensures DecodeTrainingTail(PersonDescription(q)).Some?
    ensures var tp, tq := DecodeTrainingTail(PersonDescription(p)).value, DecodeTrainingTail(PersonDescription(q)).value;
      tp.head == tq.head && tp.firstAidPronoun == tq.firstAidPronoun && tp.cprPronoun == tq.cprPronoun &&
      tp.hasFirstAid == tq.hasFirstAid && tp.hasCpr != tq.hasCpr
  {
    TrainingTailRoundTrip(p);
    TrainingTailRoundTrip(q);
  }

  /** Changing only the first-aid flag changes the first-aid flag read back and
      nothing else that is read back: head, CPR flag and both pronouns stay. */
  lemma FirstAidFlagIndependent(p: Person, q: Person)
    requires p.name == q.name && p.gender == q.gender && p.age == q.age && p.job == q.job
    requires p.hasFirstAidTraining != q.hasFirstAidTraining
    requires p.hasCprTraining == q.hasCprTraining
    ensures DecodeTrainingTail(PersonDescription(p)).Some?
    ensures DecodeTrainingTail(PersonDescription(q)).Some?
    ensures var tp, tq := DecodeTrainingTail(PersonDescription(p)).value, DecodeTrainingTail(PersonDescription(q)).value;
      tp.head == tq.head && tp.firstAidPronoun == tq.firstAidPronoun && tp.cprPronoun == tq.cprPronoun &&
      tp.hasFirstAid != tq.hasFirstAid && tp.hasCpr == tq.hasCpr
  {
    TrainingTailRoundTrip(p);
    TrainingTailRoundTrip(q);
  }
}
