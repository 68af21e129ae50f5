/**
 * The deterministic layer of the takecmd scenario generator: how the values
 * the script draws at random become a scenario record, a personnel roster and
 * the two kinds of descriptive paragraph it prints. Every random draw is a
 * parameter here; what the model fixes is what the script does with them.
 */
module Takecmd {
  import opened Text

  // ---------------------------------------------------------------------------
  // Configuration constants of the script
  // ---------------------------------------------------------------------------

  const MinRawTime: int := 0
  const MaxRawTime: int := 2399
  const MinTimeAgo: int := 10
  const MaxTimeAgo: int := 45

  /** The disaster types the scenario type is picked from. */
  const DisasterTypes: seq<string> := [
    "tsunami", "derecho", "earthquake", "volcanic eruption", "tornado",
    "hurricane", "drought", "heat wave", "wild fire", "ice storm",
    "snowstorm", "avalanche", "hail storm", "landslide", "flood",
    "active shooting event"
  ]

  const ClosingPrompt: string := "How would you command these personnel in this scenario?"

  // ---------------------------------------------------------------------------
  // Records
  // ---------------------------------------------------------------------------

  /** The values drawn for the scenario. The distance is a floating-point draw
      and is kept as the text it prints as. */
  datatype ScenarioDraw = ScenarioDraw(
    disasterType: string, location: string, rawTime: int, timeAgo: int, distance: string)

  datatype Scenario = Scenario(
    disasterType: string, location: string, time: string, timeAgo: int, distance: string)

  /** The values drawn in one iteration of the roster loop. */
  datatype PersonDraw = PersonDraw(
    gender: string, name: string, jobArea: string, jobType: string, age: int,
    firstAid: bool, cpr: bool)

  datatype Person = Person(
    name: string, gender: string, age: int, job: string,
    hasFirstAidTraining: bool, hasCprTraining: bool)

  /** What the script prints, before word wrapping: the scenario paragraph,
      one paragraph per person, and the closing question. */
  datatype Briefing = Briefing(scenario: string, personnel: seq<string>, prompt: string)

  // ---------------------------------------------------------------------------
  // Scenario
  // ---------------------------------------------------------------------------

  /** The "hours" clock text: the drawn integer left-padded with '0' to four
      characters. Nothing limits the last two digits to 59. */
  function PadTime(rawTime: int): (r: string)
    ensures 4 <= |r|
  {
    LeftPad(4, IntToDecimal(rawTime), '0')
  }

  /** The scenario record: the draws as they are, except that the clock is the
      drawn integer's decimal text with '0's in front. */
  function MakeScenario(d: ScenarioDraw): (r: Scenario)
    ensures r.disasterType == d.disasterType && r.location == d.location
    ensures r.timeAgo == d.timeAgo && r.distance == d.distance
    ensures |r.time| == if |IntToDecimal(d.rawTime)| >= 4 then |IntToDecimal(d.rawTime)| else 4
    ensures r.time[|r.time| - |IntToDecimal(d.rawTime)|..] == IntToDecimal(d.rawTime)
    ensures forall i :: 0 <= i < |r.time| - |IntToDecimal(d.rawTime)| ==> r.time[i] == '0'
  {
    Scenario(d.disasterType, d.location, PadTime(d.rawTime), d.timeAgo, d.distance)
  }

  /** String.prototype.charAt over a string of Unicode characters: the
      one-character string at i, or "" past the end. JavaScript indexes UTF-16
      code units instead; the two agree on strings within the Basic
      Multilingual Plane. */
  function CharAt(s: string, i: nat): (r: string)
    ensures |r| <= 1
    ensures r == "" <==> |s| <= i
    ensures i < |s| ==> r[0] == s[i]
  {
    if i < |s| then [s[i]] else ""
  }

  const VowelClass: string := "aeiou"

  /** ASCII case folding: lower-case ASCII letters are identified with their
      upper-case forms. JavaScript's case-insensitive matching also folds
      non-ASCII letters (é with É), but never onto an ASCII letter, so against
      an ASCII class such as [aeiou] this gives the same answer. */
  function Canonicalize(c: char): char {
    if 'a' <= c <= 'z' then (c as int - 32) as char else c
  }

  /** Whether s matches /^[aeiou]$/i: exactly one character, equal up to case
      to one of the five vowels. */
  predicate MatchesVowelPattern(s: string) {
    |s| == 1 && exists k :: 0 <= k < |VowelClass| && Canonicalize(VowelClass[k]) == Canonicalize(s[0])
  }

  /** The indefinite article put before the disaster type. */
  function Article(disasterType: string): (r: string)
    ensures r == "an" || r == "a"
  {
    if MatchesVowelPattern(CharAt(disasterType, 0)) then "an" else "a"
  }

  /** The scenario paragraph, concatenated as the script concatenates it (the
      script's last two literals, " mi from" and " the disaster site.", are
      written here as one). */
  function ScenarioDescription(s: Scenario, personnelCount: int): (r: string)
    ensures |r| >= 27 && r[|r| - 27..] == " mi from the disaster site."
  {
    var body := "At approximately " + s.time + " hours (" +
      IntToDecimal(s.timeAgo) + " minutes ago) " + Article(s.disasterType) + " " + s.disasterType +
      " occurred. You and " + IntToDecimal(personnelCount) + " others are located at " +
      s.location + ", an estimated " + s.distance;
    body + " mi from the disaster site."
  }

  // ---------------------------------------------------------------------------
  // Personnel
  // ---------------------------------------------------------------------------

  /** The person record of one iteration: the draws as they are, with the job
      made of the job area, one space and the job type. */
  function MakePerson(d: PersonDraw): (r: Person)
    ensures r.name == d.name && r.gender == d.gender && r.age == d.age
    ensures r.hasFirstAidTraining == d.firstAid && r.hasCprTraining == d.cpr
    ensures |r.job| == |d.jobArea| + 1 + |d.jobType|
    ensures r.job[..|d.jobArea|] == d.jobArea && r.job[|d.jobArea|] == ' '
    ensures r.job[|d.jobArea| + 1..] == d.jobType
  {
    Person(d.name, d.gender, d.age, d.jobArea + " " + d.jobType, d.firstAid, d.cpr)
  }

  /** The roster loop: iteration i builds one person from the i-th draws and
      pushes it; earlier entries are left as they were. */
  method BuildPersonnel(count: nat, draws: nat -> PersonDraw) returns (personnel: seq<Person>)
    ensures |personnel| == count
    ensures forall i :: 0 <= i < count ==> personnel[i] == MakePerson(draws(i))
  {
    personnel := [];
    for i := 0 to count
      invariant |personnel| == i
      invariant forall j :: 0 <= j < i ==> personnel[j] == MakePerson(draws(j))
    {
      var person := MakePerson(draws(i));
      ghost var before := personnel;
      personnel := personnel + [person];
      assert personnel[..i] == before;
    }
  }

  /** "He" for the gender "male", "She" for every other value. */
  function Pronoun(gender: string): (r: string)
    ensures r == "He" <==> gender == "male"
    ensures r == "She" <==> gender != "male"
  {
    if gender == "male" then "He" else "She"
  }

  const HasTraining: string := "has"
  const LacksTraining: string := "does not have"

  function TrainingPhrase(trained: bool): (r: string)
    ensures r == HasTraining <==> trained
    ensures r == LacksTraining <==> !trained
  {
    if trained then HasTraining else LacksTraining
  }

  /** The opening clause of a person's paragraph: name, age, gender and job. */
  function PersonHead(p: Person): (r: string)
    ensures p.name + " is a " <= r
    ensures |r| >= |p.job| && r[|r| - |p.job|..] == p.job
  {
    var intro := p.name + " is a ";
    var rest := intro + IntToDecimal(p.age) + "-year-old " + p.gender + " ";
    assert intro <= rest;
    rest + p.job
  }

  /** The paragraph for one person, concatenated as the script concatenates it. */
  function PersonDescription(p: Person): (r: string)
    ensures |r| >= 14 && r[|r| - 14..] == " CPR training."
  {
    var pronoun := Pronoun(p.gender);
    var hasFa := TrainingPhrase(p.hasFirstAidTraining);
    var hasCpr := TrainingPhrase(p.hasCprTraining);
    var body := PersonHead(p) + ". " + pronoun + " " + hasFa +
      " First Aid training. " + pronoun + " " + hasCpr;
    body + " CPR training."
  }

  /** The rendering loop: one paragraph per person, for indices 0..count-1. */
  method DescribePersonnel(personnel: seq<Person>, count: nat) returns (paragraphs: seq<string>)
    requires count <= |personnel|
    ensures |paragraphs| == count
    ensures forall i :: 0 <= i < count ==> paragraphs[i] == PersonDescription(personnel[i])
  {
    paragraphs := [];
    for i := 0 to count
      invariant |paragraphs| == i
      invariant forall j :: 0 <= j < i ==> paragraphs[j] == PersonDescription(personnel[j])
    {
      var person := personnel[i];
      paragraphs := paragraphs + [PersonDescription(person)];
    }
  }

  // ---------------------------------------------------------------------------
  // The whole run
  // ---------------------------------------------------------------------------

  /** One run of the script with its draws given: the scenario, the roster of
      `count` people, their paragraphs and the closing question. */
  method Run(sd: ScenarioDraw, count: nat, draws: nat -> PersonDraw) returns (b: Briefing)
    ensures b.scenario == ScenarioDescription(MakeScenario(sd), count)
    ensures |b.personnel| == count
    ensures forall i :: 0 <= i < count ==> b.personnel[i] == PersonDescription(MakePerson(draws(i)))
    ensures b.prompt == ClosingPrompt
  {
    var scenario := MakeScenario(sd);
    var personnel := BuildPersonnel(count, draws);
    var scenarioText := ScenarioDescription(scenario, count);
    var paragraphs := DescribePersonnel(personnel, count);
    b := Briefing(scenarioText, paragraphs, ClosingPrompt);
  }
}
