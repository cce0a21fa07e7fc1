/**
 * The consultation's symptom-to-diagnosis rules (backend/main.py, `consult`):
 * an if/elif chain over keywords searched in the lower-cased, space-joined
 * symptom text. `Diagnose` is the chain as written; `Rules` is the same
 * knowledge as a table, and `FirstMatch` the plain first-match reading of a
 * table. The lemmas prove the chain is that reading, and what follows from
 * it: keywords of later rules that contain an earlier keyword never decide.
 */
module ConsultRules {

  import opened Text
  import opened Records

  /** `" ".join(symptoms).lower()`. */
  function SymptomText(symptoms: seq<string>): string {
    Lower(Join(symptoms, " "))
  }

  /** The keywords occurring in `text`, as a predicate. */
  function Occurs(text: string): string -> bool {
    k => Contains(text, k)
  }

  /** The diagnosis `consult` gives for the symptom text `text`. */
  function Diagnose(text: string, medicineCount: int): Diagnosis {
    DiagnoseBy(Occurs(text), medicineCount)
  }

  /**
   * The diagnosis chain of `consult`, given which keywords occur in the symptom
   * text (`has`); `medicineCount` is `len(MEDICINES)`.
   */
  function DiagnoseBy(has: string -> bool, medicineCount: int): Diagnosis {
    if has("fever") || has("temperature") then
      Diagnosis("Fever", [Item(0, 2)])
    else if has("cough") || has("cold") || has("sneeze") then
      Diagnosis("Common Cold", [Item(0, 1)] + (if medicineCount > 3 then [Item(3, 1)] else []))
    else if has("headache") || has("migraine") || has("pain") then
      Diagnosis("Headache/Pain", [Item(1, 2)])
    else if has("sore throat") || has("throat") || has("infection") then
      Diagnosis("Throat Infection", [Item(2, 1)])
    else if has("acidity") || has("heartburn") || has("stomach pain") then
      Diagnosis("Acidity", [Item(4, 1)])
    else if has("allergy") || has("itching") || has("rash") then
      Diagnosis("Allergy", [Item(5, 1)])
    else if has("sugar") || has("diabetes") || has("high glucose") then
      Diagnosis("Diabetes", [Item(6, 1)])
    else if has("chest pain") || has("blood pressure") || has("bp") then
      Diagnosis("Hypertension", [Item(17, 1)])
    else if has("bone pain") || has("weakness") || has("vitamin") then
      Diagnosis("Vitamin Deficiency", [Item(9, 1)])
    else if has("infection") || has("bacteria") || has("antibiotic") then
      Diagnosis("Bacterial Infection", [Item(12, 1)])
    else if has("asthma") || has("breath") || has("respiratory") then
      Diagnosis("Respiratory Illness", [Item(3, 1), Item(5, 1)])
    else if has("stomach") || has("diarrhea") || has("loose motion") then
      Diagnosis("Gastrointestinal Infection", [Item(12, 1)])
    else if has("joint pain") || has("arthritis") then
      Diagnosis("Arthritis", [Item(1, 2), Item(15, 1)])
    else
      Fallback(medicineCount)
  }

  /** Multivitamin (id 10) when the table has more than ten medicines, else Paracetamol (id 0). */
  function Fallback(medicineCount: int): Diagnosis {
    Diagnosis("General Checkup", [Item(if medicineCount > 10 then 10 else 0, 1)])
  }

  datatype Rule = Rule(keywords: seq<string>, diagnosis: Diagnosis)

  /** The rules of the chain as a table, in the chain's order. */
  function Rules(medicineCount: int): seq<Rule> {
    [ Rule(["fever", "temperature"], Diagnosis("Fever", [Item(0, 2)])),
      Rule(["cough", "cold", "sneeze"],
           Diagnosis("Common Cold", [Item(0, 1)] + (if medicineCount > 3 then [Item(3, 1)] else []))),
      Rule(["headache", "migraine", "pain"], Diagnosis("Headache/Pain", [Item(1, 2)])),
      Rule(["sore throat", "throat", "infection"], Diagnosis("Throat Infection", [Item(2, 1)])),
      Rule(["acidity", "heartburn", "stomach pain"], Diagnosis("Acidity", [Item(4, 1)])),
      Rule(["allergy", "itching", "rash"], Diagnosis("Allergy", [Item(5, 1)])),
      Rule(["sugar", "diabetes", "high glucose"], Diagnosis("Diabetes", [Item(6, 1)])),
      Rule(["chest pain", "blood pressure", "bp"], Diagnosis("Hypertension", [Item(17, 1)])),
      Rule(["bone pain", "weakness", "vitamin"], Diagnosis("Vitamin Deficiency", [Item(9, 1)])),
      Rule(["infection", "bacteria", "antibiotic"], Diagnosis("Bacterial Infection", [Item(12, 1)])),
      Rule(["asthma", "breath", "respiratory"],
           Diagnosis("Respiratory Illness", [Item(3, 1), Item(5, 1)])),
      Rule(["stomach", "diarrhea", "loose motion"],
           Diagnosis("Gastrointestinal Infection", [Item(12, 1)])),
      Rule(["joint pain", "arthritis"], Diagnosis("Arthritis", [Item(1, 2), Item(15, 1)])) ]
  }

  /** Some keyword of the rule occurs in the text. */
  predicate Fires(rule: Rule, has: string -> bool) {
    AnyOccurs(rule.keywords, has)
  }

  /** Python's `k1 in t or k2 in t or ...`, tested left to right. */
  predicate AnyOccurs(keywords: seq<string>, has: string -> bool) {
    keywords != [] && (has(keywords[0]) || AnyOccurs(keywords[1..], has))
  }

  lemma {:induction false} AnyOccursIff(keywords: seq<string>, has: string -> bool)
    ensures AnyOccurs(keywords, has) <==> exists k :: k in keywords && has(k)
  {
    if keywords != [] {
      AnyOccursIff(keywords[1..], has);
      assert forall k :: k in keywords <==> k == keywords[0] || k in keywords[1..];
    }
  }

  /** The diagnosis of the first rule from `rules[k]` on that fires, or the fallback when none does. */
  function FirstMatch(rules: seq<Rule>, k: nat, has: string -> bool, fallback: Diagnosis): Diagnosis
    decreases |rules| - k
  {
    if k >= |rules| then fallback
    else if Fires(rules[k], has) then rules[k].diagnosis
    else FirstMatch(rules, k + 1, has, fallback)
  }

  /** The first rule that fires decides, whatever the later rules say. */
  lemma {:induction false} FirstFiringRuleWins(rules: seq<Rule>, k: nat, has: string -> bool, fallback: Diagnosis, i: nat)
    requires k <= i < |rules| && Fires(rules[i], has)
    requires forall j :: k <= j < i ==> !Fires(rules[j], has)
    ensures FirstMatch(rules, k, has, fallback) == rules[i].diagnosis
    decreases i - k
  {
    if k < i {
      FirstFiringRuleWins(rules, k + 1, has, fallback, i);
    }
  }

  /** With no rule firing the fallback is the answer. */
  lemma {:induction false} NoRuleFires(rules: seq<Rule>, k: nat, has: string -> bool, fallback: Diagnosis)
    requires forall j :: k <= j < |rules| ==> !Fires(rules[j], has)
    ensures FirstMatch(rules, k, has, fallback) == fallback
    decreases |rules| - k
  {
    if k < |rules| {
      NoRuleFires(rules, k + 1, has, fallback);
    }
  }

  lemma AnyOfThree(a: string, b: string, c: string, has: string -> bool)
    ensures AnyOccurs([a, b, c], has) <==> has(a) || has(b) || has(c)
  {
    assert [a, b, c][1..] == [b, c];
    AnyOfTwo(b, c, has);
  }

  lemma AnyOfTwo(a: string, b: string, has: string -> bool)
    ensures AnyOccurs([a, b], has) <==> has(a) || has(b)
  {
    assert [a, b][1..] == [b];
    assert [b][1..] == [];
    assert AnyOccurs([b], has) <==> has(b);
  }

  /** Which keywords make each of the first seven rules of the table fire. */
  lemma EarlyRulesFire(has: string -> bool, medicineCount: int)
    ensures var r := Rules(medicineCount);
      (Fires(r[0], has) <==> has("fever") || has("temperature")) &&
      (Fires(r[1], has) <==> has("cough") || has("cold") || has("sneeze")) &&
      (Fires(r[2], has) <==> has("headache") || has("migraine") || has("pain")) &&
      (Fires(r[3], has) <==> has("sore throat") || has("throat") || has("infection")) &&
      (Fires(r[4], has) <==> has("acidity") || has("heartburn") || has("stomach pain")) &&
      (Fires(r[5], has) <==> has("allergy") || has("itching") || has("rash")) &&
      (Fires(r[6], has) <==> has("sugar") || has("diabetes") || has("high glucose"))
  {
    AnyOfTwo("fever", "temperature", has);
    AnyOfThree("cough", "cold", "sneeze", has);
    AnyOfThree("headache", "migraine", "pain", has);
    AnyOfThree("sore throat", "throat", "infection", has);
    AnyOfThree("acidity", "heartburn", "stomach pain", has);
    AnyOfThree("allergy", "itching", "rash", has);
    AnyOfThree("sugar", "diabetes", "high glucose", has);
  }

  /** Which keywords make each of the last six rules of the table fire. */
  lemma LateRulesFire(has: string -> bool, medicineCount: int)
    ensures var r := Rules(medicineCount);
      (Fires(r[7], has) <==> has("chest pain") || has("blood pressure") || has("bp")) &&
      (Fires(r[8], has) <==> has("bone pain") || has("weakness") || has("vitamin")) &&
      (Fires(r[9], has) <==> has("infection") || has("bacteria") || has("antibiotic")) &&
      (Fires(r[10], has) <==> has("asthma") || has("breath") || has("respiratory")) &&
      (Fires(r[11], has) <==> has("stomach") || has("diarrhea") || has("loose motion")) &&
      (Fires(r[12], has) <==> has("joint pain") || has("arthritis"))
  {
    AnyOfThree("chest pain", "blood pressure", "bp", has);
    AnyOfThree("bone pain", "weakness", "vitamin", has);
    AnyOfThree("infection", "bacteria", "antibiotic", has);
    AnyOfThree("asthma", "breath", "respiratory", has);
    AnyOfThree("stomach", "diarrhea", "loose motion", has);
    AnyOfTwo("joint pain", "arthritis", has);
  }

  lemma DiagnoseIsFirstMatch(has: string -> bool, medicineCount: int)
    ensures DiagnoseBy(has, medicineCount) == FirstMatch(Rules(medicineCount), 0, has, Fallback(medicineCount))
  {
    var r, f := Rules(medicineCount), Fallback(medicineCount);
    EarlyRulesFire(has, medicineCount);
    LateRulesFire(has, medicineCount);
    assert FirstMatch(r, 0, has, f) == if Fires(r[0], has) then r[0].diagnosis else FirstMatch(r, 1, has, f);
    assert FirstMatch(r, 1, has, f) == if Fires(r[1], has) then r[1].diagnosis else FirstMatch(r, 2, has, f);
    assert FirstMatch(r, 2, has, f) == if Fires(r[2], has) then r[2].diagnosis else FirstMatch(r, 3, has, f);
    assert FirstMatch(r, 3, has, f) == if Fires(r[3], has) then r[3].diagnosis else FirstMatch(r, 4, has, f);
    assert FirstMatch(r, 4, has, f) == if Fires(r[4], has) then r[4].diagnosis else FirstMatch(r, 5, has, f);
    assert FirstMatch(r, 5, has, f) == if Fires(r[5], has) then r[5].diagnosis else FirstMatch(r, 6, has, f);
    assert FirstMatch(r, 6, has, f) == if Fires(r[6], has) then r[6].diagnosis else FirstMatch(r, 7, has, f);
    assert FirstMatch(r, 7, has, f) == if Fires(r[7], has) then r[7].diagnosis else FirstMatch(r, 8, has, f);
    assert FirstMatch(r, 8, has, f) == if Fires(r[8], has) then r[8].diagnosis else FirstMatch(r, 9, has, f);
    assert FirstMatch(r, 9, has, f) == if Fires(r[9], has) then r[9].diagnosis else FirstMatch(r, 10, has, f);
    assert FirstMatch(r, 10, has, f) == if Fires(r[10], has) then r[10].diagnosis else FirstMatch(r, 11, has, f);
    assert FirstMatch(r, 11, has, f) == if Fires(r[11], has) then r[11].diagnosis else FirstMatch(r, 12, has, f);
    assert FirstMatch(r, 12, has, f) == if Fires(r[12], has) then r[12].diagnosis else FirstMatch(r, 13, has, f);
  }

  /** A diagnosis prescribing at least one medicine, each by a position below `medicineCount`, each at least once. */
  predicate PrescribesWithin(d: Diagnosis, medicineCount: int) {
    |d.prescription| >= 1 &&
    forall it :: it in d.prescription ==> 0 <= it.medicineId < medicineCount && it.quantity >= 1
  }

  /** The first-match answer is the fallback or the diagnosis of one of the rules. */
  lemma {:induction false} FirstMatchAmong(rules: seq<Rule>, k: nat, has: string -> bool, fallback: Diagnosis)
    ensures var d := FirstMatch(rules, k, has, fallback);
      d == fallback || exists j :: k <= j < |rules| && d == rules[j].diagnosis
    decreases |rules| - k
  {
    if k < |rules| && !Fires(rules[k], has) {
      FirstMatchAmong(rules, k + 1, has, fallback);
    }
  }

  /** Every row of the table, and the fallback, prescribes within a catalog of at least 18 medicines. */
  lemma RulesPrescribeWithin(medicineCount: int)
    requires medicineCount >= 18
    ensures PrescribesWithin(Fallback(medicineCount), medicineCount)
    ensures forall j :: 0 <= j < |Rules(medicineCount)| ==> PrescribesWithin(Rules(medicineCount)[j].diagnosis, medicineCount)
  {
  }

  /** Whatever the symptoms, the chain prescribes existing medicines when the table has at least 18 rows. */
  lemma PrescriptionsInCatalog(has: string -> bool, medicineCount: int)
    requires medicineCount >= 18
    ensures PrescribesWithin(DiagnoseBy(has, medicineCount), medicineCount)
  {
    DiagnoseIsFirstMatch(has, medicineCount);
    FirstMatchAmong(Rules(medicineCount), 0, has, Fallback(medicineCount));
    RulesPrescribeWithin(medicineCount);
  }

  /** Occurrence is transitive: a keyword inside an occurring keyword occurs too. */
  lemma {:induction false} ContainsTrans(text: string, k1: string, k2: string)
    requires Contains(text, k1) && Contains(k1, k2)
    ensures Contains(text, k2)
  {
    var i :| 0 <= i <= |text| && OccursAt(text, k1, i);
    var j :| 0 <= j <= |k1| && OccursAt(k1, k2, j);
    forall m | 0 <= m < |k2| ensures text[i + j + m] == k2[m] {
      assert text[i..i + |k1|][j + m] == text[i + j + m];
      assert k1[j..j + |k2|][m] == k1[j + m];
    }
    assert text[i + j..i + j + |k2|] == k2;
    assert OccursAt(text, k2, i + j);
  }

  /**
   * "chest pain", "stomach pain", "bone pain" and "joint pain" contain "pain",
   * so a text holding any of them is decided by the first three rules at the latest.
   */
  lemma PainKeywordsShadowed(text: string, medicineCount: int, k: string)
    requires k in ["chest pain", "stomach pain", "bone pain", "joint pain"] && Contains(text, k)
    ensures Diagnose(text, medicineCount).disease in {"Fever", "Common Cold", "Headache/Pain"}
  {
    assert OccursAt(k, "pain", |k| - 4);
    ContainsTrans(text, k, "pain");
    assert Occurs(text)("pain");
  }

  /** "infection" is a keyword of the fourth rule, so the tenth rule never sees it. */
  lemma InfectionNeverBacterial(has: string -> bool, medicineCount: int)
    requires has("infection")
    ensures DiagnoseBy(has, medicineCount).disease != "Bacterial Infection"
  {
  }

  /** None of the keywords of the first two rules, nor "headache" or "migraine", occurs in "chest pain". */
  lemma ChestPainKeywords()
    ensures var t := "chest pain";
      !Contains(t, "fever") && !Contains(t, "temperature") && !Contains(t, "cough") && !Contains(t, "cold") &&
      !Contains(t, "sneeze") && !Contains(t, "headache") && !Contains(t, "migraine")
  {
    var t := "chest pain";
    MissingCharRulesOut(t, "fever", 0);
    MissingCharRulesOut(t, "temperature", 2);
    MissingCharRulesOut(t, "cough", 1);
    MissingCharRulesOut(t, "cold", 1);
    MissingCharRulesOut(t, "sneeze", 4);
    MissingCharRulesOut(t, "headache", 3);
    MissingCharRulesOut(t, "migraine", 0);
  }

  /**
   * The symptom "chest pain" is diagnosed as Headache/Pain: the Headache/Pain
   * rule's "pain" is tested before the Hypertension rule's "chest pain".
   */
  lemma ChestPainIsHeadache(medicineCount: int)
    ensures Diagnose(SymptomText(["chest pain"]), medicineCount) == Diagnosis("Headache/Pain", [Item(1, 2)])
  {
    var t := "chest pain";
    assert Join(["chest pain"], " ") == t;
    LowerOfLower(t);
    ChestPainKeywords();
    assert OccursAt(t, "pain", 6);
  }
}
