/**
 * The symptom checker screen: the fixed symptom catalogue, the first-match
 * triage ladder that turns a selection into a verdict, and the session state
 * (selection, results flag, free-text symptoms, "others" input flag) that the
 * screen's three handlers update.
 */
module SymptomChecker {
  import opened Prelude
  import LC = LanguageContext

  /** The ids of the catalogue entries; the selection only ever holds these. */
  datatype SymptomId = Fever | Headache | Cough | Fatigue | BodyAche | Nausea | ChestPain | Breathless | Others

  datatype Category = General | Respiratory | Cardiovascular | Digestive | Custom

  /** One row of the symptom grid, with its display name already translated. */
  datatype Symptom = Symptom(id: SymptomId, name: string, category: Category)

  /** The catalogue key that gives a symptom its display name. */
  function NameKey(id: SymptomId): LC.MessageKey {
    match id
    case Fever => LC.Fever
    case Headache => LC.Headache
    case Cough => LC.Cough
    case Fatigue => LC.Fatigue
    case BodyAche => LC.BodyPain
    case Nausea => LC.Nausea
    case ChestPain => LC.ChestPain
    case Breathless => LC.BreathingDifficulty
    case Others => LC.Others
  }

  function CategoryOf(id: SymptomId): Category {
    match id
    case Fever | Headache | Fatigue | BodyAche => General
    case Cough | Breathless => Respiratory
    case Nausea => Digestive
    case ChestPain => Cardiovascular
    case Others => Custom
  }

  /**
   * The `symptoms` list in display order. Every id appears exactly once, the
   * free-text "others" entry comes last, and each name is the catalogue's
   * translation of the symptom's key in the current language.
   */
  function Symptoms(lang: LC.Language): (r: seq<Symptom>)
    ensures |r| == 9 && r[8].id == Others
    ensures forall id: SymptomId :: id in IdsOf(r)
    ensures forall i, j :: 0 <= i < j < |r| ==> r[i].id != r[j].id
    ensures forall i :: 0 <= i < |r| ==>
      r[i].name == LC.Pick(LC.Catalogue(NameKey(r[i].id)), lang) && r[i].category == CategoryOf(r[i].id)
  {
    var ids := [Fever, Headache, Cough, Fatigue, BodyAche, Nausea, ChestPain, Breathless, Others];
    var r := seq(|ids|, i requires 0 <= i < |ids| => Symptom(ids[i], LC.GetTranslation(NameKey(ids[i]), lang), CategoryOf(ids[i])));
    assert IdsOf(r) == ids;
    assert forall id: SymptomId :: id in ids by {
      forall id: SymptomId ensures id in ids { EveryIdListed(id); }
    }
    r
  }

  lemma EveryIdListed(id: SymptomId)
    ensures id in [Fever, Headache, Cough, Fatigue, BodyAche, Nausea, ChestPain, Breathless, Others]
  {
  }

  function IdsOf(r: seq<Symptom>): seq<SymptomId> {
    seq(|r|, i requires 0 <= i < |r| => r[i].id)
  }

  /**
   * The ladder tests the literal ids `cough` and `breathless` for "respiratory";
   * they are exactly the catalogue's respiratory symptoms.
   */
  lemma RespiratoryIdsAreTheRespiratoryCategory(id: SymptomId)
    ensures id in [Cough, Breathless] <==> CategoryOf(id) == Respiratory
  {
  }

  datatype Severity = Low | Medium | High

  /** The card colour of a verdict. */
  datatype Color = Red | Yellow | Green

  /** The four rungs of the ladder, each with its own condition and advice text. */
  datatype Rung = Urgent | ColdOrFlu | MultipleSymptoms | Mild

  /** Keys of the strings this screen takes from its own inline tables. */
  datatype ScreenText =
    | ConditionText(rung: Rung)
    | AdviceText(rung: Rung)
    | SelectSomeSymptoms

  /** What `getAnalysisResults` returns. */
  datatype Verdict = Verdict(
    severity: Severity,
    condition: LC.LocalText<ScreenText>,
    advice: LC.LocalText<ScreenText>,
    color: Color)

  function VerdictFor(severity: Severity, rung: Rung, color: Color, lang: LC.Language): Verdict {
    Verdict(severity, LC.LocalText(ConditionText(rung), lang), LC.LocalText(AdviceText(rung), lang), color)
  }

  /**
   * `getAnalysisResults`: the ordered, first-match-wins triage ladder. The
   * selection is the list of selected ids; its length is the symptom count.
   * Because `breathless` already triggers the first rung, the fever rung in
   * effect needs fever and cough; "others" counts towards the third rung.
   */
  function Classify(selected: seq<SymptomId>, lang: LC.Language): (v: Verdict)
    ensures v.severity == High <==> ChestPain in selected || Breathless in selected
    ensures v.condition.key == ConditionText(ColdOrFlu) <==>
      ChestPain !in selected && Breathless !in selected && Fever in selected && Cough in selected
    ensures v.condition.key == ConditionText(MultipleSymptoms) <==>
      ChestPain !in selected && Breathless !in selected && !(Fever in selected && Cough in selected) && |selected| >= 3
    ensures v.severity == Low <==>
      ChestPain !in selected && Breathless !in selected && !(Fever in selected && Cough in selected) && |selected| < 3
    ensures v.condition.key.ConditionText? && v.advice.key == AdviceText(v.condition.key.rung)
    ensures v.condition.language == lang && v.advice.language == lang
    ensures (v.color == Red <==> v.severity == High) && (v.color == Green <==> v.severity == Low)
    ensures (v.condition.key.rung == Urgent <==> v.severity == High) && (v.condition.key.rung == Mild <==> v.severity == Low)
  {
    var symptomCount := |selected|;
    var hasRespiratory := Cough in selected || Breathless in selected;
    var hasCardiac := ChestPain in selected;
    var hasFever := Fever in selected;
    if hasCardiac || Breathless in selected then VerdictFor(High, Urgent, Red, lang)
    else if hasFever && hasRespiratory then VerdictFor(Medium, ColdOrFlu, Yellow, lang)
    else if symptomCount >= 3 then VerdictFor(Medium, MultipleSymptoms, Yellow, lang)
    else VerdictFor(Low, Mild, Green, lang)
  }

  /** The language chooses only which strings fill the verdict, never its tier, rung or colour. */
  lemma LanguageOnlySelectsText(selected: seq<SymptomId>, l1: LC.Language, l2: LC.Language)
    ensures Classify(selected, l1).severity == Classify(selected, l2).severity
    ensures Classify(selected, l1).condition.key == Classify(selected, l2).condition.key
    ensures Classify(selected, l1).advice.key == Classify(selected, l2).advice.key
    ensures Classify(selected, l1).color == Classify(selected, l2).color
  {
  }

  function Rank(s: Severity): nat {
    match s
    case Low => 0
    case Medium => 1
    case High => 2
  }

  /**
   * Selecting more symptoms never lowers the tier: every rung's test is
   * monotone in the selection (membership and count).
   */
  lemma MoreSymptomsNeverLowerSeverity(s: seq<SymptomId>, t: seq<SymptomId>, lang: LC.Language)
    requires NoDups(s)
    requires forall x :: x in s ==> x in t
    ensures Rank(Classify(s, lang).severity) <= Rank(Classify(t, lang).severity)
  {
    LengthBySubset(s, t);
  }

  // The ladder as a table of (test, rung) pairs, scanned in order.

  datatype Test = CardiacOrBreathless | FeverAndRespiratory | AtLeastThree | Always

  predicate Holds(test: Test, selected: seq<SymptomId>) {
    match test
    case CardiacOrBreathless => ChestPain in selected || Breathless in selected
    case FeverAndRespiratory => Fever in selected && (Cough in selected || Breathless in selected)
    case AtLeastThree => |selected| >= 3
    case Always => true
  }

  /** The rung of the first rule whose test holds. */
  function FirstMatch(rules: seq<(Test, Rung)>, selected: seq<SymptomId>): Option<Rung> {
    if rules == [] then None
    else if Holds(rules[0].0, selected) then Some(rules[0].1)
    else FirstMatch(rules[1..], selected)
  }

  function Ladder(): seq<(Test, Rung)> {
    [(CardiacOrBreathless, Urgent), (FeverAndRespiratory, ColdOrFlu), (AtLeastThree, MultipleSymptoms), (Always, Mild)]
  }

  function SeverityOf(rung: Rung): Severity {
    match rung
    case Urgent => High
    case ColdOrFlu | MultipleSymptoms => Medium
    case Mild => Low
  }

  /** The nested conditionals of `Classify` are exactly a first-match scan of the rule table. */
  lemma ClassifyIsFirstMatch(selected: seq<SymptomId>, lang: LC.Language)
    ensures FirstMatch(Ladder(), selected) == Some(Classify(selected, lang).condition.key.rung)
    ensures Classify(selected, lang).severity == SeverityOf(Classify(selected, lang).condition.key.rung)
  {
    var rules := Ladder();
    var r1 := rules[1..];
    var r2 := r1[1..];
    var r3 := r2[1..];
    assert r1 == [(FeverAndRespiratory, ColdOrFlu), (AtLeastThree, MultipleSymptoms), (Always, Mild)];
    assert r2 == [(AtLeastThree, MultipleSymptoms), (Always, Mild)];
    assert r3 == [(Always, Mild)];
    assert FirstMatch(r3, selected) == Some(Mild);
    if Holds(CardiacOrBreathless, selected) {
      assert FirstMatch(rules, selected) == Some(Urgent);
    } else if Holds(FeverAndRespiratory, selected) {
      assert FirstMatch(r1, selected) == Some(ColdOrFlu);
    } else if Holds(AtLeastThree, selected) {
      assert FirstMatch(r2, selected) == Some(MultipleSymptoms);
    } else {
      assert FirstMatch(r2, selected) == Some(Mild);
    }
  }

  /** The example inputs: fever with cough, chest pain alone, three general symptoms, one symptom. */
  lemma Examples(lang: LC.Language)
    ensures Classify([Fever, Cough], lang).condition.key == ConditionText(ColdOrFlu)
    ensures Classify([Fever, Cough], lang).severity == Medium
    ensures Classify([ChestPain], lang).severity == High
    ensures Classify([Fever, Headache, Fatigue], lang).condition.key == ConditionText(MultipleSymptoms)
    ensures Classify([Headache], lang).severity == Low
    ensures Classify([], lang).severity == Low
  {
  }

  /** A non-"others" toggle: `prev.includes(id) ? prev.filter(x => x !== id) : [...prev, id]`. */
  function ToggleSelection(s: seq<SymptomId>, id: SymptomId): (r: seq<SymptomId>)
    ensures forall y :: y in r <==> (if y == id then id !in s else y in s)
    ensures NoDups(s) ==> NoDups(r)
    ensures id !in s ==> |r| == |s| + 1 && r[..|s|] == s
    ensures id in s && NoDups(s) ==> |r| == |s| - 1
  {
    if id in s then
      NoDupsRemove(s, id);
      Remove(s, id)
    else
      NoDupsCons(id, []);
      NoDupsAppend(s, id);
      s + [id]
  }

  /** Toggling an unselected id twice gives back exactly the previous selection. */
  lemma ToggleTwiceFromAbsent(s: seq<SymptomId>, id: SymptomId)
    requires id !in s
    ensures ToggleSelection(ToggleSelection(s, id), id) == s
  {
    RemoveAppended(s, id);
  }

  /**
   * Toggling a selected id twice keeps the same set of ids, but moves the id
   * to the end of the list.
   */
  lemma ToggleTwiceFromPresent(s: seq<SymptomId>, id: SymptomId)
    requires id in s
    ensures ToggleSelection(ToggleSelection(s, id), id) == Remove(s, id) + [id]
    ensures forall y :: y in ToggleSelection(ToggleSelection(s, id), id) <==> y in s
  {
  }

  /** The order change is observable: fever, cough, then fever twice, gives cough, fever. */
  lemma ToggleTwiceReorders()
    ensures ToggleSelection(ToggleSelection([Fever, Cough], Fever), Fever) == [Cough, Fever]
  {
  }

  /** The four state cells of the screen. */
  class TriageSession {
    var selectedSymptoms: seq<SymptomId>
    var showResults: bool
    var customSymptoms: string
    var showOthersInput: bool

    /**
     * The selection has no duplicates, "others" is selected exactly when its
     * text box is shown, a hidden text box holds no text, and results are
     * shown only for a non-empty selection.
     */
    predicate Valid()
      reads this
    {
      && NoDups(selectedSymptoms)
      && (Others in selectedSymptoms <==> showOthersInput)
      && (!showOthersInput ==> customSymptoms == "")
      && (showResults ==> selectedSymptoms != [])
    }

    constructor ()
      ensures Valid()
      ensures selectedSymptoms == [] && !showResults && customSymptoms == "" && !showOthersInput
    {
      selectedSymptoms := [];
      showResults := false;
      customSymptoms := "";
      showOthersInput := false;
    }

    /** `handleSymptomToggle(id)`; the symptom grid exists only while results are hidden. */
    method Toggle(id: SymptomId)
      requires Valid() && !showResults
      modifies this
      ensures Valid()
      ensures showResults == old(showResults)
      ensures id != Others ==>
        && selectedSymptoms == ToggleSelection(old(selectedSymptoms), id)
        && showOthersInput == old(showOthersInput)
        && customSymptoms == old(customSymptoms)
      ensures id == Others ==> showOthersInput == !old(showOthersInput)
      ensures id == Others && old(showOthersInput) ==>
        selectedSymptoms == Remove(old(selectedSymptoms), Others) && customSymptoms == ""
      ensures id == Others && !old(showOthersInput) ==>
        selectedSymptoms == old(selectedSymptoms) + [Others] && customSymptoms == old(customSymptoms)
    {
      if id == Others {
        var wasShown := showOthersInput;
        showOthersInput := !wasShown;
        if wasShown {
          selectedSymptoms := Remove(selectedSymptoms, Others);
          customSymptoms := "";
        } else {
          NoDupsAppend(selectedSymptoms, Others);
          selectedSymptoms := if Others in selectedSymptoms then selectedSymptoms else selectedSymptoms + [Others];
        }
      } else {
        selectedSymptoms := ToggleSelection(selectedSymptoms, id);
      }
    }

    /**
     * The free-text box's `onChange`; the box exists only while "others" is
     * shown and results are hidden.
     */
    method SetCustomSymptoms(text: string)
      requires Valid() && showOthersInput && !showResults
      modifies this
      ensures Valid()
      ensures customSymptoms == text
      ensures selectedSymptoms == old(selectedSymptoms) && showResults == old(showResults)
      ensures showOthersInput == old(showOthersInput)
      ensures forall lang :: Results(lang) == old(Results(lang))
    {
      customSymptoms := text;
    }

    /**
     * `handleAnalyze`: refuses an empty selection with a prompt (the alert),
     * which is exactly when the analyze button is disabled, and otherwise
     * shows the results. An empty selection never has results shown.
     */
    method Analyze(lang: LC.Language) returns (alert: Option<LC.LocalText<ScreenText>>)
      requires Valid()
      modifies this
      ensures Valid()
      ensures alert == if old(selectedSymptoms) == [] then Some(LC.LocalText(SelectSomeSymptoms, lang)) else None
      ensures alert.Some? <==> old(AnalyzeDisabled())
      ensures showResults == (old(showResults) || old(selectedSymptoms) != [])
      ensures old(selectedSymptoms) == [] ==> !showResults
      ensures selectedSymptoms == old(selectedSymptoms) && customSymptoms == old(customSymptoms)
      ensures showOthersInput == old(showOthersInput)
    {
      if |selectedSymptoms| == 0 {
        alert := Some(LC.LocalText(SelectSomeSymptoms, lang));
        return;
      }
      alert := None;
      showResults := true;
    }

    /** `handleReset`: back to an empty selection with nothing shown. */
    method Reset()
      modifies this
      ensures Valid()
      ensures selectedSymptoms == [] && !showResults && customSymptoms == "" && !showOthersInput
    {
      selectedSymptoms := [];
      showResults := false;
      customSymptoms := "";
      showOthersInput := false;
    }

    /** The analyze button is disabled while nothing is selected. */
    predicate AnalyzeDisabled()
      reads this
    {
      |selectedSymptoms| == 0
    }

    /**
     * `results`: the verdict for the current selection, once results are
     * shown; in a valid session a shown verdict is never for an empty selection.
     */
    function Results(lang: LC.Language): (r: Option<Verdict>)
      reads this
      ensures r.Some? <==> showResults
      ensures r.Some? ==> r.value == Classify(selectedSymptoms, lang)
      ensures Valid() && r.Some? ==> |selectedSymptoms| >= 1
    {
      if showResults then Some(Classify(selectedSymptoms, lang)) else None
    }

    /** The emergency card is shown exactly for a high-severity verdict on screen. */
    predicate EmergencyShown(lang: LC.Language)
      reads this
      ensures EmergencyShown(lang) <==>
        showResults && (ChestPain in selectedSymptoms || Breathless in selectedSymptoms)
    {
      Results(lang).Some? && Results(lang).value.severity == High
    }
  }

  /** Toggling "others" on and then off leaves no trace of it. */
  method OthersOnThenOff(session: TriageSession, text: string)
    requires session.Valid() && !session.showOthersInput && !session.showResults
    modifies session
    ensures session.Valid()
    ensures session.selectedSymptoms == old(session.selectedSymptoms)
    ensures session.customSymptoms == "" && !session.showOthersInput
  {
    ghost var before := session.selectedSymptoms;
    session.Toggle(Others);
    session.SetCustomSymptoms(text);
    session.Toggle(Others);
    RemoveAppended(before, Others);
  }

  /** A full round: select, analyze, reset. */
  method AnalyzeThenReset(lang: LC.Language)
  {
    var session := new TriageSession();
    session.Toggle(ChestPain);
    var alert := session.Analyze(lang);
    assert alert == None && session.EmergencyShown(lang);
    session.Reset();
    assert session.Results(lang) == None && session.selectedSymptoms == [];
  }
}
