/** The calculator's selection state: which category, drug and dilution are
    picked, what the two text fields hold and which direction is chosen,
    together with the two reconciliation effects that keep the drug inside
    the category and the dilution inside the drug. */
module Selection {
  import opened Wrappers
  import opened Lists
  import opened Types
  import opened Drugs
  import opened Engine

  // ---------------------------------------------------------------------
  // Derived values

  /** The test `drug.category === selectedCategory`. */
  function InCategory(category: Category): Drug -> bool
  {
    (d: Drug) => d.category == category
  }

  /** The drugs listed under a category, in formulary order. */
  function AvailableDrugs(category: Category): (r: seq<Drug>)
    ensures forall d :: d in r <==> d in DRUGS && d.category == category
  {
    Filter(DRUGS, InCategory(category))
  }

  /** The formulary entry with a given id, searched over the whole table. */
  function FindDrug(id: string): (r: Option<Drug>)
    ensures r.Some? ==> r.value in DRUGS && r.value.id == id
    ensures r.None? <==> forall i :: 0 <= i < |DRUGS| ==> DRUGS[i].id != id
  {
    Find(DRUGS, (d: Drug) => d.id == id)
  }

  /** The dilution of a drug with a given id. */
  function FindDilution(drug: Drug, id: string): (r: Option<Dilution>)
    ensures r.Some? ==> r.value in drug.dilutions && r.value.id == id
    ensures r.None? <==> forall i :: 0 <= i < |drug.dilutions| ==> drug.dilutions[i].id != id
  {
    Find(drug.dilutions, (x: Dilution) => x.id == id)
  }

  /** The drug on screen: the one whose id is selected, wherever it is
      filed, or else the first drug of the category. */
  function SelectedDrug(category: Category, drugId: string): Option<Drug>
  {
    var found := FindDrug(drugId);
    if found.Some? then found
    else
      var available := AvailableDrugs(category);
      if |available| > 0 then Some(available[0]) else None
  }

  /** The dilution on screen: the drug's dilution with the selected id, or
      else its first dilution. */
  function SelectedDilution(drug: Option<Drug>, dilutionId: string): Option<Dilution>
  {
    if drug.None? then None
    else
      var found := FindDilution(drug.value, dilutionId);
      if found.Some? then found
      else if |drug.value.dilutions| > 0 then Some(drug.value.dilutions[0])
      else None
  }

  // ---------------------------------------------------------------------
  // The reconciliation effects, as functions of one render's values

  /** The drug id the category effect leaves behind: unchanged when it names
      a drug of the category, the first drug of the category otherwise
      (unchanged as well when the category were empty). */
  function SyncedDrugId(category: Category, drugId: string): string
  {
    var current := FindDrug(drugId);
    if current.None? || current.value.category != category then
      var available := AvailableDrugs(category);
      if |available| > 0 then available[0].id else drugId
    else drugId
  }

  /** The dilution id and input text the drug effect leaves behind: when the
      dilution id names none of the drug's dilutions, the first dilution is
      taken and the input is cleared. */
  function DilutionSync(drug: Option<Drug>, dilutionId: string, inputText: string): (r: (string, string))
    ensures r.0 == dilutionId ==> r.1 == inputText
    ensures r.0 != dilutionId ==> drug.Some? && |drug.value.dilutions| > 0 && r == (drug.value.dilutions[0].id, "")
    ensures r.0 != dilutionId <==> drug.Some? && FindDilution(drug.value, dilutionId).None? && |drug.value.dilutions| > 0
  {
    if drug.Some? && FindDilution(drug.value, dilutionId).None? && |drug.value.dilutions| > 0 then
      assert drug.value.dilutions[0].id != dilutionId;
      (drug.value.dilutions[0].id, "")
    else (dilutionId, inputText)
  }

  /** Everything the calculator holds in its state hooks. */
  datatype Snapshot = Snapshot(category: Category, drugId: string, dilutionId: string,
                               weightText: string, mode: Mode, inputText: string)

  /** The state as first rendered: the first category, the first drug of
      the formulary, no dilution, 70 kg, dose to rate, no input. */
  const Initial: Snapshot := Snapshot(Vasopressors, DRUGS[0].id, "", "70", DoseToRate, "")

  /** One round of effects: both read the same render, so the drug effect
      sees the drug before the category effect has replaced its id. */
  function Effects(s: Snapshot): Snapshot
  {
    var drug := SelectedDrug(s.category, s.drugId);
    var dilution := DilutionSync(drug, s.dilutionId, s.inputText);
    s.(drugId := SyncedDrugId(s.category, s.drugId), dilutionId := dilution.0, inputText := dilution.1)
  }

  /** Two rounds of effects, after which no effect has anything left to do. */
  function Settle(s: Snapshot): Snapshot
  {
    Effects(Effects(s))
  }

  /** The selected drug is filed under the selected category. */
  predicate DrugInCategory(category: Category, drugId: string)
  {
    FindDrug(drugId).Some? && FindDrug(drugId).value.category == category
  }

  /** The selection is settled: the drug id names a drug of the category and
      the dilution id one of that drug's dilutions. */
  predicate Consistent(s: Snapshot)
  {
    DrugInCategory(s.category, s.drugId) && FindDilution(FindDrug(s.drugId).value, s.dilutionId).Some?
  }

  // ---------------------------------------------------------------------
  // Properties of the effects

  /** Ids are unique, so looking a listed drug up by its id finds it. */
  lemma FindDrugOfListed(d: Drug)
    requires d in DRUGS
    ensures FindDrug(d.id) == Some(d)
  {
    DrugIdsUnique();
    var k :| 0 <= k < |DRUGS| && DRUGS[k] == d;
    assert FindDrug(d.id).Some?;
  }

  /** No category is empty, so the fallback drug always exists. */
  lemma AvailableDrugsNonEmpty(category: Category)
    ensures |AvailableDrugs(category)| > 0
    ensures AvailableDrugs(category)[0] in DRUGS && AvailableDrugs(category)[0].category == category
  {
    EveryCategoryStocked(category);
    var d :| d in DRUGS && d.category == category;
    assert d in AvailableDrugs(category);
  }

  /** The head of a category's list is the first formulary drug filed
      under that category. */
  lemma AvailableHeadIsFirst(category: Category)
    ensures |AvailableDrugs(category)| > 0
    ensures exists i ::
              && 0 <= i < |DRUGS| && DRUGS[i] == AvailableDrugs(category)[0]
              && DRUGS[i].category == category
              && forall j :: 0 <= j < i ==> DRUGS[j].category != category
  {
    AvailableDrugsNonEmpty(category);
    HeadOfCategoryIsFirst(DRUGS, category);
  }

  lemma HeadOfCategoryIsFirst(xs: seq<Drug>, category: Category)
    requires Filter(xs, InCategory(category)) != []
    ensures exists i ::
              && 0 <= i < |xs| && xs[i] == Filter(xs, InCategory(category))[0]
              && xs[i].category == category
              && forall j :: 0 <= j < i ==> xs[j].category != category
  {
    var p := InCategory(category);
    FilterHeadIsFirst(xs, p);
    var i :| && 0 <= i < |xs| && xs[i] == Filter(xs, p)[0] && p(xs[i])
             && forall j :: 0 <= j < i ==> !p(xs[j]);
    forall j | 0 <= j < i ensures xs[j].category != category {
      assert !p(xs[j]);
    }
    assert xs[i].category == category;
  }

  /** A drug id outside the category is replaced by the head of the
      category's list. */
  lemma SyncedDrugIsHead(category: Category, drugId: string)
    requires !DrugInCategory(category, drugId)
    ensures |AvailableDrugs(category)| > 0
    ensures SyncedDrugId(category, drugId) == AvailableDrugs(category)[0].id
  {
    AvailableDrugsNonEmpty(category);
  }

  /** A drug id outside the category is replaced by the id of the first
      formulary drug filed under the category. */
  lemma SyncedDrugIsFirstOfCategory(category: Category, drugId: string)
    requires !DrugInCategory(category, drugId)
    ensures exists i ::
              && 0 <= i < |DRUGS| && DRUGS[i].category == category
              && SyncedDrugId(category, drugId) == DRUGS[i].id
              && forall j :: 0 <= j < i ==> DRUGS[j].category != category
  {
    SyncedDrugIsHead(category, drugId);
    AvailableHeadIsFirst(category);
  }

  /** Whatever the drug id held, after the category effect it names a drug
      of the category. */
  lemma SyncedDrugInCategory(category: Category, drugId: string)
    ensures DrugInCategory(category, SyncedDrugId(category, drugId))
  {
    if !DrugInCategory(category, drugId) {
      AvailableDrugsNonEmpty(category);
      FindDrugOfListed(AvailableDrugs(category)[0]);
    }
  }

  /** The category effect leaves the drug id alone exactly when it already
      names a drug of the category. */
  lemma SyncedDrugIdStableIff(category: Category, drugId: string)
    ensures SyncedDrugId(category, drugId) == drugId <==> DrugInCategory(category, drugId)
  {
    SyncedDrugInCategory(category, drugId);
  }

  /** For a drug with dilutions, the drug effect always leaves a dilution id
      that names one of them. */
  lemma DilutionSyncSelects(drug: Drug, dilutionId: string, inputText: string)
    requires |drug.dilutions| > 0
    ensures FindDilution(drug, DilutionSync(Some(drug), dilutionId, inputText).0).Some?
  {
    if FindDilution(drug, dilutionId).None? {
      assert FindDilution(drug, drug.dilutions[0].id).Some?;
    }
  }

  /** Every drug of the formulary has a dilution. */
  lemma ListedDrugHasDilutions(d: Drug)
    requires d in DRUGS
    ensures |d.dilutions| > 0
  {
    AllDrugsSound();
  }

  /** A round of effects changes nothing exactly when the selection is
      settled. */
  lemma ConsistentIffFixedPoint(s: Snapshot)
    ensures Consistent(s) <==> Effects(s) == s
  {
    SyncedDrugIdStableIff(s.category, s.drugId);
    if DrugInCategory(s.category, s.drugId) {
      var d := FindDrug(s.drugId).value;
      ListedDrugHasDilutions(d);
      DilutionSyncSelects(d, s.dilutionId, s.inputText);
    }
  }

  /** Two rounds of effects settle any state, however stale its ids. */
  lemma SettleConsistent(s: Snapshot)
    ensures Consistent(Settle(s))
  {
    var s1 := Effects(s);
    SyncedDrugInCategory(s.category, s.drugId);
    assert DrugInCategory(s1.category, s1.drugId);
    SyncedDrugIdStableIff(s1.category, s1.drugId);
    var d := FindDrug(s1.drugId).value;
    ListedDrugHasDilutions(d);
    DilutionSyncSelects(d, s1.dilutionId, s1.inputText);
  }

  /** Whatever the ids hold, the drug and dilution on screen are an entry
      of the formulary and one of its dilutions. */
  lemma SelectionFromFormulary(category: Category, drugId: string, dilutionId: string)
    ensures var drug := SelectedDrug(category, drugId);
      && drug.Some?
      && drug.value in DRUGS
      && SelectedDilution(drug, dilutionId).Some?
      && SelectedDilution(drug, dilutionId).value in drug.value.dilutions
  {
    var found := FindDrug(drugId);
    if found.None? {
      AvailableDrugsNonEmpty(category);
    }
    var drug := SelectedDrug(category, drugId).value;
    assert drug in DRUGS;
    ListedDrugHasDilutions(drug);
    var dil := FindDilution(drug, dilutionId);
    if dil.None? {
      assert drug.dilutions[0] in drug.dilutions;
    }
  }

  /** Settling a settled state changes nothing. */
  lemma SettleIdempotent(s: Snapshot)
    ensures Settle(Settle(s)) == Settle(s)
  {
    SettleConsistent(s);
    ConsistentIffFixedPoint(Settle(s));
  }

  /** Once settled, what is on screen is exactly what the ids name: the
      fallbacks to the first drug and first dilution are never taken. */
  lemma SettledSelectionIsNamed(s: Snapshot)
    requires Consistent(s)
    ensures SelectedDrug(s.category, s.drugId) == FindDrug(s.drugId)
    ensures SelectedDrug(s.category, s.drugId).value.category == s.category
    ensures SelectedDilution(SelectedDrug(s.category, s.drugId), s.dilutionId)
         == FindDilution(FindDrug(s.drugId).value, s.dilutionId)
  {
  }

  /** Editing the weight, the direction or the input never disturbs a
      settled selection, and the edit itself is kept. */
  lemma EditingKeepsSelection(s: Snapshot, weightText: string, mode: Mode, inputText: string)
    requires Consistent(s)
    ensures var t := s.(weightText := weightText, mode := mode, inputText := inputText);
      Settle(t) == t
  {
    var t := s.(weightText := weightText, mode := mode, inputText := inputText);
    ConsistentIffFixedPoint(t);
  }

  /** Picking a drug of the category settles in one round: only the
      dilution effect has anything to do. */
  lemma SettleAfterChoosing(s: Snapshot, d: Drug)
    requires d in DRUGS && d.category == s.category
    ensures var picked := DilutionSync(Some(d), s.dilutionId, s.inputText);
      Settle(s.(drugId := d.id)) == s.(drugId := d.id, dilutionId := picked.0, inputText := picked.1)
  {
    FindDrugOfListed(d);
    ListedDrugHasDilutions(d);
    var s0 := s.(drugId := d.id);
    SyncedDrugIdStableIff(s0.category, s0.drugId);
    var picked := DilutionSync(Some(d), s.dilutionId, s.inputText);
    var s1 := s0.(dilutionId := picked.0, inputText := picked.1);
    assert Effects(s0) == s1;
    DilutionSyncSelects(d, s.dilutionId, s.inputText);
    ConsistentIffFixedPoint(s1);
  }

  /** Picking another drug of the category keeps that drug; its dilution
      falls back to its first one, clearing the input, unless the old
      dilution id is one of its own. */
  lemma ChoosingDrugOfCategory(s: Snapshot, d: Drug)
    requires d in AvailableDrugs(s.category)
    ensures var t := Settle(s.(drugId := d.id));
      && t.drugId == d.id
      && (FindDilution(d, s.dilutionId).Some? ==> t.dilutionId == s.dilutionId && t.inputText == s.inputText)
      && (FindDilution(d, s.dilutionId).None? ==> |d.dilutions| > 0 && t.dilutionId == d.dilutions[0].id && t.inputText == "")
  {
    assert d in DRUGS && d.category == s.category;
    ListedDrugHasDilutions(d);
    SettleAfterChoosing(s, d);
    var picked := DilutionSync(Some(d), s.dilutionId, s.inputText);
    if FindDilution(d, s.dilutionId).Some? {
      assert picked == (s.dilutionId, s.inputText);
    } else {
      assert picked == (d.dilutions[0].id, "");
    }
  }

  /** The first render settles on Noradrenalina, its standard dilution, an
      empty input. */
  lemma InitialSettles()
    ensures Settle(Initial) == Snapshot(Vasopressors, "noradrenalina", "nora_std", "70", DoseToRate, "")
  {
    FindDrugOfListed(Noradrenalina);
    assert FindDilution(Noradrenalina, "").None?;
    var s1 := Effects(Initial);
    assert s1 == Snapshot(Vasopressors, "noradrenalina", "nora_std", "70", DoseToRate, "");
    assert FindDilution(Noradrenalina, "nora_std").Some?;
    SyncedDrugIdStableIff(Vasopressors, "noradrenalina");
  }

  // ---------------------------------------------------------------------
  // The component

  /** The calculator's state hooks, updated in place by the handlers and by
      the reconciliation effects that follow each change. */
  class Calculator {
    var category: Category
    var drugId: string
    var dilutionId: string
    var weightText: string
    var mode: Mode
    var inputText: string

    function State(): Snapshot
      reads this
    {
      Snapshot(category, drugId, dilutionId, weightText, mode, inputText)
    }

    /** The reading on screen, recomputed from the current state. Whatever
        the state, the drug and dilution it computes with come from the
        formulary, so a reading is always a finite number with the sign of
        the input. */
    function Result(): (r: Option<Reading>)
      reads this
      ensures r.Some? ==> ReadNumber(inputText).Some? && SameSign(r.value.value, ReadNumber(inputText).value)
    {
      var drug := SelectedDrug(category, drugId);
      var dilution := SelectedDilution(drug, dilutionId);
      SelectionFromFormulary(category, drugId, dilutionId);
      FormularyReadingsFiniteAndSigned(drug.value, dilution.value, weightText, mode, inputText);
      Calculate(drug, dilution, weightText, mode, inputText)
    }

    /** The unit shown beside the input field. */
    function TargetUnitLabel(): Option<string>
      reads this
    {
      InputUnitLabel(mode, SelectedDrug(category, drugId))
    }

    /** The first render followed by its effects. */
    constructor()
      ensures State() == Settle(Initial)
      ensures Consistent(State())
    {
      category := Vasopressors;
      drugId := DRUGS[0].id;
      dilutionId := "";
      weightText := "70";
      mode := DoseToRate;
      inputText := "";
      new;
      assert State() == Initial;
      Reconcile();
    }

    /** The category effect: a drug id that names no drug of the category
        is replaced by the first drug of the category. */
    method SyncDrug()
      modifies this
      ensures State() == old(State()).(drugId := SyncedDrugId(old(category), old(drugId)))
      ensures DrugInCategory(category, drugId)
    {
      drugId := SyncedDrugId(category, drugId);
      SyncedDrugInCategory(old(category), old(drugId));
    }

    /** The drug effect, for the drug `drug` on screen: a dilution id that
        names none of its dilutions is replaced by the first one, and the
        input is cleared. */
    method SyncDilution(drug: Option<Drug>)
      modifies this
      ensures State() == old(State()).(dilutionId := DilutionSync(drug, old(dilutionId), old(inputText)).0,
                                       inputText := DilutionSync(drug, old(dilutionId), old(inputText)).1)
      ensures drug.Some? && |drug.value.dilutions| > 0 ==> FindDilution(drug.value, dilutionId).Some?
    {
      if drug.Some? {
        var valid := FindDilution(drug.value, dilutionId);
        if valid.None? && |drug.value.dilutions| > 0 {
          dilutionId := drug.value.dilutions[0].id;
          inputText := "";
        }
      }
      if drug.Some? && |drug.value.dilutions| > 0 {
        DilutionSyncSelects(drug.value, old(dilutionId), old(inputText));
      }
    }

    /** Both effects against the values of one render: the drug effect sees
        the drug that was on screen before the category effect ran. */
    method RunEffects()
      modifies this
      ensures State() == Effects(old(State()))
    {
      var drug := SelectedDrug(category, drugId);
      SyncDrug();
      SyncDilution(drug);
    }

    /** Effects run until none has anything left to do. */
    method Reconcile()
      modifies this
      ensures State() == Settle(old(State()))
      ensures Consistent(State())
    {
      RunEffects();
      RunEffects();
      SettleConsistent(old(State()));
    }

    method ChooseCategory(c: Category)
      modifies this
      ensures State() == Settle(old(State()).(category := c))
      ensures Consistent(State()) && category == c
    {
      category := c;
      assert State() == old(State()).(category := c);
      Reconcile();
    }

    method ChooseDrug(id: string)
      modifies this
      ensures State() == Settle(old(State()).(drugId := id))
      ensures Consistent(State())
    {
      drugId := id;
      assert State() == old(State()).(drugId := id);
      Reconcile();
    }

    method ChooseDilution(id: string)
      modifies this
      ensures State() == Settle(old(State()).(dilutionId := id))
      ensures Consistent(State())
    {
      dilutionId := id;
      assert State() == old(State()).(dilutionId := id);
      Reconcile();
    }

    method ChooseMode(m: Mode)
      modifies this
      ensures State() == Settle(old(State()).(mode := m))
      ensures Consistent(State())
      ensures Consistent(old(State())) ==> State() == old(State()).(mode := m)
    {
      mode := m;
      assert State() == old(State()).(mode := m);
      Reconcile();
      if Consistent(old(State())) {
        EditingKeepsSelection(old(State()), old(weightText), m, old(inputText));
      }
    }

    method EditWeight(text: string)
      modifies this
      ensures State() == Settle(old(State()).(weightText := text))
      ensures Consistent(State())
      ensures Consistent(old(State())) ==> State() == old(State()).(weightText := text)
    {
      weightText := text;
      assert State() == old(State()).(weightText := text);
      Reconcile();
      if Consistent(old(State())) {
        EditingKeepsSelection(old(State()), text, old(mode), old(inputText));
      }
    }

    method EditInput(text: string)
      modifies this
      ensures State() == Settle(old(State()).(inputText := text))
      ensures Consistent(State())
      ensures Consistent(old(State())) ==> State() == old(State()).(inputText := text)
    {
      inputText := text;
      assert State() == old(State()).(inputText := text);
      Reconcile();
      if Consistent(old(State())) {
        EditingKeepsSelection(old(State()), old(weightText), old(mode), text);
      }
    }
  }
}
