/** The local state of the BMI calculator component and the event handlers
    that change it: the input fields, "Calculate Only", the validation part
    of "Calculate & Save", the completion of a save, and "Clear". */
module BmiForm {
  import opened Validation
  import opened Classification

  /** The two tabs of the page. */
  datatype Tab = CalculatorTab | HistoryTab

  /** The data sent with a save request; the record id and the creation
      time stamp that go with it are not part of this model. */
  datatype SaveRequest = SaveRequest(height: real, weight: real, age: real, bmi: real)

  /** How a save request ended: the server accepted it, the server refused
      it with a response whose body may carry a message, or the request
      itself failed with an error message (possibly empty). */
  datatype SaveOutcome = Saved | Refused(serverMessage: string) | Failed(errorMessage: string)

  const MsgCalculatedNotSaved := "BMI calculated successfully (not saved to database)."
  const MsgSaved := "BMI calculated and saved successfully!"
  const MsgSaveRefused := "Failed to save BMI data."
  const MsgSaveFailed := "Something went wrong while saving."
  const MsgHistoryLoaded := "BMI history loaded successfully!"
  const MsgHistoryFailed := "Failed to load BMI history."

  /** How a fetch of the history ended: the records arrived (the model keeps
      the `bmi` of each, in order), or it failed with an error message
      (possibly empty). */
  datatype FetchOutcome = Loaded(bmis: seq<real>) | FetchFailed(errorMessage: string)

  /** The message shown when a save ends: the server's or the error's own
      message, or a fixed one when that is empty. */
  function SaveMessage(outcome: SaveOutcome): (m: string)
    ensures outcome.Saved? ==> m == MsgSaved
    ensures outcome.Refused? ==> m == if outcome.serverMessage != "" then outcome.serverMessage else MsgSaveRefused
    ensures outcome.Failed? ==> m == if outcome.errorMessage != "" then outcome.errorMessage else MsgSaveFailed
    ensures m != ""
  {
    match outcome
    case Saved => MsgSaved
    case Refused(s) => if s != "" then s else MsgSaveRefused
    case Failed(e) => if e != "" then e else MsgSaveFailed
  }

  /** The message shown when a history fetch ends: the success text, or the
      error's own message, or a fixed one when that is empty. */
  function HistoryMessage(outcome: FetchOutcome): (m: string)
    ensures outcome.Loaded? ==> m == MsgHistoryLoaded
    ensures outcome.FetchFailed? ==> m == if outcome.errorMessage != "" then outcome.errorMessage else MsgHistoryFailed
    ensures m != ""
  {
    match outcome
    case Loaded(_) => MsgHistoryLoaded
    case FetchFailed(e) => if e != "" then e else MsgHistoryFailed
  }

  /** The result card shown under the form: present exactly when the
      calculator tab is open and a BMI is present. */
  function ResultCard(tab: Tab, bmi: Option<real>): (card: Option<Card>)
    ensures card.Some? <==> tab == CalculatorTab && bmi.Some?
    ensures card.Some? ==> (card.value.bmi == bmi.value &&
                           card.value.info == Info(CategoryOf(bmi.value)) &&
                           card.value.advice == Advice(CategoryOf(bmi.value)))
  {
    if tab != CalculatorTab then None
    else match bmi
      case None => None
      case Some(b) => Some(CardFor(b))
  }

  /** The component's state. The parsing of the text fields (parseFloat,
      parseInt) is passed to the handlers as a function. */
  class Form {
    var height: string
    var weight: string
    var age: string
    var bmi: Option<real>
    var message: string
    var loading: bool
    var activeTab: Tab
    var history: seq<real>

    /** The state of a freshly mounted component. */
    constructor ()
      ensures height == "" && weight == "" && age == ""
      ensures bmi == None && message == "" && !loading && activeTab == CalculatorTab
      ensures history == []
    {
      height, weight, age := "", "", "";
      bmi, message, loading := None, "", false;
      activeTab := CalculatorTab;
      history := [];
    }

    /** Typing in the height field. */
    method SetHeight(text: string)
      modifies this`height
      ensures height == text
    {
      height := text;
    }

    /** Typing in the weight field. */
    method SetWeight(text: string)
      modifies this`weight
      ensures weight == text
    {
      weight := text;
    }

    /** Typing in the age field. */
    method SetAge(text: string)
      modifies this`age
      ensures age == text
    {
      age := text;
    }

    /** Clicking a tab. When the tab changes to the history tab, the effect
        on the tab starts a history fetch, which empties the message and
        marks the form busy before its first request; the fetch ends in
        HistoryFetched. Any other click leaves both as they are. */
    method SelectTab(tab: Tab)
      modifies this`activeTab, this`message, this`loading
      ensures activeTab == tab
      ensures tab == HistoryTab && old(activeTab) != HistoryTab ==> message == "" && loading
      ensures !(tab == HistoryTab && old(activeTab) != HistoryTab) ==>
        message == old(message) && loading == old(loading)
      ensures height == old(height) && weight == old(weight) && age == old(age)
      ensures bmi == old(bmi) && history == old(history)
    {
      var changed := activeTab != tab;
      activeTab := tab;
      if changed && tab == HistoryTab {
        loading := true;
        message := "";
      }
    }

    /** The end of fetchBMIHistory: on success the records replace the
        history and the success message is shown; on failure the history is
        emptied and the error's message is shown. Either way the busy flag
        is cleared. */
    method HistoryFetched(outcome: FetchOutcome)
      modifies this`history, this`message, this`loading
      ensures message == HistoryMessage(outcome) && !loading
      ensures history == if outcome.Loaded? then outcome.bmis else []
      ensures height == old(height) && weight == old(weight) && age == old(age)
      ensures bmi == old(bmi) && activeTab == old(activeTab)
    {
      match outcome {
        case Loaded(bmis) =>
          history := bmis;
          message := MsgHistoryLoaded;
        case FetchFailed(e) =>
          message := if e != "" then e else MsgHistoryFailed;
          history := [];
      }
      loading := false;
    }

    /** clearForm: empties the three fields, the result and the message;
        the busy flag and the tab are left as they are. */
    method ClearForm()
      modifies this`height, this`weight, this`age, this`bmi, this`message
      ensures height == "" && weight == "" && age == ""
      ensures bmi == None && message == ""
      ensures loading == old(loading) && activeTab == old(activeTab)
    {
      height := "";
      weight := "";
      age := "";
      bmi := None;
      message := "";
    }

    /** handleCalculateOnly: runs the height and weight checks; on success
        shows the BMI and the "not saved" message, otherwise shows the
        message of the first failing check and keeps the previous BMI. The
        fields, the busy flag and the tab never change. */
    method CalculateOnly(parseFloat: string -> Num)
      modifies this`bmi, this`message
      ensures height == old(height) && weight == old(weight) && age == old(age)
      ensures loading == old(loading) && activeTab == old(activeTab)
      ensures match ValidateCalculate(parseFloat(height), parseFloat(weight))
        case Accept(b) => bmi == Some(b) && message == MsgCalculatedNotSaved
        case Reject(m) => bmi == old(bmi) && message == m
    {
      message := "";
      var heightNum := parseFloat(height);
      var weightNum := parseFloat(weight);

      if Falsy(heightNum) || Falsy(weightNum) {
        message := MsgMissingPair;
        return;
      }
      if AtMost(heightNum, 0.0) || AtMost(weightNum, 0.0) {
        message := MsgNotPositivePair;
        return;
      }
      if LessThan(heightNum, MinHeight) || GreaterThan(heightNum, MaxHeight) {
        message := MsgHeightRange;
        return;
      }
      if LessThan(weightNum, MinWeight) || GreaterThan(weightNum, MaxWeight) {
        message := MsgWeightRange;
        return;
      }

      var bmiVal := ComputeBmi(heightNum.v, weightNum.v);
      bmi := Some(bmiVal);
      message := MsgCalculatedNotSaved;
    }

    /** handleSubmit up to the save request: marks the form busy and runs
        the full chain of checks. On a rejection it shows the message of the
        first failing check, clears the busy flag, keeps the previous BMI
        and issues no request. On success it shows the BMI and returns the
        request to send, and the form stays busy until SaveFinished. */
    method Submit(parseFloat: string -> Num, parseInt: string -> Num) returns (request: Option<SaveRequest>)
      modifies this`bmi, this`message, this`loading
      ensures height == old(height) && weight == old(weight) && age == old(age)
      ensures activeTab == old(activeTab)
      ensures match ValidateSubmit(parseFloat(height), parseFloat(weight), parseInt(age))
        case Reject(m) => message == m && !loading && bmi == old(bmi) && request == None
        case Accept(b) =>
          message == "" && loading && bmi == Some(b) &&
          request == Some(SaveRequest(parseFloat(height).v, parseFloat(weight).v, parseInt(age).v, b))
    {
      loading := true;
      message := "";

      var heightNum := parseFloat(height);
      var weightNum := parseFloat(weight);
      var ageNum := parseInt(age);

      if Falsy(heightNum) || Falsy(weightNum) || Falsy(ageNum) {
        message := MsgMissingAll;
        loading := false;
        return None;
      }
      if AtMost(heightNum, 0.0) || AtMost(weightNum, 0.0) || AtMost(ageNum, 0.0) {
        message := MsgNotPositiveAll;
        loading := false;
        return None;
      }
      if LessThan(heightNum, MinHeight) || GreaterThan(heightNum, MaxHeight) {
        message := MsgHeightRange;
        loading := false;
        return None;
      }
      if LessThan(weightNum, MinWeight) || GreaterThan(weightNum, MaxWeight) {
        message := MsgWeightRange;
        loading := false;
        return None;
      }
      if LessThan(ageNum, MinAge) || GreaterThan(ageNum, MaxAge) {
        message := MsgAgeRange;
        loading := false;
        return None;
      }

      var bmiVal := ComputeBmi(heightNum.v, weightNum.v);
      bmi := Some(bmiVal);
      request := Some(SaveRequest(heightNum.v, weightNum.v, ageNum.v, bmiVal));
    }

    /** The end of handleSubmit, once the save request has ended: shows the
        outcome's message and clears the busy flag; a successful save also
        empties the three fields. The BMI shown stays. */
    method SaveFinished(outcome: SaveOutcome)
      modifies this`height, this`weight, this`age, this`message, this`loading
      ensures message == SaveMessage(outcome) && !loading
      ensures outcome.Saved? ==> height == "" && weight == "" && age == ""
      ensures !outcome.Saved? ==> height == old(height) && weight == old(weight) && age == old(age)
      ensures bmi == old(bmi) && activeTab == old(activeTab)
    {
      match outcome {
        case Saved =>
          message := MsgSaved;
          height := "";
          weight := "";
          age := "";
        case Refused(s) =>
          // the refusal is thrown as an error that is never empty, so the
          // generic fallback of the catch does not apply
          message := if s != "" then s else MsgSaveRefused;
        case Failed(e) =>
          message := if e != "" then e else MsgSaveFailed;
      }
      loading := false;
    }
  }

  /** A session with the example of a 1.75 m, 70 kg person: "Calculate
      Only" shows a BMI of 22.86 in the "Normal weight" bucket and leaves the
      fields filled in; "Clear" then empties everything. Switching to the
      history tab starts a fetch, and the fetched record is shown with its
      bucket. */
  method ExampleSession(parseFloat: string -> Num)
    requires parseFloat("1.75") == Finite(1.75) && parseFloat("70") == Finite(70.0)
  {
    var form := new Form();
    form.SetHeight("1.75");
    form.SetWeight("70");
    form.CalculateOnly(parseFloat);
    BmiExample();
    assert form.bmi == Some(22.86);
    assert ResultCard(form.activeTab, form.bmi).value.info.category == "Normal weight";
    assert form.height == "1.75" && form.message == MsgCalculatedNotSaved;
    form.ClearForm();
    assert form.bmi == None && form.height == "" && form.message == "";
    form.SelectTab(HistoryTab);
    assert form.loading && form.message == "";
    assert ResultCard(form.activeTab, form.bmi) == None;
    form.HistoryFetched(Loaded([22.86]));
    assert !form.loading && form.message == MsgHistoryLoaded && form.history == [22.86];
    assert HistoryCards(form.history)[0].info.category == "Normal weight";
  }
}
