/** The storefront popup that walks a visitor through its sections one step
    at a time (`MultiStepPopup`).

    The component keeps three pieces of state (the current step, the typed
    email and whether a submit is in flight) and reports what happens through
    three callbacks (`onButtonClick`, `onEmailSubmit`, `onClose`). Here each
    handler is a function from the old state to the new state and the
    callbacks it makes, in order; the class `Widget` holds the same state in
    fields and its methods are proved to do what those functions say. What
    the component renders is the function `Render`. */
module MultiStepPopup {
  import opened Common

  datatype SectionType = Intro | EmailCapture | CustomSection

  datatype SectionContent = SectionContent(
    heading: string,
    description: string,
    emailPlaceholder: Option<string>,
    primaryButton: Option<string>,
    secondaryButton: Option<string>,
    buttonText: Option<string>)

  datatype Section = Section(id: int, kind: SectionType, title: string, order: int, content: SectionContent)

  datatype CustomButton = CustomButton(id: string, text: string, action: string, url: Option<string>, style: string)

  /** The part of `popupData` that the component's logic reads. */
  datatype PopupData = PopupData(
    isMultiStep: bool,
    sections: seq<Section>,
    imagePosition: string,
    displaySize: string,
    cornerRadius: string,
    footerText: Option<string>,
    customButtons: seq<CustomButton>)

  /** JavaScript truthiness of an optional string: present and not empty. */
  predicate Truthy(s: Option<string>) {
    s.Some? && s.value != ""
  }

  /** `s || fallback` for an optional string. */
  function OrElse(s: Option<string>, fallback: string): (r: string)
    ensures Truthy(s) ==> r == s.value
    ensures !Truthy(s) ==> r == fallback
    ensures fallback != "" ==> r != ""
  {
    if Truthy(s) then s.value else fallback
  }

  // ---------------------------------------------------------------------
  // State, callbacks and the handlers as functions
  // ---------------------------------------------------------------------

  /** `currentStep`, `email` and `isSubmitting`. */
  datatype UiState = UiState(step: int, email: string, submitting: bool)

  const Initial := UiState(0, "", false)

  /** The third argument of `onButtonClick`. */
  datatype ClickData = NoData | StepChange(fromStep: int, toStep: int) | LinkTarget(url: Option<string>)

  /** One call of a callback prop. */
  datatype Callback =
    | ButtonClick(action: string, sectionId: int, data: ClickData)
    | EmailSubmit(email: string, sectionId: int)
    | CloseRequest

  /** A handler's effect: the new state and the callbacks made, in order. */
  datatype Outcome = Outcome(state: UiState, emitted: seq<Callback>)

  /** The invariant: the step indexes a section (and is 0 when there are
      none, in which case nothing is shown and no handler can run). */
  predicate StepInRange(data: PopupData, st: UiState) {
    && 0 <= st.step
    && (|data.sections| == 0 ==> st.step == 0)
    && (|data.sections| > 0 ==> st.step < |data.sections|)
  }

  /** The step indexes a section: the handlers' precondition. */
  predicate OnSection(data: PopupData, st: UiState) {
    0 <= st.step < |data.sections|
  }

  predicate IsLastStep(data: PopupData, st: UiState) {
    st.step == |data.sections| - 1
  }

  predicate IsFirstStep(st: UiState) {
    st.step == 0
  }

  function CurrentSection(data: PopupData, st: UiState): Section
    requires OnSection(data, st)
  {
    data.sections[st.step]
  }

  /** `nextStep`: one step forward unless on the last step, reporting the
      move; on the last step nothing changes and nothing is reported. */
  function Next(data: PopupData, st: UiState): (o: Outcome)
    requires OnSection(data, st)
    ensures OnSection(data, o.state)
    ensures o.state.email == st.email && o.state.submitting == st.submitting
    ensures IsLastStep(data, st) <==> o.emitted == []
    ensures IsLastStep(data, st) ==> o.state == st
    ensures !IsLastStep(data, st) ==>
              && o.state.step == st.step + 1
              && o.emitted == [ButtonClick("next", CurrentSection(data, st).id, StepChange(st.step, o.state.step))]
  {
    if IsLastStep(data, st) then Outcome(st, [])
    else Outcome(st.(step := st.step + 1),
                 [ButtonClick("next", CurrentSection(data, st).id, StepChange(st.step, st.step + 1))])
  }

  /** `prevStep`: one step back unless on the first step, reporting the
      move; on the first step nothing changes and nothing is reported. */
  function Prev(data: PopupData, st: UiState): (o: Outcome)
    requires OnSection(data, st)
    ensures OnSection(data, o.state)
    ensures o.state.email == st.email && o.state.submitting == st.submitting
    ensures IsFirstStep(st) <==> o.emitted == []
    ensures IsFirstStep(st) ==> o.state == st
    ensures !IsFirstStep(st) ==>
              && o.state.step == st.step - 1
              && o.emitted == [ButtonClick("previous", CurrentSection(data, st).id, StepChange(st.step, o.state.step))]
  {
    if IsFirstStep(st) then Outcome(st, [])
    else Outcome(st.(step := st.step - 1),
                 [ButtonClick("previous", CurrentSection(data, st).id, StepChange(st.step, st.step - 1))])
  }

  /** The effect on `isVisible`: becoming visible starts over; any other
      change of visibility keeps the state. */
  function OnVisibility(wasVisible: bool, visible: bool, st: UiState): (r: UiState)
    ensures visible && !wasVisible ==> r == Initial
    ensures !(visible && !wasVisible) ==> r == st
  {
    if visible && !wasVisible then Initial else st
  }

  /** The submit itself, up to the `await`: ignored when the trimmed email is
      empty or a submit is in flight; otherwise marks a submit in flight and
      hands the email to `onEmailSubmit`. */
  function SubmitEmail(data: PopupData, st: UiState): (o: Outcome)
    requires OnSection(data, st)
    ensures o.state.step == st.step && o.state.email == st.email
    ensures Trim(st.email) == "" || st.submitting ==> o == Outcome(st, [])
    ensures Trim(st.email) != "" && !st.submitting ==>
              o == Outcome(st.(submitting := true), [EmailSubmit(st.email, CurrentSection(data, st).id)])
  {
    if Trim(st.email) == "" || st.submitting then Outcome(st, [])
    else Outcome(st.(submitting := true), [EmailSubmit(st.email, CurrentSection(data, st).id)])
  }

  /** The rest of the submit, once `onEmailSubmit` has settled and its timer
      has run. The timer runs the handlers of the render that submitted, so
      it works from `from`, the step at the time of the submit, not from the
      current one: on success it moves to the step after `from` (reporting
      that move) or, when `from` was the last step, asks to close; in every
      case the submit is no longer in flight. */
  function SettleSubmit(data: PopupData, st: UiState, from: int, succeeded: bool): (o: Outcome)
    requires OnSection(data, st) && 0 <= from < |data.sections|
    ensures OnSection(data, o.state) && !o.state.submitting && o.state.email == st.email
    ensures !succeeded ==> o == Outcome(st.(submitting := false), [])
    ensures succeeded && from != |data.sections| - 1 ==>
              && o.state.step == from + 1
              && o.emitted == [ButtonClick("next", data.sections[from].id, StepChange(from, from + 1))]
    ensures succeeded && from == |data.sections| - 1 ==> o == Outcome(st.(submitting := false), [CloseRequest])
  {
    if !succeeded then Outcome(st.(submitting := false), [])
    else if from != |data.sections| - 1 then
      var n := Next(data, st.(step := from));
      Outcome(n.state.(submitting := false), n.emitted)
    else Outcome(st.(submitting := false), [CloseRequest])
  }

  /** `handlePrimaryAction`: an email section submits; any other section
      completes and asks to close on the last step, and moves on before it. */
  function PrimaryAction(data: PopupData, st: UiState): (o: Outcome)
    requires OnSection(data, st)
    ensures OnSection(data, o.state)
    ensures CurrentSection(data, st).kind == EmailCapture ==> o == SubmitEmail(data, st)
    ensures CurrentSection(data, st).kind != EmailCapture && IsLastStep(data, st) ==>
              o == Outcome(st, [ButtonClick("complete", CurrentSection(data, st).id, NoData), CloseRequest])
    ensures CurrentSection(data, st).kind != EmailCapture && !IsLastStep(data, st) ==>
              o.state.step == st.step + 1 && o == Next(data, st)
  {
    var section := CurrentSection(data, st);
    if section.kind == EmailCapture then SubmitEmail(data, st)
    else if IsLastStep(data, st) then Outcome(st, [ButtonClick("complete", section.id, NoData), CloseRequest])
    else Next(data, st)
  }

  /** `handleSecondaryAction`: on an email section, report the skip, then
      move on or, on the last step, ask to close; elsewhere only report. */
  function SecondaryAction(data: PopupData, st: UiState): (o: Outcome)
    requires OnSection(data, st)
    ensures OnSection(data, o.state) && |o.emitted| >= 1
    ensures CurrentSection(data, st).kind == EmailCapture ==>
              && o.emitted[0] == ButtonClick("skip_email", CurrentSection(data, st).id, NoData)
              && (IsLastStep(data, st) ==> o == Outcome(st, [o.emitted[0], CloseRequest]))
              && (!IsLastStep(data, st) ==>
                    o.state.step == st.step + 1 && o == Outcome(Next(data, st).state, [o.emitted[0]] + Next(data, st).emitted))
    ensures CurrentSection(data, st).kind != EmailCapture ==>
              o == Outcome(st, [ButtonClick("secondary", CurrentSection(data, st).id, NoData)])
  {
    var section := CurrentSection(data, st);
    if section.kind == EmailCapture then
      var skip := ButtonClick("skip_email", section.id, NoData);
      if !IsLastStep(data, st) then
        var n := Next(data, st);
        Outcome(n.state, [skip] + n.emitted)
      else Outcome(st, [skip, CloseRequest])
    else Outcome(st, [ButtonClick("secondary", section.id, NoData)])
  }

  /** A custom button (shown on the last step only) reports its action and
      link, and changes nothing. */
  function CustomButtonClick(data: PopupData, st: UiState, k: nat): (o: Outcome)
    requires OnSection(data, st) && IsLastStep(data, st) && k < |data.customButtons|
    ensures o.state == st && |o.emitted| == 1
    ensures o.emitted[0].ButtonClick? && o.emitted[0].action == data.customButtons[k].action
    ensures o.emitted[0].sectionId == CurrentSection(data, st).id
    ensures o.emitted[0].data == LinkTarget(data.customButtons[k].url)
  {
    var b := data.customButtons[k];
    Outcome(st, [ButtonClick(b.action, CurrentSection(data, st).id, LinkTarget(b.url))])
  }

  // ---------------------------------------------------------------------
  // What is rendered
  // ---------------------------------------------------------------------

  /** `borderRadius` of the popup box. */
  function BorderRadius(cornerRadius: string): (r: string)
    ensures r == "12px" <==> cornerRadius == "rounded"
    ensures r == "0px" <==> cornerRadius == "square"
    ensures r == "8px" <==> cornerRadius != "rounded" && cornerRadius != "square"
  {
    if cornerRadius == "rounded" then "12px" else if cornerRadius == "square" then "0px" else "8px"
  }

  /** `maxWidth` of the popup box. */
  function MaxWidth(displaySize: string): (r: string)
    ensures r == "600px" <==> displaySize == "large"
    ensures r == "400px" <==> displaySize == "small"
    ensures r == "500px" <==> displaySize != "large" && displaySize != "small"
  {
    if displaySize == "large" then "600px" else if displaySize == "small" then "400px" else "500px"
  }

  /** `padding` of the popup box: none beside a side image, none on top
      under a top image, 32px otherwise. */
  function BoxPadding(imagePosition: string): (r: string)
    ensures r == "0" <==> imagePosition == "left" || imagePosition == "right"
    ensures r == "0 32px 32px 32px" <==> imagePosition == "top"
    ensures r == "32px" <==> imagePosition != "left" && imagePosition != "right" && imagePosition != "top"
  {
    if imagePosition == "left" || imagePosition == "right" then "0"
    else if imagePosition == "top" then "0 32px 32px 32px"
    else "32px"
  }

  /** The label of the primary button of a non-email section: `buttonText`,
      else `primaryButton`, else "Complete" on the last step and "Continue"
      before it. It is never empty. */
  function PrimaryLabel(content: SectionContent, isLast: bool): (r: string)
    ensures r != ""
    ensures Truthy(content.buttonText) ==> r == content.buttonText.value
    ensures !Truthy(content.buttonText) && Truthy(content.primaryButton) ==> r == content.primaryButton.value
    ensures !Truthy(content.buttonText) && !Truthy(content.primaryButton) ==>
              r == (if isLast then "Complete" else "Continue")
  {
    OrElse(content.buttonText, OrElse(content.primaryButton, if isLast then "Complete" else "Continue"))
  }

  /** The label of the email form's submit button. It is never empty. */
  function SubmitLabel(content: SectionContent, submitting: bool): (r: string)
    ensures r != ""
    ensures submitting ==> r == "Submitting..."
    ensures !submitting ==> r == OrElse(content.primaryButton, "Claim discount")
  {
    if submitting then "Submitting..." else OrElse(content.primaryButton, "Claim discount")
  }

  /** The controls of the current section. */
  datatype Controls =
    | EmailForm(placeholder: string, submitLabel: string, submitDisabled: bool, secondaryLabel: Option<string>)
    | ActionButtons(primaryLabel: string, showBack: bool)

  /** What the component chooses to show. */
  datatype View = View(
    borderRadius: string,
    maxWidth: string,
    padding: string,
    progressDots: seq<bool>,
    heading: string,
    description: string,
    controls: Controls,
    customButtons: seq<CustomButton>,
    footer: Option<string>)

  /** The rendered popup, or None when it renders nothing. */
  function Render(data: PopupData, visible: bool, st: UiState): (v: Option<View>)
    requires StepInRange(data, st)
    ensures v.None? <==> !visible || |data.sections| == 0
    ensures v.Some? ==>
      var view, section := v.value, data.sections[st.step];
      && view.heading == section.content.heading
      && view.borderRadius == BorderRadius(data.cornerRadius)
      && view.maxWidth == MaxWidth(data.displaySize)
      && view.padding == BoxPadding(data.imagePosition)
      && view.description == section.content.description
      && (view.controls.EmailForm? <==> section.kind == EmailCapture)
      && (view.controls.ActionButtons? ==>
            && view.controls.primaryLabel == PrimaryLabel(section.content, IsLastStep(data, st))
            && (view.controls.showBack <==> st.step > 0))
      && (view.controls.EmailForm? ==>
            && view.controls.placeholder == OrElse(section.content.emailPlaceholder, "Email address")
            && view.controls.submitLabel == SubmitLabel(section.content, st.submitting)
            && (view.controls.submitDisabled <==> st.submitting)
            && (view.controls.secondaryLabel.Some? <==> Truthy(section.content.secondaryButton))
            && (view.controls.secondaryLabel.Some? ==> view.controls.secondaryLabel == section.content.secondaryButton))
      && (view.customButtons != [] ==> IsLastStep(data, st))
      && (IsLastStep(data, st) ==> view.customButtons == data.customButtons)
      && (view.footer.Some? <==> Truthy(data.footerText) && section.kind == EmailCapture)
      && (view.progressDots != [] <==> data.isMultiStep && |data.sections| > 1)
      && (view.progressDots != [] ==>
            |view.progressDots| == |data.sections|
            && forall i :: 0 <= i < |view.progressDots| ==> (view.progressDots[i] <==> i == st.step))
  {
    if !visible || |data.sections| == 0 then None
    else
      var section := data.sections[st.step];
      var isLast := IsLastStep(data, st);
      var controls :=
        if section.kind == EmailCapture then
          EmailForm(OrElse(section.content.emailPlaceholder, "Email address"),
                    SubmitLabel(section.content, st.submitting),
                    st.submitting,
                    if Truthy(section.content.secondaryButton) then section.content.secondaryButton else None)
        else ActionButtons(PrimaryLabel(section.content, isLast), !IsFirstStep(st));
      var dots :=
        if data.isMultiStep && |data.sections| > 1
        then seq(|data.sections|, i requires 0 <= i < |data.sections| => i == st.step)
        else [];
      Some(View(
        BorderRadius(data.cornerRadius),
        MaxWidth(data.displaySize),
        BoxPadding(data.imagePosition),
        dots,
        section.content.heading,
        section.content.description,
        controls,
        if isLast then data.customButtons else [],
        if Truthy(data.footerText) && section.kind == EmailCapture then data.footerText else None))
  }

  // ---------------------------------------------------------------------
  // Visitor interaction as a whole
  // ---------------------------------------------------------------------

  /** What a visitor (or the page around the popup) can do. */
  datatype UserEvent =
    | PressPrimary                 // the primary button of a non-email section
    | PressBack                    // "← Back"
    | SubmitForm                   // submitting the email form
    | PressSecondary               // the secondary button of the email form
    | PressCustom(index: nat)      // a custom button of the last step
    | PressClose                   // the × button
    | TypeEmail(text: string)      // typing into the email field
    | SubmitSettled(index: nat, succeeded: bool)  // a pending submit's timer (or its failure) runs
    | SetVisible(visible: bool)    // the `isVisible` prop changes

  /** The visibility prop, the state, and for every submit still waiting
      for its timer the step it was made on. */
  datatype Session = Session(visible: bool, state: UiState, pending: seq<int>)

  predicate SessionOk(data: PopupData, s: Session) {
    && StepInRange(data, s.state)
    && forall i :: 0 <= i < |s.pending| ==> 0 <= s.pending[i] < |data.sections|
  }

  /** The event's control is on screen (a disabled submit button blocks
      submitting the form); a pending submit can settle and the prop can
      change at any time. */
  predicate Available(data: PopupData, s: Session, e: UserEvent)
    requires StepInRange(data, s.state)
  {
    match Render(data, s.visible, s.state)
    case None => (e.SubmitSettled? && e.index < |s.pending|) || e.SetVisible?
    case Some(view) =>
      match e
      case PressPrimary => view.controls.ActionButtons?
      case PressBack => view.controls.ActionButtons? && view.controls.showBack
      case SubmitForm => view.controls.EmailForm? && !view.controls.submitDisabled
      case PressSecondary => view.controls.EmailForm? && view.controls.secondaryLabel.Some?
      case PressCustom(k) => k < |view.customButtons|
      case TypeEmail(_) => view.controls.EmailForm?
      case SubmitSettled(k, _) => k < |s.pending|
      case _ => true
  }

  /** Which events a hidden popup takes, and which control each event needs
      on screen when it is shown. */
  lemma AvailableOnScreen(data: PopupData, s: Session, e: UserEvent)
    requires StepInRange(data, s.state)
    ensures !s.visible || |data.sections| == 0 ==>
              (Available(data, s, e) <==> e.SetVisible? || (e.SubmitSettled? && e.index < |s.pending|))
    ensures s.visible && |data.sections| > 0 ==>
              var section := data.sections[s.state.step];
              && (e.PressPrimary? ==> (Available(data, s, e) <==> section.kind != EmailCapture))
              && (e.PressBack? ==> (Available(data, s, e) <==> section.kind != EmailCapture && s.state.step > 0))
              && (e.SubmitForm? ==> (Available(data, s, e) <==> section.kind == EmailCapture && !s.state.submitting))
              && (e.PressSecondary? ==>
                    (Available(data, s, e) <==> section.kind == EmailCapture && Truthy(section.content.secondaryButton)))
              && (e.TypeEmail? ==> (Available(data, s, e) <==> section.kind == EmailCapture))
              && (e.PressCustom? ==>
                    (Available(data, s, e) <==> IsLastStep(data, s.state) && e.index < |data.customButtons|))
              && (e.SubmitSettled? ==> (Available(data, s, e) <==> e.index < |s.pending|))
              && (e.PressClose? || e.SetVisible? ==> Available(data, s, e))
  {
  }

  /** The effect of one event; an event whose control is not on screen does
      nothing. */
  function Dispatch(data: PopupData, s: Session, e: UserEvent): (r: (Session, seq<Callback>))
    requires SessionOk(data, s)
    ensures SessionOk(data, r.0)
    ensures r.0.visible == (if e.SetVisible? then e.visible else s.visible)
  {
    if !Available(data, s, e) then (s, [])
    else if e.SetVisible? then
      (Session(e.visible, OnVisibility(s.visible, e.visible, s.state), s.pending), [])
    else if |data.sections| == 0 then (s, [])
    else
      var st := s.state;
      match e
      case SubmitForm =>
        var o := SubmitEmail(data, st);
        (Session(s.visible, o.state, if o.emitted == [] then s.pending else s.pending + [st.step]), o.emitted)
      case SubmitSettled(k, ok) =>
        var o := SettleSubmit(data, st, s.pending[k], ok);
        (Session(s.visible, o.state, s.pending[..k] + s.pending[k + 1..]), o.emitted)
      case PressPrimary => Apply(s, PrimaryAction(data, st))
      case PressBack => Apply(s, Prev(data, st))
      case PressSecondary => Apply(s, SecondaryAction(data, st))
      case PressCustom(k) => Apply(s, CustomButtonClick(data, st, k))
      case TypeEmail(text) => Apply(s, Outcome(st.(email := text), []))
      case PressClose => Apply(s, Outcome(st, [CloseRequest]))
      case SetVisible(_) => (s, [])
  }

  /** Which handler each event runs: none when its control is not on
      screen; otherwise the one the control is wired to. A submit that goes
      ahead records the step it was made on until it settles, and a settling
      submit works from the step it recorded. */
  lemma DispatchRunsHandler(data: PopupData, s: Session, e: UserEvent)
    requires SessionOk(data, s)
    ensures !Available(data, s, e) ==> Dispatch(data, s, e) == (s, [])
    ensures Available(data, s, e) && e.SetVisible? ==>
      Dispatch(data, s, e) == (Session(e.visible, OnVisibility(s.visible, e.visible, s.state), s.pending), [])
    ensures Available(data, s, e) && e.PressPrimary? ==> Dispatch(data, s, e) == Apply(s, PrimaryAction(data, s.state))
    ensures Available(data, s, e) && e.PressBack? ==> Dispatch(data, s, e) == Apply(s, Prev(data, s.state))
    ensures Available(data, s, e) && e.PressSecondary? ==> Dispatch(data, s, e) == Apply(s, SecondaryAction(data, s.state))
    ensures Available(data, s, e) && e.PressCustom? ==>
      Dispatch(data, s, e) == Apply(s, CustomButtonClick(data, s.state, e.index))
    ensures Available(data, s, e) && e.PressClose? ==> Dispatch(data, s, e) == Apply(s, Outcome(s.state, [CloseRequest]))
    ensures Available(data, s, e) && e.TypeEmail? ==> Dispatch(data, s, e) == Apply(s, Outcome(s.state.(email := e.text), []))
    ensures Available(data, s, e) && e.SubmitForm? ==>
      var o, r := SubmitEmail(data, s.state), Dispatch(data, s, e);
      && r.0.state == o.state && r.1 == o.emitted && r.0.visible == s.visible
      && (o.emitted != [] ==> r.0.pending == s.pending + [s.state.step])
      && (o.emitted == [] ==> r.0.pending == s.pending)
    ensures Available(data, s, e) && e.SubmitSettled? ==>
      var o, r := SettleSubmit(data, s.state, s.pending[e.index], e.succeeded), Dispatch(data, s, e);
      && r.0.state == o.state && r.1 == o.emitted && r.0.visible == s.visible
      && r.0.pending == s.pending[..e.index] + s.pending[e.index + 1..]
  {
  }

  /** A handler's outcome applied to the session; pending submits stay. */
  function Apply(s: Session, o: Outcome): (Session, seq<Callback>) {
    (Session(s.visible, o.state, s.pending), o.emitted)
  }

  /** A reported move goes one step, between two sections, and is called
      "next" going forward and "previous" going back. */
  predicate WellFormedMove(data: PopupData, c: Callback) {
    c.ButtonClick? && c.data.StepChange? ==>
      var from, to := c.data.fromStep, c.data.toStep;
      && 0 <= from < |data.sections| && 0 <= to < |data.sections|
      && (to == from + 1 || to == from - 1)
      && (c.action == "next" <==> to == from + 1)
  }

  lemma DispatchMovesWellFormed(data: PopupData, s: Session, e: UserEvent)
    requires SessionOk(data, s)
    ensures forall c :: c in Dispatch(data, s, e).1 ==> WellFormedMove(data, c)
  {
  }

  /** The effect of a sequence of events. */
  function Run(data: PopupData, s: Session, events: seq<UserEvent>): (r: (Session, seq<Callback>))
    requires SessionOk(data, s)
    ensures SessionOk(data, r.0)
    ensures forall c :: c in r.1 ==> WellFormedMove(data, c)
    decreases |events|
  {
    if events == [] then (s, [])
    else
      var first := Dispatch(data, s, events[0]);
      DispatchMovesWellFormed(data, s, events[0]);
      var rest := Run(data, first.0, events[1..]);
      (rest.0, first.1 + rest.1)
  }

  /** Whatever a visitor does, starting from the initial state, the step
      stays within the sections and every reported move is one step between
      two sections. */
  lemma StepAlwaysInRange(data: PopupData, visible: bool, events: seq<UserEvent>)
    ensures var r := Run(data, Session(visible, Initial, []), events);
      && StepInRange(data, r.0.state)
      && (|data.sections| > 0 ==> 0 <= r.0.state.step < |data.sections|)
      && forall c :: c in r.1 ==> WellFormedMove(data, c)
  {
  }

  /** Showing a hidden popup starts over from the first step, with an empty
      email and no submit in flight, whatever happened before (submits still
      waiting for their timers stay pending). */
  lemma ShowStartsOver(data: PopupData, s: Session)
    requires SessionOk(data, s) && !s.visible
    ensures Dispatch(data, s, SetVisible(true)) == (Session(true, Initial, s.pending), [])
  {
  }

  /** `Run` takes the first event, then the rest. */
  lemma RunFirst(data: PopupData, s: Session, events: seq<UserEvent>)
    requires SessionOk(data, s) && events != []
    ensures var first := Dispatch(data, s, events[0]);
      var rest := Run(data, first.0, events[1..]);
      Run(data, s, events) == (rest.0, first.1 + rest.1)
  {
  }

  /** The popup of the traces below: three sections, the first asking for
      the email and offering a skip, the second not. */
  predicate EmailFirstOfThree(data: PopupData) {
    && |data.sections| == 3
    && data.sections[0].kind == EmailCapture && Truthy(data.sections[0].content.secondaryButton)
    && data.sections[1].kind != EmailCapture
  }

  lemma TypeOnEmailStep(data: PopupData, text: string)
    requires EmailFirstOfThree(data)
    ensures Dispatch(data, Session(true, Initial, []), TypeEmail(text)) == (Session(true, UiState(0, text, false), []), [])
  {
    AvailableOnScreen(data, Session(true, Initial, []), TypeEmail(text));
  }

  lemma SubmitOnEmailStep(data: PopupData, text: string)
    requires EmailFirstOfThree(data) && Trim(text) != ""
    ensures Dispatch(data, Session(true, UiState(0, text, false), []), SubmitForm)
            == (Session(true, UiState(0, text, true), [0]), [EmailSubmit(text, data.sections[0].id)])
  {
    var s := Session(true, UiState(0, text, false), []);
    AvailableOnScreen(data, s, SubmitForm);
    assert s.pending + [s.state.step] == [0];
  }

  lemma SkipWhileSubmitting(data: PopupData, text: string)
    requires EmailFirstOfThree(data)
    ensures Dispatch(data, Session(true, UiState(0, text, true), [0]), PressSecondary)
            == (Session(true, UiState(1, text, true), [0]),
                [ButtonClick("skip_email", data.sections[0].id, NoData),
                 ButtonClick("next", data.sections[0].id, StepChange(0, 1))])
  {
    var st := UiState(0, text, true);
    AvailableOnScreen(data, Session(true, st, [0]), PressSecondary);
    var n := Next(data, st);
    assert n.state == UiState(1, text, true);
    assert [ButtonClick("skip_email", data.sections[0].id, NoData)] + n.emitted
           == [ButtonClick("skip_email", data.sections[0].id, NoData),
               ButtonClick("next", data.sections[0].id, StepChange(0, 1))];
  }

  lemma PrimaryOnSecondStep(data: PopupData, text: string)
    requires EmailFirstOfThree(data)
    ensures Dispatch(data, Session(true, UiState(1, text, true), [0]), PressPrimary)
            == (Session(true, UiState(2, text, true), [0]), [ButtonClick("next", data.sections[1].id, StepChange(1, 2))])
  {
    AvailableOnScreen(data, Session(true, UiState(1, text, true), [0]), PressPrimary);
  }

  /** A successful settlement of the only pending submit, made on step
      `from`, moves to the step after `from` whatever the current step. */
  lemma SettleOnlyPending(data: PopupData, st: UiState, from: int)
    requires StepInRange(data, st) && 0 <= from < |data.sections| - 1
    ensures Dispatch(data, Session(true, st, [from]), SubmitSettled(0, true))
            == (Session(true, UiState(from + 1, st.email, false), []),
                [ButtonClick("next", data.sections[from].id, StepChange(from, from + 1))])
  {
    var s := Session(true, st, [from]);
    AvailableOnScreen(data, s, SubmitSettled(0, true));
    DispatchRunsHandler(data, s, SubmitSettled(0, true));
    assert s.pending[..0] + s.pending[1..] == [];
    assert SettleSubmit(data, st, from, true)
           == Outcome(UiState(from + 1, st.email, false), [ButtonClick("next", data.sections[from].id, StepChange(from, from + 1))]);
  }

  /** A submit's timer works from the step the submit was made on, not
      from the current one. On such a popup a visitor types an address,
      submits, skips the email section and presses on to the last step;
      when the submit then settles, the popup goes back to step 1 and
      reports "next" from step 0. */
  lemma LateSettleGoesBack(data: PopupData, text: string)
    requires EmailFirstOfThree(data) && Trim(text) != ""
    ensures var s1 := Dispatch(data, Session(true, Initial, []), TypeEmail(text)).0;
      var s2 := Dispatch(data, s1, SubmitForm).0;
      var s3 := Dispatch(data, s2, PressSecondary).0;
      var s4 := Dispatch(data, s3, PressPrimary).0;
      var last := Dispatch(data, s4, SubmitSettled(0, true));
      && s4.state.step == 2
      && last.0.state.step == 1
      && last.1 == [ButtonClick("next", data.sections[0].id, StepChange(0, 1))]
  {
    TypeOnEmailStep(data, text);
    SubmitOnEmailStep(data, text);
    SkipWhileSubmitting(data, text);
    PrimaryOnSecondStep(data, text);
    SettleOnlyPending(data, UiState(2, text, true), 0);
  }

  /** Closing and reopening the popup does not cancel a submit's timer:
      the reset popup, back on its first step, still moves on to the step
      after the one the submit was made on when that submit settles. */
  lemma SettleAfterReopenMovesOn(data: PopupData, from: int)
    requires 0 <= from < |data.sections| - 1
    ensures var s := Session(true, UiState(from, "", true), [from]);
      var r := Run(data, s, [SetVisible(false), SetVisible(true), SubmitSettled(0, true)]);
      && r.0.state == UiState(from + 1, "", false)
      && r.1 == [ButtonClick("next", data.sections[from].id, StepChange(from, from + 1))]
  {
    var s0 := Session(true, UiState(from, "", true), [from]);
    var s1 := Session(false, UiState(from, "", true), [from]);
    var s2 := Session(true, Initial, [from]);
    assert Dispatch(data, s0, SetVisible(false)) == (s1, []);
    assert Dispatch(data, s1, SetVisible(true)) == (s2, []);
    SettleOnlyPending(data, Initial, from);
    var es := [SetVisible(false), SetVisible(true), SubmitSettled(0, true)];
    RunFirst(data, s2, es[2..]);
    assert es[2..][1..] == [];
    RunFirst(data, s1, es[1..]);
    assert es[1..][1..] == es[2..];
    RunFirst(data, s0, es);
  }

  // ---------------------------------------------------------------------
  // The component's state, updated in place
  // ---------------------------------------------------------------------

  class Widget {
    const data: PopupData
    var isVisible: bool
    var currentStep: int
    var email: string
    var isSubmitting: bool
    /** The callbacks made so far, oldest first. */
    var outbox: seq<Callback>

    function State(): UiState
      reads this
    {
      UiState(currentStep, email, isSubmitting)
    }

    ghost predicate Valid()
      reads this
    {
      StepInRange(data, State())
    }

    /** There is a current section (it renders and its handlers exist). */
    predicate HasSections()
      reads this
    {
      |data.sections| > 0
    }

    constructor (popupData: PopupData, visible: bool)
      ensures data == popupData && isVisible == visible
      ensures State() == Initial && outbox == []
      ensures Valid()
    {
      data := popupData;
      isVisible := visible;
      currentStep, email, isSubmitting := 0, "", false;
      outbox := [];
    }

    /** A new `isVisible` prop, with the effect that resets on opening. */
    method SetVisible(visible: bool)
      requires Valid()
      modifies this
      ensures Valid()
      ensures isVisible == visible
      ensures State() == OnVisibility(old(isVisible), visible, old(State()))
      ensures outbox == old(outbox)
    {
      if visible && !isVisible {
        currentStep := 0;
        email := "";
        isSubmitting := false;
      }
      isVisible := visible;
    }

    /** The email field's `onChange`. */
    method SetEmail(text: string)
      requires Valid()
      modifies this
      ensures Valid()
      ensures State() == old(State()).(email := text)
      ensures isVisible == old(isVisible) && outbox == old(outbox)
    {
      email := text;
    }

    method NextStep()
      requires Valid() && HasSections()
      modifies this
      ensures Valid()
      ensures State() == Next(data, old(State())).state
      ensures outbox == old(outbox) + Next(data, old(State())).emitted
      ensures isVisible == old(isVisible)
    {
      var isLastStep := currentStep == |data.sections| - 1;
      if !isLastStep {
        var from := currentStep;
        currentStep := currentStep + 1;
        outbox := outbox + [ButtonClick("next", data.sections[from].id, StepChange(from, from + 1))];
      }
    }

    method PrevStep()
      requires Valid() && HasSections()
      modifies this
      ensures Valid()
      ensures State() == Prev(data, old(State())).state
      ensures outbox == old(outbox) + Prev(data, old(State())).emitted
      ensures isVisible == old(isVisible)
    {
      var isFirstStep := currentStep == 0;
      if !isFirstStep {
        var from := currentStep;
        currentStep := currentStep - 1;
        outbox := outbox + [ButtonClick("previous", data.sections[from].id, StepChange(from, from - 1))];
      }
    }

    /** `handleEmailSubmit` up to the `await`; `started` tells whether the
        guard let it through. */
    method HandleEmailSubmit() returns (started: bool)
      requires Valid() && HasSections()
      modifies this
      ensures Valid()
      ensures started <==> Trim(old(email)) != "" && !old(isSubmitting)
      ensures State() == SubmitEmail(data, old(State())).state
      ensures outbox == old(outbox) + SubmitEmail(data, old(State())).emitted
      ensures isVisible == old(isVisible)
    {
      if Trim(email) == "" || isSubmitting {
        return false;
      }
      isSubmitting := true;
      outbox := outbox + [EmailSubmit(email, data.sections[currentStep].id)];
      started := true;
    }

    /** The rest of `handleEmailSubmit`, once `onEmailSubmit` has settled and
        the timer has run. */
    method SettleEmailSubmit(from: int, succeeded: bool)
      requires Valid() && HasSections() && 0 <= from < |data.sections|
      modifies this
      ensures Valid()
      ensures State() == SettleSubmit(data, old(State()), from, succeeded).state
      ensures outbox == old(outbox) + SettleSubmit(data, old(State()), from, succeeded).emitted
      ensures isVisible == old(isVisible)
    {
      if succeeded {
        if from != |data.sections| - 1 {
          currentStep := from + 1;
          outbox := outbox + [ButtonClick("next", data.sections[from].id, StepChange(from, from + 1))];
          isSubmitting := false;
        } else {
          outbox := outbox + [CloseRequest];
          isSubmitting := false;
        }
      } else {
        isSubmitting := false;
      }
    }

    method HandlePrimaryAction()
      requires Valid() && HasSections()
      modifies this
      ensures Valid()
      ensures State() == PrimaryAction(data, old(State())).state
      ensures outbox == old(outbox) + PrimaryAction(data, old(State())).emitted
      ensures isVisible == old(isVisible)
    {
      var section := data.sections[currentStep];
      if section.kind == EmailCapture {
        var _ := HandleEmailSubmit();
      } else if currentStep == |data.sections| - 1 {
        outbox := outbox + [ButtonClick("complete", section.id, NoData)];
        outbox := outbox + [CloseRequest];
      } else {
        NextStep();
      }
    }

    method HandleSecondaryAction()
      requires Valid() && HasSections()
      modifies this
      ensures Valid()
      ensures State() == SecondaryAction(data, old(State())).state
      ensures outbox == old(outbox) + SecondaryAction(data, old(State())).emitted
      ensures isVisible == old(isVisible)
    {
      var section := data.sections[currentStep];
      if section.kind == EmailCapture {
        outbox := outbox + [ButtonClick("skip_email", section.id, NoData)];
        if currentStep != |data.sections| - 1 {
          NextStep();
        } else {
          outbox := outbox + [CloseRequest];
        }
      } else {
        outbox := outbox + [ButtonClick("secondary", section.id, NoData)];
      }
    }

    /** The `onClick` of the custom button at `k`. */
    method HandleCustomButton(k: nat)
      requires Valid() && HasSections()
      requires currentStep == |data.sections| - 1 && k < |data.customButtons|
      modifies this
      ensures Valid()
      ensures State() == old(State())
      ensures outbox == old(outbox) + CustomButtonClick(data, old(State()), k).emitted
      ensures isVisible == old(isVisible)
    {
      var b := data.customButtons[k];
      outbox := outbox + [ButtonClick(b.action, data.sections[currentStep].id, LinkTarget(b.url))];
    }

    /** The × button. */
    method HandleClose()
      requires Valid()
      modifies this
      ensures Valid()
      ensures State() == old(State()) && isVisible == old(isVisible)
      ensures outbox == old(outbox) + [CloseRequest]
    {
      outbox := outbox + [CloseRequest];
    }
  }
}
