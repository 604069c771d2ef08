/**
 The app component: its state, the handlers that change it, and the page
 machine that decides which handlers the rendered page offers.

 The component state and the browser store together form a `World`. Every
 handler is a function from the world before to the world after; alerts and
 requests to the generation service are returned beside the new world. The
 serializer behind `JSON.stringify` is a parameter `encode`.
 */
module App {
  import opened Wrappers
  import opened Text
  import opened Plan
  import opened PlanEditor
  import opened PlanStore
  import opened Generation
  import opened WeekKey
  import TabbedView

  datatype Page = InputPage | LoadingPage | ResultPage

  /** `{ dayIndex, sessionIndex }`: the session open in the edit dialog. */
  datatype Address = Address(day: nat, session: nat)

  /** The component state: one field per `useState`. */
  datatype Ui = Ui(
    page: Page,
    inputText: string,
    plan: Option<Plan>,
    apiKey: string,
    editMode: bool,
    editing: Option<Address>)

  datatype World = World(ui: Ui, store: Store)

  /** What a request to the generation service carries besides the fixed instructions. */
  datatype Request = Request(schedule: string, apiKey: string)

  /** A handler's result: the new world, the alert it raised, the request it issued. */
  datatype Step = Step(world: World, alert: Option<string>, request: Option<Request>)

  /** The initial values of the `useState` calls. */
  const Initial: Ui := Ui(InputPage, "", None, "", false, None)

  /** Alert raised by `saveChanges`. */
  const SavedAlert: string := "\U{2705} Changes saved!"

  /** `JSON.stringify(studyPlan)`, which writes `null` for a missing plan. */
  function Serialized(plan: Option<Plan>, encode: Plan -> string): (text: string)
    ensures plan.None? ==> text == "null"
    ensures plan.Some? ==> text == encode(plan.value)
  {
    match plan
    case None => "null"
    case Some(p) => encode(p)
  }

  /** `if (savedApiKey)`: the stored service key when it is present and non-empty. */
  function SavedApiKey(s: Store): (k: Option<string>)
    ensures k.Some? <==> GetItem(s, ApiKeyEntry).Some? && GetItem(s, ApiKeyEntry).value != ""
    ensures k.Some? ==> GetItem(s, ApiKeyEntry) == k
  {
    match GetItem(s, ApiKeyEntry)
    case Some(k) => if k != "" then Some(k) else None
    case None => None
  }

  // ---------------------------------------------------------------------------
  // Startup

  /**
   The mount effect, with `week` the key of the week holding today
   (`getWeekKey()`): on a week change the store's week key is
   renewed, the stored plan erased and the plan and schedule text in memory
   cleared; a non-empty stored service key is loaded. The stored plan is never
   loaded.
   */
  function Startup(w: World, week: string): (r: World)
    ensures WeekChanged(w.store, week) ==>
      && GetItem(r.store, WeekKeyEntry) == Some(week)
      && GetItem(r.store, PlanEntry) == None
      && r.ui.plan == None && r.ui.inputText == ""
    ensures !WeekChanged(w.store, week) ==>
      r.store == w.store && r.ui.plan == w.ui.plan && r.ui.inputText == w.ui.inputText
    ensures r.store == WeeklyReset(w.store, week)
    ensures GetItem(r.store, ApiKeyEntry) == GetItem(w.store, ApiKeyEntry)
    ensures SavedApiKey(w.store).Some? ==> r.ui.apiKey == SavedApiKey(w.store).value
    ensures SavedApiKey(w.store).None? ==> r.ui.apiKey == w.ui.apiKey
    ensures r.ui.plan == None || r.ui.plan == w.ui.plan
    ensures r.ui.page == w.ui.page && r.ui.editMode == w.ui.editMode && r.ui.editing == w.ui.editing
  {
    var changed := WeekChanged(w.store, week);
    var store := WeeklyReset(w.store, week);
    var ui := if changed then w.ui.(plan := None, inputText := "") else w.ui;
    var ui' := match SavedApiKey(w.store)
      case Some(k) => ui.(apiKey := k)
      case None => ui;
    World(ui', store)
  }

  /** The app as it first renders, with the store it finds, in the week whose key is `week`. */
  function Boot(store: Store, week: string): World
  {
    Startup(World(Initial, store), week)
  }

  /** Whatever the store holds, the app starts on the input page without a plan. */
  lemma BootHasNoPlan(store: Store, week: string)
    ensures Boot(store, week).ui.page == InputPage
    ensures Boot(store, week).ui.plan == None
    ensures !Boot(store, week).ui.editMode && Boot(store, week).ui.editing == None
  {
  }

  // ---------------------------------------------------------------------------
  // Input page

  /** `onChange` of the schedule text area (and the example button, with the example text). */
  function TypeSchedule(w: World, text: string): (r: World)
    ensures r.ui.inputText == text
    ensures r.ui == w.ui.(inputText := text) && r.store == w.store
  {
    w.(ui := w.ui.(inputText := text))
  }

  /** `handleApiKeyChange`: the key is kept in memory and stored, whatever it looks like. */
  function ChangeApiKey(w: World, key: string): (r: World)
    ensures r.ui == w.ui.(apiKey := key)
    ensures GetItem(r.store, ApiKeyEntry) == Some(key)
    ensures forall k :: k != ApiKeyEntry ==> GetItem(r.store, k) == GetItem(w.store, k)
  {
    World(w.ui.(apiKey := key), SetItem(w.store, ApiKeyEntry, key))
  }

  /** A non-empty key typed once is back in memory at the next start, even in a new week. */
  lemma ApiKeySurvivesRestart(w: World, key: string, week: string)
    requires key != ""
    ensures Boot(ChangeApiKey(w, key).store, week).ui.apiKey == key
  {
    assert SavedApiKey(ChangeApiKey(w, key).store) == Some(key);
  }

  /**
   The synchronous part of `generatePlan`: a blank schedule raises an alert
   and changes nothing; a key of the wrong shape raises an alert and leaves the
   input page in place; otherwise the loading page shows and the request goes
   out. Nothing is stored.
   */
  function Generate(w: World): (r: Step)
    ensures r.request.Some? <==> HasScheduleText(w.ui.inputText) && KeyLooksValid(w.ui.apiKey)
    ensures r.request.Some? ==>
      r.request.value == Request(w.ui.inputText, w.ui.apiKey)
      && r.world.ui == w.ui.(page := LoadingPage) && r.alert == None
    ensures !HasScheduleText(w.ui.inputText) ==> r.world == w && r.alert == Some(EmptyInputAlert)
    ensures HasScheduleText(w.ui.inputText) && !KeyLooksValid(w.ui.apiKey) ==>
      r.world.ui == w.ui.(page := InputPage) && r.alert == Some(MissingKeyAlert)
    ensures r.world.store == w.store
  {
    if !HasScheduleText(w.ui.inputText) then
      Step(w, Some(EmptyInputAlert), None)
    else
      var loading := w.ui.(page := LoadingPage);
      if !KeyLooksValid(w.ui.apiKey) then
        Step(World(loading.(page := InputPage), w.store), Some(MissingKeyAlert), None)
      else
        Step(World(loading, w.store), None, Some(Request(w.ui.inputText, w.ui.apiKey)))
  }

  /**
   The rest of `generatePlan`, once the reply is in: an accepted plan is kept,
   stored and shown; any failure returns to the input page with the alert
   chosen for its message, leaving the plan in memory and in the store alone.
   */
  function Complete(w: World, reply: Reply, encode: Plan -> string): (r: Step)
    ensures Outcome(reply).Success? ==>
      && r.world.ui == w.ui.(page := ResultPage, plan := Some(Outcome(reply).value))
      && GetItem(r.world.store, PlanEntry) == Some(encode(Outcome(reply).value))
      && (forall k :: k != PlanEntry ==> GetItem(r.world.store, k) == GetItem(w.store, k))
      && r.alert == None
    ensures Outcome(reply).Failure? ==>
      && r.world.ui == w.ui.(page := InputPage)
      && r.world.store == w.store
      && r.alert == Some(AlertText(Classify(Outcome(reply).error)))
    ensures r.request == None
  {
    match Outcome(reply)
    case Success(plan) =>
      var ui := w.ui.(plan := Some(plan));
      var store := SetItem(w.store, PlanEntry, encode(plan));
      Step(World(ui.(page := ResultPage), store), None, None)
    case Failure(message) =>
      Step(w.(ui := w.ui.(page := InputPage)), Some(AlertText(Classify(message))), None)
  }

  // ---------------------------------------------------------------------------
  // Result page

  /** `currentPage === 'result' && studyPlan`: the result page renders. */
  predicate ShowsResult(ui: Ui)
  {
    ui.page == ResultPage && ui.plan.Some?
  }

  /** `goToInput`: back to the input page, leaving edit mode; both copies of the plan stay. */
  function GoToInput(w: World): (r: World)
    ensures r.ui.page == InputPage && !r.ui.editMode
    ensures r.ui.plan == w.ui.plan && r.store == w.store
    ensures r.ui.inputText == w.ui.inputText && r.ui.apiKey == w.ui.apiKey && r.ui.editing == w.ui.editing
  {
    w.(ui := w.ui.(page := InputPage, editMode := false))
  }

  /** `toggleEditMode`: edit mode flips and the edit dialog closes. */
  function ToggleEditMode(w: World): (r: World)
    ensures r.ui.editMode != w.ui.editMode
    ensures r.ui.editing == None
    ensures r.ui == w.ui.(editMode := r.ui.editMode, editing := None) && r.store == w.store
  {
    w.(ui := w.ui.(editMode := !w.ui.editMode, editing := None))
  }

  /** `saveChanges`: the plan in memory is stored, edit mode ends and the dialog closes. */
  function SaveChanges(w: World, encode: Plan -> string): (r: Step)
    ensures GetItem(r.world.store, PlanEntry) == Some(Serialized(w.ui.plan, encode))
    ensures forall k :: k != PlanEntry ==> GetItem(r.world.store, k) == GetItem(w.store, k)
    ensures !r.world.ui.editMode && r.world.ui.editing == None
    ensures r.world.ui == w.ui.(editMode := false, editing := None)
    ensures r.alert == Some(SavedAlert) && r.request == None
  {
    var store := SetItem(w.store, PlanEntry, Serialized(w.ui.plan, encode));
    Step(World(w.ui.(editMode := false, editing := None), store), Some(SavedAlert), None)
  }

  /** The header button: `editMode ? saveChanges : toggleEditMode`. */
  function EditOrSave(w: World, encode: Plan -> string): (r: Step)
    ensures w.ui.editMode ==> r == SaveChanges(w, encode)
    ensures !w.ui.editMode ==> r == Step(ToggleEditMode(w), None, None)
    ensures !w.ui.editMode ==> r.world.ui.editMode && r.world.store == w.store && r.alert == None
    ensures !r.world.ui.editMode <==> w.ui.editMode
  {
    if w.ui.editMode then SaveChanges(w, encode) else Step(ToggleEditMode(w), None, None)
  }

  /** Pressing the header button twice from the view mode stores the plan unchanged. */
  lemma EditThenSaveStoresPlan(w: World, encode: Plan -> string)
    requires !w.ui.editMode
    ensures var r := EditOrSave(EditOrSave(w, encode).world, encode);
      && !r.world.ui.editMode
      && r.world.ui.plan == w.ui.plan
      && GetItem(r.world.store, PlanEntry) == Some(Serialized(w.ui.plan, encode))
  {
  }

  /** `deleteSession` with the answer to its confirmation: confirmed, the session goes. */
  function DeleteSession(w: World, d: nat, i: nat, confirmed: bool): (r: World)
    requires w.ui.plan.Some? && ValidAddress(w.ui.plan.value, d, i)
    ensures confirmed ==> r.ui.plan == Some(PlanEditor.DeleteSession(w.ui.plan.value, d, i))
    ensures !confirmed ==> r == w
    ensures r.ui == w.ui.(plan := r.ui.plan) && r.store == w.store
  {
    if confirmed then w.(ui := w.ui.(plan := Some(PlanEditor.DeleteSession(w.ui.plan.value, d, i))))
    else w
  }

  /** `editSession`: the dialog opens on the given session. */
  function EditSession(w: World, d: nat, i: nat): (r: World)
    ensures r.ui.editing == Some(Address(d, i))
    ensures r.ui == w.ui.(editing := Some(Address(d, i))) && r.store == w.store
  {
    w.(ui := w.ui.(editing := Some(Address(d, i))))
  }

  /** `updateSession`: one property of one session takes the new value; nothing is stored. */
  function UpdateSession(w: World, d: nat, i: nat, f: Field, v: string): (r: World)
    requires w.ui.plan.Some? && ValidAddress(w.ui.plan.value, d, i)
    ensures r.ui.plan == Some(PlanEditor.UpdateSession(w.ui.plan.value, d, i, f, v))
    ensures r.ui == w.ui.(plan := r.ui.plan) && r.store == w.store
  {
    w.(ui := w.ui.(plan := Some(PlanEditor.UpdateSession(w.ui.plan.value, d, i, f, v))))
  }

  /** `addNewSession`: the default session is appended to day `d` and opened in the dialog. */
  function AddNewSession(w: World, d: nat): (r: World)
    requires w.ui.plan.Some? && d < |w.ui.plan.value.days|
    ensures r.ui.plan == Some(AddSession(w.ui.plan.value, d))
    ensures r.ui.editing == Some(Address(d, |r.ui.plan.value.days[d].sessions| - 1))
    ensures r.ui.plan.value.days[d].sessions[r.ui.editing.value.session] == NewSession
    ensures r.ui == w.ui.(plan := r.ui.plan, editing := r.ui.editing) && r.store == w.store
  {
    var p := AddSession(w.ui.plan.value, d);
    w.(ui := w.ui.(plan := Some(p), editing := Some(Address(d, |p.days[d].sessions| - 1))))
  }

  /** `closeEditModal`: only the dialog closes; edits already made stay in the plan. */
  function CloseEditModal(w: World): (r: World)
    ensures r.ui == w.ui.(editing := None) && r.store == w.store
  {
    w.(ui := w.ui.(editing := None))
  }

  /** Saving after a field edit stores the edited plan, not the one from before the edit. */
  lemma SaveAfterEditStoresEdit(w: World, d: nat, i: nat, f: Field, v: string, encode: Plan -> string)
    requires w.ui.plan.Some? && ValidAddress(w.ui.plan.value, d, i)
    ensures var edited := UpdateSession(w, d, i, f, v);
      GetItem(SaveChanges(edited, encode).world.store, PlanEntry)
        == Some(encode(PlanEditor.UpdateSession(w.ui.plan.value, d, i, f, v)))
  {
  }

  // ---------------------------------------------------------------------------
  // Page machine

  /** The user's actions, and the reply that ends a request. */
  datatype Action =
    | TypeText(text: string)
    | EditKey(key: string)
    | ClickGenerate
    | ReceiveReply(reply: Reply)
    | ClickBack
    | ClickEditOrSave
    | ClickAdd(day: nat)
    | ClickEdit(day: nat, session: nat)
    | ClickDelete(day: nat, session: nat, confirmed: bool)
    | ChangeField(field: Field, value: string)
    | CloseDialog

  /**
   Which actions the rendered page offers. The input page offers its text
   fields and the generate button; the loading page nothing but the awaited
   reply; the result page its back and edit/save buttons, in edit mode the add,
   edit and delete buttons for every day of the plan (not only the day of
   the open tab), and while the
   edit dialog is open (it covers the page) only the dialog's own controls.
   */
  predicate Enabled(ui: Ui, a: Action)
    ensures Enabled(ui, a) && ui.page == LoadingPage ==> a.ReceiveReply?
    ensures Enabled(ui, a) && ShowsResult(ui) && ui.editing.Some? ==> a.ChangeField? || a.CloseDialog?
    ensures Enabled(ui, a) && (a.ClickAdd? || a.ClickEdit? || a.ClickDelete?) ==> ui.editMode && ShowsResult(ui)
    ensures Enabled(ui, a) && ui.page == ResultPage ==> ui.plan.Some?
  {
    match a
    case TypeText(_) => ui.page == InputPage
    case EditKey(_) => ui.page == InputPage
    case ClickGenerate => ui.page == InputPage
    case ReceiveReply(_) => ui.page == LoadingPage
    case ClickBack => ShowsResult(ui) && ui.editing == None
    case ClickEditOrSave => ShowsResult(ui) && ui.editing == None
    case ClickAdd(d) =>
      ShowsResult(ui) && ui.editing == None && ui.editMode && d < |ui.plan.value.days|
    case ClickEdit(d, i) =>
      ShowsResult(ui) && ui.editing == None && ui.editMode && ValidAddress(ui.plan.value, d, i)
    case ClickDelete(d, i, _) =>
      ShowsResult(ui) && ui.editing == None && ui.editMode && ValidAddress(ui.plan.value, d, i)
    case ChangeField(_, _) =>
      ShowsResult(ui) && ui.editing.Some?
      && ValidAddress(ui.plan.value, ui.editing.value.day, ui.editing.value.session)
    case CloseDialog => ShowsResult(ui) && ui.editing.Some?
  }

  /** The handler each action runs. */
  function Apply(w: World, a: Action, encode: Plan -> string): (r: Step)
    requires Enabled(w.ui, a)
    ensures r.request.Some? ==> a.ClickGenerate? && r.world.ui.page == LoadingPage
    ensures a.ReceiveReply? ==> r.world.ui.page != LoadingPage
    ensures !a.ClickGenerate? && !a.ReceiveReply? ==> (r.world.ui.page == LoadingPage <==> w.ui.page == LoadingPage)
    ensures r.world.store != w.store ==> a.EditKey? || a.ReceiveReply? || a.ClickEditOrSave?
    ensures !a.EditKey? ==> GetItem(r.world.store, ApiKeyEntry) == GetItem(w.store, ApiKeyEntry)
  {
    match a
    case TypeText(text) => Step(TypeSchedule(w, text), None, None)
    case EditKey(key) => Step(ChangeApiKey(w, key), None, None)
    case ClickGenerate => Generate(w)
    case ReceiveReply(reply) => Complete(w, reply, encode)
    case ClickBack => Step(GoToInput(w), None, None)
    case ClickEditOrSave => EditOrSave(w, encode)
    case ClickAdd(d) => Step(AddNewSession(w, d), None, None)
    case ClickEdit(d, i) => Step(EditSession(w, d, i), None, None)
    case ClickDelete(d, i, confirmed) => Step(DeleteSession(w, d, i, confirmed), None, None)
    case ChangeField(f, v) =>
      Step(UpdateSession(w, w.ui.editing.value.day, w.ui.editing.value.session, f, v), None, None)
    case CloseDialog => Step(CloseEditModal(w), None, None)
  }

  /**
   What holds of every state the app can reach: the result page always has a
   plan with days to render, edit mode exists only on the result page, and an
   open dialog addresses a session that exists.
   */
  predicate Inv(ui: Ui)
  {
    && (ui.page == ResultPage ==> ui.plan.Some? && |ui.plan.value.days| > 0)
    && (ui.editMode ==> ui.page == ResultPage)
    && (ui.editing.Some? ==>
          ui.editMode && ShowsResult(ui)
          && ValidAddress(ui.plan.value, ui.editing.value.day, ui.editing.value.session))
  }

  lemma BootSatisfiesInv(store: Store, week: string)
    ensures Inv(Boot(store, week).ui)
  {
  }

  /** Every action the page offers keeps the invariant. */
  lemma StepKeepsInv(w: World, a: Action, encode: Plan -> string)
    requires Inv(w.ui) && Enabled(w.ui, a)
    ensures Inv(Apply(w, a, encode).world.ui)
  {
    match a
    case ReceiveReply(reply) =>
      if Outcome(reply).Success? {
        assert |Outcome(reply).value.days| > 0;
      }
    case ChangeField(f, v) =>
      var e := w.ui.editing.value;
      var p := PlanEditor.UpdateSession(w.ui.plan.value, e.day, e.session, f, v);
      assert ValidAddress(p, e.day, e.session);
    case _ =>
  }

  /** The app after a sequence of actions, with the number of requests issued and replies received. */
  datatype Trace = Trace(world: World, requests: nat, replies: nat)

  /** Runs the actions in order; `None` if the page did not offer one of them when it came. */
  function Run(t: Trace, actions: seq<Action>, encode: Plan -> string): Option<Trace>
    decreases |actions|
  {
    if |actions| == 0 then Some(t)
    else if !Enabled(t.world.ui, actions[0]) then None
    else
      var s := Apply(t.world, actions[0], encode);
      var requests := t.requests + if s.request.Some? then 1 else 0;
      var replies := t.replies + if actions[0].ReceiveReply? then 1 else 0;
      Run(Trace(s.world, requests, replies), actions[1..], encode)
  }

  /** The invariant of traces: at most one request is unanswered, exactly while loading. */
  predicate TraceInv(t: Trace)
  {
    && Inv(t.world.ui)
    && t.requests == t.replies + (if t.world.ui.page == LoadingPage then 1 else 0)
  }

  /**
   Every state reached from startup satisfies the invariant, renders the
   result page whenever the page is `result`, and has a request in flight
   exactly while the loading page shows, never more than one.
   */
  lemma {:induction false} RunKeepsInv(t: Trace, actions: seq<Action>, encode: Plan -> string)
    requires TraceInv(t)
    requires Run(t, actions, encode).Some?
    ensures TraceInv(Run(t, actions, encode).value)
    ensures var u := Run(t, actions, encode).value.world.ui;
      u.page == ResultPage ==> ShowsResult(u)
    decreases |actions|
  {
    if |actions| > 0 {
      var a := actions[0];
      StepKeepsInv(t.world, a, encode);
      var s := Apply(t.world, a, encode);
      var requests := t.requests + if s.request.Some? then 1 else 0;
      var replies := t.replies + if a.ReceiveReply? then 1 else 0;
      assert a.ReceiveReply? ==> t.world.ui.page == LoadingPage && s.world.ui.page != LoadingPage;
      assert a.ClickGenerate? && s.request.None? ==> s.world.ui.page == InputPage;
      assert !a.ClickGenerate? && !a.ReceiveReply? ==> (s.world.ui.page == LoadingPage <==> t.world.ui.page == LoadingPage);
      RunKeepsInv(Trace(s.world, requests, replies), actions[1..], encode);
    }
  }

  /** No action but typing in the key field touches the stored key. */
  lemma {:induction false} RunKeepsApiKey(t: Trace, actions: seq<Action>, encode: Plan -> string)
    requires Run(t, actions, encode).Some?
    requires forall j :: 0 <= j < |actions| ==> !actions[j].EditKey?
    ensures GetItem(Run(t, actions, encode).value.world.store, ApiKeyEntry) == GetItem(t.world.store, ApiKeyEntry)
    decreases |actions|
  {
    if |actions| > 0 {
      var s := Apply(t.world, actions[0], encode);
      var requests := t.requests + if s.request.Some? then 1 else 0;
      var replies := t.replies + if actions[0].ReceiveReply? then 1 else 0;
      RunKeepsApiKey(Trace(s.world, requests, replies), actions[1..], encode);
    }
  }

  /**
   A non-empty key typed once is loaded by a later restart, in any week,
   after any run of actions that does not type in the key field again.
   */
  lemma ApiKeySurvivesRun(w: World, key: string, actions: seq<Action>, encode: Plan -> string, week: string)
    requires key != ""
    requires Run(Trace(ChangeApiKey(w, key), 0, 0), actions, encode).Some?
    requires forall j :: 0 <= j < |actions| ==> !actions[j].EditKey?
    ensures Boot(Run(Trace(ChangeApiKey(w, key), 0, 0), actions, encode).value.world.store, week).ui.apiKey == key
  {
    RunKeepsApiKey(Trace(ChangeApiKey(w, key), 0, 0), actions, encode);
  }

  /** Every run from startup ends in a state satisfying the trace invariant. */
  lemma RunFromBoot(store: Store, week: string, actions: seq<Action>, encode: Plan -> string)
    requires Run(Trace(Boot(store, week), 0, 0), actions, encode).Some?
    ensures TraceInv(Run(Trace(Boot(store, week), 0, 0), actions, encode).value)
  {
    RunKeepsInv(Trace(Boot(store, week), 0, 0), actions, encode);
  }

  /**
   On the result page in edit mode, the day of the open tab (the default one
   or any clicked one) is a day the add button may be pressed for.
   */
  lemma TabDayIsEditable(ui: Ui, today: int, clicked: Option<nat>)
    requires Inv(ui) && ShowsResult(ui) && ui.editMode && ui.editing == None
    requires clicked.Some? ==> clicked.value < |ui.plan.value.days|
    ensures var days := ui.plan.value.days;
      var mounted := TabbedView.Mount(days, today);
      var tabs := if clicked.Some? then TabbedView.Click(mounted, days, clicked.value) else mounted;
      Enabled(ui, ClickAdd(TabbedView.CallbackDay(tabs)))
  {
  }
}
