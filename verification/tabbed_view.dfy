/**
 Which day the result page shows: the tab of today's weekday when the plan
 has one, otherwise the first tab; a click selects any tab.
 */
module TabbedView {
  import opened Calendar
  import opened Plan
  import opened PlanEditor

  /**
   `days.findIndex(day => day.day === name)` searching from `start`: the
   first position at or after `start` whose day carries the name, or -1.
   */
  function FindDayFrom(days: seq<Day>, name: string, start: nat): (r: int)
    requires start <= |days|
    ensures r == -1 || start <= r < |days|
    ensures r != -1 ==> days[r].name == name
    ensures r != -1 ==> forall k :: start <= k < r ==> days[k].name != name
    ensures r == -1 <==> forall k :: start <= k < |days| ==> days[k].name != name
    decreases |days| - start
  {
    if start == |days| then -1
    else if days[start].name == name then start
    else FindDayFrom(days, name, start + 1)
  }

  /** `studyPlan.days.findIndex(day => day.day === name)`. */
  function FindDay(days: seq<Day>, name: string): (r: int)
    ensures -1 <= r < |days|
    ensures r != -1 ==> days[r].name == name && forall k :: 0 <= k < r ==> days[k].name != name
    ensures r == -1 <==> forall k :: 0 <= k < |days| ==> days[k].name != name
  {
    FindDayFrom(days, name, 0)
  }

  /**
   The tab shown first on day `today`: the first day named like today's
   weekday in the Sunday-first table, or tab 0 when no day is.
   */
  function DefaultTab(days: seq<Day>, today: int): (tab: nat)
    ensures |days| > 0 ==> tab < |days|
    ensures (exists k :: 0 <= k < |days| && days[k].name == WeekdayName(today)) ==>
      tab < |days| && days[tab].name == WeekdayName(today)
      && forall k :: 0 <= k < tab ==> days[k].name != WeekdayName(today)
    ensures (forall k :: 0 <= k < |days| ==> days[k].name != WeekdayName(today)) ==> tab == 0
  {
    var i := FindDay(days, WeekdayName(today));
    if i != -1 then i else 0
  }

  /** The tab component's state: the index of the selected tab. */
  datatype Tabs = Tabs(active: nat)

  /** `useState(defaultTab)` when the result page mounts. */
  function Mount(days: seq<Day>, today: int): (t: Tabs)
    requires |days| > 0
    ensures t.active < |days|
    ensures t.active == DefaultTab(days, today)
  {
    Tabs(DefaultTab(days, today))
  }

  /** `onClick={() => setActiveTab(idx)}` on the button rendered for day `idx`. */
  function Click(t: Tabs, days: seq<Day>, idx: nat): (r: Tabs)
    requires idx < |days|
    ensures r.active < |days|
    ensures r.active == idx
  {
    Tabs(idx)
  }

  /** `studyPlan.days[activeTab]`: the day the `Day` component renders. */
  function Shown(t: Tabs, days: seq<Day>): Day
    requires t.active < |days|
  {
    days[t.active]
  }

  /** `dayIdx={activeTab}`: the day index handed to every edit callback. */
  function CallbackDay(t: Tabs): nat
  {
    t.active
  }

  /**
   The day on screen is the day the callbacks edit: adding appends to the
   shown day's sessions, deleting removes the `i`-th session shown, and an
   update rewrites the `i`-th session shown.
   */
  lemma CallbacksEditShownDay(p: Plan, t: Tabs, i: nat, f: Field, v: string)
    requires t.active < |p.days|
    ensures Shown(t, p.days) == p.days[CallbackDay(t)]
    ensures AddSession(p, CallbackDay(t)).days[CallbackDay(t)].sessions == Shown(t, p.days).sessions + [NewSession]
    ensures i < |Shown(t, p.days).sessions| ==>
      DeleteSession(p, CallbackDay(t), i).days[CallbackDay(t)].sessions == RemoveAt(Shown(t, p.days).sessions, i)
    ensures i < |Shown(t, p.days).sessions| ==>
      UpdateSession(p, CallbackDay(t), i, f, v).days[CallbackDay(t)].sessions[i] == Set(Shown(t, p.days).sessions[i], f, v)
  {
  }

  /** A plan made for a week lists Monday to Sunday; on any day its own weekday's tab opens. */
  lemma FullWeekOpensOnToday(days: seq<Day>, today: int)
    requires |days| == 7
    requires forall k :: 0 <= k < 7 ==> days[k].name == WeekdayNames[(k + 1) % 7]
    ensures DefaultTab(days, today) == (Weekday(today) + 6) % 7
  {
    var w := Weekday(today);
    var k := (w + 6) % 7;
    assert days[k].name == WeekdayNames[w];
    forall j | 0 <= j < k
      ensures days[j].name != WeekdayName(today)
    {
      assert days[j].name == WeekdayNames[(j + 1) % 7];
    }
  }
}
