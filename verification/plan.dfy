/**
 The study plan the generation service returns and the editor changes:
 urgent tasks, seven days of sessions, study statistics and tips.
 */
module Plan {
  import opened Wrappers

  /**
   One time block of a day. `kind` is the JSON `type` property; none of the
   strings is validated, so the editor may write any text into any of them.
   `focus` is the one property the service may leave out.
   */
  datatype Session = Session(time: string, kind: string, title: string, icon: string, focus: Option<string>)

  /** One day of the plan; `name` is the JSON `day` property ("Monday", …). */
  datatype Day = Day(name: string, date: string, sessions: seq<Session>)

  datatype Task = Task(title: string, due: string, priority: string)

  datatype Subject = Subject(name: string, hours: real, color: string)

  datatype Stats = Stats(totalHours: real, subjects: seq<Subject>)

  datatype Plan = Plan(urgent: seq<Task>, days: seq<Day>, stats: Stats, tips: seq<string>)

  /** The session properties the edit dialog writes. */
  datatype Field = Time | Type | Title | Icon | Focus

  /** The value of one property of a session; only `focus` can be missing. */
  function Get(s: Session, f: Field): Option<string>
  {
    match f
    case Time => Some(s.time)
    case Type => Some(s.kind)
    case Title => Some(s.title)
    case Icon => Some(s.icon)
    case Focus => s.focus
  }

  /** `session[field] = value`: that property takes the value, every other keeps its own. */
  function Set(s: Session, f: Field, v: string): (r: Session)
    ensures Get(r, f) == Some(v)
    ensures forall g :: g != f ==> Get(r, g) == Get(s, g)
  {
    match f
    case Time => s.(time := v)
    case Type => s.(kind := v)
    case Title => s.(title := v)
    case Icon => s.(icon := v)
    case Focus => s.(focus := Some(v))
  }

  /** A session is determined by the values of its properties. */
  lemma SessionExtensional(s: Session, t: Session)
    requires forall f :: Get(s, f) == Get(t, f)
    ensures s == t
  {
    assert Get(s, Time) == Get(t, Time);
    assert Get(s, Type) == Get(t, Type);
    assert Get(s, Title) == Get(t, Title);
    assert Get(s, Icon) == Get(t, Icon);
    assert Get(s, Focus) == Get(t, Focus);
  }

  /** Writing back the value a property already had changes nothing. */
  lemma SetCurrentValue(s: Session, f: Field, v: string)
    requires Get(s, f) == Some(v)
    ensures Set(s, f, v) == s
  {
    SessionExtensional(Set(s, f, v), s);
  }

  /** A later write to the same property replaces the earlier one. */
  lemma SetOverwrites(s: Session, f: Field, v: string, w: string)
    ensures Set(Set(s, f, v), f, w) == Set(s, f, w)
  {
    SessionExtensional(Set(Set(s, f, v), f, w), Set(s, f, w));
  }

  /** Writes to different properties do not interfere. */
  lemma SetCommutes(s: Session, f: Field, v: string, g: Field, w: string)
    requires f != g
    ensures Set(Set(s, f, v), g, w) == Set(Set(s, g, w), f, v)
  {
    SessionExtensional(Set(Set(s, f, v), g, w), Set(Set(s, g, w), f, v));
  }

  /** The session "+ Add" appends. */
  const NewSession: Session :=
    Session("09:00-10:00", "study", "New Session", "\U{1F4DA}", Some("Add details here"))
}
