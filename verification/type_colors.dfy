/** The color bar drawn for a session, chosen by the session's `type`. */
module TypeColors {

  /** The gray used for free time and for every type without a color of its own. */
  const Gray: string := "#6B7280"

  /** The `colors` table of `getTypeColor`: one color per known session type. */
  const Colors: map<string, string> := map[
    "class" := "#3B82F6",
    "study" := "#8B5CF6",
    "work" := "#1F2937",
    "rest" := "#10B981",
    "commute" := "#F97316",
    "free" := Gray]

  /** The session types that have a color other than gray. */
  const ColoredKinds: set<string> := {"class", "study", "work", "rest", "commute"}

  /** Every color the lookup can produce. */
  const Palette: set<string> := {"#3B82F6", "#8B5CF6", "#1F2937", "#10B981", "#F97316", Gray}

  /**
   `colors[type] || '#6B7280'`: the table entry for the type (no entry is an
   empty string, so none falls through), or gray for any other type.
   */
  function TypeColor(kind: string): (color: string)
    ensures kind == "class" ==> color == "#3B82F6"
    ensures kind == "study" ==> color == "#8B5CF6"
    ensures kind == "work" ==> color == "#1F2937"
    ensures kind == "rest" ==> color == "#10B981"
    ensures kind == "commute" ==> color == "#F97316"
    ensures color in Palette
    ensures color == Gray <==> kind !in ColoredKinds
  {
    if kind in Colors && Colors[kind] != "" then Colors[kind] else Gray
  }

  /** Each colored type has a color no other type shares. */
  lemma ColoredKindsDistinct(a: string, b: string)
    requires a in ColoredKinds
    ensures TypeColor(a) == TypeColor(b) <==> a == b
  {
  }
}
