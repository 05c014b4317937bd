/**
  The in-progress project held in the session, its initial value, and the
  JSON backup: export writes the whole record under a `"data"` key, import
  merges whatever keys the file's `"data"` object holds into the current
  record (Python's `dict.update`).
 */
module Projects {
  import opened Wrappers

  /** The value `"Valider"` stores in `choice`. */
  const Validated: string := "Validé"

  /** The session's `project` dictionary; `choice` is `None` until "Valider". */
  datatype Project = Project(
    idea: string,
    context: string,
    analysis: string,
    pivots: string,
    gps: string,
    choice: Option<string>)

  /** The record a new session starts with and "Nouveau Projet" restores. */
  const Initial: Project := Project("", "", "", "", "", None)

  /** Python truthiness of `choice`: neither `None` nor the empty string. */
  predicate Chosen(p: Project)
  {
    p.choice.Some? && p.choice.value != ""
  }

  /**
    The `"data"` object of a saved file: each key may be present or absent.
    A present `choice` may itself hold JSON `null`.
   */
  datatype ProjectData = ProjectData(
    idea: Option<string>,
    context: Option<string>,
    analysis: Option<string>,
    pivots: Option<string>,
    gps: Option<string>,
    choice: Option<Option<string>>)

  /** A saved file; `data` is `None` when the file has no `"data"` key. */
  datatype SaveFile = SaveFile(data: Option<ProjectData>)

  /** The `"data"` object with no keys, which `data.get("data", {})` falls back to. */
  const NoKeys: ProjectData := ProjectData(None, None, None, None, None, None)

  function Pick<T>(present: Option<T>, current: T): T
  {
    if present.Some? then present.value else current
  }

  /** `project.update(d)`: every key present in `d` is overwritten, every other field kept. */
  function Merge(p: Project, d: ProjectData): (r: Project)
    ensures d.idea.Some? ==> r.idea == d.idea.value
    ensures d.idea.None? ==> r.idea == p.idea
    ensures d.context.Some? ==> r.context == d.context.value
    ensures d.context.None? ==> r.context == p.context
    ensures d.analysis.Some? ==> r.analysis == d.analysis.value
    ensures d.analysis.None? ==> r.analysis == p.analysis
    ensures d.pivots.Some? ==> r.pivots == d.pivots.value
    ensures d.pivots.None? ==> r.pivots == p.pivots
    ensures d.gps.Some? ==> r.gps == d.gps.value
    ensures d.gps.None? ==> r.gps == p.gps
    ensures d.choice.Some? ==> r.choice == d.choice.value
    ensures d.choice.None? ==> r.choice == p.choice
  {
    Project(
      Pick(d.idea, p.idea),
      Pick(d.context, p.context),
      Pick(d.analysis, p.analysis),
      Pick(d.pivots, p.pivots),
      Pick(d.gps, p.gps),
      Pick(d.choice, p.choice))
  }

  /** "Sauver JSON": the whole record, every key present, under `"data"`. */
  function Export(p: Project): (f: SaveFile)
    ensures f.data.Some?
    ensures f.data.value.idea == Some(p.idea) && f.data.value.context == Some(p.context)
    ensures f.data.value.analysis == Some(p.analysis) && f.data.value.pivots == Some(p.pivots)
    ensures f.data.value.gps == Some(p.gps) && f.data.value.choice == Some(p.choice)
  {
    SaveFile(Some(ProjectData(Some(p.idea), Some(p.context), Some(p.analysis),
                              Some(p.pivots), Some(p.gps), Some(p.choice))))
  }

  /** "Charger JSON": merge the file's `"data"` object, or nothing when it has none. */
  function Import(p: Project, f: SaveFile): (r: Project)
    ensures f.data.None? ==> r == p
    ensures f.data.Some? ==> r == Merge(p, f.data.value)
  {
    Merge(p, if f.data.Some? then f.data.value else NoKeys)
  }

  /** Importing an exported file restores the exported record, whatever the session held. */
  lemma ImportExport(current: Project, saved: Project)
    ensures Import(current, Export(saved)) == saved
  {
  }

  /** Importing the same file twice has the effect of importing it once. */
  lemma ImportIdempotent(p: Project, f: SaveFile)
    ensures Import(Import(p, f), f) == Import(p, f)
  {
  }
}
