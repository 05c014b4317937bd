/**
  One browser session of the guided workflow, with the shared `users`
  table. Each button of the page is a transition from one `State` to the
  next. The language model is not modelled: its reply is a parameter, and a
  call that raises leaves the state as it was, because every handler writes
  the reply only after the call returns.
 */
module Session {
  import opened Wrappers
  import opened Email
  import opened Accounts
  import opened Projects

  /** The outcome of one `generate_content(...).text` call. */
  datatype Reply = Answered(text: string) | Raised

  /** The `users` table together with the session's `user` and `project`. */
  datatype State = State(users: Users, user: Option<User>, project: Project)

  /** A new browser session: nobody logged in, the initial project. */
  function Start(users: Users): (s: State)
    ensures s.users == users && s.user.None?
    ensures s.project.idea == "" && s.project.analysis == "" && s.project.pivots == ""
    ensures s.project.gps == "" && s.project.choice.None? && s.project.context == ""
  {
    State(users, None, Initial)
  }

  /** The credits of the logged-in user, as the session holds them. */
  function Credits(s: State): int
    requires s.user.Some?
  {
    s.user.value.credits
  }

  /**
    "Connexion": offered only while nobody is logged in. The session user
    becomes the row `login_user` found or created.
   */
  function Login(s: State, email: string): (r: State)
    ensures s.user.Some? ==> r == s
    ensures s.user.None? ==> r.user.Some? && r.user.value.email == Normalize(email)
    ensures s.user.None? ==> r.users == LoginUser(s.users, email).0
    ensures s.user.None? ==> r.user.value.credits == r.users[Normalize(email)]
    ensures r.project == s.project
  {
    if s.user.Some? then s
    else
      var (users, row) := LoginUser(s.users, email);
      State(users, Some(row), s.project)
  }

  /**
    `consume_credit`: with a user logged in, the session balance and the
    stored row of that email both become `max(0, credits - 1)`, computed
    from the session balance. Supabase's update of an email that has no row
    matches nothing, so the table is then left as it was. Without a user
    nothing happens.
   */
  function ConsumeCredit(s: State): (r: State)
    ensures s.user.None? ==> r == s
    ensures r.project == s.project
    ensures r.user.Some? <==> s.user.Some?
    ensures r.users.Keys == s.users.Keys
    ensures s.user.Some? ==>
              && r.user.value.email == s.user.value.email
              && r.user.value.credits >= 0
              && (Credits(s) > 0 ==> Credits(r) == Credits(s) - 1)
              && (Credits(s) <= 0 ==> Credits(r) == 0)
    ensures s.user.Some? && s.user.value.email in s.users ==>
              r.user.Some? && r.users[s.user.value.email] == Credits(r)
    ensures forall e :: e in s.users && (s.user.None? || e != s.user.value.email) ==>
              r.users[e] == s.users[e]
  {
    if s.user.None? then s
    else
      var email := s.user.value.email;
      var balance := Debit(s.user.value.credits);
      var users := if email in s.users then s.users[email := balance] else s.users;
      State(users, Some(User(email, balance)), s.project)
  }

  /** When "Lancer l'Analyse" does anything: the step is open, an idea is given, credits remain. */
  predicate CanAnalyse(s: State, idea: string)
  {
    s.user.Some? && s.project.analysis == "" && idea != "" && Credits(s) > 0
  }

  /**
    Step 1, "Lancer l'Analyse": stores the idea, its context and the reply,
    then debits one credit. The later steps' fields are never touched.
   */
  function Analyse(s: State, idea: string, context: string, reply: Reply): (r: State)
    ensures r.users.Keys == s.users.Keys
    ensures forall e :: e in s.users && (s.user.None? || e != s.user.value.email) ==>
              r.users[e] == s.users[e]
    ensures CanAnalyse(s, idea) && reply.Answered? && s.user.value.email in s.users ==>
              r.user.Some? && r.users[s.user.value.email] == Credits(r)
    ensures r.project.pivots == s.project.pivots
    ensures r.project.gps == s.project.gps
    ensures r.project.choice == s.project.choice
    ensures !(CanAnalyse(s, idea) && reply.Answered?) ==> r == s
    ensures CanAnalyse(s, idea) && reply.Answered? ==>
              && r.project.idea == idea
              && r.project.context == context
              && r.project.analysis == reply.text
              && r.user.Some? && r.user.value.email == s.user.value.email
              && Credits(r) == Credits(s) - 1
  {
    if CanAnalyse(s, idea) && reply.Answered? then
      var p := s.project.(idea := idea, context := context, analysis := reply.text);
      ConsumeCredit(s.(project := p))
    else s
  }

  /** When "Générer les 3 Pivots" is offered: an analysis exists and no pivots yet. */
  predicate CanGeneratePivots(s: State)
  {
    s.user.Some? && s.project.analysis != "" && s.project.pivots == ""
  }

  /**
    Step 2, "Générer les 3 Pivots": stores the reply as the pivots and calls
    `consume_credit`. There is no credit check; the clamp keeps the balance
    at zero or above.
   */
  function GeneratePivots(s: State, reply: Reply): (r: State)
    ensures r.users.Keys == s.users.Keys
    ensures forall e :: e in s.users && (s.user.None? || e != s.user.value.email) ==>
              r.users[e] == s.users[e]
    ensures CanGeneratePivots(s) && reply.Answered? && s.user.value.email in s.users ==>
              r.user.Some? && r.users[s.user.value.email] == Credits(r)
    ensures r.project.idea == s.project.idea && r.project.context == s.project.context
    ensures r.project.analysis == s.project.analysis
    ensures r.project.gps == s.project.gps && r.project.choice == s.project.choice
    ensures !(CanGeneratePivots(s) && reply.Answered?) ==> r == s
    ensures CanGeneratePivots(s) && reply.Answered? ==>
              && r.project.pivots == reply.text
              && r.user.Some? && r.user.value.email == s.user.value.email
              && Credits(r) == Debit(Credits(s))
  {
    if CanGeneratePivots(s) && reply.Answered? then
      ConsumeCredit(s.(project := s.project.(pivots := reply.text)))
    else s
  }

  /** When "Valider et passer au GPS" is offered: both the analysis and the pivots exist. */
  predicate CanValidate(s: State)
  {
    s.user.Some? && s.project.analysis != "" && s.project.pivots != ""
  }

  /** "Valider": records the choice and nothing else; no credit is spent. */
  function Validate(s: State): (r: State)
    ensures r.users == s.users && r.user == s.user
    ensures CanValidate(s) ==> r.project == s.project.(choice := Some(Validated))
    ensures !CanValidate(s) ==> r == s
    ensures CanValidate(s) ==> Chosen(r.project)
  {
    if CanValidate(s) then s.(project := s.project.(choice := Some(Validated))) else s
  }

  /** When "Générer le Plan GPS" is offered: a choice is recorded and no plan yet. */
  predicate CanGenerateGps(s: State)
  {
    s.user.Some? && Chosen(s.project) && s.project.gps == ""
  }

  /**
    Step 3, "Générer le Plan GPS": stores the reply as the plan and calls
    `consume_credit`, again with no credit check.
   */
  function GenerateGps(s: State, reply: Reply): (r: State)
    ensures r.users.Keys == s.users.Keys
    ensures forall e :: e in s.users && (s.user.None? || e != s.user.value.email) ==>
              r.users[e] == s.users[e]
    ensures CanGenerateGps(s) && reply.Answered? && s.user.value.email in s.users ==>
              r.user.Some? && r.users[s.user.value.email] == Credits(r)
    ensures r.project.idea == s.project.idea && r.project.context == s.project.context
    ensures r.project.analysis == s.project.analysis && r.project.pivots == s.project.pivots
    ensures r.project.choice == s.project.choice
    ensures !(CanGenerateGps(s) && reply.Answered?) ==> r == s
    ensures CanGenerateGps(s) && reply.Answered? ==>
              && r.project.gps == reply.text
              && r.user.Some? && r.user.value.email == s.user.value.email
              && Credits(r) == Debit(Credits(s))
  {
    if CanGenerateGps(s) && reply.Answered? then
      ConsumeCredit(s.(project := s.project.(gps := reply.text)))
    else s
  }

  /** "Nouveau Projet" (sidebar, logged-in users only): the initial record; user and table untouched. */
  function NewProject(s: State): (r: State)
    ensures r.users == s.users && r.user == s.user
    ensures s.user.Some? ==> r.project == Initial
    ensures s.user.None? ==> r == s
  {
    if s.user.Some? then s.(project := Initial) else s
  }

  /** "Confirmer le chargement" (sidebar, logged-in users only): merge the file into the project. */
  function Load(s: State, f: SaveFile): (r: State)
    ensures r.users == s.users && r.user == s.user
    ensures s.user.Some? ==> r.project == Import(s.project, f)
    ensures s.user.None? || f.data.None? ==> r == s
  {
    if s.user.Some? then s.(project := Import(s.project, f)) else s
  }
}
