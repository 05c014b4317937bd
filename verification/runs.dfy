/**
  The page as a whole: every button press is an `Event`, `Step` applies one
  and `Run` a sequence of them. The lemmas here are the invariants the
  workflow keeps over any sequence of presses: balances never go negative,
  the session balance agrees with the stored row, a credit is taken exactly
  when a paid step fires with credits left, no stored balance ever grows,
  and the steps are filled in order unless a file is loaded.
 */
module Runs {
  import opened Wrappers
  import opened Accounts
  import opened Projects
  import opened Session

  /** The buttons of the page. */
  datatype Event =
    | SignIn(email: string)
    | RunAnalysis(idea: string, context: string, analysisReply: Reply)
    | RunPivots(pivotsReply: Reply)
    | Confirm
    | RunGps(gpsReply: Reply)
    | Reset
    | Upload(file: SaveFile)

  function Step(s: State, e: Event): State
  {
    match e
    case SignIn(email) => Login(s, email)
    case RunAnalysis(idea, context, reply) => Analyse(s, idea, context, reply)
    case RunPivots(reply) => GeneratePivots(s, reply)
    case Confirm => Validate(s)
    case RunGps(reply) => GenerateGps(s, reply)
    case Reset => NewProject(s)
    case Upload(f) => Load(s, f)
  }

  function Run(s: State, es: seq<Event>): State
    decreases |es|
  {
    if |es| == 0 then s else Run(Step(s, es[0]), es[1..])
  }

  /** Every stored balance is zero or more. */
  ghost predicate TableNonNegative(users: Users)
  {
    forall e :: e in users ==> users[e] >= 0
  }

  /**
    The credit invariant: no stored balance is negative, and the logged-in
    user's balance is the one stored under their email.
   */
  ghost predicate Good(s: State)
  {
    && TableNonNegative(s.users)
    && (s.user.Some? ==> s.user.value.email in s.users && s.users[s.user.value.email] == Credits(s))
  }

  /** A fresh session over a table with no negative balance satisfies the credit invariant. */
  lemma StartGood(users: Users)
    requires TableNonNegative(users)
    ensures Good(Start(users))
  {
  }

  /** Before "Connexion" every other button leaves a fresh session exactly as it is. */
  lemma FreshSessionInert(users: Users, e: Event)
    requires !e.SignIn?
    ensures Step(Start(users), e) == Start(users)
  {
  }

  /** `consume_credit` keeps the credit invariant. */
  lemma ConsumeKeepsGood(s: State)
    requires Good(s)
    ensures Good(ConsumeCredit(s))
  {
  }

  /** One button press keeps the credit invariant. */
  lemma StepKeepsGood(s: State, e: Event)
    requires Good(s)
    ensures Good(Step(s, e))
  {
  }

  /** Any sequence of presses keeps the credit invariant, so credits never go negative. */
  lemma {:induction false} RunKeepsGood(s: State, es: seq<Event>)
    requires Good(s)
    ensures Good(Run(s, es))
    ensures Run(s, es).user.Some? ==> Credits(Run(s, es)) >= 0
    decreases |es|
  {
    if |es| > 0 {
      StepKeepsGood(s, es[0]);
      RunKeepsGood(Step(s, es[0]), es[1..]);
    }
  }

  /**
    Every press except "Connexion" changes the table at most in the row of the
    logged-in user: no row appears or disappears and every other balance is
    kept.
   */
  lemma StepFramesTable(s: State, e: Event)
    requires !e.SignIn?
    ensures Step(s, e).users.Keys == s.users.Keys
    ensures forall k :: k in s.users && (s.user.None? || k != s.user.value.email) ==>
              Step(s, e).users[k] == s.users[k]
  {
  }

  /** A press costs a credit: a paid step fires while the balance is positive. */
  predicate Charges(s: State, e: Event)
  {
    match e
    case RunAnalysis(idea, _, reply) => CanAnalyse(s, idea) && reply.Answered?
    case RunPivots(reply) => CanGeneratePivots(s) && reply.Answered? && Credits(s) > 0
    case RunGps(reply) => CanGenerateGps(s) && reply.Answered? && Credits(s) > 0
    case _ => false
  }

  /** How many of the presses cost a credit, each judged in the state it is pressed in. */
  function Charged(s: State, es: seq<Event>): (n: nat)
    ensures n <= |es|
    decreases |es|
  {
    if |es| == 0 then 0
    else (if Charges(s, es[0]) then 1 else 0) + Charged(Step(s, es[0]), es[1..])
  }

  /**
    With a user logged in, one press keeps that user and lowers the balance by
    one exactly when it costs a credit, and leaves it alone otherwise.
   */
  lemma StepCharge(s: State, e: Event)
    requires s.user.Some? && Credits(s) >= 0
    ensures Step(s, e).user.Some?
    ensures Step(s, e).user.value.email == s.user.value.email
    ensures Credits(Step(s, e)) == Credits(s) - (if Charges(s, e) then 1 else 0)
  {
  }

  /**
    Over any sequence of presses the logged-in user's balance falls by exactly
    the number of presses that cost a credit, and never by more than it was.
   */
  lemma {:induction false} RunCharge(s: State, es: seq<Event>)
    requires s.user.Some? && Credits(s) >= 0
    ensures Run(s, es).user.Some?
    ensures Run(s, es).user.value.email == s.user.value.email
    ensures Credits(Run(s, es)) == Credits(s) - Charged(s, es)
    ensures Charged(s, es) <= Credits(s)
    decreases |es|
  {
    if |es| > 0 {
      StepCharge(s, es[0]);
      RunCharge(Step(s, es[0]), es[1..]);
    }
  }

  /** `after` holds every row of `before`, none with a larger balance. */
  ghost predicate NoRowGrows(before: Users, after: Users)
  {
    forall e :: e in before ==> e in after && after[e] <= before[e]
  }

  /**
    Under the credit invariant one press never raises a stored balance, and
    a row it adds is a fresh one with the starting grant.
   */
  lemma StepNoRowGrows(s: State, e: Event)
    requires Good(s)
    ensures NoRowGrows(s.users, Step(s, e).users)
    ensures forall k :: k in Step(s, e).users && k !in s.users ==>
              e.SignIn? && Step(s, e).users[k] == StartingCredits
  {
  }

  /** Over any sequence of presses no stored balance ever grows and no row disappears. */
  lemma {:induction false} RunNoRowGrows(s: State, es: seq<Event>)
    requires Good(s)
    ensures NoRowGrows(s.users, Run(s, es).users)
    decreases |es|
  {
    if |es| > 0 {
      var t := Step(s, es[0]);
      StepNoRowGrows(s, es[0]);
      StepKeepsGood(s, es[0]);
      RunNoRowGrows(t, es[1..]);
    }
  }

  /** Each step's output exists only once the step before it has been done. */
  predicate Ordered(p: Project)
  {
    && (p.pivots != "" ==> p.analysis != "")
    && (Chosen(p) ==> p.pivots != "")
    && (p.gps != "" ==> Chosen(p))
  }

  /** Every key of the `"data"` object is present, as in a file "Sauver JSON" wrote. */
  predicate Complete(d: ProjectData)
  {
    d.idea.Some? && d.context.Some? && d.analysis.Some? && d.pivots.Some? && d.gps.Some? && d.choice.Some?
  }

  /**
    A press that cannot break the order of the steps: anything but loading a
    file, or loading one without `"data"`, or one that sets every key to a
    project whose steps are in order.
   */
  predicate KeepsOrder(e: Event)
  {
    e.Upload? ==>
      || e.file.data.None?
      || (Complete(e.file.data.value) && Ordered(Merge(Initial, e.file.data.value)))
  }

  /** A file saved from a project whose steps are in order is one whose loading keeps them in order. */
  lemma ExportKeepsOrder(saved: Project)
    requires Ordered(saved)
    ensures KeepsOrder(Upload(Export(saved)))
  {
  }

  /** Every press that `KeepsOrder` admits keeps the steps in order. */
  lemma StepKeepsOrdered(s: State, e: Event)
    requires Ordered(s.project)
    requires KeepsOrder(e)
    ensures Ordered(Step(s, e).project)
  {
  }

  /** Loading an arbitrary file can break the order: a plan can appear with no analysis behind it. */
  lemma LoadCanSkipSteps(s: State)
    requires s.user.Some? && !Chosen(s.project)
    ensures !Ordered(Load(s, SaveFile(Some(NoKeys.(gps := Some("plan"))))).project)
  {
  }

  /** Any sequence of presses that `KeepsOrder` admits fills the steps in order. */
  lemma {:induction false} RunKeepsOrdered(s: State, es: seq<Event>)
    requires Ordered(s.project)
    requires forall i :: 0 <= i < |es| ==> KeepsOrder(es[i])
    ensures Ordered(Run(s, es).project)
    decreases |es|
  {
    if |es| > 0 {
      StepKeepsOrdered(s, es[0]);
      RunKeepsOrdered(Step(s, es[0]), es[1..]);
    }
  }
}
